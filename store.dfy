/**
 * The events table and the MERGE statement of upsert_events_to_bq, keyed on
 * `id`. A row whose id is NULL never satisfies `T.id = S.id`, so it is kept
 * apart from the keyed rows: a NULL-id source row always inserts, and a
 * NULL-id target row is never updated.
 */
module Store {
  import opened Wrappers
  import opened Events

  /**
   * The table's contents: the rows with a non-null id, keyed by it, the order
   * in which those ids were first inserted (the store's scan order), and the
   * rows whose id is NULL, in insertion order.
   */
  datatype Table = Table(keyed: map<string, Row>, order: seq<string>, unkeyed: seq<Row>)

  const EmptyTable := Table(map[], [], [])

  /** At most one row per id; every keyed row carries its own key; `order` lists each key once. */
  ghost predicate ValidTable(t: Table)
  {
    && (forall k :: k in t.keyed ==> t.keyed[k].id == Some(k))
    && (forall k :: k in t.keyed <==> k in t.order)
    && (forall i, j :: 0 <= i < j < |t.order| ==> t.order[i] != t.order[j])
    && (forall i :: 0 <= i < |t.unkeyed| ==> t.unkeyed[i].id.None?)
  }

  /** Every row of the table, keyed rows in `order` first, then the NULL-id rows. */
  function Rows(t: Table): (rows: seq<Row>)
    requires ValidTable(t)
    ensures |rows| == |t.order| + |t.unkeyed|
    ensures forall r :: r in rows ==> (r.id.Some? && r.id.value in t.keyed && t.keyed[r.id.value] == r) || r in t.unkeyed
  {
    seq(|t.order|, i requires 0 <= i < |t.order| => t.keyed[t.order[i]]) + t.unkeyed
  }

  /** Every stored row is scanned. */
  lemma RowsComplete(t: Table)
    requires ValidTable(t)
    ensures forall k :: k in t.keyed ==> t.keyed[k] in Rows(t)
    ensures forall r :: r in t.unkeyed ==> r in Rows(t)
  {
    var rows := Rows(t);
    forall k | k in t.keyed
      ensures t.keyed[k] in rows
    {
      var i :| 0 <= i < |t.order| && t.order[i] == k;
      assert rows[i] == t.keyed[k];
    }
    assert rows[|t.order|..] == t.unkeyed;
  }

  /** WHEN MATCHED: the six columns that a later event may change are taken from `s`. */
  function Updated(target: Row, s: Row): (r: Row)
    ensures r.name == s.name && r.contactId == s.contactId && r.emailId == s.emailId
    ensures r.dataBouncedAt == s.dataBouncedAt && r.dataBounceType == s.dataBounceType
    ensures r.rawJson == s.rawJson
    ensures r.id == target.id && r.projectId == target.projectId
    ensures r.createdAt == target.createdAt && r.timestamp == target.timestamp
    ensures r.dataFrom == target.dataFrom && r.dataSubject == target.dataSubject
    ensures r.dataTemplateId == target.dataTemplateId && r.dataMessageId == target.dataMessageId
    ensures r.contactEmail == target.contactEmail
  {
    target.(name := s.name, contactId := s.contactId, emailId := s.emailId,
            dataBouncedAt := s.dataBouncedAt, dataBounceType := s.dataBounceType,
            rawJson := s.rawJson)
  }

  /** The effect of one source row of the MERGE. */
  function MergeRow(t: Table, s: Row): (r: Table)
    requires ValidTable(t)
    ensures ValidTable(r)
  {
    match s.id
    case None => t.(unkeyed := t.unkeyed + [s])
    case Some(k) =>
      if k in t.keyed then t.(keyed := t.keyed[k := Updated(t.keyed[k], s)])
      else t.(keyed := t.keyed[k := s], order := t.order + [k])
  }

  /** The effect of the whole MERGE, one source row after another. */
  function MergeBatch(t: Table, batch: seq<Row>): (r: Table)
    requires ValidTable(t)
    ensures ValidTable(r)
    decreases |batch|
  {
    if batch == [] then t
    else MergeRow(MergeBatch(t, batch[..|batch| - 1]), batch[|batch| - 1])
  }

  /** No two source rows carry the same non-null id. */
  ghost predicate DistinctKeys(batch: seq<Row>)
  {
    forall i, j :: 0 <= i < j < |batch| && batch[i].id.Some? ==> batch[i].id != batch[j].id
  }

  /** The non-null ids of a batch. */
  ghost function Keys(batch: seq<Row>): set<string>
  {
    set i | 0 <= i < |batch| && batch[i].id.Some? :: batch[i].id.value
  }

  /** The source rows whose id is NULL, in batch order. */
  function NullIdRows(batch: seq<Row>): (r: seq<Row>)
    ensures forall x :: x in r <==> x in batch && x.id.None?
    ensures |r| <= |batch|
  {
    if batch == [] then []
    else NullIdRows(batch[..|batch| - 1]) + (if batch[|batch| - 1].id.None? then [batch[|batch| - 1]] else [])
  }

  lemma {:induction false} NoNullIdRows(batch: seq<Row>)
    requires forall i :: 0 <= i < |batch| ==> batch[i].id.Some?
    ensures NullIdRows(batch) == []
    decreases |batch|
  {
    if batch != [] {
      NoNullIdRows(batch[..|batch| - 1]);
    }
  }

  lemma PrefixKeys(batch: seq<Row>)
    requires batch != []
    ensures Keys(batch) == Keys(batch[..|batch| - 1]) +
      (if batch[|batch| - 1].id.Some? then {batch[|batch| - 1].id.value} else {})
  {
  }

  /** After the MERGE the keys are the old keys plus the batch's non-null ids. */
  lemma {:induction false} MergeBatchKeys(t: Table, batch: seq<Row>)
    requires ValidTable(t)
    ensures MergeBatch(t, batch).keyed.Keys == t.keyed.Keys + Keys(batch)
    decreases |batch|
  {
    if batch != [] {
      MergeBatchKeys(t, batch[..|batch| - 1]);
      PrefixKeys(batch);
    }
  }

  /** A row whose id is not in the batch is left exactly as it was. */
  lemma {:induction false} MergeBatchUntouched(t: Table, batch: seq<Row>, k: string)
    requires ValidTable(t)
    requires k !in Keys(batch)
    ensures k in MergeBatch(t, batch).keyed <==> k in t.keyed
    ensures k in t.keyed ==> MergeBatch(t, batch).keyed[k] == t.keyed[k]
    decreases |batch|
  {
    if batch != [] {
      PrefixKeys(batch);
      MergeBatchUntouched(t, batch[..|batch| - 1], k);
    }
  }

  /**
   * The row a batch with distinct ids leaves under the id of its i-th row:
   * that row itself when the id was new, the existing row with the six
   * mutable columns replaced when it was already present.
   */
  lemma {:induction false} MergeBatchAt(t: Table, batch: seq<Row>, i: nat)
    requires ValidTable(t)
    requires DistinctKeys(batch)
    requires i < |batch| && batch[i].id.Some?
    ensures var k := batch[i].id.value;
      && k in MergeBatch(t, batch).keyed
      && MergeBatch(t, batch).keyed[k] == (if k in t.keyed then Updated(t.keyed[k], batch[i]) else batch[i])
    decreases |batch|
  {
    var k := batch[i].id.value;
    var p := batch[..|batch| - 1];
    var last := batch[|batch| - 1];
    assert forall j :: 0 <= j < |p| ==> p[j] == batch[j];
    var before := MergeBatch(t, p);
    assert MergeBatch(t, batch) == MergeRow(before, last);
    if i == |batch| - 1 {
      assert k !in Keys(p) by {
        forall j | 0 <= j < |p| && p[j].id.Some?
          ensures p[j].id.value != k
        {
          assert p[j].id != batch[i].id;
        }
      }
      MergeBatchUntouched(t, p, k);
    } else {
      assert DistinctKeys(p);
      MergeBatchAt(t, p, i);
      assert last.id != Some(k);
    }
  }

  /** The NULL-id source rows are appended, in batch order, whatever the table held. */
  lemma {:induction false} MergeBatchUnkeyed(t: Table, batch: seq<Row>)
    requires ValidTable(t)
    ensures MergeBatch(t, batch).unkeyed == t.unkeyed + NullIdRows(batch)
    decreases |batch|
  {
    if batch != [] {
      MergeBatchUnkeyed(t, batch[..|batch| - 1]);
    }
  }

  /** A batch whose ids are all already present inserts nothing, so the scan order is kept. */
  lemma {:induction false} MergeBatchOrderKept(t: Table, batch: seq<Row>)
    requires ValidTable(t)
    requires Keys(batch) <= t.keyed.Keys
    ensures MergeBatch(t, batch).order == t.order
    decreases |batch|
  {
    if batch != [] {
      PrefixKeys(batch);
      MergeBatchOrderKept(t, batch[..|batch| - 1]);
      MergeBatchKeys(t, batch[..|batch| - 1]);
    }
  }

  /** A second merge of the same batch leaves every keyed row as the first one left it. */
  lemma {:induction false} MergeBatchKeyedIdempotent(t: Table, batch: seq<Row>)
    requires ValidTable(t)
    requires DistinctKeys(batch)
    ensures MergeBatch(MergeBatch(t, batch), batch).keyed == MergeBatch(t, batch).keyed
  {
    var once := MergeBatch(t, batch);
    var twice := MergeBatch(once, batch);
    MergeBatchKeys(t, batch);
    MergeBatchKeys(once, batch);
    assert twice.keyed.Keys == once.keyed.Keys;
    forall k | k in twice.keyed
      ensures twice.keyed[k] == once.keyed[k]
    {
      if k in Keys(batch) {
        var i :| 0 <= i < |batch| && batch[i].id == Some(k);
        MergeBatchAt(t, batch, i);
        MergeBatchAt(once, batch, i);
      } else {
        MergeBatchUntouched(once, batch, k);
      }
    }
  }

  /** Merging the same batch (distinct, non-null ids) twice gives the table merging it once gives. */
  lemma {:induction false} MergeBatchIdempotent(t: Table, batch: seq<Row>)
    requires ValidTable(t)
    requires DistinctKeys(batch)
    requires forall i :: 0 <= i < |batch| ==> batch[i].id.Some?
    ensures MergeBatch(MergeBatch(t, batch), batch) == MergeBatch(t, batch)
  {
    var once := MergeBatch(t, batch);
    MergeBatchKeyedIdempotent(t, batch);
    MergeBatchKeys(t, batch);
    MergeBatchOrderKept(once, batch);
    MergeBatchUnkeyed(once, batch);
    NoNullIdRows(batch);
  }

  /** A NULL id never matches, so merging such a row twice stores it twice. */
  lemma NullIdMergedTwiceIsStoredTwice(t: Table, s: Row)
    requires ValidTable(t)
    requires s.id.None?
    ensures |MergeBatch(MergeBatch(t, [s]), [s]).unkeyed| == |t.unkeyed| + 2
    ensures MergeBatch(MergeBatch(t, [s]), [s]) != MergeBatch(t, [s])
  {
  }

  /**
   * What upsert_events_to_bq returns and leaves in the table: an empty batch
   * changes nothing; an exception while building the rows, or a MERGE the
   * warehouse rejects, leaves the table as it was (the statement is atomic);
   * otherwise the table is the merge of all rows.
   */
  function UpsertEffect(t: Table, events: seq<Record>, storeFailure: Option<string>): (r: (Outcome<Error>, Table))
    requires ValidTable(t)
    requires DistinctIds(events)
    ensures ValidTable(r.1)
    ensures r.0.Fail? || events == [] ==> r.1 == t
    ensures r.0.Fail? <==> events != [] && (NormalizeAll(events).Failure? || storeFailure.Some?)
    ensures r.0.Pass? && events != [] ==> r.1 == MergeBatch(t, NormalizeAll(events).value)
  {
    if events == [] then (Pass, t)
    else
      match NormalizeAll(events)
      case Failure(e) => (Fail(e), t)
      case Success(rows) =>
        if storeFailure.Some? then (Fail(StoreError(storeFailure.value)), t)
        else (Pass, MergeBatch(t, rows))
  }

  /**
   * The events table as the warehouse holds it, with the number of MERGE
   * statements it has been sent.
   */
  class EventStore {
    var keyed: map<string, Row>
    var order: seq<string>
    var unkeyed: seq<Row>
    var mergeStatements: nat

    function Contents(): Table
      reads this
    {
      Table(keyed, order, unkeyed)
    }

    ghost predicate Valid()
      reads this
    {
      ValidTable(Contents())
    }

    constructor ()
      ensures Valid() && Contents() == EmptyTable && mergeStatements == 0
    {
      keyed, order, unkeyed := map[], [], [];
      mergeStatements := 0;
    }

    /** The MERGE statement: applies every source row, as one statement. */
    method Merge(batch: seq<Row>)
      requires Valid()
      requires DistinctKeys(batch)
      modifies this
      ensures Valid()
      ensures Contents() == MergeBatch(old(Contents()), batch)
      ensures mergeStatements == old(mergeStatements) + 1
    {
      ghost var start := Contents();
      var i := 0;
      while i < |batch|
        invariant 0 <= i <= |batch|
        invariant ValidTable(Contents())
        invariant Contents() == MergeBatch(start, batch[..i])
        invariant mergeStatements == old(mergeStatements)
      {
        assert batch[..i + 1][..i] == batch[..i];
        var s := batch[i];
        match s.id {
          case None =>
            unkeyed := unkeyed + [s];
          case Some(k) =>
            if k in keyed {
              keyed := keyed[k := Updated(keyed[k], s)];
            } else {
              keyed := keyed[k := s];
              order := order + [k];
            }
        }
        i := i + 1;
      }
      assert batch[..i] == batch;
      mergeStatements := mergeStatements + 1;
    }

    /**
     * upsert_events_to_bq: no store access for an empty batch; otherwise the
     * rows are built first (an exception there leaves the store untouched) and
     * sent as one MERGE statement, which `storeFailure` (the warehouse's
     * verdict) may reject as a whole.
     */
    method Upsert(events: seq<Record>, storeFailure: Option<string>) returns (r: Outcome<Error>)
      requires Valid()
      requires DistinctIds(events)
      modifies this
      ensures Valid()
      ensures (r, Contents()) == UpsertEffect(old(Contents()), events, storeFailure)
      ensures mergeStatements ==
        old(mergeStatements) + (if events != [] && NormalizeAll(events).Success? then 1 else 0)
    {
      if events == [] {
        return Pass;
      }
      var params := NormalizeBatch(events);
      if params.Failure? {
        return Fail(params.error);
      }
      if storeFailure.Some? {
        mergeStatements := mergeStatements + 1;
        return Fail(StoreError(storeFailure.value));
      }
      assert forall i :: 0 <= i < |events| ==> params.value[i].id == events[i].id;
      Merge(params.value);
      r := Pass;
    }
  }
}
