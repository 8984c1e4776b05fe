/**
 * Concrete runs of the model: the sent-then-bounce lifecycle of one message
 * and the threshold examples of the alert rule table.
 */
module Scenarios {
  import opened Wrappers
  import opened Events
  import opened Store
  import opened Metrics
  import opened Alerts

  function Event(id: string, name: string, emailId: string, at: int, data: Nested<DataObject>): Record
  {
    Record(Some(id), Some(name), None, None, Some(emailId), Some(at), data, Missing)
  }

  function BounceData(bouncedAt: int): Nested<DataObject>
  {
    Object(DataObject(None, None, None, None, Some(bouncedAt), None))
  }

  lemma MergeSingle(t: Table, s: Row)
    requires ValidTable(t)
    ensures MergeBatch(t, [s]) == MergeRow(t, s)
  {
  }

  lemma MergePair(t: Table, a: Row, b: Row)
    requires ValidTable(t)
    ensures MergeBatch(t, [a, b]) == MergeRow(MergeRow(t, a), b)
  {
    assert [a, b][..1] == [a];
    MergeSingle(t, a);
  }

  /**
   * The provider reports the sent event and, in a later batch, the bounce
   * under the SAME id: the MERGE overwrites the row's name, so the table holds
   * one bounce row (keeping the first createdAt) and no sent row for the
   * message.
   */
  lemma SameIdSentThenBounce(sentAt: int, bounceAt: int, bouncedAt: int)
    ensures
      var sent := Normalize(Event("e1", SentEvent, "m1", sentAt, Missing)).value;
      var bounce := Normalize(Event("e1", BounceEvent, "m1", bounceAt, BounceData(bouncedAt))).value;
      var t := MergeBatch(MergeBatch(EmptyTable, [sent]), [bounce]);
      && t.keyed.Keys == {"e1"}
      && t.keyed["e1"].name == Some(BounceEvent)
      && t.keyed["e1"].dataBouncedAt == Some(bouncedAt)
      && t.keyed["e1"].timestamp == Some(sentAt)
      && CountDistinct(Rows(t), SentEvent, None) == 0
      && CountDistinct(Rows(t), BounceEvent, None) == 1
  {
    var sent := Normalize(Event("e1", SentEvent, "m1", sentAt, Missing)).value;
    var bounce := Normalize(Event("e1", BounceEvent, "m1", bounceAt, BounceData(bouncedAt))).value;
    var t1 := MergeBatch(EmptyTable, [sent]);
    MergeSingle(EmptyTable, sent);
    var t := MergeBatch(t1, [bounce]);
    MergeSingle(t1, bounce);
    var row := t.keyed["e1"];
    assert Rows(t) == [row];
    assert EmailIds(Rows(t), SentEvent, None) == {};
    assert EmailIds(Rows(t), BounceEvent, None) == {"m1"};
  }

  /** The table after merging two new rows with different ids holds both, in that order. */
  lemma RowsOfTwoInserts(a: Row, b: Row)
    requires a.id == Some("e1") && b.id == Some("e2")
    ensures Rows(MergeBatch(EmptyTable, [a, b])) == [a, b]
  {
    MergePair(EmptyTable, a, b);
    var t := MergeBatch(EmptyTable, [a, b]);
    assert t.keyed == map["e1" := a, "e2" := b] && t.order == ["e1", "e2"] && t.unkeyed == [];
    var rows := Rows(t);
    assert rows[0] == a && rows[1] == b;
  }

  /** One sent row and one bounced row for the same message: each query sees that message once. */
  lemma SentAndBounceCounts(sent: Row, bounce: Row)
    requires sent.name == Some(SentEvent) && sent.emailId == Some("m1")
    requires bounce.name == Some(BounceEvent) && bounce.emailId == Some("m1")
    ensures EmailIds([sent, bounce], SentEvent, None) == {"m1"}
    ensures EmailIds([sent, bounce], BounceEvent, None) == {"m1"}
  {
    var rows := [sent, bounce];
    forall m ensures m in EmailIds(rows, SentEvent, None) <==> m == "m1" {
      EmailIdsMembership(rows, SentEvent, None, m);
    }
    forall m ensures m in EmailIds(rows, BounceEvent, None) <==> m == "m1" {
      EmailIdsMembership(rows, BounceEvent, None, m);
    }
  }

  /** With distinct ids the same message counts once as sent and once as bounced. */
  lemma DistinctIdsSentAndBounce(sentAt: int, bounceAt: int, bouncedAt: int)
    ensures
      var sent := Normalize(Event("e1", SentEvent, "m1", sentAt, Missing)).value;
      var bounce := Normalize(Event("e2", BounceEvent, "m1", bounceAt, BounceData(bouncedAt))).value;
      var t := MergeBatch(EmptyTable, [sent, bounce]);
      && CountDistinct(Rows(t), SentEvent, None) == 1
      && CountDistinct(Rows(t), BounceEvent, None) == 1
      && WindowOf(Rows(t), None).rate == 1.0
  {
    var sent := Normalize(Event("e1", SentEvent, "m1", sentAt, Missing)).value;
    var bounce := Normalize(Event("e2", BounceEvent, "m1", bounceAt, BounceData(bouncedAt))).value;
    RowsOfTwoInserts(sent, bounce);
    SentAndBounceCounts(sent, bounce);
  }

  function Snapshot(weekRate: real, allTimeRate: real): BounceMetrics
  {
    BounceMetrics(WindowMetrics(0, 0, weekRate), WindowMetrics(0, 0, allTimeRate), [])
  }

  /** 0.08 over seven days gives the critical line alone, 0.06 the warning alone, 0.03 nothing. */
  lemma SevenDayTierExamples()
    ensures AlertsFor(Snapshot(0.08, 0.0)) == [Alert(Critical, SevenDay, 0.08, SevenDayCritical)]
    ensures AlertsFor(Snapshot(0.06, 0.0)) == [Alert(Warning, SevenDay, 0.06, SevenDayWarning)]
    ensures AlertsFor(Snapshot(0.03, 0.0)) == []
  {
  }

  /** Both windows can fire in one run; the seven-day line comes first. */
  lemma BothWindowsFire()
    ensures AlertsFor(Snapshot(0.1, 0.05)) ==
      [Alert(Critical, SevenDay, 0.1, SevenDayCritical), Alert(Warning, AllTime, 0.05, AllTimeWarning)]
  {
  }

  lemma RateExamples()
    ensures Rate(1, 10) == 0.1
    ensures Rate(7, 0) == 0.0
  {
  }
}
