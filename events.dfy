/**
 * The provider's raw event records, the pipeline's error kinds, and the
 * normalisation of a raw record into the store's flat 15-column row
 * (the loop that builds the MERGE parameters in upsert_events_to_bq).
 */
module Events {
  import opened Wrappers

  /** The fields of the record's nested `data` object that the normaliser reads. */
  datatype DataObject = DataObject(
    from: Option<string>,
    subject: Option<string>,
    templateId: Option<string>,
    messageId: Option<string>,
    bouncedAt: Option<int>,
    bounceType: Option<string>)

  /** The fields of the record's nested `contact` object that the normaliser reads. */
  datatype ContactObject = ContactObject(email: Option<string>)

  /**
   * What a nested key of the record holds: nothing (the key is absent), a
   * JSON value that is not an object (null, a string, a list, ...; `typeName`
   * is the Python type it decodes to, "NoneType" for null) or an object.
   */
  datatype Nested<T> = Missing | NonObject(typeName: string) | Object(fields: T)

  /**
   * One raw provider event. Top-level scalars are None both when the key is
   * absent and when it holds JSON null, as `dict.get` makes them; instants are
   * integers (seconds).
   */
  datatype Record = Record(
    id: Option<string>,
    name: Option<string>,
    projectId: Option<string>,
    contactId: Option<string>,
    emailId: Option<string>,
    createdAt: Option<int>,
    data: Nested<DataObject>,
    contact: Nested<ContactObject>)

  /** The 15 columns of the events table, in the order of the INSERT column list. */
  datatype Row = Row(
    id: Option<string>,
    name: Option<string>,
    projectId: Option<string>,
    contactId: Option<string>,
    emailId: Option<string>,
    createdAt: Option<int>,
    timestamp: Option<int>,
    dataFrom: Option<string>,
    dataSubject: Option<string>,
    dataTemplateId: Option<string>,
    dataMessageId: Option<string>,
    dataBouncedAt: Option<int>,
    dataBounceType: Option<string>,
    contactEmail: Option<string>,
    rawJson: Record)

  /** The exceptions that can end a run. */
  datatype Error =
    | AttributeError(typeName: string)   // `.get` called on a nested value that is not a dict
    | MissingApiKey                      // neither credential variable is set
    | TransportError(message: string)    // the HTTP request to the provider failed
    | StoreError(message: string)        // the warehouse rejected a statement or query

  /** `str(e)` of each exception, the body of the 500 response. */
  function Message(e: Error): (r: string)
    ensures e.AttributeError? ==> r == "'" + e.typeName + "' object has no attribute 'get'"
    ensures e.MissingApiKey? ==> r == "Missing PLUNK_API_KEY env var"
    ensures e.TransportError? || e.StoreError? ==> r == e.message
  {
    match e
    case AttributeError(t) => "'" + t + "' object has no attribute 'get'"
    case MissingApiKey => "Missing PLUNK_API_KEY env var"
    case TransportError(m) => m
    case StoreError(m) => m
  }

  /** `e.get("data", {})` read as a dict: an absent object gives the empty dict. */
  function DataFields(n: Nested<DataObject>): DataObject
  {
    match n
    case Object(d) => d
    case _ => DataObject(None, None, None, None, None, None)
  }

  /** `e.get("contact", {})` read as a dict. */
  function ContactFields(n: Nested<ContactObject>): ContactObject
  {
    match n
    case Object(c) => c
    case _ => ContactObject(None)
  }

  /**
   * The row built for one raw record. The dict literal is evaluated in order,
   * so a bad `data` value raises before a bad `contact` value is looked at.
   */
  function Normalize(e: Record): (r: Result<Row, Error>)
    ensures r.Failure? <==> e.data.NonObject? || e.contact.NonObject?
    ensures e.data.NonObject? ==> r == Failure(AttributeError(e.data.typeName))
    ensures !e.data.NonObject? && e.contact.NonObject? ==> r == Failure(AttributeError(e.contact.typeName))
    ensures r.Success? ==>
      var row := r.value;
      && row.id == e.id && row.name == e.name && row.projectId == e.projectId
      && row.contactId == e.contactId && row.emailId == e.emailId
      && row.createdAt == e.createdAt && row.timestamp == e.createdAt
      && row.rawJson == e
    ensures r.Success? && e.data.Missing? ==>
      && r.value.dataFrom.None? && r.value.dataSubject.None? && r.value.dataTemplateId.None?
      && r.value.dataMessageId.None? && r.value.dataBouncedAt.None? && r.value.dataBounceType.None?
    ensures r.Success? && e.data.Object? ==>
      var d := e.data.fields;
      && r.value.dataFrom == d.from && r.value.dataSubject == d.subject
      && r.value.dataTemplateId == d.templateId && r.value.dataMessageId == d.messageId
      && r.value.dataBouncedAt == d.bouncedAt && r.value.dataBounceType == d.bounceType
    ensures r.Success? ==>
      r.value.contactEmail == (if e.contact.Object? then e.contact.fields.email else None)
  {
    match e.data
    case NonObject(t) => Failure(AttributeError(t))
    case _ =>
      match e.contact
      case NonObject(t) => Failure(AttributeError(t))
      case _ =>
        var d := DataFields(e.data);
        var c := ContactFields(e.contact);
        Success(Row(
          e.id, e.name, e.projectId, e.contactId, e.emailId,
          e.createdAt, e.createdAt,
          d.from, d.subject, d.templateId, d.messageId, d.bouncedAt, d.bounceType,
          c.email,
          e))
  }

  /**
   * The parameter list for a whole batch: one row per record, in input order,
   * or the exception raised by the first record that cannot be normalised.
   */
  function NormalizeAll(events: seq<Record>): (r: Result<seq<Row>, Error>)
    ensures r.Success? <==> forall i :: 0 <= i < |events| ==> Normalize(events[i]).Success?
    ensures r.Success? ==>
      && |r.value| == |events|
      && forall i :: 0 <= i < |events| ==> Normalize(events[i]) == Success(r.value[i])
    ensures r.Failure? ==>
      exists i :: 0 <= i < |events| && Normalize(events[i]) == Failure(r.error)
        && forall j :: 0 <= j < i ==> Normalize(events[j]).Success?
    decreases |events|
  {
    if events == [] then Success([])
    else
      match Normalize(events[0])
      case Failure(err) => Failure(err)
      case Success(row) =>
        match NormalizeAll(events[1..])
        case Failure(err) =>
          assert forall i :: 1 <= i < |events| ==> events[i] == events[1..][i - 1];
          Failure(err)
        case Success(rows) =>
          assert forall i :: 1 <= i < |events| ==> events[i] == events[1..][i - 1];
          Success([row] + rows)
  }

  /** The batch's exception is the one raised by its first failing record. */
  lemma NormalizeAllFirstFailure(events: seq<Record>, i: nat)
    requires i < |events|
    requires forall j :: 0 <= j < i ==> Normalize(events[j]).Success?
    requires Normalize(events[i]).Failure?
    ensures NormalizeAll(events) == Failure(Normalize(events[i]).error)
  {
  }

  /** No two records of the batch carry the same non-null id. */
  ghost predicate DistinctIds(events: seq<Record>)
  {
    forall i, j :: 0 <= i < j < |events| && events[i].id.Some? ==> events[i].id != events[j].id
  }

  /** The loop of upsert_events_to_bq that appends one row per record to `params`. */
  method NormalizeBatch(events: seq<Record>) returns (r: Result<seq<Row>, Error>)
    ensures r == NormalizeAll(events)
  {
    var params: seq<Row> := [];
    var i := 0;
    while i < |events|
      invariant 0 <= i <= |events|
      invariant |params| == i
      invariant forall j :: 0 <= j < i ==> Normalize(events[j]) == Success(params[j])
    {
      var row := Normalize(events[i]);
      if row.Failure? {
        NormalizeAllFirstFailure(events, i);
        return Failure(row.error);
      }
      params := params + [row.value];
      i := i + 1;
    }
    assert NormalizeAll(events).value == params;
    r := Success(params);
  }
}
