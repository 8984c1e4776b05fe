/**
 * plunk_event_logger: fetch, upsert, metrics, threshold check and alert mail,
 * with every exception mapped to a 500 response carrying its message.
 */
module Handler {
  import opened Wrappers
  import opened Events
  import opened Store
  import opened Metrics
  import opened Alerts

  const AlertSubject := "Plunk Alert: Bounce Rates Exceeded"

  /** The HTTP response of the function: a body and a status code. */
  datatype Response = Response(body: string, status: int)

  /** `return "OK", 200` on success, `return str(e), 500` for any exception. */
  function Respond(o: Outcome<Error>): (r: Response)
    ensures r.status == 200 <==> o.Pass?
    ensures r.status == 200 || r.status == 500
    ensures o.Pass? ==> r.body == "OK"
    ensures o.Fail? ==> r.body == Message(o.error)
  {
    match o
    case Pass => Response("OK", 200)
    case Fail(e) => Response(Message(e), 500)
  }

  /** The alert mail handed to the mail API: its subject, the snapshot and the alert lines. */
  datatype AlertMail = AlertMail(subject: string, metrics: BounceMetrics, alerts: seq<Alert>)

  /**
   * What the collaborators outside the core answer during one run: the batch
   * fetch_plunk_events returns (or its exception), and the failure, if any,
   * of the MERGE statement, of the metric queries and of the mail POST.
   */
  datatype Services = Services(
    fetched: Result<seq<Record>, Error>,
    mergeFailure: Option<string>,
    queryFailure: Option<string>,
    sendFailure: Option<string>)

  /** One invocation of the pipeline at instant `now`. */
  method Run(store: EventStore, env: Services, now: int) returns (resp: Response, mail: Option<AlertMail>)
    requires store.Valid()
    requires env.fetched.Success? ==> DistinctIds(env.fetched.value)
    modifies store
    ensures store.Valid()
    ensures env.fetched.Failure? ==>
      && resp == Respond(Fail(env.fetched.error)) && mail.None?
      && store.Contents() == old(store.Contents())
    ensures env.fetched.Success? ==>
      var effect := UpsertEffect(old(store.Contents()), env.fetched.value, env.mergeFailure);
      && store.Contents() == effect.1
      && (effect.0.Fail? ==> resp == Respond(effect.0) && mail.None?)
      && (effect.0.Pass? && env.queryFailure.Some? ==>
            resp == Respond(Fail(StoreError(env.queryFailure.value))) && mail.None?)
      && (effect.0.Pass? && env.queryFailure.None? ==>
            var m := ComputeMetrics(Rows(effect.1), now);
            && (mail.Some? <==> AlertsFor(m) != [])
            && (mail.Some? ==> mail.value == AlertMail(AlertSubject, m, AlertsFor(m)))
            && resp == Respond(if mail.Some? && env.sendFailure.Some?
                               then Fail(TransportError(env.sendFailure.value)) else Pass))
  {
    mail := None;
    if env.fetched.Failure? {
      return Respond(Fail(env.fetched.error)), None;
    }
    var events := env.fetched.value;
    var upserted := store.Upsert(events, env.mergeFailure);
    if upserted.Fail? {
      return Respond(upserted), None;
    }
    if env.queryFailure.Some? {
      return Respond(Fail(StoreError(env.queryFailure.value))), None;
    }
    var metrics := ComputeMetrics(Rows(store.Contents()), now);
    var alerts := CheckThresholds(metrics);
    if alerts != [] {
      mail := Some(AlertMail(AlertSubject, metrics, alerts));
      if env.sendFailure.Some? {
        return Respond(Fail(TransportError(env.sendFailure.value))), mail;
      }
    }
    resp := Respond(Pass);
  }
}
