/**
 * calculate_bounce_metrics: the two distinct-count queries (last seven days
 * and all time), the bounce rate, and the twenty newest bounces, as functions
 * of the table's rows and of the current instant `now` (seconds).
 */
module Metrics {
  import opened Wrappers
  import opened Events

  const SentEvent := "email.sent"
  const BounceEvent := "email.bounce"
  /** INTERVAL 7 DAY, in seconds. */
  const SevenDays: int := 7 * 24 * 60 * 60
  /** LIMIT of the recent-bounce query. */
  const RecentBounceLimit: nat := 20

  /**
   * The WHERE clause of a count query: the event name and, when `since` is
   * given, `timestamp >= since` (a NULL timestamp fails the comparison).
   */
  predicate InCountQuery(r: Row, eventName: string, since: Option<int>): (b: bool)
    ensures since.None? ==> (b <==> r.name == Some(eventName))
    ensures since.Some? ==> (b <==> r.name == Some(eventName) && NotEarlier(r.timestamp, since))
  {
    && r.name == Some(eventName)
    && (since.Some? ==> r.timestamp.Some? && r.timestamp.value >= since.value)
  }

  /** The values COUNT(DISTINCT email_id) counts: the non-null email ids of the selected rows. */
  function EmailIds(rows: seq<Row>, eventName: string, since: Option<int>): set<string>
  {
    set r | r in rows && InCountQuery(r, eventName, since) && r.emailId.Some? :: r.emailId.value
  }

  /** An email id is counted exactly when some selected row carries it. */
  lemma EmailIdsMembership(rows: seq<Row>, eventName: string, since: Option<int>, m: string)
    ensures m in EmailIds(rows, eventName, since) <==>
      exists i :: 0 <= i < |rows| && InCountQuery(rows[i], eventName, since) && rows[i].emailId == Some(m)
  {
  }

  /** COUNT(DISTINCT email_id) over the selected rows; 0 exactly when no selected row has an email id. */
  function CountDistinct(rows: seq<Row>, eventName: string, since: Option<int>): (n: nat)
    ensures n == |EmailIds(rows, eventName, since)|
    ensures n == 0 <==>
      forall i :: 0 <= i < |rows| && InCountQuery(rows[i], eventName, since) ==> rows[i].emailId.None?
  {
    var ids := EmailIds(rows, eventName, since);
    assert forall i :: 0 <= i < |rows| && InCountQuery(rows[i], eventName, since) && rows[i].emailId.Some? ==>
      rows[i].emailId.value in ids;
    |ids|
  }

  /**
   * Distinctness: one more row raises the count by one exactly when it is
   * selected and carries an email id no selected row carried before.
   */
  lemma CountDistinctAppend(rows: seq<Row>, r: Row, eventName: string, since: Option<int>)
    ensures CountDistinct(rows + [r], eventName, since) ==
      CountDistinct(rows, eventName, since) +
      (if InCountQuery(r, eventName, since) && r.emailId.Some?
          && r.emailId.value !in EmailIds(rows, eventName, since) then 1 else 0)
  {
    var before := EmailIds(rows, eventName, since);
    var after := EmailIds(rows + [r], eventName, since);
    var extended := rows + [r];
    forall m
      ensures m in after <==> m in before || (InCountQuery(r, eventName, since) && r.emailId == Some(m))
    {
      EmailIdsMembership(rows, eventName, since, m);
      EmailIdsMembership(extended, eventName, since, m);
      if m in after {
        var i :| 0 <= i < |extended| && InCountQuery(extended[i], eventName, since) && extended[i].emailId == Some(m);
        if i < |rows| { assert extended[i] == rows[i]; }
      }
      if m in before {
        var i :| 0 <= i < |rows| && InCountQuery(rows[i], eventName, since) && rows[i].emailId == Some(m);
        assert extended[i] == rows[i];
      }
      if InCountQuery(r, eventName, since) && r.emailId == Some(m) {
        assert extended[|rows|] == r;
      }
    }
    if InCountQuery(r, eventName, since) && r.emailId.Some? {
      assert after == before + {r.emailId.value};
    } else {
      assert after == before;
    }
  }

  /** The seven-day window selects a subset of what all time selects. */
  lemma WindowWithinAllTime(rows: seq<Row>, eventName: string, since: int)
    ensures EmailIds(rows, eventName, Some(since)) <= EmailIds(rows, eventName, None)
    ensures CountDistinct(rows, eventName, Some(since)) <= CountDistinct(rows, eventName, None)
  {
    var windowed := EmailIds(rows, eventName, Some(since));
    var all := EmailIds(rows, eventName, None);
    assert windowed <= all;
    assert |all| == |windowed| + |all - windowed| by {
      assert all == windowed + (all - windowed);
    }
  }

  /** `bounced / sent`, or 0.0 when nothing was sent. */
  function Rate(bounced: nat, sent: nat): (rate: real)
    ensures sent == 0 ==> rate == 0.0
    ensures sent > 0 ==> rate * sent as real == bounced as real
    ensures 0.0 <= rate
    ensures bounced <= sent ==> rate <= 1.0
  {
    if sent > 0 then bounced as real / sent as real else 0.0
  }

  /** One result row of a count query, with its rate. */
  datatype WindowMetrics = WindowMetrics(sent: nat, bounced: nat, rate: real)

  /** The sent and bounced counts of one window and the rate derived from them. */
  function WindowOf(rows: seq<Row>, since: Option<int>): (w: WindowMetrics)
    ensures w.sent == CountDistinct(rows, SentEvent, since)
    ensures w.bounced == CountDistinct(rows, BounceEvent, since)
    ensures w.rate == Rate(w.bounced, w.sent)
  {
    var sent := CountDistinct(rows, SentEvent, since);
    var bounced := CountDistinct(rows, BounceEvent, since);
    WindowMetrics(sent, bounced, Rate(bounced, sent))
  }

  /** The columns the recent-bounce query selects. */
  datatype BounceDetail = BounceDetail(contactEmail: Option<string>, subject: Option<string>, bouncedAt: Option<int>)

  datatype BounceMetrics = BounceMetrics(sevenDay: WindowMetrics, allTime: WindowMetrics, recentBounces: seq<BounceDetail>)

  /**
   * `a` may come before `b` under ORDER BY timestamp DESC, where NULL sorts
   * last.
   */
  predicate NotEarlier(a: Option<int>, b: Option<int>)
  {
    b.None? || (a.Some? && a.value >= b.value)
  }

  ghost predicate NewestFirst(s: seq<Row>)
  {
    forall i, j :: 0 <= i < j < |s| ==> NotEarlier(s[i].timestamp, s[j].timestamp)
  }

  /** The rows of the `email.bounce` event, in table order. */
  function BounceRows(rows: seq<Row>): (r: seq<Row>)
    ensures forall x :: x in r ==> x.name == Some(BounceEvent)
    ensures forall x :: multiset(r)[x] == if x.name == Some(BounceEvent) then multiset(rows)[x] else 0
    decreases |rows|
  {
    if rows == [] then []
    else
      assert rows == [rows[0]] + rows[1..];
      (if rows[0].name == Some(BounceEvent) then [rows[0]] else []) + BounceRows(rows[1..])
  }

  /** Places `x` before the first row that is not newer than it. */
  function InsertByTime(x: Row, s: seq<Row>): (r: seq<Row>)
    ensures |r| == |s| + 1
    ensures multiset(r) == multiset(s) + multiset{x}
    decreases |s|
  {
    if s == [] || NotEarlier(x.timestamp, s[0].timestamp) then [x] + s
    else
      assert s == [s[0]] + s[1..];
      [s[0]] + InsertByTime(x, s[1..])
  }

  /** Insertion keeps a sequence newest first. */
  lemma {:induction false} InsertByTimeNewestFirst(x: Row, s: seq<Row>)
    requires NewestFirst(s)
    ensures NewestFirst(InsertByTime(x, s))
    decreases |s|
  {
    if s != [] && !NotEarlier(x.timestamp, s[0].timestamp) {
      var tail := s[1..];
      var rest := InsertByTime(x, tail);
      InsertByTimeNewestFirst(x, tail);
      forall j | 0 <= j < |rest|
        ensures NotEarlier(s[0].timestamp, rest[j].timestamp)
      {
        assert rest[j] in multiset(rest);
        if rest[j] != x {
          assert rest[j] in multiset(tail);
          var k :| 0 <= k < |tail| && tail[k] == rest[j];
          assert s[k + 1] == rest[j];
        }
      }
      assert InsertByTime(x, s) == [s[0]] + rest;
    }
  }

  /** ORDER BY timestamp DESC. */
  function SortByTime(s: seq<Row>): (r: seq<Row>)
    ensures |r| == |s|
    ensures multiset(r) == multiset(s)
    ensures NewestFirst(r)
    decreases |s|
  {
    if s == [] then []
    else
      assert s == [s[0]] + s[1..];
      InsertByTimeNewestFirst(s[0], SortByTime(s[1..]));
      InsertByTime(s[0], SortByTime(s[1..]))
  }

  /** A prefix of a newest-first sequence holds no row older than the rows left out. */
  lemma NewestFirstPrefix(s: seq<Row>, n: nat)
    requires NewestFirst(s)
    requires n <= |s|
    ensures multiset(s[..n]) <= multiset(s)
    ensures multiset(s) - multiset(s[..n]) == multiset(s[n..])
    ensures forall x, y :: x in s[..n] && y in multiset(s) - multiset(s[..n]) ==> NotEarlier(x.timestamp, y.timestamp)
  {
    assert s == s[..n] + s[n..];
    forall x, y | x in s[..n] && y in multiset(s[n..])
      ensures NotEarlier(x.timestamp, y.timestamp)
    {
      var i :| 0 <= i < n && s[..n][i] == x;
      assert y in s[n..];
      var j :| 0 <= j < |s| - n && s[n..][j] == y;
      assert s[i] == x && s[n + j] == y;
    }
  }

  function Min(a: nat, b: nat): nat
  {
    if a <= b then a else b
  }

  /**
   * The rows the recent-bounce query returns: bounce rows, newest first, at
   * most twenty of them, and no bounce row left out is newer than one kept.
   */
  function TopBounceRows(rows: seq<Row>): (r: seq<Row>)
    ensures |r| == Min(RecentBounceLimit, |BounceRows(rows)|)
    ensures |r| <= RecentBounceLimit
    ensures forall x :: x in r ==> x.name == Some(BounceEvent) && x in rows
    ensures NewestFirst(r)
    ensures multiset(r) <= multiset(BounceRows(rows))
    ensures forall x, y :: x in r && y in multiset(BounceRows(rows)) - multiset(r) ==>
      NotEarlier(x.timestamp, y.timestamp)
  {
    var bounces := BounceRows(rows);
    var sorted := SortByTime(bounces);
    var n := Min(RecentBounceLimit, |sorted|);
    NewestFirstPrefix(sorted, n);
    assert forall x :: x in sorted[..n] ==> x in multiset(bounces) by {
      forall x | x in sorted[..n] ensures x in multiset(bounces) {
        assert x in multiset(sorted[..n]);
      }
    }
    sorted[..n]
  }

  /** The selected columns of the recent bounces, in the query's order. */
  function RecentBounces(rows: seq<Row>): (r: seq<BounceDetail>)
    ensures |r| == |TopBounceRows(rows)|
    ensures |r| <= RecentBounceLimit
    ensures forall i :: 0 <= i < |r| ==>
      r[i] == BounceDetail(TopBounceRows(rows)[i].contactEmail, TopBounceRows(rows)[i].dataSubject,
                           TopBounceRows(rows)[i].dataBouncedAt)
  {
    var top := TopBounceRows(rows);
    seq(|top|, i requires 0 <= i < |top| =>
      BounceDetail(top[i].contactEmail, top[i].dataSubject, top[i].dataBouncedAt))
  }

  /** The snapshot calculate_bounce_metrics returns at instant `now`. */
  function ComputeMetrics(rows: seq<Row>, now: int): (m: BounceMetrics)
    ensures m.sevenDay == WindowOf(rows, Some(now - SevenDays))
    ensures m.allTime == WindowOf(rows, None)
    ensures m.recentBounces == RecentBounces(rows)
    ensures m.sevenDay.sent <= m.allTime.sent && m.sevenDay.bounced <= m.allTime.bounced
    ensures |m.recentBounces| <= RecentBounceLimit
  {
    WindowWithinAllTime(rows, SentEvent, now - SevenDays);
    WindowWithinAllTime(rows, BounceEvent, now - SevenDays);
    BounceMetrics(WindowOf(rows, Some(now - SevenDays)), WindowOf(rows, None), RecentBounces(rows))
  }
}
