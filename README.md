# Plunk event logger — verified model

A Dafny model of the core of the Plunk event logger (`main.py`), a cloud function that on every
invocation fetches the latest events from the transactional-mail provider Plunk, merges them into a BigQuery
events table keyed by event id, derives bounce-rate metrics from that table and mails an alert when a rate
exceeds its threshold.

The model has six modules:

- `Wrappers` (`wrappers.dfy`) holds `Option`, `Result` and `Outcome`.
- `Events` (`events.dfy`) holds the raw provider record and the 15-column table row. It also holds the
  exceptions a run can raise and the normaliser that builds one row per record (`Normalize`, `NormalizeAll`,
  and the loop `NormalizeBatch`).
- `Store` (`store.dfy`) holds the table. Rows with a non-null id live in a map keyed by that id; rows whose id
  is NULL never match the `ON T.id = S.id` condition, so they sit in a separate sequence. The MERGE semantics
  is given as functions (`Updated`, `MergeRow`, `MergeBatch`, `UpsertEffect`) with lemmas about them. The
  class `EventStore` has the imperative `Merge` loop and `Upsert`.
- `Metrics` (`metrics.dfy`) holds the three queries as functions of the table's rows and of `now`:
  distinct `email_id` counts, the rate, and the 20 newest bounces.
- `Alerts` (`alerts.dfy`) holds the two-window threshold table.
- `Handler` (`handler.dfy`) holds the run and the mapping of exceptions to `(message, 500)`.

`Scenarios` (`scenarios.dfy`) works through concrete cases.

Instants are integers (seconds). `now` is a parameter. Rates are exact `real`s.

Behaviour of the code worth noting:

- The normaliser is not total: `e.get("data", {})` returns a JSON `null` or any
  other non-object value unchanged, and the following `.get` raises `AttributeError`, which ends the run with a
  500 response. A bad `contact` does the same. `Events.Normalize` models that error path.
- Re-merging is idempotent only for non-null ids. A row with a NULL id is inserted again on every merge
  (`Store.NullIdMergedTwiceIsStoredTwice`). `Store.MergeBatchIdempotent` proves idempotence when all ids are
  non-null.
- When the provider reports one message as sent and later as bounced under the same event id, the MERGE
  overwrites `name`. The table then holds 0 sent and 1 bounced for that message, not one of each
  (`Scenarios.SameIdSentThenBounce`). Only distinct event ids give one of each
  (`Scenarios.DistinctIdsSentAndBounce`).
- The code computes two windows, 7 days and all time (main.py:157-188), and mails one fixed recipient
  (main.py:12, 251).
- The recent-bounce query orders by `timestamp` (the first-written `createdAt`, which the update set never
  changes), not by `data_bounced_at`.
- The alert POST's HTTP status is never checked. Only a transport exception fails the run.

## Model

| member | source | states |
|---|---|---|
| Events.Normalize | main.py:68-93 | Fails exactly when `data` or `contact` holds a non-object, with `data`'s error first. On success: the id, name and other scalars are copied; `timestamp == created_at == createdAt`; `raw_json` is the whole record; an absent `data` gives all six `data_*` columns NULL; an absent `contact` gives a NULL `contact_email` |
| Events.NormalizeAll | main.py:66-94 | One row per event, in input order, each the normalisation of its event. Fails iff some event fails, and then with the error of a failing event that only successes precede |
| Events.NormalizeAllFirstFailure | main.py:67-94 | The batch's exception is the one raised by its first failing record |
| Events.NormalizeBatch | main.py:66-94 | The appending loop computes exactly `NormalizeAll` of the batch, including the early exit on the first exception |
| Events.Message | main.py:304-306 | The 500 body of each exception: the `AttributeError` text naming the offending type, the missing-key text, or the transport or store error's own message |
| Store.Rows | main.py:158-160 | A scan of the table returns one row per stored row, each either the keyed row under its own id or a NULL-id row |
| Store.RowsComplete | main.py:158-160 | Every keyed row and every NULL-id row appears in the scan |
| Store.Updated | main.py:103-110 | A matched row takes `name`, `contact_id`, `email_id`, `data_bounced_at`, `data_bounce_type` and `raw_json` from the source row. `id`, `project_id`, `created_at`, `timestamp`, `data_from`, `data_subject`, `data_template_id`, `data_message_id` and `contact_email` keep their stored values |
| Store.MergeRow | main.py:100-117 | Merging one source row keeps the table invariant: at most one row per id, each under its own key |
| Store.MergeBatch | main.py:99-118 | Merging a whole batch keeps the table invariant. The MERGE is modelled for batches whose non-null ids are distinct |
| Store.MergeBatchKeys | main.py:99-118 | After the MERGE the stored ids are the old ids plus the batch's non-null ids |
| Store.MergeBatchUntouched | main.py:99-118 | A row whose id is not in the batch is present afterwards iff it was before, and unchanged |
| Store.MergeBatchAt | main.py:103-117 | For a batch with distinct ids, an unseen id holds the source row with all 15 columns. An existing id holds the old row updated by exactly the six mutable columns |
| Store.MergeBatchUnkeyed | main.py:102-117 | NULL-id source rows never match and are appended in batch order |
| Store.MergeBatchOrderKept | main.py:103-110 | A batch whose ids are all present inserts nothing, so the scan order is kept |
| Store.MergeBatchKeyedIdempotent | main.py:99-118 | Merging a batch with distinct ids a second time leaves every keyed row as the first merge left it |
| Store.MergeBatchIdempotent | main.py:99-118 | Merging the same batch (distinct, non-null ids) twice gives the same table as merging it once |
| Store.NullIdMergedTwiceIsStoredTwice | main.py:102-117 | A NULL-id row merged twice is stored twice, so idempotence fails for NULL ids |
| Store.UpsertEffect | main.py:52-147 | An empty batch leaves the table unchanged. A normalisation exception or a rejected MERGE leaves it unchanged and fails the run. Otherwise the table is `MergeBatch` of the normalised rows. The invariant holds in every case |
| Store.EventStore.Merge | main.py:99-146 | The loop leaves the table equal to `MergeBatch` of the old table and the batch, keeps the invariant, and issues one statement |
| Store.EventStore.Upsert | main.py:52-147 | Result and new table are `UpsertEffect`'s. A MERGE statement is issued iff the batch is non-empty and normalises, so an empty batch does not touch the store |
| Metrics.InCountQuery | main.py:157-185 | A row is selected by a count query iff its `name` is the queried event name and, for the 7-day query, its `timestamp` is at or after the window start (a NULL timestamp is never selected) |
| Metrics.EmailIdsMembership | main.py:157-185 | An email id is counted iff some row of the right event name, inside the window, carries it |
| Metrics.CountDistinct | main.py:159-185 | `COUNT(DISTINCT email_id)` is the size of the set of selected non-null email ids. It is 0 iff no selected row has a non-null email id |
| Metrics.CountDistinctAppend | main.py:159-165 | One more row raises a count by one iff it is selected and its non-null email id is new, so repeat rows of one message count once |
| Metrics.WindowWithinAllTime | main.py:157-188 | The 7-day selection is a subset of the all-time one, so its count is no larger |
| Metrics.Rate | main.py:193-199 | The rate is 0.0 when nothing was sent. Otherwise `rate * sent == bounced`. It is never negative, and at most 1 when bounced ≤ sent |
| Metrics.WindowOf | main.py:190-199 | A window's sent and bounced figures are the distinct counts of `email.sent` and `email.bounce` over that window, and its rate is `Rate(bounced, sent)` |
| Metrics.BounceRows | main.py:207 | Keeps exactly the `email.bounce` rows, each with its multiplicity |
| Metrics.InsertByTime | main.py:208 | Insertion adds exactly one row (multiset) |
| Metrics.InsertByTimeNewestFirst | main.py:208 | Insertion keeps a sequence ordered by timestamp, newest first, NULLs last |
| Metrics.SortByTime | main.py:208 | The result is a permutation of the input, ordered by timestamp non-increasing with NULLs last |
| Metrics.NewestFirstPrefix | main.py:208-209 | A prefix of a newest-first sequence holds no row older than a row left out |
| Metrics.TopBounceRows | main.py:204-211 | The recent bounces are min(20, #bounce rows) rows, all `email.bounce` rows of the table, newest first. They form a sub-multiset of the bounce rows, and no bounce row left out is newer than one kept |
| Metrics.RecentBounces | main.py:204-211 | At most 20 entries, one per kept bounce row in the same order; entry i is exactly that row's (`contact_email`, `data_subject`, `data_bounced_at`) |
| Metrics.ComputeMetrics | main.py:149-217 | The snapshot's `7d` entry is the window from `now` − 604800 s, its `all` entry the unbounded window, and its `recent_bounces` the recent-bounce list. 7-day sent ≤ all-time sent, 7-day bounced ≤ all-time bounced, and at most 20 recent bounces |
| Alerts.WindowAlert | main.py:283-294 | A window yields at most one alert. It is absent iff the rate ≤ the warning threshold, critical iff the rate > the critical threshold, and warning otherwise. The alert carries its window, its rate and its tier's threshold |
| Alerts.AlertsFor | main.py:280-294 | At most two alerts, the 7-day one before the all-time one. The list is empty iff both rates are at or below their warning thresholds |
| Alerts.AlertsExceedThresholds | main.py:284-294 | Every alert's rate is strictly above its threshold and equals its window's rate. Critical iff the rate exceeds the critical threshold; a warning's rate is at most the critical threshold |
| Alerts.CheckThresholds | main.py:280-294 | The appending if/elif chains compute exactly `AlertsFor` of the snapshot |
| Alerts.ThresholdIsExclusive | main.py:17-20 | A rate equal to a threshold does not fire that tier |
| Handler.Respond | main.py:302-306 | Success gives status 200 with body "OK". Any exception gives status 500 with the exception's message |
| Handler.Run | main.py:266-306 | A fetch exception gives 500 and no store change. Otherwise the store changes as `UpsertEffect` says, and an upsert or query exception gives 500 and no mail. Otherwise the metrics are computed over the merged table, the mail is sent iff the alert list is non-empty, and the response is 200 unless that send raised |
| Scenarios.SameIdSentThenBounce | main.py:103-110 | Same id first sent, then bounce: one row named `email.bounce`, with the bounce time and the first timestamp, and counts 0 sent / 1 bounced |
| Scenarios.DistinctIdsSentAndBounce | main.py:157-199 | Distinct ids for the sent and the bounce of one message: 1 sent, 1 bounced, rate 1.0 |
| Scenarios.SevenDayTierExamples | main.py:283-287 | A 7-day rate of 0.08 gives only the critical line, 0.06 only the warning line, 0.03 nothing |
| Scenarios.BothWindowsFire | main.py:280-294 | Both windows can fire in one run, 7-day first |
| Scenarios.RateExamples | main.py:193-195 | 1 bounce in 10 sent gives 0.1. Nothing sent gives 0.0 |

## Left out

- `fetch_plunk_events` and `get_plunk_key` (main.py:31-50) are HTTP and environment I/O. Their outcome, the batch or the exception, is the parameter `Services.fetched`.
- `get_bq_client` and the BigQuery parameter-type plumbing (main.py:22-29, 120-146) are client-library calls. The model keeps the column list and the MERGE semantics. Whether the MERGE, the queries or the mail POST raise is given as `Services` parameters.
- How the client converts JSON values to STRING/TIMESTAMP parameters is not modelled. Record fields are typed already: strings, or instants as integers.
- `json.dumps` (main.py:92) is foreign library code. `raw_json` holds the record value itself. The record models only the eight keys the code reads.
- `send_alert_email` (main.py:219-263) is an HTTP POST plus text rendering with float percent formatting. The model records the mail handed over (subject, snapshot, alert list) and whether its POST raised. Alert lines are an `Alert` value (tier, window, rate, threshold), not the formatted string.
- Python float arithmetic is not modelled: rates are exact reals, so comparisons exactly at a threshold follow the real numbers.
- The `or 0` on the counts (main.py:193-198) is left out. `COUNT(DISTINCT …)` never yields NULL, so it is the identity here.
- Store.UpsertEffect: stated only for batches whose non-null ids are distinct, because a MERGE whose source matches one target row twice is a warehouse error whose outcome is not modelled.
- BigQuery's behaviour for duplicate source ids in one MERGE is left out. `Events.DistinctIds` / `Store.DistinctKeys` require distinct non-null ids within a batch.
- The scan order of the warehouse is not modelled. `Store.Rows` lists keyed rows in first-insertion order, then NULL-id rows. Order affects only how timestamp ties are broken among the 20 recent bounces.
- Exceptions other than the listed ones are not modelled, for example a batch element that is not a dict.
- Logging (`print`), the `functions_framework` decorator and the request object (main.py:265-266) are framework plumbing.
- Concurrency between overlapping invocations is not modelled: a run is one sequential pass.
