# Alert lifecycle engine of `alert-processor`, modelled in Dafny

This project models the core of the `alert-processor` service. That core creates alerts, evaluates their rules, and later retires them. It has three parts:

- **Rule evaluation** (`evaluateAlert` and its three source handlers). The handler table picks a handler by `sourceType`:
  - `overspeed` and `feedback_negative` count the driver's prior alerts of that source inside `window_mins`. The count plus one for the new alert is the total. The alert is escalated when the total reaches `escalate_if_count`, and its severity becomes `critical` or `high`.
  - `compliance` closes the alert at once when `auto_close_if` is `"document_valid"` and the metadata says the document is valid.
  - Any other source is stored `OPEN` (except names every object inherits, such as `constructor`; see "## Findings").
- **Submission** (`POST /process-alert`). The handler validates the payload and fills in defaults. It evaluates the draft, then writes the alert row and its events in one transaction, with every timestamp shifted by 330 minutes (`getDbTime`). It publishes an `ALERT_UPDATED` message only after the commit, and answers 201, 400 or 500.
- **Retention workers** (`autoClose`, `autoDelete`), which run on a timer:
  - Auto-close moves `OPEN`/`ESCALATED` alerts whose timestamp is at least their source's `auto_close_after_mins` old to `AUTO_CLOSED`. It re-stamps them and logs an `AUTO_CLOSED` event.
  - Auto-delete removes `AUTO_CLOSED` alerts at least five minutes old, together with their events.
  - Each alert is handled in its own transaction.

Layout, one module per file:

- `alerts.dfy` (`Alerts`) holds:
  - the entities: alert draft, stored row, event, and rules entry;
  - the rules lookup `rules[src] || {}`;
  - JavaScript truthiness for driver ids and minute counts;
  - `Lifecycle`, the invariant every alert's event history keeps.
- `clock.dfy` (`Clock`) holds time in integer milliseconds and the 330-minute shift. `getDbTime` and `getShiftedTime` are the same computation, so they are modelled once, as `DbTime`.
- `store.dfy` (`Store`) models the two tables:
  - as a value (`Tables`) with the invariant `ValidTables`;
  - as a class (`AlertStore`) whose methods are the SQL statements the service issues, with `Begin`/`Rollback` as the transaction;
  - plus the windowed `COUNT(*)` query.
- `rule_engine.dfy` (`RuleEngine`) holds the handlers. Each is written as a method that builds status and events step by step, as the source does. Each method is proved equal to a specification function, and the rules' properties are proved about those functions.
- `processor.dfy` (`Processor`) holds the request handler:
  - a specification function `Submit` of the whole submission;
  - the method `ProcessAlert`, which runs the transaction loop with rollback and publishes;
  - lemmas for atomicity, stamping, publication order and the three-overspeed scenario.
- `workers.dfy` (`Workers`) holds the two workers:
  - their specification functions: a fold over the rules entries for auto-close;
  - their methods: per-alert transactions inside loops;
  - lemmas for what a tick closes or deletes, idempotence, invariant preservation and the retention boundary.

Inputs the code reads from its environment are parameters:

- `serverTime` for `new Date()`;
- `dbNow` for the database's `NOW()`;
- `newId` for `randomUUID()`, required to be fresh;
- `now` for the worker's `Date.now()`, one value per tick;
- failure flags or positions for the statements that can throw:
  - the count query;
  - the transaction statement that fails;
  - the Kafka send;
  - the alerts that fail inside a worker tick;
  - a failing worker scan.

Modelling choices:

- The escalation window counts rows by the `timestamp` column, which auto-close overwrites. An old alert that was just auto-closed therefore falls back inside every later window of its driver and source (`Workers.AutoCloseRestamps`). The model keeps this as the code does it.
- A source whose rules give a driver-bearing alert no `window_mins` passes an undefined bind value to the count query. The model treats this as a failing query, so the submission answers 500. The `db` module is not part of this model; treating the undefined value as a failure is an assumption about the database driver it wraps.
- The count compares stored shifted timestamps with the database's own `NOW()`. The model keeps `dbNow` separate from the server clock. The end-to-end scenario `Processor.ThirdOverspeedEscalates` assumes the two agree, i.e. `dbNow = DbTime(serverTime)`.
- The handler lookup is modelled in both forms (see "## Findings"). The request path (`Processor.Submit`, `Processor.ProcessAlert`, `RuleEngine.EvaluateAlert`) uses the corrected own-key lookup `RuleEngine.Evaluate`.

## Model

| member | source | states |
|---|---|---|
| `Alerts.RulesFor` | alert-processor/rule-engine/index.js:29 | The first entry for the source is returned whenever one exists. A source with no entry gets the empty rule set, and any non-empty result is an entry of the source. |
| `Alerts.RulesForEntry` | alert-processor/rule-engine/index.js:29 | With distinct keys, as a parsed JSON object has, the lookup of each entry's key returns that entry. |
| `Alerts.LifecycleExtend` | alert-processor/workers/autoCloseWorker.js:53-64 | Appending an event that leaves the alert's current status keeps the history a lifecycle, now ending in the event's new status. |
| `Clock.DbTime` | alert-processor/index.js:36-38 | The stored time of an instant is strictly earlier than the instant. |
| `Clock.ShiftPreservesOrder` | alert-processor/workers/autoCloseWorker.js:8-11 | Shifting keeps `<=`, `<` and `==` between instants, both ways. |
| `Clock.ShiftedCutoff` | alert-processor/workers/autoCloseWorker.js:25-36 | A shifted stamp is at or before the shifted cutoff "now minus `mins`" exactly when the instant is at least `mins` minutes old. |
| `Store.WindowCount` | alert-processor/rule-engine/sources/overspeed.js:25-34 | The count, over the ids `CountedIds` selects by driver, source and cutoff, is at most the number of rows. It is zero exactly when no row matches the query. |
| `Store.CountedInsert` | alert-processor/rule-engine/sources/overspeed.js:25-32 | Storing a fresh row adds its id to the matched ids exactly when the row matches the query, and leaves the other ids' membership unchanged. |
| `Store.CountInsert` | alert-processor/rule-engine/sources/overspeed.js:25-34 | Storing a fresh alert raises the count by one if it matches the query and leaves it unchanged otherwise. |
| `Store.CountMonotone` | alert-processor/rule-engine/sources/overspeed.js:30 | A later cutoff never counts more alerts. |
| `Store.AlertStore.constructor` | alert-processor/index.js:6 | An empty store satisfies the store invariant. |
| `Store.AlertStore.Begin` | alert-processor/index.js:109 | Beginning a transaction records the whole current state of both tables. |
| `Store.AlertStore.Rollback` | alert-processor/index.js:119 | A rollback restores both tables to the recorded state. |
| `Store.AlertStore.InsertAlertRow` | alert-processor/index.js:44-58 | The insert adds exactly the new row under a fresh id and leaves events alone. |
| `Store.AlertStore.InsertEventRow` | alert-processor/index.js:67-79 | The insert appends exactly one event to that alert's history and changes nothing else. |
| `Store.AlertStore.UpdateClosed` | alert-processor/workers/autoCloseWorker.js:53-56 | The update sets status AUTO_CLOSED and the new timestamp on that alert only, if it exists, and no event changes. |
| `Store.AlertStore.DeleteEvents` | alert-processor/workers/autoCloseWorker.js:113 | All of that alert's events are removed and nothing else changes. |
| `Store.AlertStore.DeleteAlert` | alert-processor/workers/autoCloseWorker.js:114 | That alert's row is removed and nothing else changes. |
| `RuleEngine.HandlerFor` | alert-processor/rule-engine/index.js:6-10 | A handler exists exactly for `overspeed`, `feedback_negative` and `compliance`, each mapped to its own rule. |
| `RuleEngine.EvalCounting` | alert-processor/rule-engine/sources/overspeed.js:3-54 | It covers several cases. (1) With no driver: OPEN, severity kept, only CREATED, even if the store would fail. (2) It fails exactly when a driver is present and the query fails or the window is undefined. (3) Otherwise it escalates exactly when prior matches plus one reach the threshold; events are then CREATED and ESCALATED with that total, and severity is the source's. (4) In every other case: OPEN with the severity kept. The result is always a well-formed lifecycle that changes only status and severity. |
| `RuleEngine.HandleCounting` | alert-processor/rule-engine/sources/overspeed.js:3-54 | The step-by-step handler computes exactly the counting rule over the stored rows. |
| `RuleEngine.HandleOverspeed` | alert-processor/rule-engine/sources/overspeed.js:3-54 | `handleOverspeed` is the counting rule for source `overspeed` with severity `critical`. |
| `RuleEngine.HandleFeedbackNegative` | alert-processor/rule-engine/sources/feedbackNegative.js:3-54 | `handleFeedbackNegative` is the counting rule for source `feedback_negative` with severity `high`. |
| `RuleEngine.EvalCompliance` | alert-processor/rule-engine/sources/compliance.js:1-30 | It always evaluates and never changes severity. It closes exactly when `auto_close_if` is `document_valid` and the metadata has `status` `"valid"` or `document_valid` `true`; the events are then CREATED and AUTO_CLOSED with reason `document_valid`. Otherwise it is OPEN with only CREATED, as it always is when metadata is absent. |
| `RuleEngine.HandleCompliance` | alert-processor/rule-engine/sources/compliance.js:1-30 | The step-by-step handler computes exactly the compliance rule. |
| `RuleEngine.Evaluate` | alert-processor/rule-engine/index.js:12-31 | Every evaluation is a well-formed decided lifecycle. An unmapped source is OPEN with only CREATED. A source without rules never escalates or closes. A failure comes only from the count query or an undefined window. The severity changes only on escalation: to `critical` for overspeed, `high` for feedback_negative. |
| `RuleEngine.EvaluateAlert` | alert-processor/rule-engine/index.js:12-31 | The dispatching method computes exactly the evaluation function. |
| `RuleEngine.HandlerLookupAsWritten` | alert-processor/rule-engine/index.js:13 | The object lookup finds an own handler exactly for the three mapped sources. It finds an inherited property for the names every object inherits, and nothing otherwise. |
| `RuleEngine.EvaluateAsWritten` | alert-processor/rule-engine/index.js:12-31 | As written, an inherited name fails the evaluation; every other source evaluates as intended. |
| `RuleEngine.ConstructorSourceFails` | alert-processor/rule-engine/index.js:13-15 | Source `constructor` fails as written, where the intended evaluation stores it OPEN. |
| `Processor.Bus.constructor` | alert-processor/index.js:22 | A new producer has published nothing. |
| `Processor.Bus.Send` | alert-processor/index.js:126-138 | A send that does not throw appends exactly the message; one that throws changes nothing. |
| `Processor.Draft` | alert-processor/index.js:92-99 | The draft keeps the id, source and server time, and has no status yet. A supplied non-empty severity is kept, otherwise it is `info`; supplied metadata is kept, otherwise it is `{}`. A driver is kept exactly when it is truthy. |
| `Processor.RowOf` | alert-processor/index.js:40-60 | The stored row has the decided status and source and the shifted timestamp. A truthy driver and a non-empty severity are stored as they are, falsy ones as NULL. The metadata is stored, or `{}` when absent. |
| `Processor.Submit` | alert-processor/index.js:82-149 | The response is 400 exactly when the payload is missing or has no truthy `sourceType`. No alert other than the new one ever appears. |
| `Processor.SubmitRejectsCleanly` | alert-processor/index.js:85-147 | A 400 leaves both tables and the message log unchanged. A throwing transaction statement answers 500 (database error) with nothing stored and nothing published. A failed evaluation (a throwing count query, or a driver-bearing alert with no `window_mins`) answers 500 before any write. |
| `Processor.SubmitAtomic` | alert-processor/index.js:107-124 | Either nothing is stored, or the new alert and its events are stored and every other row is unchanged. |
| `Processor.SubmitStampsOnce` | alert-processor/index.js:104-115 | The stored alert and every event it added carry the same shifted server time. |
| `Processor.SubmitPublishesAfterCommit` | alert-processor/index.js:117-147 | At most one message is published, only for a stored alert, appended after the earlier ones. A 500 publishes nothing. When the commit succeeds and the send throws, the response is 500 and the committed alert stays stored. |
| `Processor.SubmitStoresPayload` | alert-processor/index.js:92-99 | A stored row carries the request's source and metadata (or `{}`), its driver exactly when truthy, and its severity (or `info`). The severity differs only when escalation raised it to `critical` for overspeed or `high` for feedback_negative. |
| `Processor.SubmitReportsStoredStatus` | alert-processor/index.js:140-143 | A 201 carries the new id and exactly the status that was stored and published. |
| `Processor.SubmitKeepsValid` | alert-processor/index.js:101-124 | Every submission keeps the store invariant: the events exist exactly for stored alerts, and each alert's status ends its event lifecycle. |
| `Processor.InsertAlert` | alert-processor/index.js:40-60 | `insertAlert` adds exactly the row `RowOf` describes. |
| `Processor.InsertEvent` | alert-processor/index.js:62-80 | `insertEvent` appends the event stamped with its own time, or with the clock when it has none, shifted. |
| `Processor.PersistAlert` | alert-processor/index.js:107-124 | The transaction commits exactly when no statement throws. After a commit the tables hold the alert row plus all its events, stamped in order. After a failure, a rollback leaves the tables as before. |
| `Processor.ProcessAlert` | alert-processor/index.js:82-149 | The handler's effect on the tables and the bus, and its response, are exactly those of `Submit`. |
| `Processor.OverspeedSubmit` | alert-processor/rule-engine/sources/overspeed.js:25-47 | With window 10 and threshold 3, an overspeed alert for a driver with `prior` matching alerts in the window is answered OPEN, or ESCALATED once `prior + 1` reaches 3. Exactly its row is added: `info` and OPEN, or `critical` and ESCALATED, at the shifted time. Its history is CREATED, followed when escalated by ESCALATED with the total. Every other row and history is unchanged. |
| `Processor.FirstTwoOverspeedsOpen` | alert-processor/rule-engine/sources/overspeed.js:34-36 | The first two overspeed alerts of a driver in an empty store are both answered OPEN. They leave exactly two `info` rows, each with only CREATED. |
| `Processor.ThirdOverspeedEscalates` | alert-processor/rule-engine/sources/overspeed.js:25-47 | Three overspeed alerts for one driver within ten minutes, with a threshold of 3, respond OPEN, OPEN, ESCALATED. The store then holds exactly two OPEN `info` rows with only CREATED, and one ESCALATED `critical` row whose history is CREATED then ESCALATED with total 3. |
| `Workers.AutoCloseClosesDue` | alert-processor/workers/autoCloseWorker.js:16-80 | A tick's source-by-source effect, whatever the entry order, equals closing at once the `DueIds`: every alert that some entry with a truthy `auto_close_after_mins` selects (right source, OPEN or ESCALATED, at least `mins` old) and that does not fail. |
| `Workers.CloseAllKeepsValid` | alert-processor/workers/autoCloseWorker.js:44-72 | Closing any alerts keeps the store invariant. |
| `Workers.AutoCloseEffect` | alert-processor/workers/autoCloseWorker.js:16-80 | Each due alert becomes AUTO_CLOSED with the shifted tick time and exactly one appended event. That event records its prior status and reason `timeout`. Every other alert and its history are unchanged. No alert appears or disappears, and the invariant holds. |
| `Workers.AutoCloseIdempotent` | alert-processor/workers/autoCloseWorker.js:16-80 | After a tick without failures, another tick at the same time changes nothing. |
| `Workers.AutoCloseLeavesNothingDue` | alert-processor/workers/autoCloseWorker.js:31-38 | After a tick without failures, no alert is due any more at that instant. |
| `Workers.SelectedGrows` | alert-processor/workers/autoCloseWorker.js:25-38 | An alert one source's query selects at some instant is selected at every later instant while its row is unchanged. |
| `Workers.AutoCloseSkipsClosed` | alert-processor/workers/autoCloseWorker.js:35 | An AUTO_CLOSED alert is never touched by a later tick. |
| `Workers.AutoCloseRestamps` | alert-processor/workers/autoCloseWorker.js:50-56 | A closed alert is counted by every later window, for its driver and source, whose cutoff is at or before the closing time. |
| `Workers.CloseOne` | alert-processor/workers/autoCloseWorker.js:44-72 | One candidate's transaction sets it AUTO_CLOSED at the shifted time and appends one AUTO_CLOSED event from its selected status; if a statement throws, the rollback leaves both tables as before. |
| `Workers.CloseSource` | alert-processor/workers/autoCloseWorker.js:31-73 | One source's loop closes exactly its selected alerts. A failing alert is rolled back alone. |
| `Workers.Scanned` | alert-processor/workers/autoCloseWorker.js:19-76 | A tick gets through a prefix of the rules entries: all of them unless a query throws. |
| `Workers.AutoClose` | alert-processor/workers/autoCloseWorker.js:16-80 | The worker's effect is exactly the tick's specification over the entries it got through, and it keeps the store invariant. |
| `Workers.AutoDeleteEffect` | alert-processor/workers/autoCloseWorker.js:85-129 | A tick removes exactly the alerts that are AUTO_CLOSED, at least five minutes old and not failing, and none of them keeps events. Every remaining row and history is unchanged, and the invariant holds. |
| `Workers.CloseDeleteDisjoint` | alert-processor/workers/autoCloseWorker.js:35 | Over one state of the tables, the alerts auto-close picks are never AUTO_CLOSED and those auto-delete picks always are, so no alert is picked by both. |
| `Workers.RetentionBoundary` | alert-processor/workers/autoCloseWorker.js:91-101 | An alert auto-closed at T is deletable at `now` exactly when `now >= T + 5` minutes. |
| `Workers.NoEarlyDeletion` | alert-processor/workers/autoCloseWorker.js:131-138 | An alert closed by a tick survives any deletion tick less than five minutes later. |
| `Workers.DeleteOne` | alert-processor/workers/autoCloseWorker.js:109-123 | One candidate's transaction removes its row and all its events; if a statement throws, the rollback leaves both tables as before. |
| `Workers.AutoDelete` | alert-processor/workers/autoCloseWorker.js:85-129 | The worker's effect is exactly the deletion tick's specification, and it keeps the store invariant. |

## Left out

- Express routing, the 201/400/500 bodies' JSON text, and `routes/alerts.js`: the HTTP layer only carries the response the model computes. `routes/alerts.js` is not part of this model.
- Kafka: connection, topic and JSON serialization of the message. The bus keeps the list of accepted messages.
- The `db` module and connection handling (`getConnection`, `release`, a failing `beginTransaction`) are not part of this model. In the workers, `beginTransaction` and `rollback` run outside the per-alert `try`, so a throw there ends the whole tick. The model's failing alerts are always isolated and rolled back one by one, so it does not capture a tick cut short that way. In the request handler, a throwing `rollback` likewise escapes to the generic 500 ("Failed to process alert") rather than the database-error 500 the model answers.
- Time sources: `new Date()`, `Date.now()` and the database's `NOW()` are parameters. A worker tick uses one `now` for every alert, although the source reads the clock per alert. Time zones and `Date` parsing are not modelled.
- `setInterval` scheduling, concurrency between the workers and the request handler, and concurrent submissions for the same driver: each operation is atomic in the model. A count racing with a later insert for the same driver is not modelled.
- JSON metadata is flat (strings, booleans, numbers, null). Nested values and `JSON.stringify` are left out.
- Logging (`console.log`/`console.error`) has no effect on state.
- The other services (`api-ingestor`, the consumers) and `debug_math.js` are not part of this model.
- `Processor.Submit`: uses the corrected handler lookup, so a `sourceType` naming an inherited object property (`constructor`, `toString`, ...) is stored OPEN with a 201, where the code answers 500 and stores nothing. The as-written behaviour is modelled separately (`RuleEngine.EvaluateAsWritten`, see "## Findings").
- `Processor.ProcessAlert`: uses the corrected handler lookup through `RuleEngine.EvaluateAlert`, with the same difference for inherited property names.
- `RuleEngine.EvaluateAlert`: dispatches with the corrected own-key lookup, not the plain-object lookup of the code.
- String comparison in the SQL (`driver_id = ?`, `source_type = ?`) is exact equality in the model. Under a case-insensitive column collation, a row for `D1` would also count toward `d1`. The schema is not part of this model.
- Timestamps are exact milliseconds. A DATETIME or TIMESTAMP column without fractional seconds would round them to seconds, which moves the inclusive window, auto-close and retention boundaries by less than a second.
- `window_mins`, `escalate_if_count` and `auto_close_after_mins` are integers. JSON allows fractional values such as `0.5`, which the code's arithmetic would accept.
- rules.json is modelled as a list of entries, and `Alerts.RulesFor` returns the first entry for a key. JSON.parse keeps the last of duplicate keys; the two agree when keys are distinct (`Alerts.DistinctKeys`, `Alerts.RulesForEntry`).
- Payload fields and rules fields have narrowed types. `sourceType`, `driverId` and `severity` are strings only, so a truthy number such as `driverId: 42` is not modelled. A rules field is an integer or absent; JSON `null` is treated as absent, whereas the code compares `total >= null` as true and escalates every alert with a driver.
- `Processor.Submit`: alert ids are assumed fresh (`randomUUID`), a precondition rather than a modelled collision.

## Findings

| source | as written | input that shows it | evidently intended | confidence | as-written member | corrected member |
|---|---|---|---|---|---|---|
| alert-processor/rule-engine/index.js:13-15 | `handlers[alert.sourceType]` looks the name up on a plain object, so names every object inherits find a truthy non-handler. Calling it throws or returns something that is not `{alert, events}`, and the request fails with 500. | `POST /process-alert` with `sourceType: "constructor"` (or `toString`, `valueOf`, `__proto__`, ...) | An unknown source type is stored OPEN with a single CREATED event, as for every other unmapped name. | medium, not executed | `RuleEngine.ConstructorSourceFails` | `RuleEngine.Evaluate` |
