/** The values the alert processor passes around: the alert object the HTTP
    handler builds and the evaluators update, the events they emit, the rows
    of the `alerts` table and the per-source rules configuration. */
module Alerts {

  datatype Option<T> = None | Some(value: T)

  type AlertId = string

  /** The `status` column: 'OPEN', 'ESCALATED', 'AUTO_CLOSED'. */
  datatype Status = Open | Escalated | AutoClosed

  /** The `event_type` column: 'CREATED', 'ESCALATED', 'AUTO_CLOSED'. */
  datatype EventType = CreatedEvent | EscalatedEvent | AutoClosedEvent

  /** The metadata the engine itself writes on events: `{}`, `{total}`,
      `{reason}` and `{reason, src}`. */
  datatype EventMeta = NoMeta | TotalMeta(total: int) | ReasonMeta(reason: string, src: Option<string>)

  /** Scalar JSON values of an alert's free-form metadata (nested objects are
      not modelled). */
  datatype Json = JString(s: string) | JBool(b: bool) | JNumber(n: int) | JNull

  type Metadata = map<string, Json>

  /** A lifecycle event as the evaluators build it (timestamp absent) and as
      it is stored (timestamp present). */
  datatype Event = Event(eventType: EventType, oldStatus: Option<Status>, newStatus: Status,
                         metadata: EventMeta, timestamp: Option<int>)

  /** The in-memory alert object of the HTTP handler. `status` is absent until
      an evaluator sets it; `timestamp` is server time in milliseconds. */
  datatype Alert = Alert(alertId: AlertId, sourceType: string, severity: string, timestamp: int,
                         driverId: Option<string>, metadata: Option<Metadata>, status: Option<Status>)

  /** A row of the `alerts` table (keyed by alert_id in the store);
      `timestamp` is the shifted time written to the database. */
  datatype AlertRow = AlertRow(driverId: Option<string>, sourceType: string, severity: Option<string>,
                               status: Status, timestamp: int, metadata: Metadata)

  /** One source's entry of rules.json; an absent field is None. */
  datatype SourceRules = SourceRules(windowMins: Option<int>, escalateIfCount: Option<int>,
                                     autoCloseAfterMins: Option<int>, autoCloseIf: Option<string>)

  /** The empty rule set `{}`. */
  const NoRules := SourceRules(None, None, None, None)

  /** rules.json as the list of its entries, in the order Object.entries gives them. */
  type Config = seq<(string, SourceRules)>

  /** The entries of a parsed JSON object have distinct keys. */
  predicate DistinctKeys(config: Config)
  {
    forall i, j :: 0 <= i < j < |config| ==> config[i].0 != config[j].0
  }

  /** `rules[src] || {}`: the entry for `src`, or the empty rule set. */
  function RulesFor(config: Config, src: string): (r: SourceRules)
    ensures (forall j :: 0 <= j < |config| ==> config[j].0 != src) ==> r == NoRules
    ensures r != NoRules ==> exists j :: 0 <= j < |config| && config[j] == (src, r)
    ensures forall j ::
              (0 <= j < |config| && config[j].0 == src && forall k :: 0 <= k < j ==> config[k].0 != src)
              ==> r == config[j].1
  {
    if config == [] then NoRules
    else if config[0].0 == src then config[0].1
    else
      var r := RulesFor(config[1..], src);
      assert forall j :: 1 <= j < |config| ==> config[j] == config[1..][j - 1];
      r
  }

  /** With distinct keys, every entry is what the lookup of its key returns. */
  lemma RulesForEntry(config: Config, j: int)
    requires DistinctKeys(config) && 0 <= j < |config|
    ensures RulesFor(config, config[j].0) == config[j].1
  {
    assert forall k :: 0 <= k < j ==> config[k].0 != config[j].0;
  }

  /** JavaScript truthiness of an optional driver id: null and '' are falsy. */
  predicate HasDriver(d: Option<string>)
  {
    d.Some? && d.value != ""
  }

  /** JavaScript truthiness of an optional number: undefined and 0 are falsy. */
  predicate Truthy(n: Option<int>)
  {
    n.Some? && n.value != 0
  }

  /** The event every evaluator emits first: CREATED, null -> OPEN, `{}`. */
  const Created := Event(CreatedEvent, None, Open, NoMeta, None)

  /** An alert's event history is a well-formed lifecycle ending in `status`:
      it starts with CREATED (null -> OPEN), each event leaves from the status
      the previous one entered, and the last one enters `status`. */
  ghost predicate Lifecycle(events: seq<Event>, status: Status)
  {
    |events| > 0 &&
    events[0].eventType == CreatedEvent && events[0].oldStatus == None && events[0].newStatus == Open &&
    (forall i :: 0 < i < |events| ==> events[i].oldStatus == Some(events[i - 1].newStatus)) &&
    events[|events| - 1].newStatus == status
  }

  /** Appending an event that leaves the current final status keeps the
      history a lifecycle, now ending in the event's new status. */
  lemma {:induction false} LifecycleExtend(events: seq<Event>, status: Status, ev: Event)
    requires Lifecycle(events, status)
    requires ev.oldStatus == Some(status)
    ensures Lifecycle(events + [ev], ev.newStatus)
  {
    var e' := events + [ev];
    forall i | 0 < i < |e'|
      ensures e'[i].oldStatus == Some(e'[i - 1].newStatus)
    {
      if i < |events| {
        assert e'[i] == events[i] && e'[i - 1] == events[i - 1];
      } else {
        assert e'[i - 1] == events[|events| - 1];
      }
    }
  }
}
