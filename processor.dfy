/** The `POST /process-alert` handler: validate the draft, fill defaults,
    evaluate it, insert the alert and its events in one transaction, and
    publish only after the commit. */
module Processor {
  import opened Alerts
  import opened Clock
  import opened Store
  import opened RuleEngine

  /** The request body; an absent or null field is None. */
  datatype Payload = Payload(sourceType: Option<string>, severity: Option<string>,
                             driverId: Option<string>, metadata: Option<Metadata>)

  /** 201 `{alertId, status}`, 400 (no sourceType), 500 "Database error
      storing alert", 500 "Failed to process alert". */
  datatype Response = Accepted(alertId: AlertId, status: Status) | Invalid | StoreFailed | Failed

  /** The `ALERT_UPDATED` message: keyed by alert id, carrying the alert and
      its events. */
  datatype Message = Message(key: AlertId, alert: Alert, events: seq<Event>)

  /** The state a submission leaves: both tables, the published messages and
      the response. */
  datatype Submitted = Submitted(tables: Tables, published: seq<Message>, response: Response)

  /** The message bus, as the list of what was accepted for publishing. */
  class Bus {
    var published: seq<Message>

    constructor ()
      ensures published == []
    {
      published := [];
    }

    /** `producer.send`: accepted unless it throws. */
    method Send(m: Message, fails: bool) returns (ok: bool)
      modifies this
      ensures ok == !fails
      ensures published == if fails then old(published) else old(published) + [m]
    {
      ok := !fails;
      if ok {
        published := published + [m];
      }
    }
  }

  /** `!payload || !payload.sourceType` rejects. */
  predicate Accepts(payload: Option<Payload>)
  {
    payload.Some? && payload.value.sourceType.Some? && payload.value.sourceType.value != ""
  }

  /** The alert object built from an accepted payload, with its defaults. */
  function Draft(p: Payload, id: AlertId, serverTime: int): (a: Alert)
    requires p.sourceType.Some?
    ensures a.alertId == id && a.sourceType == p.sourceType.value && a.timestamp == serverTime
    ensures a.status.None? && a.metadata.Some?
    ensures a.severity != ""
    ensures (p.severity.None? || p.severity == Some("")) ==> a.severity == "info"
    ensures p.metadata.None? ==> a.metadata == Some(map[])
    ensures a.driverId.Some? <==> HasDriver(p.driverId)
    ensures a.driverId.Some? ==> a.driverId == p.driverId
    ensures p.severity.Some? && p.severity.value != "" ==> a.severity == p.severity.value
    ensures p.metadata.Some? ==> a.metadata == p.metadata
  {
    Alert(id, p.sourceType.value,
          if p.severity.Some? && p.severity.value != "" then p.severity.value else "info",
          serverTime,
          if HasDriver(p.driverId) then p.driverId else None,
          Some(MetadataOrEmpty(p.metadata)),
          None)
  }

  /** The row `insertAlert` writes: falsy driver and severity as NULL, the
      timestamp shifted, metadata defaulting to `{}`. */
  function RowOf(a: Alert): (row: AlertRow)
    requires a.status.Some?
    ensures row.status == a.status.value && row.timestamp == DbTime(a.timestamp) && row.sourceType == a.sourceType
    ensures row.driverId.Some? <==> HasDriver(a.driverId)
    ensures row.severity.Some? <==> a.severity != ""
    ensures row.driverId.Some? ==> row.driverId == a.driverId
    ensures row.severity.Some? ==> row.severity.value == a.severity
    ensures a.metadata.Some? ==> row.metadata == a.metadata.value
    ensures a.metadata.None? ==> row.metadata == map[]
  {
    AlertRow(if HasDriver(a.driverId) then a.driverId else None,
             a.sourceType,
             if a.severity != "" then Some(a.severity) else None,
             a.status.value,
             DbTime(a.timestamp),
             MetadataOrEmpty(a.metadata))
  }

  /** The events after the handler's loop has set `ev.timestamp = serverTime`. */
  function Stamp(evs: seq<Event>, t: int): (s: seq<Event>)
  {
    seq(|evs|, i requires 0 <= i < |evs| => evs[i].(timestamp := Some(t)))
  }

  /** The row `insertEvent` writes: the event's time (or the clock when it
      has none), shifted. */
  function StoredEvent(ev: Event, clock: int): (r: Event)
  {
    ev.(timestamp := Some(DbTime(if ev.timestamp.Some? then ev.timestamp.value else clock)))
  }

  function StoredEvents(evs: seq<Event>, clock: int): (r: seq<Event>)
  {
    seq(|evs|, i requires 0 <= i < |evs| => StoredEvent(evs[i], clock))
  }

  /** Whether one of the transaction's statements throws: step 0 is the
      alert insert, step k the insert of event k, step n + 1 the commit. */
  predicate Faults(failAt: Option<nat>, n: nat)
  {
    failAt.Some? && failAt.value <= n + 1
  }

  /** The tables once the alert row and its stamped events are committed. */
  function Persisted(t: Tables, a: Alert, stamped: seq<Event>, serverTime: int): (r: Tables)
    requires a.status.Some?
  {
    Tables(t.alerts[a.alertId := RowOf(a)],
           t.events[a.alertId := EventsOf(t, a.alertId) + StoredEvents(stamped, serverTime)])
  }

  /** A submission, from the tables and published messages before it. */
  function Submit(t: Tables, published: seq<Message>, config: Config, payload: Option<Payload>, newId: AlertId,
                  serverTime: int, dbNow: int, queryFails: bool, failAt: Option<nat>, publishFails: bool)
    : (r: Submitted)
    requires newId !in t.alerts
    ensures r.response.Invalid? <==> !Accepts(payload)
    ensures r.tables.alerts.Keys <= t.alerts.Keys + {newId}
  {
    if !Accepts(payload) then
      Submitted(t, published, Invalid)
    else
      var e := Evaluate(t.alerts, config, Draft(payload.value, newId, serverTime), dbNow, queryFails);
      if e.EvalFailed? then
        Submitted(t, published, Failed)
      else if Faults(failAt, |e.events|) then
        Submitted(t, published, StoreFailed)
      else
        var a := e.alert.(timestamp := serverTime);
        var stamped := Stamp(e.events, serverTime);
        var t' := Persisted(t, a, stamped, serverTime);
        if publishFails then
          Submitted(t', published, Failed)
        else
          Submitted(t', published + [Message(newId, a, stamped)], Accepted(newId, a.status.value))
  }

  /** 400 and the database error leave both tables and the bus untouched. */
  lemma SubmitRejectsCleanly(t: Tables, published: seq<Message>, config: Config, payload: Option<Payload>, newId: AlertId,
                             serverTime: int, dbNow: int, queryFails: bool, failAt: Option<nat>, publishFails: bool)
    requires newId !in t.alerts
    ensures var r := Submit(t, published, config, payload, newId, serverTime, dbNow, queryFails, failAt, publishFails);
            (r.response.Invalid? || r.response.StoreFailed? ==> r.tables == t && r.published == published) &&
            (Accepts(payload) &&
             Evaluate(t.alerts, config, Draft(payload.value, newId, serverTime), dbNow, queryFails).EvalFailed? ==>
               r.response == Failed && r.tables == t && r.published == published) &&
            (Accepts(payload) &&
             (var e := Evaluate(t.alerts, config, Draft(payload.value, newId, serverTime), dbNow, queryFails);
              e.Evaluated? && Faults(failAt, |e.events|)) ==>
               r.response == StoreFailed && r.tables == t && r.published == published)
  {
  }

  /** All or nothing: either the tables are untouched, or the new alert and
      its whole event list are there and no other row changed. */
  lemma SubmitAtomic(t: Tables, published: seq<Message>, config: Config, payload: Option<Payload>, newId: AlertId,
                     serverTime: int, dbNow: int, queryFails: bool, failAt: Option<nat>, publishFails: bool)
    requires newId !in t.alerts
    ensures var r := Submit(t, published, config, payload, newId, serverTime, dbNow, queryFails, failAt, publishFails);
            r.tables == t || (newId in r.tables.alerts && newId in r.tables.events &&
                              r.tables.alerts - {newId} == t.alerts - {newId} &&
                              r.tables.events - {newId} == t.events - {newId})
  {
  }

  /** One shifted server time stamps the alert row and every event it adds. */
  lemma SubmitStampsOnce(t: Tables, published: seq<Message>, config: Config, payload: Option<Payload>, newId: AlertId,
                         serverTime: int, dbNow: int, queryFails: bool, failAt: Option<nat>, publishFails: bool)
    requires newId !in t.alerts
    ensures var r := Submit(t, published, config, payload, newId, serverTime, dbNow, queryFails, failAt, publishFails);
            newId in r.tables.alerts ==>
              r.tables.alerts[newId].timestamp == DbTime(serverTime) &&
              forall i :: |EventsOf(t, newId)| <= i < |EventsOf(r.tables, newId)| ==>
                EventsOf(r.tables, newId)[i].timestamp == Some(DbTime(serverTime))
  {
  }

  /** Publishing happens only after the commit, once; a 500 after the
      commit keeps the committed rows and publishes nothing. */
  lemma SubmitPublishesAfterCommit(t: Tables, published: seq<Message>, config: Config, payload: Option<Payload>, newId: AlertId,
                                   serverTime: int, dbNow: int, queryFails: bool, failAt: Option<nat>, publishFails: bool)
    requires newId !in t.alerts
    ensures var r := Submit(t, published, config, payload, newId, serverTime, dbNow, queryFails, failAt, publishFails);
            (r.published == published || (newId in r.tables.alerts && |r.published| == |published| + 1 &&
                                          r.published[..|published|] == published)) &&
            (r.response.Failed? ==> r.published == published) &&
            (Accepts(payload) && publishFails ==>
               var e := Evaluate(t.alerts, config, Draft(payload.value, newId, serverTime), dbNow, queryFails);
               e.Evaluated? && !Faults(failAt, |e.events|) ==> r.response == Failed && newId in r.tables.alerts)
  {
  }

  /** The stored row carries what the request sent: its source, its driver
      exactly when truthy, its metadata or `{}`, and its severity or `info`,
      unless escalation raised it to the counting source's severity. */
  lemma SubmitStoresPayload(t: Tables, published: seq<Message>, config: Config, payload: Option<Payload>, newId: AlertId,
                            serverTime: int, dbNow: int, queryFails: bool, failAt: Option<nat>, publishFails: bool)
    requires newId !in t.alerts
    ensures var r := Submit(t, published, config, payload, newId, serverTime, dbNow, queryFails, failAt, publishFails);
            newId in r.tables.alerts ==>
              Accepts(payload) &&
              var p := payload.value;
              var row := r.tables.alerts[newId];
              row.sourceType == p.sourceType.value &&
              row.driverId == (if HasDriver(p.driverId) then p.driverId else None) &&
              row.metadata == (if p.metadata.Some? then p.metadata.value else map[]) &&
              row.severity == Some(if row.status != Escalated then
                                     (if p.severity.Some? && p.severity.value != "" then p.severity.value else "info")
                                   else if p.sourceType.value == "overspeed" then "critical" else "high")
  {
  }

  /** A 201 reports the id and the status that were stored and published. */
  lemma SubmitReportsStoredStatus(t: Tables, published: seq<Message>, config: Config, payload: Option<Payload>, newId: AlertId,
                                  serverTime: int, dbNow: int, queryFails: bool, failAt: Option<nat>, publishFails: bool)
    requires newId !in t.alerts
    ensures var r := Submit(t, published, config, payload, newId, serverTime, dbNow, queryFails, failAt, publishFails);
            r.response.Accepted? ==>
              r.response.alertId == newId && newId in r.tables.alerts &&
              r.response.status == r.tables.alerts[newId].status &&
              |r.published| == |published| + 1 && r.published[|published|].alert.status == Some(r.response.status)
  {
  }

  /** Restamping events keeps their lifecycle. */
  lemma {:induction false} StoredLifecycle(evs: seq<Event>, status: Status, t: int)
    requires Lifecycle(evs, status)
    ensures Lifecycle(StoredEvents(Stamp(evs, t), t), status)
  {
    var s := StoredEvents(Stamp(evs, t), t);
    assert |s| == |evs|;
    forall i | 0 <= i < |s|
      ensures s[i].eventType == evs[i].eventType && s[i].oldStatus == evs[i].oldStatus
      ensures s[i].newStatus == evs[i].newStatus
    {
    }
  }

  /** Committing a fresh alert whose events form a lifecycle ending in its
      status keeps the store invariant. */
  lemma PersistedKeepsValid(t: Tables, a: Alert, events: seq<Event>, serverTime: int)
    requires ValidTables(t) && a.status.Some? && a.alertId !in t.alerts
    requires Lifecycle(events, a.status.value)
    ensures ValidTables(Persisted(t, a, Stamp(events, serverTime), serverTime))
  {
    assert EventsOf(t, a.alertId) == [];
    StoredLifecycle(events, a.status.value, serverTime);
  }

  /** A submission keeps the store invariant: the new alert's status is the
      end of the lifecycle its events record. */
  lemma SubmitKeepsValid(t: Tables, published: seq<Message>, config: Config, payload: Option<Payload>, newId: AlertId,
                         serverTime: int, dbNow: int, queryFails: bool, failAt: Option<nat>, publishFails: bool)
    requires ValidTables(t) && newId !in t.alerts
    ensures ValidTables(Submit(t, published, config, payload, newId, serverTime, dbNow, queryFails, failAt, publishFails).tables)
  {
    if Accepts(payload) {
      var e := Evaluate(t.alerts, config, Draft(payload.value, newId, serverTime), dbNow, queryFails);
      if e.Evaluated? {
        PersistedKeepsValid(t, e.alert.(timestamp := serverTime), e.events, serverTime);
      }
    }
  }

  /** `insertAlert`. */
  method InsertAlert(store: AlertStore, alert: Alert)
    requires alert.status.Some? && alert.alertId !in store.alerts
    modifies store
    ensures store.State() == Tables(old(store.alerts)[alert.alertId := RowOf(alert)], old(store.events))
  {
    var dbTimestamp := DbTime(alert.timestamp);
    var row := AlertRow(if HasDriver(alert.driverId) then alert.driverId else None,
                        alert.sourceType,
                        if alert.severity != "" then Some(alert.severity) else None,
                        alert.status.value,
                        dbTimestamp,
                        MetadataOrEmpty(alert.metadata));
    store.InsertAlertRow(alert.alertId, row);
  }

  /** `insertEvent`; `clock` is the time `new Date()` would give. */
  method InsertEvent(store: AlertStore, alertId: AlertId, ev: Event, clock: int)
    modifies store
    ensures store.State() == Tables(old(store.alerts),
                                    old(store.events)[alertId := EventsOf(old(store.State()), alertId) + [StoredEvent(ev, clock)]])
  {
    var evtTime := if ev.timestamp.Some? then ev.timestamp.value else clock;
    var dbTimestamp := DbTime(evtTime);
    store.InsertEventRow(alertId, ev.(timestamp := Some(dbTimestamp)));
  }

  /** The transaction of the handler: begin, insert the alert row, then
      every event in order stamped with the server time, commit; on any
      throwing statement, roll back. */
  method PersistAlert(store: AlertStore, alert: Alert, events: seq<Event>, serverTime: int, failAt: Option<nat>)
    returns (stamped: seq<Event>, committed: bool)
    requires alert.status.Some? && alert.alertId !in store.alerts && |events| > 0
    modifies store
    ensures committed == !Faults(failAt, |events|)
    ensures committed ==> stamped == Stamp(events, serverTime)
    ensures store.State() == if committed then Persisted(old(store.State()), alert, stamped, serverTime)
                             else old(store.State())
  {
    var id := alert.alertId;
    var snap := store.Begin();
    var failed := failAt == Some(0);
    if !failed {
      InsertAlert(store, alert);
    }
    stamped := [];
    var i := 0;
    while i < |events| && !failed
      invariant 0 <= i <= |events|
      invariant stamped == Stamp(events[..i], serverTime)
      invariant !failed ==> !(failAt.Some? && failAt.value <= i)
      invariant failed ==> failAt.Some? && failAt.value <= |events|
      invariant !failed ==> store.alerts == snap.alerts[id := RowOf(alert)]
      invariant !failed ==> store.events == if i == 0 then snap.events
                                            else snap.events[id := EventsOf(snap, id) + StoredEvents(stamped, serverTime)]
      decreases |events| - i, if failed then 0 else 1
    {
      var ev := events[i].(timestamp := Some(serverTime));
      if failAt == Some(i + 1) {
        failed := true;
      } else {
        assert EventsOf(store.State(), id) == EventsOf(snap, id) + StoredEvents(stamped, serverTime);
        InsertEvent(store, id, ev, serverTime);
        assert StoredEvents(stamped + [ev], serverTime) == StoredEvents(stamped, serverTime) + [StoredEvent(ev, serverTime)];
        assert EventsOf(snap, id) + StoredEvents(stamped, serverTime) + [StoredEvent(ev, serverTime)]
            == EventsOf(snap, id) + StoredEvents(stamped + [ev], serverTime);
        stamped := stamped + [ev];
        assert events[..i + 1] == events[..i] + [events[i]];
        i := i + 1;
      }
    }
    if !failed && failAt == Some(|events| + 1) {
      failed := true;
    }
    if failed {
      store.Rollback(snap);
      committed := false;
    } else {
      assert events[..i] == events;
      committed := true;
    }
  }

  /** The `/process-alert` handler. `serverTime` is `new Date()`, `dbNow` the
      store's `NOW()`, `queryFails` a failing count query, `failAt` the
      statement of the transaction that throws, `publishFails` a throwing
      `producer.send`. */
  method ProcessAlert(store: AlertStore, bus: Bus, config: Config, payload: Option<Payload>, newId: AlertId,
                      serverTime: int, dbNow: int, queryFails: bool, failAt: Option<nat>, publishFails: bool)
    returns (resp: Response)
    requires newId !in store.alerts
    modifies store, bus
    ensures Submitted(store.State(), bus.published, resp)
            == Submit(old(store.State()), old(bus.published), config, payload, newId,
                      serverTime, dbNow, queryFails, failAt, publishFails)
  {
    if !Accepts(payload) {
      return Invalid;
    }
    var alert := Draft(payload.value, newId, serverTime);
    var e := EvaluateAlert(store, config, alert, dbNow, queryFails);
    if e.EvalFailed? {
      return Failed;
    }
    var evaluated := e.alert.(timestamp := serverTime);
    var stamped, committed := PersistAlert(store, evaluated, e.events, serverTime, failAt);
    if !committed {
      return StoreFailed;
    }
    var ok := bus.Send(Message(newId, evaluated, stamped), publishFails);
    if !ok {
      return Failed;
    }
    resp := Accepted(newId, evaluated.status.value);
  }

  /** A submission whose evaluation succeeds, whose transaction does not
      fail and whose publication succeeds stores the alert and its events,
      publishes them, and answers 201 with the decided status. */
  lemma SubmitSucceeds(t: Tables, published: seq<Message>, config: Config, p: Payload, newId: AlertId,
                       serverTime: int, dbNow: int, a: Alert, events: seq<Event>)
    requires newId !in t.alerts && Accepts(Some(p))
    requires Evaluate(t.alerts, config, Draft(p, newId, serverTime), dbNow, false) == Evaluated(a, events)
    ensures var a' := a.(timestamp := serverTime);
            a'.status.Some? &&
            Submit(t, published, config, Some(p), newId, serverTime, dbNow, false, None, false)
            == Submitted(Persisted(t, a', Stamp(events, serverTime), serverTime),
                         published + [Message(newId, a', Stamp(events, serverTime))],
                         Accepted(newId, a'.status.value))
  {
  }

  /** The overspeed rule for driver `d` with window 10 and threshold 3, when
      `prior` matching alerts are in the window. */
  lemma OverspeedEvaluates(rows: map<AlertId, AlertRow>, config: Config, d: string, id: AlertId, time: int, dbNow: int)
    requires d != ""
    requires RulesFor(config, "overspeed").windowMins == Some(10)
    requires RulesFor(config, "overspeed").escalateIfCount == Some(3)
    ensures var draft := Draft(Payload(Some("overspeed"), None, Some(d), None), id, time);
            var total := WindowCount(rows, d, "overspeed", WindowStart(dbNow, 10)) + 1;
            Evaluate(rows, config, draft, dbNow, false)
            == if total >= 3
               then Evaluated(draft.(severity := "critical", status := Some(Escalated)),
                              [Created, Event(EscalatedEvent, Some(Open), Escalated, TotalMeta(total), None)])
               else Evaluated(draft.(status := Some(Open)), [Created])
  {
    var draft := Draft(Payload(Some("overspeed"), None, Some(d), None), id, time);
    assert draft == Alert(id, "overspeed", "info", time, Some(d), Some(map[]), None);
    assert Evaluate(rows, config, draft, dbNow, false)
           == EvalCounting(rows, draft, RulesFor(config, "overspeed"), dbNow, Overspeed, false);
  }

  /** The row an overspeed alert of driver `d` submitted at `time` is
      stored as, escalated or not. */
  function OverspeedRow(d: string, time: int, escalated: bool): (r: AlertRow)
  {
    AlertRow(Some(d), "overspeed", Some(if escalated then "critical" else "info"),
             if escalated then Escalated else Open, DbTime(time), map[])
  }

  /** The history such an alert is stored with. */
  function OverspeedHistory(time: int, total: int, escalated: bool): (r: seq<Event>)
  {
    var created := Created.(timestamp := Some(DbTime(time)));
    if escalated then [created, Event(EscalatedEvent, Some(Open), Escalated, TotalMeta(total), Some(DbTime(time)))]
    else [created]
  }

  /** What committing the evaluated overspeed alert writes. */
  lemma OverspeedPersisted(t: Tables, d: string, id: AlertId, time: int, total: int)
    requires d != "" && id !in t.events
    ensures var draft := Draft(Payload(Some("overspeed"), None, Some(d), None), id, time);
            var a := if total >= 3 then draft.(severity := "critical", status := Some(Escalated))
                     else draft.(status := Some(Open));
            var evs := if total >= 3 then [Created, Event(EscalatedEvent, Some(Open), Escalated, TotalMeta(total), None)]
                       else [Created];
            Persisted(t, a.(timestamp := time), Stamp(evs, time), time)
            == Tables(t.alerts[id := OverspeedRow(d, time, total >= 3)],
                      t.events[id := OverspeedHistory(time, total, total >= 3)])
  {
    assert EventsOf(t, id) == [];
    var draft := Draft(Payload(Some("overspeed"), None, Some(d), None), id, time);
    assert draft == Alert(id, "overspeed", "info", time, Some(d), Some(map[]), None);
    var a := if total >= 3 then draft.(severity := "critical", status := Some(Escalated))
             else draft.(status := Some(Open));
    assert RowOf(a.(timestamp := time)) == OverspeedRow(d, time, total >= 3);
    var evs := if total >= 3 then [Created, Event(EscalatedEvent, Some(Open), Escalated, TotalMeta(total), None)]
               else [Created];
    var stored := StoredEvents(Stamp(evs, time), time);
    assert |stored| == |OverspeedHistory(time, total, total >= 3)|;
    assert forall i | 0 <= i < |stored| :: stored[i] == OverspeedHistory(time, total, total >= 3)[i];
    assert [] + stored == OverspeedHistory(time, total, total >= 3);
  }

  /** One overspeed submission for driver `d` at `time`, with the store's
      clock agreeing with the stored timestamps, when `prior` matching
      alerts are in the 10-minute window: it is stored and answered OPEN,
      or ESCALATED with severity `critical` once `prior + 1` reaches 3, and
      nothing else in the tables changes. */
  lemma {:induction false} OverspeedSubmit(t: Tables, published: seq<Message>, config: Config, d: string,
                                           id: AlertId, time: int, prior: nat)
    requires d != "" && id !in t.alerts && id !in t.events
    requires RulesFor(config, "overspeed").windowMins == Some(10)
    requires RulesFor(config, "overspeed").escalateIfCount == Some(3)
    requires WindowCount(t.alerts, d, "overspeed", WindowStart(DbTime(time), 10)) == prior
    ensures var r := Submit(t, published, config, Some(Payload(Some("overspeed"), None, Some(d), None)), id,
                            time, DbTime(time), false, None, false);
            r.response == Accepted(id, if prior + 1 >= 3 then Escalated else Open) &&
            r.tables == Tables(t.alerts[id := OverspeedRow(d, time, prior + 1 >= 3)],
                               t.events[id := OverspeedHistory(time, prior + 1, prior + 1 >= 3)])
  {
    var p := Payload(Some("overspeed"), None, Some(d), None);
    OverspeedEvaluates(t.alerts, config, d, id, time, DbTime(time));
    var e := Evaluate(t.alerts, config, Draft(p, id, time), DbTime(time), false);
    SubmitSucceeds(t, published, config, p, id, time, DbTime(time), e.alert, e.events);
    OverspeedPersisted(t, d, id, time, prior + 1);
    if prior + 1 >= 3 {
      assert e.alert.status == Some(Escalated);
    } else {
      assert e.alert.status == Some(Open);
    }
  }

  /** The first two of three overspeed alerts for one driver inside the
      window both stay OPEN, and leave the two rows the third one counts. */
  lemma {:induction false} FirstTwoOverspeedsOpen(config: Config, d: string, id1: AlertId, id2: AlertId, t1: int, t2: int)
    requires d != "" && id1 != id2
    requires RulesFor(config, "overspeed").windowMins == Some(10)
    requires RulesFor(config, "overspeed").escalateIfCount == Some(3)
    requires t1 <= t2 <= t1 + 10 * MinuteMs
    ensures var p := Some(Payload(Some("overspeed"), None, Some(d), None));
            var s1 := Submit(Tables(map[], map[]), [], config, p, id1, t1, DbTime(t1), false, None, false);
            var s2 := Submit(s1.tables, s1.published, config, p, id2, t2, DbTime(t2), false, None, false);
            s1.response == Accepted(id1, Open) && s2.response == Accepted(id2, Open) &&
            s2.tables == Tables(map[id1 := OverspeedRow(d, t1, false), id2 := OverspeedRow(d, t2, false)],
                                map[id1 := OverspeedHistory(t1, 1, false), id2 := OverspeedHistory(t2, 2, false)])
  {
    var p := Some(Payload(Some("overspeed"), None, Some(d), None));
    var t0 := Tables(map[], map[]);
    var s1 := Submit(t0, [], config, p, id1, t1, DbTime(t1), false, None, false);
    OverspeedSubmit(t0, [], config, d, id1, t1, 0);
    CountInsert(t0.alerts, id1, OverspeedRow(d, t1, false), d, "overspeed", WindowStart(DbTime(t2), 10));
    OverspeedSubmit(s1.tables, s1.published, config, d, id2, t2, 1);
  }

  /** Three overspeed alerts for one driver inside a 10-minute window with a
      threshold of 3, timed consistently with the stored timestamps: the
      first two stay OPEN and the third escalates, so the store ends up with
      two OPEN `info` rows with history CREATED and one ESCALATED `critical`
      row with history CREATED then ESCALATED carrying `total == 3`. */
  lemma {:induction false} ThirdOverspeedEscalates(config: Config, d: string, id1: AlertId, id2: AlertId, id3: AlertId,
                                                   t1: int, t2: int, t3: int)
    requires d != ""
    requires RulesFor(config, "overspeed").windowMins == Some(10)
    requires RulesFor(config, "overspeed").escalateIfCount == Some(3)
    requires id1 != id2 && id2 != id3 && id1 != id3
    requires t1 <= t2 <= t3 <= t1 + 10 * MinuteMs
    ensures var p := Some(Payload(Some("overspeed"), None, Some(d), None));
            var s1 := Submit(Tables(map[], map[]), [], config, p, id1, t1, DbTime(t1), false, None, false);
            var s2 := Submit(s1.tables, s1.published, config, p, id2, t2, DbTime(t2), false, None, false);
            var s3 := Submit(s2.tables, s2.published, config, p, id3, t3, DbTime(t3), false, None, false);
            s1.response == Accepted(id1, Open) && s2.response == Accepted(id2, Open) &&
            s3.response == Accepted(id3, Escalated) &&
            s3.tables == Tables(map[id1 := OverspeedRow(d, t1, false), id2 := OverspeedRow(d, t2, false),
                                    id3 := OverspeedRow(d, t3, true)],
                                map[id1 := OverspeedHistory(t1, 1, false), id2 := OverspeedHistory(t2, 2, false),
                                    id3 := OverspeedHistory(t3, 3, true)])
  {
    var p := Some(Payload(Some("overspeed"), None, Some(d), None));
    var s1 := Submit(Tables(map[], map[]), [], config, p, id1, t1, DbTime(t1), false, None, false);
    var s2 := Submit(s1.tables, s1.published, config, p, id2, t2, DbTime(t2), false, None, false);
    FirstTwoOverspeedsOpen(config, d, id1, id2, t1, t2);
    TwoCounted(d, id1, id2, t1, t2, t3);
    OverspeedSubmit(s2.tables, s2.published, config, d, id3, t3, 2);
  }

  /** Two stored overspeed rows of the driver, stamped inside the window of
      an alert at `t3`, make the count 2. */
  lemma TwoCounted(d: string, id1: AlertId, id2: AlertId, t1: int, t2: int, t3: int)
    requires id1 != id2 && t1 <= t2 <= t3 <= t1 + 10 * MinuteMs
    ensures WindowCount(map[id1 := OverspeedRow(d, t1, false), id2 := OverspeedRow(d, t2, false)],
                        d, "overspeed", WindowStart(DbTime(t3), 10)) == 2
  {
    var r1, r2 := OverspeedRow(d, t1, false), OverspeedRow(d, t2, false);
    var cutoff := WindowStart(DbTime(t3), 10);
    CountInsert(map[], id1, r1, d, "overspeed", cutoff);
    CountInsert(map[id1 := r1], id2, r2, d, "overspeed", cutoff);
  }
}
