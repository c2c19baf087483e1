/** The retention workers: `autoClose` moves stale OPEN and ESCALATED alerts
    to AUTO_CLOSED, `autoDelete` removes AUTO_CLOSED alerts after a grace
    period. Each alert is handled in its own transaction, and a failure on
    one alert rolls back only that alert. */
module Workers {
  import opened Alerts
  import opened Clock
  import opened Store

  /** `DELETE_AFTER_MINUTES`. */
  const DeleteAfterMinutes := 5

  // ---------------------------------------------------------------------
  // Auto-close

  /** The auto-close query for one source: `source_type = src AND status IN
      ('OPEN', 'ESCALATED') AND timestamp <= shift(now - mins)`. */
  predicate DueUnder(a: AlertRow, src: string, mins: int, now: int)
  {
    a.sourceType == src && (a.status == Open || a.status == Escalated) &&
    a.timestamp <= DbTime(now - mins * MinuteMs)
  }

  /** A rules entry selects the alert: it has a truthy
      `auto_close_after_mins` and the alert matches its query. */
  predicate ClosesUnder(a: AlertRow, entry: (string, SourceRules), now: int)
  {
    Truthy(entry.1.autoCloseAfterMins) && DueUnder(a, entry.0, entry.1.autoCloseAfterMins.value, now)
  }

  /** Some entry of the rules selects the alert. */
  predicate DueForClose(a: AlertRow, config: Config, now: int)
  {
    exists j :: 0 <= j < |config| && ClosesUnder(a, config[j], now)
  }

  /** The row after `UPDATE alerts SET status='AUTO_CLOSED', timestamp=shift(now)`. */
  function Close(a: AlertRow, now: int): (r: AlertRow)
  {
    a.(status := AutoClosed, timestamp := DbTime(now))
  }

  /** The event the worker logs: prior status -> AUTO_CLOSED,
      `{reason: 'timeout', src}`, stamped shift(now). */
  function CloseEvent(prior: Status, src: string, now: int): (r: Event)
  {
    Event(AutoClosedEvent, Some(prior), AutoClosed, ReasonMeta("timeout", Some(src)), Some(DbTime(now)))
  }

  /** The tables once each alert of `ids` is closed and has its event. */
  function CloseAll(t: Tables, ids: set<AlertId>, now: int): (r: Tables)
  {
    Tables(map id | id in t.alerts :: if id in ids then Close(t.alerts[id], now) else t.alerts[id],
           map id | id in t.events.Keys + (ids * t.alerts.Keys) ::
             if id in ids && id in t.alerts
             then EventsOf(t, id) + [CloseEvent(t.alerts[id].status, t.alerts[id].sourceType, now)]
             else t.events[id])
  }

  /** The ids one source's query selects. */
  function Selected(t: Tables, src: string, mins: int, now: int): (s: set<AlertId>)
    ensures s <= t.alerts.Keys
    ensures forall id :: id in s ==> t.alerts[id].status != AutoClosed
  {
    set id | id in t.alerts && DueUnder(t.alerts[id], src, mins, now)
  }

  /** One iteration of the outer loop: a source without a truthy
      `auto_close_after_mins` is skipped; otherwise its selected alerts are
      closed, except those whose transaction fails. */
  function CloseStep(t: Tables, entry: (string, SourceRules), now: int, faulty: set<AlertId>): (r: Tables)
  {
    if !Truthy(entry.1.autoCloseAfterMins) then t
    else CloseAll(t, Selected(t, entry.0, entry.1.autoCloseAfterMins.value, now) - faulty, now)
  }

  /** A whole tick over the rules entries in order. */
  function AutoCloseSpec(t: Tables, config: Config, now: int, faulty: set<AlertId>): (r: Tables)
    decreases |config|
  {
    if config == [] then t
    else AutoCloseSpec(CloseStep(t, config[0], now, faulty), config[1..], now, faulty)
  }

  /** The alerts a tick should close: those some entry selects, minus the
      failing ones. */
  function DueIds(t: Tables, config: Config, now: int, faulty: set<AlertId>): (s: set<AlertId>)
    ensures s <= t.alerts.Keys && s !! faulty
  {
    set id | id in t.alerts && id !in faulty && DueForClose(t.alerts[id], config, now)
  }

  /** The tables once one alert, whose selected status was `prior`, is
      closed and has its event. */
  function CloseOneIn(t: Tables, id: AlertId, prior: Status, src: string, now: int): (r: Tables)
    requires id in t.alerts
  {
    Tables(t.alerts[id := Close(t.alerts[id], now)],
           t.events[id := EventsOf(t, id) + [CloseEvent(prior, src, now)]])
  }

  /** Closing one more alert, not yet closed. */
  lemma CloseAllAdd(t: Tables, ids: set<AlertId>, id: AlertId, now: int)
    requires id in t.alerts && id !in ids
    ensures var s := CloseAll(t, ids, now);
            id in s.alerts && s.alerts[id] == t.alerts[id] &&
            CloseAll(t, ids + {id}, now) == CloseOneIn(s, id, t.alerts[id].status, t.alerts[id].sourceType, now)
  {
    var s := CloseAll(t, ids, now);
    var l := CloseAll(t, ids + {id}, now);
    var r := Tables(s.alerts[id := Close(t.alerts[id], now)],
                    s.events[id := EventsOf(s, id) + [CloseEvent(t.alerts[id].status, t.alerts[id].sourceType, now)]]);
    assert EventsOf(s, id) == EventsOf(t, id);
    assert l.alerts == r.alerts;
    assert l.events.Keys == r.events.Keys;
    assert l.events == r.events;
  }

  /** Closing two disjoint sets one after the other is closing their union,
      provided the second set is untouched by the first. */
  lemma CloseAllCompose(t: Tables, a: set<AlertId>, b: set<AlertId>, now: int)
    requires a !! b
    ensures CloseAll(CloseAll(t, a, now), b, now) == CloseAll(t, a + b, now)
  {
    var s := CloseAll(t, a, now);
    var l := CloseAll(s, b, now);
    var r := CloseAll(t, a + b, now);
    assert l.alerts == r.alerts;
    forall id | id in b && id in t.alerts
      ensures EventsOf(s, id) == EventsOf(t, id)
    {
      assert id !in a;
    }
    assert l.events.Keys == r.events.Keys;
    assert l.events == r.events;
  }

  /** Closing nothing changes nothing. */
  lemma CloseNone(t: Tables, now: int)
    ensures CloseAll(t, {}, now) == t
  {
    var s := CloseAll(t, {}, now);
    assert s.alerts == t.alerts;
    assert s.events == t.events;
  }

  /** An AUTO_CLOSED alert is selected by no entry. */
  lemma ClosedNotDue(a: AlertRow, config: Config, now: int)
    requires a.status == AutoClosed
    ensures !DueForClose(a, config, now)
  {
    forall j | 0 <= j < |config| ensures !ClosesUnder(a, config[j], now) { }
  }

  /** Some entry selects the alert exactly when the first one or a later one does. */
  lemma DueCons(a: AlertRow, config: Config, now: int)
    requires config != []
    ensures DueForClose(a, config, now) <==> ClosesUnder(a, config[0], now) || DueForClose(a, config[1..], now)
  {
    if DueForClose(a, config, now) {
      var j :| 0 <= j < |config| && ClosesUnder(a, config[j], now);
      if j > 0 {
        assert config[1..][j - 1] == config[j];
      }
    }
    if DueForClose(a, config[1..], now) {
      var j :| 0 <= j < |config[1..]| && ClosesUnder(a, config[1..][j], now);
      assert config[j + 1] == config[1..][j];
    }
  }

  /** A tick closes exactly the alerts some entry selects, minus the failing
      ones, whatever the order of the entries: the entries of one tick never
      interfere, since a closed alert is no longer selected and the event
      records the alert's own source. */
  lemma {:induction false} AutoCloseClosesDue(t: Tables, config: Config, now: int, faulty: set<AlertId>)
    ensures AutoCloseSpec(t, config, now, faulty) == CloseAll(t, DueIds(t, config, now, faulty), now)
    decreases |config|
  {
    if config == [] {
      assert DueIds(t, config, now, faulty) == {};
      CloseNone(t, now);
    } else {
      var e := config[0];
      var rest := config[1..];
      var t1 := CloseStep(t, e, now, faulty);
      var first := if Truthy(e.1.autoCloseAfterMins) then Selected(t, e.0, e.1.autoCloseAfterMins.value, now) - faulty else {};
      if !Truthy(e.1.autoCloseAfterMins) {
        CloseNone(t, now);
      }
      assert t1 == CloseAll(t, first, now);
      AutoCloseClosesDue(t1, rest, now, faulty);
      var second := DueIds(t1, rest, now, faulty);
      assert first !! second by {
        forall id | id in first ensures id !in second {
          ClosedNotDue(t1.alerts[id], rest, now);
        }
      }
      CloseAllCompose(t, first, second, now);
      forall id | id in t.alerts
        ensures id in first + second <==> id in DueIds(t, config, now, faulty)
      {
        DueCons(t.alerts[id], config, now);
        if id !in first {
          assert t1.alerts[id] == t.alerts[id];
        }
      }
      assert first + second == DueIds(t, config, now, faulty);
    }
  }

  /** Closing keeps the store invariant: the appended event leaves the
      alert's previous status. */
  lemma CloseAllKeepsValid(t: Tables, ids: set<AlertId>, now: int)
    requires ValidTables(t)
    ensures ValidTables(CloseAll(t, ids, now))
  {
    var s := CloseAll(t, ids, now);
    assert s.events.Keys == s.alerts.Keys;
    forall id | id in s.alerts
      ensures Lifecycle(s.events[id], s.alerts[id].status)
    {
      if id in ids {
        LifecycleExtend(t.events[id], t.alerts[id].status,
                        CloseEvent(t.alerts[id].status, t.alerts[id].sourceType, now));
      }
    }
  }

  /** A tick closes exactly the due alerts: each gets status AUTO_CLOSED,
      the tick's shifted time and one appended AUTO_CLOSED event recording
      its prior status; every other alert and its events are untouched, and
      no alert appears or disappears. */
  lemma AutoCloseEffect(t: Tables, config: Config, now: int, faulty: set<AlertId>, id: AlertId)
    requires ValidTables(t) && id in t.alerts
    ensures var r := AutoCloseSpec(t, config, now, faulty);
            ValidTables(r) && r.alerts.Keys == t.alerts.Keys &&
            if id !in faulty && DueForClose(t.alerts[id], config, now) then
              r.alerts[id] == t.alerts[id].(status := AutoClosed, timestamp := DbTime(now)) &&
              r.events[id] == t.events[id] + [Event(AutoClosedEvent, Some(t.alerts[id].status), AutoClosed,
                                                    ReasonMeta("timeout", Some(t.alerts[id].sourceType)), Some(DbTime(now)))]
            else
              r.alerts[id] == t.alerts[id] && r.events[id] == t.events[id]
  {
    AutoCloseClosesDue(t, config, now, faulty);
    CloseAllKeepsValid(t, DueIds(t, config, now, faulty), now);
  }

  /** After a tick without failures, nothing is due any more at that
      instant. */
  lemma AutoCloseLeavesNothingDue(t: Tables, config: Config, now: int)
    ensures DueIds(AutoCloseSpec(t, config, now, {}), config, now, {}) == {}
  {
    var once := AutoCloseSpec(t, config, now, {});
    AutoCloseClosesDue(t, config, now, {});
    forall id | id in once.alerts
      ensures !DueForClose(once.alerts[id], config, now)
    {
      if id in DueIds(t, config, now, {}) {
        ClosedNotDue(once.alerts[id], config, now);
      } else {
        assert once.alerts[id] == t.alerts[id];
      }
    }
  }

  /** Idempotence: once a tick has run without failures, another tick at the
      same instant closes nothing. */
  lemma AutoCloseIdempotent(t: Tables, config: Config, now: int, faulty: set<AlertId>)
    ensures var once := AutoCloseSpec(t, config, now, {});
            AutoCloseSpec(once, config, now, faulty) == once
  {
    var once := AutoCloseSpec(t, config, now, {});
    AutoCloseLeavesNothingDue(t, config, now);
    AutoCloseClosesDue(once, config, now, faulty);
    assert DueIds(once, config, now, faulty) <= DueIds(once, config, now, {});
    CloseNone(once, now);
  }

  /** A candidate stays a candidate: an alert one source's query selects at
      `now` is selected at every later instant, the row unchanged. */
  lemma SelectedGrows(t: Tables, src: string, mins: int, now: int, later: int)
    requires now <= later
    ensures Selected(t, src, mins, now) <= Selected(t, src, mins, later)
  {
    ShiftPreservesOrder(now - mins * MinuteMs, later - mins * MinuteMs);
  }

  /** An alert already AUTO_CLOSED is left alone by any later tick, at any
      time, with any failures. */
  lemma AutoCloseSkipsClosed(t: Tables, config: Config, now: int, faulty: set<AlertId>, id: AlertId)
    requires id in t.alerts && t.alerts[id].status == AutoClosed
    ensures var r := AutoCloseSpec(t, config, now, faulty);
            id in r.alerts && r.alerts[id] == t.alerts[id] && EventsOf(r, id) == EventsOf(t, id)
  {
    AutoCloseClosesDue(t, config, now, faulty);
    ClosedNotDue(t.alerts[id], config, now);
  }

  /** Auto-close re-stamps the row, so an alert closed at `now` is counted by
      every later windowed count of its driver and source whose cutoff is at
      or before the shifted `now`, however long ago it was created. */
  lemma AutoCloseRestamps(t: Tables, config: Config, now: int, faulty: set<AlertId>, id: AlertId,
                          driver: string, cutoff: int)
    requires ValidTables(t) && id in t.alerts && id !in faulty && DueForClose(t.alerts[id], config, now)
    requires t.alerts[id].driverId == Some(driver) && cutoff <= DbTime(now)
    ensures var r := AutoCloseSpec(t, config, now, faulty);
            id in r.alerts && Counted(r.alerts[id], driver, t.alerts[id].sourceType, cutoff)
  {
    AutoCloseEffect(t, config, now, faulty, id);
  }

  /** One candidate's transaction in `autoClose`: update the row, log the
      event, commit; when a statement throws (`fails`), roll back. */
  method CloseOne(store: AlertStore, id: AlertId, prior: Status, src: string, now: int, fails: bool)
    requires id in store.alerts
    modifies store
    ensures store.State() == if fails then old(store.State()) else CloseOneIn(old(store.State()), id, prior, src, now)
  {
    var snap := store.Begin();
    var shiftedNow := DbTime(now);
    store.UpdateClosed(id, shiftedNow);
    if fails {
      store.Rollback(snap);
    } else {
      store.InsertEventRow(id, Event(AutoClosedEvent, Some(prior), AutoClosed,
                                     ReasonMeta("timeout", Some(src)), Some(shiftedNow)));
    }
  }

  /** The rows the per-source query returns: each candidate with its status. */
  function Candidates(t: Tables, src: string, mins: int, now: int): (rows: map<AlertId, Status>)
    ensures rows.Keys == Selected(t, src, mins, now)
  {
    map id | id in t.alerts && DueUnder(t.alerts[id], src, mins, now) :: t.alerts[id].status
  }

  /** One more candidate handled by the per-source loop: a failing one
      leaves the tables as they were, any other is closed. */
  lemma CloseSourceStep(t0: Tables, all: set<AlertId>, todo: set<AlertId>, faulty: set<AlertId>, id: AlertId, now: int)
    requires id in t0.alerts && id in todo
    ensures var s := CloseAll(t0, (all - todo) - faulty, now);
            id in s.alerts &&
            CloseAll(t0, (all - (todo - {id})) - faulty, now)
            == if id in faulty || id !in all then s
               else CloseOneIn(s, id, t0.alerts[id].status, t0.alerts[id].sourceType, now)
  {
    var before := (all - todo) - faulty;
    if id in faulty || id !in all {
      assert (all - (todo - {id})) - faulty == before;
    } else {
      CloseAllAdd(t0, before, id, now);
      assert (all - (todo - {id})) - faulty == before + {id};
    }
  }

  /** The per-source part of `autoClose`: select the candidates with their
      status, then close each in its own transaction; a candidate in
      `faulty` has its transaction fail after the update, and is rolled back. */
  method CloseSource(store: AlertStore, src: string, mins: int, now: int, faulty: set<AlertId>)
    modifies store
    ensures store.State() == CloseAll(old(store.State()), Selected(old(store.State()), src, mins, now) - faulty, now)
  {
    ghost var t0 := store.State();
    var rows := Candidates(store.State(), src, mins, now);
    var todo := rows.Keys;
    NothingDone(t0, rows.Keys, faulty, now);
    while todo != {}
      invariant todo <= rows.Keys
      invariant store.State() == CloseAll(t0, (rows.Keys - todo) - faulty, now)
      decreases |todo|
    {
      var id :| id in todo;
      CloseCandidate(store, t0, todo, faulty, rows, id, src, mins, now);
      todo := todo - {id};
    }
    AllDone(t0, rows.Keys, todo, faulty, now);
  }

  /** Before the loop, no candidate is handled. */
  lemma NothingDone(t0: Tables, all: set<AlertId>, faulty: set<AlertId>, now: int)
    ensures CloseAll(t0, (all - all) - faulty, now) == t0
  {
    assert (all - all) - faulty == {};
    CloseNone(t0, now);
  }

  /** After the loop, every candidate is handled. */
  lemma AllDone(t0: Tables, all: set<AlertId>, todo: set<AlertId>, faulty: set<AlertId>, now: int)
    requires todo == {}
    ensures CloseAll(t0, (all - todo) - faulty, now) == CloseAll(t0, all - faulty, now)
  {
    assert all - todo == all;
  }

  /** The body of the per-source loop, for candidate `id` of the rows the
      query returned on tables `t0`, while `todo` is left. */
  method CloseCandidate(store: AlertStore, ghost t0: Tables, ghost todo: set<AlertId>, faulty: set<AlertId>,
                        rows: map<AlertId, Status>, id: AlertId, src: string, ghost mins: int, now: int)
    requires rows == Candidates(t0, src, mins, now) && id in rows && id in todo
    requires store.State() == CloseAll(t0, (rows.Keys - todo) - faulty, now)
    modifies store
    ensures store.State() == CloseAll(t0, (rows.Keys - (todo - {id})) - faulty, now)
  {
    CloseSourceStep(t0, rows.Keys, todo, faulty, id, now);
    assert rows[id] == t0.alerts[id].status && t0.alerts[id].sourceType == src;
    CloseOne(store, id, rows[id], src, now, id in faulty);
  }

  /** The entries a tick gets through: all of them, or those before the
      entry whose query throws, which ends the tick. */
  function Scanned(config: Config, scanFailsAt: Option<nat>): (s: Config)
    ensures |s| <= |config| && s == config[..|s|]
    ensures scanFailsAt.None? ==> s == config
  {
    if scanFailsAt.Some? && scanFailsAt.value < |config| then config[..scanFailsAt.value] else config
  }

  /** `autoClose`: one tick at instant `now`. */
  method AutoClose(store: AlertStore, config: Config, now: int, faulty: set<AlertId>, scanFailsAt: Option<nat>)
    modifies store
    ensures store.State() == AutoCloseSpec(old(store.State()), Scanned(config, scanFailsAt), now, faulty)
    ensures old(store.Valid()) ==> store.Valid()
  {
    ghost var t0 := store.State();
    var entries := Scanned(config, scanFailsAt);
    var i := 0;
    while i < |entries|
      invariant 0 <= i <= |entries|
      invariant AutoCloseSpec(store.State(), entries[i..], now, faulty) == AutoCloseSpec(t0, entries, now, faulty)
    {
      var (src, cfg) := entries[i];
      assert entries[i..][1..] == entries[i + 1..];
      if Truthy(cfg.autoCloseAfterMins) {
        var mins := cfg.autoCloseAfterMins.value;
        CloseSource(store, src, mins, now, faulty);
      }
      i := i + 1;
    }
    AutoCloseClosesDue(t0, entries, now, faulty);
    if ValidTables(t0) {
      CloseAllKeepsValid(t0, DueIds(t0, entries, now, faulty), now);
    }
  }

  // ---------------------------------------------------------------------
  // Auto-delete

  /** The auto-delete query: `status = 'AUTO_CLOSED' AND timestamp <=
      shift(now - 5 min)`. */
  predicate Deletable(a: AlertRow, now: int)
  {
    a.status == AutoClosed && a.timestamp <= DbTime(now - DeleteAfterMinutes * MinuteMs)
  }

  function DeletableIds(t: Tables, now: int): (s: set<AlertId>)
    ensures s <= t.alerts.Keys
    ensures forall id :: id in s ==> t.alerts[id].status == AutoClosed
  {
    set id | id in t.alerts && Deletable(t.alerts[id], now)
  }

  /** Within one state of the tables the two workers never pick the same
      alert: auto-close only picks OPEN or ESCALATED alerts, auto-delete only
      AUTO_CLOSED ones. */
  lemma CloseDeleteDisjoint(t: Tables, config: Config, now: int, later: int, faulty: set<AlertId>)
    ensures forall id :: id in DueIds(t, config, now, faulty) ==> t.alerts[id].status != AutoClosed
    ensures forall id :: id in DeletableIds(t, later) ==> t.alerts[id].status == AutoClosed
    ensures DueIds(t, config, now, faulty) !! DeletableIds(t, later)
  {
    forall id | id in DueIds(t, config, now, faulty)
      ensures t.alerts[id].status != AutoClosed
    {
      if t.alerts[id].status == AutoClosed {
        ClosedNotDue(t.alerts[id], config, now);
      }
    }
  }

  /** The tables once each alert of `ids` and all its events are gone. */
  function DeleteAll(t: Tables, ids: set<AlertId>): (r: Tables)
  {
    Tables(t.alerts - ids, t.events - ids)
  }

  /** A tick of `autoDelete`: nothing when the query throws; otherwise every
      selected alert is deleted with its events, except the failing ones. */
  function AutoDeleteSpec(t: Tables, now: int, faulty: set<AlertId>, scanFails: bool): (r: Tables)
  {
    if scanFails then t else DeleteAll(t, DeletableIds(t, now) - faulty)
  }

  /** Deletion removes exactly the selected, non-failing alerts with all
      their events, keeps the store invariant, and changes no other row. */
  lemma AutoDeleteEffect(t: Tables, now: int, faulty: set<AlertId>, scanFails: bool)
    requires ValidTables(t)
    ensures var r := AutoDeleteSpec(t, now, faulty, scanFails);
            ValidTables(r) &&
            (forall id :: id in r.alerts <==> id in t.alerts && (scanFails || !Deletable(t.alerts[id], now) || id in faulty)) &&
            (forall id :: id !in r.alerts ==> EventsOf(r, id) == []) &&
            (forall id :: id in r.alerts ==> r.alerts[id] == t.alerts[id] && r.events[id] == t.events[id])
  {
  }

  /** Retention: an alert auto-closed at instant `closedAt` is selected for
      deletion at `now` exactly when five minutes have passed. */
  lemma RetentionBoundary(a: AlertRow, closedAt: int, now: int)
    ensures Deletable(Close(a, closedAt), now) <==> now >= closedAt + DeleteAfterMinutes * MinuteMs
  {
  }

  /** An alert a tick auto-closes at `closedAt` survives every deletion tick
      earlier than five minutes later. */
  lemma NoEarlyDeletion(t: Tables, config: Config, closedAt: int, faulty: set<AlertId>, id: AlertId,
                        now: int, deleteFaulty: set<AlertId>, scanFails: bool)
    requires ValidTables(t) && id in t.alerts && id !in faulty && DueForClose(t.alerts[id], config, closedAt)
    requires now < closedAt + DeleteAfterMinutes * MinuteMs
    ensures id in AutoDeleteSpec(AutoCloseSpec(t, config, closedAt, faulty), now, deleteFaulty, scanFails).alerts
  {
    AutoCloseEffect(t, config, closedAt, faulty, id);
    RetentionBoundary(t.alerts[id], closedAt, now);
  }

  /** Deleting one more alert after a set of them. */
  lemma DeleteAllAdd(t: Tables, ids: set<AlertId>, id: AlertId)
    ensures var s := DeleteAll(t, ids);
            DeleteAll(t, ids + {id}) == Tables(s.alerts - {id}, s.events - {id})
  {
    assert t.alerts - (ids + {id}) == (t.alerts - ids) - {id};
    assert t.events - (ids + {id}) == (t.events - ids) - {id};
  }

  /** One candidate's transaction in `autoDelete`: delete its events, then
      its row, commit; when a statement throws (`fails`), roll back. */
  method DeleteOne(store: AlertStore, id: AlertId, fails: bool)
    modifies store
    ensures fails ==> store.State() == old(store.State())
    ensures !fails ==> store.State() == Tables(old(store.alerts) - {id}, old(store.events) - {id})
  {
    var snap := store.Begin();
    store.DeleteEvents(id);
    if fails {
      store.Rollback(snap);
    } else {
      store.DeleteAlert(id);
    }
  }

  /** One more candidate handled by the deletion loop: a failing one leaves
      the tables as they were, any other is gone with its events. */
  lemma DeleteStep(t0: Tables, all: set<AlertId>, todo: set<AlertId>, faulty: set<AlertId>, id: AlertId)
    requires id in todo && id in all
    ensures var s := DeleteAll(t0, (all - todo) - faulty);
            DeleteAll(t0, (all - (todo - {id})) - faulty)
            == if id in faulty then s else Tables(s.alerts - {id}, s.events - {id})
  {
    var before := (all - todo) - faulty;
    if id in faulty {
      assert (all - (todo - {id})) - faulty == before;
    } else {
      DeleteAllAdd(t0, before, id);
      assert (all - (todo - {id})) - faulty == before + {id};
    }
  }

  /** A deletion tick keeps the store invariant. */
  lemma AutoDeleteKeepsValid(t: Tables, now: int, faulty: set<AlertId>, scanFails: bool)
    requires ValidTables(t)
    ensures ValidTables(AutoDeleteSpec(t, now, faulty, scanFails))
  {
    AutoDeleteEffect(t, now, faulty, scanFails);
  }

  /** `autoDelete`: one tick at instant `now`; for each candidate, in its own
      transaction, delete its events and then its row. A candidate in
      `faulty` has the row deletion fail, and is rolled back. */
  method AutoDelete(store: AlertStore, now: int, faulty: set<AlertId>, scanFails: bool)
    modifies store
    ensures store.State() == AutoDeleteSpec(old(store.State()), now, faulty, scanFails)
    ensures old(store.Valid()) ==> store.Valid()
  {
    ghost var t0 := store.State();
    if scanFails {
      return;
    }
    var rows := DeletableIds(store.State(), now);
    var todo := rows;
    assert DeleteAll(t0, (rows - todo) - faulty) == t0 by {
      assert (rows - todo) - faulty == {};
    }
    while todo != {}
      invariant todo <= rows
      invariant store.State() == DeleteAll(t0, (rows - todo) - faulty)
      decreases |todo|
    {
      var id :| id in todo;
      DeleteStep(t0, rows, todo, faulty, id);
      DeleteOne(store, id, id in faulty);
      todo := todo - {id};
    }
    assert rows - todo == rows;
    if ValidTables(t0) {
      AutoDeleteKeepsValid(t0, now, faulty, false);
    }
  }
}
