/** The two-table store (`alerts`, `alert_events`) as an object whose methods
    are the SQL statements the processor and the worker issue, plus the
    windowed `COUNT(*)` the counting evaluators query. */
module Store {
  import opened Alerts

  /** The contents of both tables: alert rows by id, and each alert's events
      in insertion order. */
  datatype Tables = Tables(alerts: map<AlertId, AlertRow>, events: map<AlertId, seq<Event>>)

  /** `SELECT ... FROM alert_events WHERE alert_id = ?`: no key, no rows. */
  function EventsOf(t: Tables, id: AlertId): (r: seq<Event>)
  {
    if id in t.events then t.events[id] else []
  }

  /** The store invariant: events exist exactly for stored alerts, and every
      alert's status is the end of a well-formed lifecycle of its events. */
  ghost predicate ValidTables(t: Tables)
  {
    t.events.Keys == t.alerts.Keys &&
    forall id :: id in t.alerts ==> Lifecycle(t.events[id], t.alerts[id].status)
  }

  /** The WHERE clause of the counting query:
      `driver_id = ? AND source_type = ? AND timestamp >= cutoff`. */
  predicate Counted(row: AlertRow, driver: string, src: string, cutoff: int)
  {
    row.driverId == Some(driver) && row.sourceType == src && row.timestamp >= cutoff
  }

  /** The ids the counting query matches. */
  function CountedIds(rows: map<AlertId, AlertRow>, driver: string, src: string, cutoff: int): (s: set<AlertId>)
    ensures s <= rows.Keys
  {
    set id | id in rows && Counted(rows[id], driver, src, cutoff)
  }

  /** `SELECT COUNT(*) FROM alerts WHERE ...`: how many stored alerts of this
      driver and source are stamped at or after the cutoff. */
  function WindowCount(rows: map<AlertId, AlertRow>, driver: string, src: string, cutoff: int): (n: nat)
    ensures n <= |rows|
    ensures n == 0 <==> forall id :: id in rows ==> !Counted(rows[id], driver, src, cutoff)
  {
    var s := CountedIds(rows, driver, src, cutoff);
    assert |rows.Keys| == |rows|;
    SubsetCard(s, rows.Keys);
    assert forall id :: id in rows && Counted(rows[id], driver, src, cutoff) ==> id in s;
    |s|
  }

  lemma SubsetCard(a: set<AlertId>, b: set<AlertId>)
    requires a <= b
    ensures |a| <= |b|
  {
    assert b == a + (b - a);
  }

  /** Storing a fresh alert adds it to the matched ids exactly when its row
      matches the query, and leaves every other id's membership alone. */
  lemma CountedInsert(rows: map<AlertId, AlertRow>, id: AlertId, row: AlertRow,
                      driver: string, src: string, cutoff: int)
    requires id !in rows
    ensures CountedIds(rows[id := row], driver, src, cutoff)
            == if Counted(row, driver, src, cutoff) then CountedIds(rows, driver, src, cutoff) + {id}
               else CountedIds(rows, driver, src, cutoff)
  {
    var before := CountedIds(rows, driver, src, cutoff);
    var after := CountedIds(rows[id := row], driver, src, cutoff);
    if Counted(row, driver, src, cutoff) {
      assert after == before + {id};
    } else {
      assert after == before;
    }
  }

  /** Storing a fresh alert raises the count by one exactly when it matches
      the query, and leaves it unchanged otherwise. */
  lemma CountInsert(rows: map<AlertId, AlertRow>, id: AlertId, row: AlertRow,
                    driver: string, src: string, cutoff: int)
    requires id !in rows
    ensures WindowCount(rows[id := row], driver, src, cutoff)
            == WindowCount(rows, driver, src, cutoff) + (if Counted(row, driver, src, cutoff) then 1 else 0)
  {
    CountedInsert(rows, id, row, driver, src, cutoff);
  }

  /** A later cutoff (a shorter window) never counts more alerts. */
  lemma CountMonotone(rows: map<AlertId, AlertRow>, driver: string, src: string, early: int, late: int)
    requires early <= late
    ensures WindowCount(rows, driver, src, late) <= WindowCount(rows, driver, src, early)
  {
    SubsetCard(CountedIds(rows, driver, src, late), CountedIds(rows, driver, src, early));
  }

  class AlertStore {
    var alerts: map<AlertId, AlertRow>
    var events: map<AlertId, seq<Event>>

    function State(): Tables
      reads this
    {
      Tables(alerts, events)
    }

    ghost predicate Valid()
      reads this
    {
      ValidTables(State())
    }

    constructor ()
      ensures Valid() && State() == Tables(map[], map[])
    {
      alerts := map[];
      events := map[];
    }

    /** `beginTransaction`: the state a rollback returns to. */
    method Begin() returns (snap: Tables)
      ensures snap == State()
    {
      snap := Tables(alerts, events);
    }

    /** `rollback`: every write since `Begin` is undone. */
    method Rollback(snap: Tables)
      modifies this
      ensures State() == snap
    {
      alerts, events := snap.alerts, snap.events;
    }

    /** `INSERT INTO alerts`; alert ids are fresh UUIDs. */
    method InsertAlertRow(id: AlertId, row: AlertRow)
      requires id !in alerts
      modifies this
      ensures alerts == old(alerts)[id := row] && events == old(events)
    {
      alerts := alerts[id := row];
    }

    /** `INSERT INTO alert_events`: appends to the alert's history. */
    method InsertEventRow(id: AlertId, ev: Event)
      modifies this
      ensures alerts == old(alerts)
      ensures events == old(events)[id := EventsOf(old(State()), id) + [ev]]
    {
      events := events[id := EventsOf(State(), id) + [ev]];
    }

    /** `UPDATE alerts SET status='AUTO_CLOSED', timestamp=? WHERE alert_id=?`. */
    method UpdateClosed(id: AlertId, stamp: int)
      modifies this
      ensures events == old(events)
      ensures alerts == if id in old(alerts)
                        then old(alerts)[id := old(alerts)[id].(status := AutoClosed, timestamp := stamp)]
                        else old(alerts)
    {
      if id in alerts {
        alerts := alerts[id := alerts[id].(status := AutoClosed, timestamp := stamp)];
      }
    }

    /** `DELETE FROM alert_events WHERE alert_id = ?`. */
    method DeleteEvents(id: AlertId)
      modifies this
      ensures alerts == old(alerts) && events == old(events) - {id}
    {
      events := events - {id};
    }

    /** `DELETE FROM alerts WHERE alert_id = ?`. */
    method DeleteAlert(id: AlertId)
      modifies this
      ensures events == old(events) && alerts == old(alerts) - {id}
    {
      alerts := alerts - {id};
    }
  }
}
