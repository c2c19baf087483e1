/** The rule engine: `evaluateAlert` picks a handler by source type, and each
    handler decides the alert's initial status and its ordered lifecycle
    events. Each handler is a method that builds its result step by step, as
    the source does, and is proved equal to a function that specifies it;
    the properties of the rules are stated on those functions. */
module RuleEngine {
  import opened Alerts
  import opened Clock
  import opened Store

  /** The two sources that share the windowed counting rule. */
  datatype CountingSource = Overspeed | FeedbackNegative

  /** The handlers of the dispatch table. */
  datatype Handler = Counting(source: CountingSource) | Compliance

  /** What `evaluateAlert` yields: the updated alert and its events, or an
      error thrown by the count query. */
  datatype Evaluation = Evaluated(alert: Alert, events: seq<Event>) | EvalFailed

  function SourceName(c: CountingSource): (r: string)
  {
    match c
    case Overspeed => "overspeed"
    case FeedbackNegative => "feedback_negative"
  }

  /** The severity an escalation sets. */
  function EscalationSeverity(c: CountingSource): (r: string)
  {
    match c
    case Overspeed => "critical"
    case FeedbackNegative => "high"
  }

  /** The handler table, looked up by own keys only. */
  function HandlerFor(src: string): (h: Option<Handler>)
    ensures h.Some? <==> src in {"overspeed", "feedback_negative", "compliance"}
    ensures h == Some(Compliance) <==> src == "compliance"
    ensures forall c :: h == Some(Counting(c)) <==> src == SourceName(c)
  {
    if src == "overspeed" then Some(Counting(Overspeed))
    else if src == "feedback_negative" then Some(Counting(FeedbackNegative))
    else if src == "compliance" then Some(Compliance)
    else None
  }

  /** What every evaluator guarantees: a status is set and is the end of a
      well-formed lifecycle of one or two unstamped events that starts with
      CREATED, and nothing but status and severity is changed. */
  ghost predicate Decided(alert: Alert, r: Evaluation)
  {
    r.Evaluated? ==>
      r.alert.status.Some? && Lifecycle(r.events, r.alert.status.value) &&
      1 <= |r.events| <= 2 && r.events[0] == Created &&
      (forall i :: 0 <= i < |r.events| ==> r.events[i].timestamp.None?) &&
      r.alert == alert.(severity := r.alert.severity, status := r.alert.status)
  }

  /** The count query's cutoff: `NOW() - INTERVAL window MINUTE`, with the
      store's `NOW()` given as `dbNow`. */
  function WindowStart(dbNow: int, windowMins: int): (r: int)
  {
    dbNow - windowMins * MinuteMs
  }

  /** The counting rule of `handleOverspeed` and `handleFeedbackNegative`. */
  function EvalCounting(rows: map<AlertId, AlertRow>, alert: Alert, rules: SourceRules, dbNow: int,
                        c: CountingSource, queryFails: bool): (r: Evaluation)
    ensures Decided(alert, r)
    // without a driver no query is made: a failing query cannot matter
    ensures !HasDriver(alert.driverId) ==>
              r.Evaluated? && r.alert.status == Some(Open) && r.alert.severity == alert.severity && |r.events| == 1
    // the query fails when the store fails or is handed an undefined window
    ensures r.EvalFailed? <==> HasDriver(alert.driverId) && (queryFails || rules.windowMins.None?)
    // escalation exactly when the count of prior matching alerts plus one reaches the threshold
    ensures HasDriver(alert.driverId) && !queryFails && rules.windowMins.Some? ==>
              var total := WindowCount(rows, alert.driverId.value, SourceName(c),
                                       WindowStart(dbNow, rules.windowMins.value)) + 1;
              (r.alert.status == Some(Escalated) <==>
                 rules.escalateIfCount.Some? && total >= rules.escalateIfCount.value) &&
              (r.alert.status == Some(Escalated) ==>
                 r.events[1] == Event(EscalatedEvent, Some(Open), Escalated, TotalMeta(total), None))
    ensures r.Evaluated? && r.alert.status == Some(Escalated) ==>
              r.alert.severity == EscalationSeverity(c) && |r.events| == 2
    ensures r.Evaluated? && r.alert.status != Some(Escalated) ==>
              r.alert.status == Some(Open) && r.alert.severity == alert.severity && |r.events| == 1
  {
    if !HasDriver(alert.driverId) then
      Evaluated(alert.(status := Some(Open)), [Created])
    else if queryFails || rules.windowMins.None? then
      EvalFailed
    else
      var total := WindowCount(rows, alert.driverId.value, SourceName(c), WindowStart(dbNow, rules.windowMins.value)) + 1;
      if rules.escalateIfCount.Some? && total >= rules.escalateIfCount.value then
        Evaluated(alert.(severity := EscalationSeverity(c), status := Some(Escalated)),
                  [Created, Event(EscalatedEvent, Some(Open), Escalated, TotalMeta(total), None)])
      else
        Evaluated(alert.(status := Some(Open)), [Created])
  }

  /** `alert.metadata || {}`. */
  function MetadataOrEmpty(m: Option<Metadata>): (r: Metadata)
  {
    if m.Some? then m.value else map[]
  }

  /** `meta.status === "valid" || meta.document_valid === true`. */
  predicate DocumentValid(meta: Metadata)
  {
    ("status" in meta && meta["status"] == JString("valid")) ||
    ("document_valid" in meta && meta["document_valid"] == JBool(true))
  }

  /** The auto-close rule of `handleCompliance`. */
  function EvalCompliance(alert: Alert, rules: SourceRules): (r: Evaluation)
    ensures Decided(alert, r) && r.Evaluated?
    ensures r.alert.severity == alert.severity
    ensures r.alert.status == Some(AutoClosed) <==>
              rules.autoCloseIf == Some("document_valid") && DocumentValid(MetadataOrEmpty(alert.metadata))
    ensures alert.metadata.None? ==> r.alert.status == Some(Open)
    ensures r.alert.status == Some(AutoClosed) ==>
              r.events == [Created, Event(AutoClosedEvent, Some(Open), AutoClosed, ReasonMeta("document_valid", None), None)]
    ensures r.alert.status != Some(AutoClosed) ==> r.alert.status == Some(Open) && r.events == [Created]
  {
    if rules.autoCloseIf == Some("document_valid") && DocumentValid(MetadataOrEmpty(alert.metadata)) then
      Evaluated(alert.(status := Some(AutoClosed)),
                [Created, Event(AutoClosedEvent, Some(Open), AutoClosed, ReasonMeta("document_valid", None), None)])
    else
      Evaluated(alert.(status := Some(Open)), [Created])
  }

  /** `evaluateAlert`: dispatch on the source type, with the source's rules
      or the empty rule set. */
  function Evaluate(rows: map<AlertId, AlertRow>, config: Config, alert: Alert, dbNow: int, queryFails: bool): (r: Evaluation)
    ensures Decided(alert, r)
    ensures HandlerFor(alert.sourceType).None? ==>
              r.Evaluated? && r.alert.status == Some(Open) && r.alert.severity == alert.severity && r.events == [Created]
    ensures RulesFor(config, alert.sourceType) == NoRules ==>
              r.EvalFailed? || (r.alert.status == Some(Open) && r.alert.severity == alert.severity && |r.events| == 1)
    ensures r.EvalFailed? ==> queryFails || RulesFor(config, alert.sourceType).windowMins.None?
    // severity changes only on escalation, to the counting source's own
    ensures r.Evaluated? && r.alert.status != Some(Escalated) ==> r.alert.severity == alert.severity
    ensures r.Evaluated? && r.alert.status == Some(Escalated) ==>
              (alert.sourceType == "overspeed" && r.alert.severity == "critical") ||
              (alert.sourceType == "feedback_negative" && r.alert.severity == "high")
  {
    match HandlerFor(alert.sourceType)
    case None => Evaluated(alert.(status := Some(Open)), [Created])
    case Some(Counting(c)) => EvalCounting(rows, alert, RulesFor(config, alert.sourceType), dbNow, c, queryFails)
    case Some(Compliance) => EvalCompliance(alert, RulesFor(config, alert.sourceType))
  }

  /** The shared body of the two counting handlers. */
  method HandleCounting(store: AlertStore, alert: Alert, rules: SourceRules, dbNow: int,
                        c: CountingSource, queryFails: bool) returns (r: Evaluation)
    ensures r == EvalCounting(store.alerts, alert, rules, dbNow, c, queryFails)
  {
    var status := Open;
    var events := [Created];
    var a := alert;
    if !HasDriver(a.driverId) {
      a := a.(status := Some(status));
      return Evaluated(a, events);
    }
    if queryFails || rules.windowMins.None? {
      return EvalFailed;
    }
    var cnt := WindowCount(store.alerts, a.driverId.value, SourceName(c), WindowStart(dbNow, rules.windowMins.value));
    var total := cnt + 1;
    if rules.escalateIfCount.Some? && total >= rules.escalateIfCount.value {
      var prior := status;
      status := Escalated;
      a := a.(severity := EscalationSeverity(c));
      events := events + [Event(EscalatedEvent, Some(prior), status, TotalMeta(total), None)];
    }
    a := a.(status := Some(status));
    r := Evaluated(a, events);
  }

  /** `handleOverspeed`. */
  method HandleOverspeed(store: AlertStore, alert: Alert, rules: SourceRules, dbNow: int, queryFails: bool)
    returns (r: Evaluation)
    ensures r == EvalCounting(store.alerts, alert, rules, dbNow, Overspeed, queryFails)
  {
    r := HandleCounting(store, alert, rules, dbNow, Overspeed, queryFails);
  }

  /** `handleFeedbackNegative`. */
  method HandleFeedbackNegative(store: AlertStore, alert: Alert, rules: SourceRules, dbNow: int, queryFails: bool)
    returns (r: Evaluation)
    ensures r == EvalCounting(store.alerts, alert, rules, dbNow, FeedbackNegative, queryFails)
  {
    r := HandleCounting(store, alert, rules, dbNow, FeedbackNegative, queryFails);
  }

  /** `handleCompliance`. */
  method HandleCompliance(alert: Alert, rules: SourceRules) returns (r: Evaluation)
    ensures r == EvalCompliance(alert, rules)
  {
    var status := Open;
    var events := [Created];
    var meta := MetadataOrEmpty(alert.metadata);
    if rules.autoCloseIf == Some("document_valid") && DocumentValid(meta) {
      var prior := status;
      status := AutoClosed;
      events := events + [Event(AutoClosedEvent, Some(prior), status, ReasonMeta("document_valid", None), None)];
    }
    r := Evaluated(alert.(status := Some(status)), events);
  }

  /** `evaluateAlert`. */
  method EvaluateAlert(store: AlertStore, config: Config, alert: Alert, dbNow: int, queryFails: bool)
    returns (r: Evaluation)
    ensures r == Evaluate(store.alerts, config, alert, dbNow, queryFails)
  {
    var handler := HandlerFor(alert.sourceType);
    if handler.None? {
      var status := Open;
      return Evaluated(alert.(status := Some(status)), [Created]);
    }
    var srcRules := RulesFor(config, alert.sourceType);
    match handler.value
    case Counting(Overspeed) =>
      r := HandleOverspeed(store, alert, srcRules, dbNow, queryFails);
    case Counting(FeedbackNegative) =>
      r := HandleFeedbackNegative(store, alert, srcRules, dbNow, queryFails);
    case Compliance =>
      r := HandleCompliance(alert, srcRules);
  }

  // ---------------------------------------------------------------------
  // The handler table as written looks `handlers[alert.sourceType]` up on a
  // plain object, so a source type naming a property every object inherits
  // finds a truthy value that is not a handler.

  /** The property names a plain object inherits. */
  const InheritedNames: set<string> :=
    {"constructor", "hasOwnProperty", "isPrototypeOf", "propertyIsEnumerable", "toString",
     "toLocaleString", "valueOf", "__proto__", "__defineGetter__", "__defineSetter__",
     "__lookupGetter__", "__lookupSetter__"}

  /** What `handlers[src]` finds. */
  datatype TableEntry = Own(handler: Handler) | Inherited | Missing

  /** `handlers[src]` as written, inherited properties included. */
  function HandlerLookupAsWritten(src: string): (e: TableEntry)
    ensures e.Own? <==> HandlerFor(src).Some?
    ensures e.Own? ==> HandlerFor(src) == Some(e.handler)
    ensures e.Missing? <==> HandlerFor(src).None? && src !in InheritedNames
  {
    match HandlerFor(src)
    case Some(h) => Own(h)
    case None => if src in InheritedNames then Inherited else Missing
  }

  /** `evaluateAlert` as written: an inherited entry is truthy and is called
      as a handler; it either throws or returns a value that is not
      `{alert, events}`, and the submission fails. */
  function EvaluateAsWritten(rows: map<AlertId, AlertRow>, config: Config, alert: Alert, dbNow: int, queryFails: bool)
    : (r: Evaluation)
    ensures HandlerLookupAsWritten(alert.sourceType).Inherited? ==> r.EvalFailed?
    ensures !HandlerLookupAsWritten(alert.sourceType).Inherited? ==> r == Evaluate(rows, config, alert, dbNow, queryFails)
  {
    match HandlerLookupAsWritten(alert.sourceType)
    case Inherited => EvalFailed
    case _ => Evaluate(rows, config, alert, dbNow, queryFails)
  }

  /** The discrepancy: an alert of source "constructor" fails as written,
      where an unknown source should be stored OPEN. */
  lemma ConstructorSourceFails(rows: map<AlertId, AlertRow>, config: Config, alert: Alert, dbNow: int, queryFails: bool)
    requires alert.sourceType == "constructor"
    ensures EvaluateAsWritten(rows, config, alert, dbNow, queryFails).EvalFailed?
    ensures Evaluate(rows, config, alert, dbNow, queryFails).Evaluated?
    ensures Evaluate(rows, config, alert, dbNow, queryFails).alert.status == Some(Open)
  {
  }
}
