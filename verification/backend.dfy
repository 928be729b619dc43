/** The orchestration in backend/app/main.py: the bounded event log, the
    handling of one generated transaction, the manual injection and rollback
    entry points, and the chat context. The process-wide singletons become
    fields of one `Backend` object. */
module Backend {
  import opened Basics
  import Text
  import opened Models
  import opened Tools
  import opened Watchdog
  import opened Analyst
  import opened Manager
  import opened Chaos

  datatype Level = Info | Warning | Danger

  datatype LogEntry = LogEntry(timestamp: string, agent: string, message: string, level: Level)

  /** One line of the `agent_logs` list sent with a transaction. */
  datatype AgentLog = AgentLog(agent: string, message: string)

  /** The broadcast message for one transaction. */
  datatype Payload = Payload(data: Transaction, alert: Option<Alert>, agentLogs: seq<AgentLog>)

  /** A handling step either broadcasts, or stops the loop because the
      diagnosis lacks `root_cause` or `confidence` (a key error). */
  datatype StepOutcome = Broadcast(payload: Payload) | Crashed(alert: Alert)

  const EventLogCapacity: nat := 50

  /** The log after `log_event`: append, then drop the first entry once when
      the log has grown beyond capacity. */
  function Appended(log: seq<LogEntry>, e: LogEntry): (r: seq<LogEntry>)
    ensures |r| > 0 && r[|r| - 1] == e
    ensures |log| <= EventLogCapacity ==> r == LastN(log + [e], EventLogCapacity)
    ensures |log| <= EventLogCapacity ==> |r| <= EventLogCapacity
  {
    var grown := log + [e];
    if |grown| > EventLogCapacity then grown[1..] else grown
  }

  /** The log after several `log_event` calls, in order. */
  function AppendAll(log: seq<LogEntry>, entries: seq<LogEntry>): seq<LogEntry>
    decreases |entries|
  {
    if entries == [] then log else AppendAll(Appended(log, entries[0]), entries[1..])
  }

  /** A log within capacity stays within capacity, and ends with the newest
      entries (up to capacity of them), whatever is logged. */
  lemma {:induction false} AppendAllBounded(log: seq<LogEntry>, entries: seq<LogEntry>)
    requires |log| <= EventLogCapacity
    ensures AppendAll(log, entries) == LastN(log + entries, EventLogCapacity)
    decreases |entries|
  {
    if entries == [] {
      assert log + entries == log;
    } else {
      var next := Appended(log, entries[0]);
      calc {
        AppendAll(log, entries);
        AppendAll(next, entries[1..]);
        { AppendAllBounded(next, entries[1..]); }
        LastN(next + entries[1..], EventLogCapacity);
        { LastNConcat(log + [entries[0]], entries[1..], EventLogCapacity); }
        LastN(log + [entries[0]] + entries[1..], EventLogCapacity);
        { assert log + [entries[0]] + entries[1..] == log + entries; }
        LastN(log + entries, EventLogCapacity);
      }
    }
  }

  function EntryLine(e: LogEntry): (r: string)
    ensures |r| > 0 && r[0] == '['
  {
    "[" + e.timestamp + "] " + e.agent + ": " + e.message
  }

  function Lines(log: seq<LogEntry>): (r: seq<string>)
    ensures |r| == |log|
    ensures forall i :: 0 <= i < |log| ==> r[i] == EntryLine(log[i])
  {
    if log == [] then [] else Lines(log[..|log| - 1]) + [EntryLine(log[|log| - 1])]
  }

  /** The context handed to the chat assistant. */
  function ChatContext(log: seq<LogEntry>): (r: string)
    ensures log == [] ==> r == "No recent significant events."
    ensures log != [] ==> r == Text.Join(Lines(log), "\n")
  {
    var joined := Text.Join(Lines(log), "\n");
    assert log != [] ==> |Lines(log)[|log| - 1]| > 0;
    if joined == "" then "No recent significant events." else joined
  }

  /** The context lists the entries in log order: a new entry becomes the last line. */
  lemma ChatContextAppend(log: seq<LogEntry>, e: LogEntry)
    ensures ChatContext(log + [e]) ==
              if log == [] then EntryLine(e) else ChatContext(log) + "\n" + EntryLine(e)
  {
    assert (log + [e])[..|log|] == log;
  }

  function AlertEntry(alert: Alert, issuer: string, now: string): LogEntry
  {
    LogEntry(now, "Watchdog", "ALERT: " + AlertName(alert) + " on " + issuer, Warning)
  }

  /** Handling stops with a key error when either key is missing. */
  predicate Incomplete(d: Diagnosis)
    ensures Analyst.WellFormed(d) ==> !Incomplete(d)
    ensures d.rootCause.None? ==> Incomplete(d)
  {
    d.rootCause.None? || d.confidence.None?
  }

  function DiagnosisMessage(d: Diagnosis, showConfidence: real -> string): string
    requires !Incomplete(d)
  {
    "Diagnosed: " + d.rootCause.value + " (Conf: " + showConfidence(d.confidence.value) + ")"
  }

  function ActionMessage(d: Decision): string
  {
    "Action: " + DecisionName(d) + " - " + d.reason
  }

  /** The `agent_logs` of a handled alert: the analyst's line, then the
      manager's line only when the decision is not MONITOR. */
  function AgentLogs(d: Diagnosis, issuer: string, showConfidence: real -> string): (r: seq<AgentLog>)
    requires !Incomplete(d)
    ensures |r| == (if ShouldAct(d) then 2 else 1)
    ensures r[0].agent == "Analyst" && (|r| == 2 ==> r[1].agent == "Manager")
  {
    [AgentLog("Analyst", DiagnosisMessage(d, showConfidence))] +
    if DecisionName(DecisionFor(d, issuer)) != "MONITOR" then [AgentLog("Manager", ActionMessage(DecisionFor(d, issuer)))] else []
  }

  /** The event-log entries written while handling an alert, in order. */
  function StepEntries(alert: Alert, issuer: string, d: Diagnosis, showConfidence: real -> string, now: string): (r: seq<LogEntry>)
    ensures |r| >= 1 && r[0].agent == "Watchdog"
    ensures Incomplete(d) ==> |r| == 1
    ensures !Incomplete(d) ==> |r| == (if ShouldAct(d) then 3 else 2) && r[1].agent == "Analyst"
    ensures !Incomplete(d) && ShouldAct(d) ==> r[2].agent == "Manager"
  {
    [AlertEntry(alert, issuer, now)] +
    if Incomplete(d) then []
    else [LogEntry(now, "Analyst", DiagnosisMessage(d, showConfidence), Info)] +
         if ShouldAct(d) then [LogEntry(now, "Manager", ActionMessage(DecisionFor(d, issuer)), Danger)] else []
  }

  /** The fallback diagnosis leads the manager to act exactly when the status
      page reports a degraded service. */
  lemma FallbackActsIffDegraded(alert: Alert, issuer: string, ctx: Context)
    ensures ShouldAct(MockDiagnosis(alert, issuer, ctx)) <==> IsDegraded(ctx)
  {
    if IsDegraded(ctx) {
      assert Text.OccursAt(NormalizeAction("route_traffic"), "route traffic", 0);
    }
  }

  /** Without a working language model, an alert on an issuer leads to a
      routing mitigation exactly when the issuer is CHASE, in any letter case
      (the only service whose status page reports "degraded"). */
  lemma FallbackRoutesOnlyChase(alert: Alert, issuer: string, model: LanguageModel)
    requires !model.ModelAnswered?
    ensures ShouldAct(Investigate(alert, issuer, model)) <==> Text.Upper(issuer) == "CHASE"
  {
    FallbackActsIffDegraded(alert, issuer, GatherContext(issuer));
  }

  /** For CHASE the fallback's decision is the routing record naming the outage. */
  lemma ChaseFallbackRoutes(alert: Alert, issuer: string, model: LanguageModel)
    requires !model.ModelAnswered? && Text.Upper(issuer) == "CHASE"
    ensures DecisionFor(Investigate(alert, issuer, model), issuer) ==
              RoutedTraffic("Mitigating External outage detected at " + issuer,
                            RouteTraffic(50, "STRIPE", Some(issuer)), issuer)
  {
    var d := Investigate(alert, issuer, model);
    FallbackRoutesOnlyChase(alert, issuer, model);
    assert ShouldAct(d);
    assert IsDegraded(GatherContext(issuer));
    assert RootCauseText(d) == "External outage detected at " + issuer;
    assert "Mitigating " + RootCauseText(d) == "Mitigating External outage detected at " + issuer;
  }

  /** Logging the first of several entries, then the rest. */
  lemma AppendAllFirst(log: seq<LogEntry>, entries: seq<LogEntry>)
    requires entries != []
    ensures AppendAll(log, entries) == AppendAll(Appended(log, entries[0]), entries[1..])
  {
  }

  /** What one handling step does to the manager: a routing decision and a
      routing call when the diagnosis is complete and calls for action,
      nothing otherwise. */
  ghost predicate ManagerStep(d: Diagnosis, issuer: string,
                              history0: seq<Decision>, calls0: seq<RouteCall>,
                              history1: seq<Decision>, calls1: seq<RouteCall>)
  {
    if !Incomplete(d) && ShouldAct(d)
    then history1 == history0 + [DecisionFor(d, issuer)]
      && calls1 == calls0 + [RouteCall(50, "STRIPE", Some(issuer))]
    else history1 == history0 && calls1 == calls0
  }

  class Backend {
    const simulator: ChaosSimulator
    const watchdog: WatchdogAgent
    const manager: ManagerAgent
    /** The recent events kept as context for the chat assistant. */
    var eventLog: seq<LogEntry>

    ghost predicate Valid()
      reads this, simulator, watchdog, manager
    {
      && |eventLog| <= EventLogCapacity
      && simulator.Valid() && watchdog.Valid() && manager.Valid()
    }

    constructor ()
      ensures Valid() && fresh(simulator) && fresh(watchdog) && fresh(manager)
      ensures simulator.baseTps == 5 && simulator.activeInjections == map[] && simulator.order == []
      ensures watchdog.windowSize == 50 && watchdog.zThreshold == 2.0 && watchdog.latencyWindows == map[]
      ensures manager.decisionHistory == [] && manager.routeCalls == [] && eventLog == []
    {
      simulator := new ChaosSimulator(5);
      watchdog := new WatchdogAgent();
      manager := new ManagerAgent();
      eventLog := [];
    }

    /** `log_event`: appends the entry, keeps at most the newest 50, returns the entry. */
    method LogEvent(agent: string, message: string, now: string, level: Level := Info) returns (entry: LogEntry)
      modifies this
      ensures entry == LogEntry(now, agent, message, level)
      ensures eventLog == Appended(old(eventLog), entry)
    {
      entry := LogEntry(now, agent, message, level);
      eventLog := eventLog + [entry];
      if |eventLog| > EventLogCapacity {
        eventLog := eventLog[1..];
      }
    }

    /** The body of the simulation loop for one transaction: detection, then on
        an alert the diagnosis and the decision, with their log lines. */
    method HandleTransaction(tx: Transaction, model: LanguageModel, now: string, showConfidence: real -> string)
      returns (outcome: StepOutcome)
      requires Valid()
      modifies this, watchdog, manager
      ensures Valid()
      ensures watchdog.latencyHistory ==
                old(watchdog.latencyHistory)[tx.issuer := Seen(old(watchdog.latencyHistory), tx.issuer) + [tx.latencyMs]]
      ensures watchdog.successHistory ==
                old(watchdog.successHistory)[tx.issuer := Seen(old(watchdog.successHistory), tx.issuer) + [SuccessFlag(tx.status)]]
      ensures tx.issuer in watchdog.latencyWindows
      ensures outcome.Broadcast? ==> outcome.payload.data == tx && outcome.payload.alert == watchdog.DetectAnomalies(tx.issuer)
      ensures watchdog.DetectAnomalies(tx.issuer).None? ==>
                && outcome == Broadcast(Payload(tx, None, []))
                && eventLog == old(eventLog)
                && manager.decisionHistory == old(manager.decisionHistory)
                && manager.routeCalls == old(manager.routeCalls)
      ensures watchdog.DetectAnomalies(tx.issuer).Some? ==>
                var alert := watchdog.DetectAnomalies(tx.issuer).value;
                var d := Investigate(alert, tx.issuer, model);
                && eventLog == AppendAll(old(eventLog), StepEntries(alert, tx.issuer, d, showConfidence, now))
                && (outcome.Crashed? <==> Incomplete(d))
                && (outcome.Broadcast? ==> outcome.payload.agentLogs == AgentLogs(d, tx.issuer, showConfidence))
                && ManagerStep(d, tx.issuer, old(manager.decisionHistory), old(manager.routeCalls),
                               manager.decisionHistory, manager.routeCalls)
    {
      var alert := watchdog.ProcessTransaction(tx);
      if alert.None? {
        return Broadcast(Payload(tx, None, []));
      }
      var investigation := Investigate(alert.value, tx.issuer, model);
      var agentLogs := HandleAlert(alert.value, tx.issuer, investigation, now, showConfidence);
      if agentLogs.None? {
        return Crashed(alert.value);
      }
      outcome := Broadcast(Payload(tx, alert, agentLogs.value));
    }

    /** The alert branch of the step: log the alert and, when the diagnosis
        `d` is complete, log it and let the manager decide. `None` stands for
        the key error on an incomplete diagnosis. */
    method HandleAlert(alert: Alert, issuer: string, d: Diagnosis, now: string, showConfidence: real -> string)
      returns (agentLogs: Option<seq<AgentLog>>)
      requires Valid()
      modifies this, manager
      ensures Valid()
      ensures && eventLog == AppendAll(old(eventLog), StepEntries(alert, issuer, d, showConfidence, now))
              && (agentLogs.None? <==> Incomplete(d))
              && (agentLogs.Some? ==> agentLogs.value == AgentLogs(d, issuer, showConfidence))
              && ManagerStep(d, issuer, old(manager.decisionHistory), old(manager.routeCalls),
                             manager.decisionHistory, manager.routeCalls)
    {
      ghost var log0 := eventLog;
      var alertEntry := LogEvent("Watchdog", "ALERT: " + AlertName(alert) + " on " + issuer, now, Warning);
      ghost var entries := StepEntries(alert, issuer, d, showConfidence, now);
      assert entries[0] == alertEntry;
      AppendAllFirst(log0, entries);
      if d.rootCause.None? || d.confidence.None? {
        assert entries[1..] == [];
        return None;
      }
      ghost var acts := ShouldAct(d);
      var diagnosed := DiagnosisMessage(d, showConfidence);
      var logs := [AgentLog("Analyst", diagnosed)];
      ghost var log1 := eventLog;
      var analystEntry := LogEvent("Analyst", diagnosed, now, Info);
      assert entries[1..][0] == analystEntry;
      AppendAllFirst(log1, entries[1..]);
      var decision := manager.DecideAndAct(d, issuer);
      assert decision == DecisionFor(d, issuer);
      if DecisionName(decision) != "MONITOR" {
        assert acts;
        var acted := ActionMessage(decision);
        logs := logs + [AgentLog("Manager", acted)];
        ghost var log2 := eventLog;
        var managerEntry := LogEvent("Manager", acted, now, Danger);
        assert entries[1..][1..] == [managerEntry];
        AppendAllFirst(log2, entries[1..][1..]);
        assert entries[1..][1..][1..] == [];
      } else {
        assert !acts;
        assert entries[1..][1..] == [];
      }
      assert logs == AgentLogs(d, issuer, showConfidence);
      agentLogs := Some(logs);
    }

    /** The manual injection entry point: always the id "api_trigger", so
        repeated calls replace one injection instead of adding more. */
    method TriggerInjection(now: string, issuer: string := "CHASE") returns (status: string)
      requires Valid()
      modifies this, simulator
      ensures Valid()
      ensures simulator.activeInjections ==
                old(simulator.activeInjections)["api_trigger" := Injection(Some(issuer), "500", 0.9, 1500)]
      ensures simulator.activeInjections.Keys == old(simulator.activeInjections).Keys + {"api_trigger"}
      ensures simulator.order ==
                if "api_trigger" in old(simulator.order) then old(simulator.order) else old(simulator.order) + ["api_trigger"]
      ensures eventLog == Appended(old(eventLog), LogEntry(now, "System", "Manual Injection Triggered for " + issuer, Danger))
      ensures status == "Injected failure for " + issuer
    {
      var _ := simulator.InjectFailure("api_trigger", issuer := Some(issuer), failureRate := 0.9);
      var entry := LogEvent("System", "Manual Injection Triggered for " + issuer, now, Danger);
      status := "Injected failure for " + issuer;
    }

    /** The manual rollback entry point: undo the last mitigation and log the result. */
    method RollbackAction(now: string) returns (r: RollbackResult)
      requires Valid()
      modifies this, manager
      ensures Valid()
      ensures old(manager.decisionHistory) == [] ==>
                && r == RollbackFailed("No actions to rollback")
                && manager.decisionHistory == old(manager.decisionHistory)
                && manager.routeCalls == old(manager.routeCalls)
      ensures old(manager.decisionHistory) != [] ==>
                var last := old(manager.decisionHistory)[|old(manager.decisionHistory)| - 1];
                && last.RoutedTraffic?
                && manager.decisionHistory == old(manager.decisionHistory)[..|old(manager.decisionHistory)| - 1]
                && r == RolledBack("Rolled back routing for " + last.issuer, last)
                && manager.routeCalls == old(manager.routeCalls) + [RouteCall(0, "ORIGINAL", Some(last.issuer))]
      ensures eventLog == Appended(old(eventLog), LogEntry(now, "System", "Rollback requested: " + r.message, Warning))
    {
      r := manager.RollbackLastAction();
      var entry := LogEvent("System", "Rollback requested: " + r.message, now, Warning);
    }
  }
}
