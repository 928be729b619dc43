/** The decision and rollback engine (backend/app/agents/manager.py). The
    route-traffic tool is stateless; every call to it is recorded in a call log. */
module Manager {
  import opened Basics
  import Text
  import opened Tools
  import opened Analyst

  /** A decision record. Only ROUTED_TRAFFIC records carry a tool output and an issuer. */
  datatype Decision =
    | Monitor(reason: string)
    | RoutedTraffic(reason: string, toolOutput: ToolResult, issuer: string)

  function DecisionName(d: Decision): string
  {
    match d
    case Monitor(_) => "MONITOR"
    case RoutedTraffic(_, _, _) => "ROUTED_TRAFFIC"
  }

  /** One execution of the route-traffic tool. */
  datatype RouteCall = RouteCall(percentage: int, destination: string, targetIssuer: Option<string>)

  datatype RollbackResult =
    | RolledBack(message: string, originalAction: Decision)
    | RollbackFailed(message: string)

  function RollbackStatus(r: RollbackResult): string
  {
    if r.RolledBack? then "success" else "failed"
  }

  const MonitorReason := "Confidence too low or no action needed."

  /** `investigation.get("confidence", 0.0)`: a missing confidence reads as 0.0. */
  function Confidence(d: Diagnosis): (c: real)
    ensures d.confidence.None? ==> c == 0.0
    ensures d.confidence.Some? ==> c == d.confidence.value
  {
    if d.confidence.Some? then d.confidence.value else 0.0
  }

  /** `action.lower().replace("_", " ")` */
  function NormalizeAction(action: string): (r: string)
    ensures |r| == |action|
    ensures forall i :: 0 <= i < |r| ==> r[i] != '_' && !('A' <= r[i] <= 'Z')
    ensures forall i :: 0 <= i < |r| ==> r[i] == (if action[i] == '_' then ' ' else Text.AsciiLower(action[i]))
  {
    Text.ReplaceChar(Text.Lower(action), '_', ' ')
  }

  /** The policy: act only above confidence 0.8 and when the normalised
      recommended action mentions "route traffic" somewhere. */
  predicate ShouldAct(d: Diagnosis)
    ensures ShouldAct(d) ==> d.confidence.Some? && d.confidence.value > 0.8
    ensures ShouldAct(d) ==> d.recommendedAction.Some? && |d.recommendedAction.value| >= |"route traffic"|
  {
    && Confidence(d) > 0.8
    && d.recommendedAction.Some?
    && Text.Contains(NormalizeAction(d.recommendedAction.value), "route traffic")
  }

  /** The text Python prints for the optional root cause. */
  function RootCauseText(d: Diagnosis): string
  {
    if d.rootCause.Some? then d.rootCause.value else "None"
  }

  /** The decision the policy reaches on a diagnosis for `issuer`: a routing
      record for that issuer exactly when the policy acts, MONITOR otherwise. */
  function DecisionFor(d: Diagnosis, issuer: string): (r: Decision)
    ensures r.RoutedTraffic? <==> ShouldAct(d)
    ensures DecisionName(r) == "MONITOR" <==> !ShouldAct(d)
    ensures r.Monitor? ==> r.reason == MonitorReason
    ensures r.RoutedTraffic? ==>
              && r.issuer == issuer
              && r.reason == "Mitigating " + RootCauseText(d)
              && r.toolOutput == RouteTraffic(50, "STRIPE", Some(issuer))
              && r.toolOutput.success
  {
    if ShouldAct(d) then RoutedTraffic("Mitigating " + RootCauseText(d), RouteTraffic(50, "STRIPE", Some(issuer)), issuer)
    else Monitor(MonitorReason)
  }

  /** Acting requires confidence strictly above 0.8; the match on the action is
      containment after lower-casing and replacing underscores, so "Route
      Traffic", "route_traffic" and "ROUTE_TRAFFIC to STRIPE" all qualify. */
  lemma PolicyExamples(action: Option<string>)
    ensures ShouldAct(Diagnosis(None, Some(0.95), None, Some("Route Traffic")))
    ensures ShouldAct(Diagnosis(None, Some(0.95), None, Some("ROUTE_TRAFFIC to STRIPE")))
    ensures !ShouldAct(Diagnosis(None, Some(0.8), None, Some("route_traffic")))
    ensures !ShouldAct(Diagnosis(None, Some(0.5), None, action))
    ensures !ShouldAct(Diagnosis(None, None, None, action))
    ensures !ShouldAct(Diagnosis(None, Some(0.95), None, None))
  {
    assert Text.OccursAt(NormalizeAction("Route Traffic"), "route traffic", 0);
    assert Text.OccursAt(NormalizeAction("ROUTE_TRAFFIC to STRIPE"), "route traffic", 0);
  }

  class ManagerAgent {
    /** The stack of executed mitigations, most recent last. */
    var decisionHistory: seq<Decision>
    /** Every call made to the route-traffic tool, oldest first. */
    var routeCalls: seq<RouteCall>

    /** Only ROUTED_TRAFFIC records are ever pushed. */
    ghost predicate Valid()
      reads this
    {
      forall i :: 0 <= i < |decisionHistory| ==> decisionHistory[i].RoutedTraffic?
    }

    constructor ()
      ensures Valid() && decisionHistory == [] && routeCalls == []
    {
      decisionHistory, routeCalls := [], [];
    }

    /** Applies the policy to a diagnosis for `issuer`. Acting routes 50% of
        the issuer's traffic to STRIPE with one tool call and pushes the
        record; otherwise a MONITOR record is returned and nothing changes. */
    method DecideAndAct(investigation: Diagnosis, issuer: string) returns (d: Decision)
      modifies this
      ensures old(Valid()) ==> Valid()
      ensures d == DecisionFor(investigation, issuer)
      ensures ShouldAct(investigation) ==>
                && decisionHistory == old(decisionHistory) + [d]
                && routeCalls == old(routeCalls) + [RouteCall(50, "STRIPE", Some(issuer))]
      ensures !ShouldAct(investigation) ==>
                && decisionHistory == old(decisionHistory)
                && routeCalls == old(routeCalls)
    {
      var action := investigation.recommendedAction;
      var confidence := Confidence(investigation);
      d := Monitor(MonitorReason);
      if confidence > 0.8 {
        if action.Some? && Text.Contains(NormalizeAction(action.value), "route traffic") {
          var result := RouteTraffic(50, "STRIPE", Some(issuer));
          routeCalls := routeCalls + [RouteCall(50, "STRIPE", Some(issuer))];
          d := RoutedTraffic("Mitigating " + RootCauseText(investigation), result, issuer);
          decisionHistory := decisionHistory + [d];
        }
      }
    }

    /** Undoes the most recent mitigation. The record is popped BEFORE its kind
        is checked, so a record of another kind is lost on the failure path. */
    method RollbackLastAction() returns (r: RollbackResult)
      modifies this
      ensures old(Valid()) ==> Valid()
      ensures old(decisionHistory) == [] ==>
                && r == RollbackFailed("No actions to rollback") && RollbackStatus(r) == "failed"
                && decisionHistory == old(decisionHistory)
                && routeCalls == old(routeCalls)
      ensures old(decisionHistory) != [] ==>
                decisionHistory == old(decisionHistory)[..|old(decisionHistory)| - 1]
      ensures old(decisionHistory) != [] && old(decisionHistory)[|old(decisionHistory)| - 1].RoutedTraffic? ==>
                var last := old(decisionHistory)[|old(decisionHistory)| - 1];
                && r == RolledBack("Rolled back routing for " + last.issuer, last) && RollbackStatus(r) == "success"
                && routeCalls == old(routeCalls) + [RouteCall(0, "ORIGINAL", Some(last.issuer))]
      ensures old(decisionHistory) != [] && old(decisionHistory)[|old(decisionHistory)| - 1].Monitor? ==>
                && r == RollbackFailed("Unknown action type") && RollbackStatus(r) == "failed"
                && routeCalls == old(routeCalls)
    {
      if decisionHistory == [] {
        return RollbackFailed("No actions to rollback");
      }
      var last := decisionHistory[|decisionHistory| - 1];
      decisionHistory := decisionHistory[..|decisionHistory| - 1];
      if last.RoutedTraffic? {
        var issuer := last.issuer;
        var _ := RouteTraffic(0, "ORIGINAL", Some(issuer));
        routeCalls := routeCalls + [RouteCall(0, "ORIGINAL", Some(issuer))];
        return RolledBack("Rolled back routing for " + issuer, last);
      }
      r := RollbackFailed("Unknown action type");
    }

    /** A mitigation followed by a rollback leaves the history as it was, and
        the tool has been told to divert 50% and then 0% for the same issuer. */
    method ActThenRollback(investigation: Diagnosis, issuer: string) returns (d: Decision, r: RollbackResult)
      requires ShouldAct(investigation)
      modifies this
      ensures d.RoutedTraffic? && r == RolledBack("Rolled back routing for " + issuer, d)
      ensures decisionHistory == old(decisionHistory)
      ensures routeCalls == old(routeCalls) + [RouteCall(50, "STRIPE", Some(issuer)), RouteCall(0, "ORIGINAL", Some(issuer))]
    {
      d := DecideAndAct(investigation, issuer);
      r := RollbackLastAction();
    }
  }
}
