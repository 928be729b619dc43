/** The analyst's deterministic path (backend/app/agents/analyst.py): context
    gathering through the mock tools and the fallback diagnosis. The language
    model is an input: absent, failing, or answering with some diagnosis. */
module Analyst {
  import opened Basics
  import opened Tools
  import opened Watchdog

  /** A diagnosis as a mapping whose keys may be missing (an answer from the
      language model is not validated). */
  datatype Diagnosis = Diagnosis(
    rootCause: Option<string>,
    confidence: Option<real>,
    evidence: Option<seq<string>>,
    recommendedAction: Option<string>)

  /** What was gathered before diagnosing: the `data` of the status and
      database tools; `None` stands for a missing key. */
  datatype Context = Context(externalStatus: Option<ToolData>, recentErrors: Option<ToolData>)

  datatype LanguageModel = NoModel | ModelFailed | ModelAnswered(answer: Diagnosis)

  /** All four keys present and the confidence within [0, 1]. */
  predicate WellFormed(d: Diagnosis)
  {
    && d.rootCause.Some? && d.confidence.Some? && d.evidence.Some? && d.recommendedAction.Some?
    && 0.0 <= d.confidence.value <= 1.0
  }

  /** `context.get("external_status", {}).get("status") == "degraded"` */
  predicate IsDegraded(ctx: Context)
    ensures ctx.externalStatus.None? ==> !IsDegraded(ctx)
    ensures IsDegraded(ctx) ==> ctx.externalStatus.Some? && ctx.externalStatus.value.StatusData?
  {
    ctx.externalStatus.Some? && ctx.externalStatus.value.StatusData? && ctx.externalStatus.value.status == "degraded"
  }

  function ErrorQuery(issuer: string): string
  {
    "SELECT * FROM errors WHERE issuer='" + issuer + "' AND time > NOW() - INTERVAL '5 min'"
  }

  /** The context `investigate` gathers for an issuer. */
  function GatherContext(issuer: string): (ctx: Context)
    ensures ctx.externalStatus == CheckExternalStatus(issuer).data
    ensures ctx.recentErrors == Some(RowsData(MockRows))
  {
    Context(CheckExternalStatus(issuer).data, QueryDatabase(ErrorQuery(issuer)).data)
  }

  /** The fallback diagnosis: an outage with high confidence when the status
      page reports "degraded", otherwise a low-confidence generic diagnosis. */
  function MockDiagnosis(alert: Alert, issuer: string, ctx: Context): (d: Diagnosis)
    ensures WellFormed(d)
    ensures IsDegraded(ctx) ==>
              && d.rootCause == Some("External outage detected at " + issuer)
              && d.confidence == Some(0.95)
              && d.evidence == Some([issuer + " status page reports 'degraded'"])
              && d.recommendedAction == Some("route_traffic")
    ensures !IsDegraded(ctx) ==>
              && d.rootCause == Some("Unknown latency spike")
              && d.confidence == Some(0.5)
              && d.evidence == Some(["No external incidents reported", "High error count in DB"])
              && d.recommendedAction == Some("monitor")
  {
    if IsDegraded(ctx) then
      Diagnosis(Some("External outage detected at " + issuer), Some(0.95),
                Some([issuer + " status page reports 'degraded'"]), Some("route_traffic"))
    else
      Diagnosis(Some("Unknown latency spike"), Some(0.5),
                Some(["No external incidents reported", "High error count in DB"]), Some("monitor"))
  }

  /** Investigating an alert: without a model, or when the model call fails,
      the fallback over the gathered context; otherwise the model's answer as is. */
  function Investigate(alert: Alert, issuer: string, model: LanguageModel): (d: Diagnosis)
    ensures model.ModelAnswered? ==> d == model.answer
    ensures !model.ModelAnswered? ==> d == MockDiagnosis(alert, issuer, GatherContext(issuer))
    ensures !model.ModelAnswered? ==> WellFormed(d)
    ensures !model.ModelAnswered? ==>
              (d.confidence == Some(0.95) <==> CheckExternalStatus(issuer).data.value.status == "degraded")
  {
    var ctx := GatherContext(issuer);
    match model
    case ModelAnswered(answer) => answer
    case _ => MockDiagnosis(alert, issuer, ctx)
  }
}
