/** The three mock tools and their registry (backend/app/tools/definitions.py).
    Each tool is stateless: executing it is a function of its arguments. */
module Tools {
  import opened Basics
  import Text

  datatype Row = Row(timestamp: string, error: string, count: int)

  /** The `data` mapping a tool returns, one shape per tool. */
  datatype ToolData =
    | RouteData(percentage: int, destination: string)
    | StatusData(status: string, details: string)
    | RowsData(rows: seq<Row>)

  datatype ToolResult = ToolResult(success: bool, message: string, data: Option<ToolData>)

  datatype Tool = RouteTrafficTool | CheckExternalStatusTool | QueryDatabaseTool

  function ToolName(t: Tool): string
  {
    match t
    case RouteTrafficTool => "route_traffic"
    case CheckExternalStatusTool => "check_external_status"
    case QueryDatabaseTool => "query_database"
  }

  const AvailableTools: map<string, Tool> := map[
    "route_traffic" := RouteTrafficTool,
    "check_external_status" := CheckExternalStatusTool,
    "query_database" := QueryDatabaseTool]

  /** The registry holds exactly the three tools, each under its own name. */
  lemma RegistryHoldsEveryToolByName()
    ensures AvailableTools.Keys == {"route_traffic", "check_external_status", "query_database"}
    ensures forall t :: ToolName(t) in AvailableTools && AvailableTools[ToolName(t)] == t
  {
    forall t ensures ToolName(t) in AvailableTools && AvailableTools[ToolName(t)] == t {
      match t
      case RouteTrafficTool =>
      case CheckExternalStatusTool =>
      case QueryDatabaseTool =>
    }
  }

  /** Diverting `percentage` per cent of traffic to `destination`: always
      succeeds and echoes its inputs. */
  function RouteTraffic(percentage: int, destination: string, targetIssuer: Option<string>): (r: ToolResult)
    ensures r.success
    ensures r.data == Some(RouteData(percentage, destination))
  {
    ToolResult(true,
      "Successfully routed " + Text.IntToString(percentage) + "% of traffic to " + destination,
      Some(RouteData(percentage, destination)))
  }

  /** The canned external status pages, keyed by upper-case service name. */
  const MockStatus: map<string, ToolData> := map[
    "CHASE" := StatusData("degraded", "High latency on payment gateway."),
    "STRIPE" := StatusData("operational", "All systems go."),
    "BOA" := StatusData("maintenance", "Scheduled maintenance.")]

  const UnknownService: ToolData := StatusData("unknown", "Service not found")

  /** Checking a service's status page: the name is upper-cased before the
      lookup, and a service outside the table is reported as unknown. */
  function CheckExternalStatus(service: string): (r: ToolResult)
    ensures r.success && r.data.Some? && r.data.value.StatusData?
    ensures Text.Upper(service) == "CHASE" ==> r.data.value.status == "degraded"
    ensures Text.Upper(service) == "STRIPE" ==> r.data.value.status == "operational"
    ensures Text.Upper(service) == "BOA" ==> r.data.value.status == "maintenance"
    ensures Text.Upper(service) !in {"CHASE", "STRIPE", "BOA"} ==>
              r.data == Some(StatusData("unknown", "Service not found"))
  {
    var key := Text.Upper(service);
    var status := if key in MockStatus then MockStatus[key] else UnknownService;
    ToolResult(true, "Status for " + service + ": " + status.status, Some(status))
  }

  /** Upper-casing is idempotent, so a name and its upper-case form look up
      the same status page ("chase" and "CHASE" agree). */
  lemma {:induction false} StatusLookupIgnoresCase(service: string)
    ensures CheckExternalStatus(service).data == CheckExternalStatus(Text.Upper(service)).data
  {
    var u := Text.Upper(service);
    assert Text.Upper(u) == u by {
      forall i | 0 <= i < |u| ensures Text.Upper(u)[i] == u[i] {
        assert !('a' <= u[i] <= 'z');
      }
    }
  }

  const MockRows: seq<Row> := [Row("2023-10-27T10:00:00", "500", 150)]

  /** Querying the history database: the same canned rows whatever the query. */
  function QueryDatabase(query: string): (r: ToolResult)
    ensures r.success && r.data == Some(RowsData(MockRows))
  {
    ToolResult(true, "Executed query: " + query, Some(RowsData(MockRows)))
  }
}
