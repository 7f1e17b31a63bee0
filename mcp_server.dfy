/** The tool server: the listing of the five tools and the dispatch of a
    tool call, by name, to its handler. */
module McpServer {
  import opened Wrappers
  import opened Records
  import opened ApiClient
  import opened Protocol
  import AnalyzeGit
  import AnalyzeLocal
  import GenerateScript
  import GetFindings
  import ExplainRemediation

  datatype Tool = AnalyzeGitTool | AnalyzeLocalTool | GenerateScriptTool | GetFindingsTool | ExplainRemediationTool

  function ToolName(t: Tool): string {
    match t
    case AnalyzeGitTool => AnalyzeGit.Name
    case AnalyzeLocalTool => AnalyzeLocal.Name
    case GenerateScriptTool => GenerateScript.Name
    case GetFindingsTool => GetFindings.Name
    case ExplainRemediationTool => ExplainRemediation.Name
  }

  function DefinitionOf(t: Tool): (d: ToolDefinition)
    ensures d.name == ToolName(t)
  {
    match t
    case AnalyzeGitTool => AnalyzeGit.Definition
    case AnalyzeLocalTool => AnalyzeLocal.Definition
    case GenerateScriptTool => GenerateScript.Definition
    case GetFindingsTool => GetFindings.Definition
    case ExplainRemediationTool => ExplainRemediation.Definition
  }

  /** The order of the listing. */
  const Listed := [AnalyzeGitTool, AnalyzeLocalTool, GenerateScriptTool, GetFindingsTool, ExplainRemediationTool]

  /** The `ListTools` handler: the five definitions, in a fixed order. */
  function ListTools(): (defs: seq<ToolDefinition>)
    ensures |defs| == |Listed| == 5
    ensures forall i :: 0 <= i < 5 ==> defs[i] == DefinitionOf(Listed[i])
  {
    [AnalyzeGit.Definition, AnalyzeLocal.Definition, GenerateScript.Definition, GetFindings.Definition, ExplainRemediation.Definition]
  }

  /** The `switch` of the `CallTool` handler. */
  function Route(name: string): (r: Option<Tool>)
    ensures r.Some? ==> ToolName(r.value) == name
    ensures r.None? ==> forall t :: ToolName(t) != name
  {
    match name
    case "analyze_git_repository" => Some(AnalyzeGitTool)
    case "analyze_local_project" => Some(AnalyzeLocalTool)
    case "generate_analysis_script" => Some(GenerateScriptTool)
    case "get_project_findings" => Some(GetFindingsTool)
    case "explain_remediation" => Some(ExplainRemediationTool)
    case _ => None
  }

  /** Routing and naming are inverse: each tool's name routes to that tool,
      and a name routes to a tool only when it is that tool's name. */
  lemma RouteIsNaming(name: string, t: Tool)
    ensures Route(name) == Some(t) <==> name == ToolName(t)
  {
  }

  /** The five names are pairwise distinct. */
  lemma NamesDistinct(t1: Tool, t2: Tool)
    requires ToolName(t1) == ToolName(t2)
    ensures t1 == t2
  {
    RouteIsNaming(ToolName(t1), t1);
    RouteIsNaming(ToolName(t1), t2);
  }

  /** Every tool is listed exactly once, and each listed name routes to the
      tool whose definition it is. */
  lemma ListingAgreesWithRouting(t: Tool)
    ensures exists i :: 0 <= i < 5 && Listed[i] == t
    ensures forall i, j :: 0 <= i < j < 5 ==> Listed[i] != Listed[j]
    ensures forall i :: 0 <= i < 5 ==> Route(ListTools()[i].name) == Some(Listed[i])
  {
    match t
    case AnalyzeGitTool => assert Listed[0] == t;
    case AnalyzeLocalTool => assert Listed[1] == t;
    case GenerateScriptTool => assert Listed[2] == t;
    case GetFindingsTool => assert Listed[3] == t;
    case ExplainRemediationTool => assert Listed[4] == t;
  }

  /** Everything outside the program that a tool call depends on: the service's
      replies, the catalog file, the file system's answers and the locale. */
  datatype World = World(
    gitReply: Reply<AnalysisResult>,
    localReply: Reply<AnalysisResult>,
    scriptReply: Reply<string>,
    findingsReply: Reply<Option<seq<Scan>>>,
    catalog: Result<seq<RemediationEntry>, string>,
    stat: AnalyzeLocal.StatOutcome,
    zip: AnalyzeLocal.ZipOutcome,
    unlinkSucceeds: bool,
    loc: Locale)

  /** What the tool `t` does with the arguments, unchanged, in `world`. */
  function Handle(t: Tool, args: Args, world: World, archive: ArchiveId): (run: ToolRun)
    ensures IsTextEnvelope(run.envelope) && |run.calls| <= 1
    ensures t == ExplainRemediationTool ==> run.calls == []
  {
    match t
    case AnalyzeGitTool => AnalyzeGit.Execute(args, world.gitReply, world.loc)
    case AnalyzeLocalTool => AnalyzeLocal.Run(args, world.stat, world.zip, world.localReply, world.loc, archive)
    case GenerateScriptTool => GenerateScript.Execute(args, world.scriptReply)
    case GetFindingsTool => GetFindings.Execute(args, world.findingsReply, world.loc)
    case ExplainRemediationTool => ExplainRemediation.Execute(args, world.catalog)
  }

  const UnknownToolLead := "Unknown tool: "

  /** Hands the request a handler made, if it made one, to the shared client. */
  method Submit(calls: seq<ApiCall>, client: Client)
    requires |calls| <= 1 && client.Valid()
    modifies client
    ensures client.Valid()
    ensures |client.sent| == |old(client.sent)| + |calls| && client.sent[..|old(client.sent)|] == old(client.sent)
    ensures |calls| == 1 ==>
      && client.sent[|old(client.sent)|] == RequestFor(calls[0], client.baseUrl, client.sent[|old(client.sent)|].requestId)
      && forall i :: 0 <= i < |old(client.sent)| ==> client.sent[i].requestId != client.sent[|old(client.sent)|].requestId
  {
    if |calls| == 1 {
      var request := client.Send(calls[0]);
    }
  }

  /** Runs the handler of `t`, with its request, if any, sent through `client`
      and, for the local tool, its archive kept in `storage`. */
  method Dispatch(t: Tool, args: Args, world: World, storage: AnalyzeLocal.TempStorage, client: Client)
    returns (run: ToolRun)
    requires storage.Valid() && client.Valid()
    modifies storage, client
    ensures storage.Valid() && client.Valid()
    ensures run == Handle(t, args, world, old(storage.clock))
    ensures t != AnalyzeLocalTool ==>
      storage.present == old(storage.present) && storage.created == old(storage.created) && storage.deleted == old(storage.deleted)
    ensures |client.sent| == |old(client.sent)| + |run.calls| && client.sent[..|old(client.sent)|] == old(client.sent)
    ensures |run.calls| == 1 ==>
      && client.sent[|old(client.sent)|] == RequestFor(run.calls[0], client.baseUrl, client.sent[|old(client.sent)|].requestId)
      && forall i :: 0 <= i < |old(client.sent)| ==> client.sent[i].requestId != client.sent[|old(client.sent)|].requestId
    ensures t == AnalyzeLocalTool ==>
      var archived := AnalyzeLocal.Archives(args, world.stat, world.zip);
      && storage.created == old(storage.created) + (if archived then [old(storage.clock)] else [])
      && storage.deleted == old(storage.deleted) + (if archived then [old(storage.clock)] else [])
      && storage.present == old(storage.present) + (if archived && !world.unlinkSucceeds then {old(storage.clock)} else {})
  {
    match t {
      case AnalyzeGitTool =>
        run := AnalyzeGit.Execute(args, world.gitReply, world.loc);
        Submit(run.calls, client);
      case AnalyzeLocalTool =>
        run := AnalyzeLocal.Execute(args, world.stat, world.zip, world.localReply, world.unlinkSucceeds, world.loc, storage, client);
      case GenerateScriptTool =>
        run := GenerateScript.Execute(args, world.scriptReply);
        Submit(run.calls, client);
      case GetFindingsTool =>
        run := GetFindings.Execute(args, world.findingsReply, world.loc);
        Submit(run.calls, client);
      case ExplainRemediationTool =>
        run := ExplainRemediation.Execute(args, world.catalog);
    }
  }

  /** The `CallTool` handler: the envelope of the routed tool, or the error
      thrown for a name no tool has. */
  method CallTool(name: string, args: Args, world: World, storage: AnalyzeLocal.TempStorage, client: Client)
    returns (r: Result<Envelope, string>)
    requires storage.Valid() && client.Valid()
    modifies storage, client
    ensures storage.Valid() && client.Valid()
    ensures Route(name).None? ==> r == Err(UnknownToolLead + name) && client.sent == old(client.sent)
    ensures Route(name).Some? ==> r == Ok(Handle(Route(name).value, args, world, old(storage.clock)).envelope)
    ensures Route(name) != Some(AnalyzeLocalTool) ==>
      storage.present == old(storage.present) && storage.created == old(storage.created) && storage.deleted == old(storage.deleted)
    ensures Route(name).Some? ==>
      var calls := Handle(Route(name).value, args, world, old(storage.clock)).calls;
      && |client.sent| == |old(client.sent)| + |calls| && client.sent[..|old(client.sent)|] == old(client.sent)
      && (|calls| == 1 ==>
            && client.sent[|old(client.sent)|] == RequestFor(calls[0], client.baseUrl, client.sent[|old(client.sent)|].requestId)
            && forall i :: 0 <= i < |old(client.sent)| ==> client.sent[i].requestId != client.sent[|old(client.sent)|].requestId)
    ensures Route(name) == Some(AnalyzeLocalTool) ==>
      var archived := AnalyzeLocal.Archives(args, world.stat, world.zip);
      && storage.created == old(storage.created) + (if archived then [old(storage.clock)] else [])
      && storage.deleted == old(storage.deleted) + (if archived then [old(storage.clock)] else [])
      && storage.present == old(storage.present) + (if archived && !world.unlinkSucceeds then {old(storage.clock)} else {})
  {
    var tool := Route(name);
    if tool.None? {
      return Err(UnknownToolLead + name);
    }
    var run := Dispatch(tool.value, args, world, storage, client);
    r := Ok(run.envelope);
  }
}
