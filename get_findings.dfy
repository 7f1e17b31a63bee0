/** The `get_project_findings` tool: fetches a project's scan history and
    renders it, or says that there is none. */
module GetFindings {
  import opened Wrappers
  import opened Records
  import opened ApiClient
  import opened Protocol
  import Text
  import ResultFormatter

  const Name := "get_project_findings"

  const Definition := ToolDefinition(
    Name,
    "Retrieve historical analysis findings for a project",
    ObjectSchema([Property("projectName", "string", "Name of the project", [])], ["projectName"]))

  const ErrorLead := "Error retrieving findings: "
  const NoneFoundLead := "No historical findings found for project: "

  /** `execute`. A reply of `null` is `Delivered(None)`. */
  function Execute(args: Args, reply: Reply<Option<seq<Scan>>>, loc: Locale): (run: ToolRun)
    ensures run.calls == [FindingsCall(Arg(args, "projectName"))]
    ensures IsTextEnvelope(run.envelope)
    ensures run.envelope.isError <==> reply.Failed?
    ensures reply.Failed? ==> TextOf(run.envelope) == ErrorLead + HandleError(reply.error, "getProjectFindings")
    ensures reply.Delivered? && !ResultFormatter.HasEntries(reply.data) ==>
      TextOf(run.envelope) == NoneFoundLead + Text.Interpolate(Arg(args, "projectName"))
    ensures reply.Delivered? && ResultFormatter.HasEntries(reply.data) ==>
      TextOf(run.envelope) == ResultFormatter.HistoryText(reply.data.value, Text.Interpolate(Arg(args, "projectName")), loc)
  {
    var projectName := Arg(args, "projectName");
    var call := FindingsCall(projectName);
    match Settle(reply, OperationName(call))
    case Err(message) => ToolRun(ErrorResult(ErrorLead + message), [call])
    case Ok(findings) =>
      if findings.None? || |findings.value| == 0 then
        ToolRun(TextResult(NoneFoundLead + Text.Interpolate(projectName)), [call])
      else
        ToolRun(TextResult(ResultFormatter.HistoryText(findings.value, Text.Interpolate(projectName), loc)), [call])
  }

  /** A successful reply reads either as the empty-history notice or as a
      history whose title names the project and whose scan count is the number
      of scans returned; the two never look alike. */
  lemma SuccessTexts(args: Args, reply: Reply<Option<seq<Scan>>>, loc: Locale)
    requires reply.Delivered?
    ensures var text := TextOf(Execute(args, reply, loc).envelope);
      var name := Text.Interpolate(Arg(args, "projectName"));
      (NoneFoundLead <= text <==> !ResultFormatter.HasEntries(reply.data))
      && (ResultFormatter.HasEntries(reply.data) ==>
            ("# Historical Findings: " + name + "\n\n")
            + ("**Total Scans**: " + Text.NatToDecimal(|reply.data.value|) + "\n\n") <= text)
  {
    var text := TextOf(Execute(args, reply, loc).envelope);
    if ResultFormatter.HasEntries(reply.data) {
      var name := Text.Interpolate(Arg(args, "projectName"));
      ResultFormatter.HistoryCountsScans(reply.data.value, name, loc);
      assert text[0] == '#';
    }
  }
}
