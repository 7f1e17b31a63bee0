/** The `analyze_git_repository` tool: checks the repository URL before any
    request, asks the service for an analysis and renders it. */
module AnalyzeGit {
  import opened Wrappers
  import opened Records
  import opened ApiClient
  import opened Protocol
  import ResultFormatter

  const Name := "analyze_git_repository"

  const Definition := ToolDefinition(
    Name,
    "Analyze a Git repository for stateful code patterns in .NET or Java projects",
    ObjectSchema(
      [ Property("gitUrl", "string", "Git repository URL (HTTPS or SSH)", []),
        Property("sshKeyId", "string", "SSH key ID for private repositories (optional)", []) ],
      ["gitUrl"]))

  const ErrorLead := "Error analyzing Git repository: "
  /** Written in two pieces, so that the proofs can index into it: the
      verifier does not index into single literals this long. */
  const InvalidUrlMessage := "Invalid Git URL. " + "Must start with https:// or git@"

  /** The URL test: present, non-empty, and an HTTPS or an SSH address. Both
      kinds of address are accepted, and nothing else: an empty string fails
      the prefix test already. */
  predicate AcceptedUrl(gitUrl: Option<string>)
    ensures AcceptedUrl(gitUrl) <==> gitUrl.Some? && ("https://" <= gitUrl.value || "git@" <= gitUrl.value)
  {
    gitUrl.Some? && gitUrl.value != "" && ("https://" <= gitUrl.value || "git@" <= gitUrl.value)
  }

  /** `execute`. The service's reply is a parameter; `calls` records the
      request the handler made, if any. */
  function Execute(args: Args, reply: Reply<AnalysisResult>, loc: Locale): (run: ToolRun)
    ensures IsTextEnvelope(run.envelope)
    ensures AcceptedUrl(Arg(args, "gitUrl")) ==> run.calls == [AnalyzeGitCall(args["gitUrl"], Arg(args, "sshKeyId"))]
    ensures !AcceptedUrl(Arg(args, "gitUrl")) ==> run.calls == []
    ensures run.envelope.isError <==> !AcceptedUrl(Arg(args, "gitUrl")) || reply.Failed?
    ensures run.envelope.isError ==> ErrorLead <= TextOf(run.envelope)
    ensures !AcceptedUrl(Arg(args, "gitUrl")) ==> TextOf(run.envelope) == ErrorLead + InvalidUrlMessage
    ensures AcceptedUrl(Arg(args, "gitUrl")) && reply.Failed? ==> TextOf(run.envelope) == ErrorLead + HandleError(reply.error, "analyzeGitRepository")
    ensures !run.envelope.isError ==> TextOf(run.envelope) == ResultFormatter.AnalysisText(reply.data, loc)
  {
    var gitUrl := Arg(args, "gitUrl");
    if !AcceptedUrl(gitUrl) then
      ToolRun(ErrorResult(ErrorLead + InvalidUrlMessage), [])
    else
      var call := AnalyzeGitCall(gitUrl.value, Arg(args, "sshKeyId"));
      match Settle(reply, OperationName(call))
      case Ok(result) => ToolRun(TextResult(ResultFormatter.AnalysisText(result, loc)), [call])
      case Err(message) => ToolRun(ErrorResult(ErrorLead + message), [call])
  }

  /** The error text says which step failed: a rejected URL and a failed
      request never read alike, and a failed request reports its cause. */
  lemma ErrorTextsDistinct(args: Args, reply: Reply<AnalysisResult>, loc: Locale)
    requires Execute(args, reply, loc).envelope.isError
    ensures var text := TextOf(Execute(args, reply, loc).envelope);
      text == ErrorLead + InvalidUrlMessage <==> !AcceptedUrl(Arg(args, "gitUrl"))
    ensures var text := TextOf(Execute(args, reply, loc).envelope);
      AcceptedUrl(Arg(args, "gitUrl")) ==> text[|ErrorLead| + |"analyzeGitRepository failed: "|..] == Cause(reply.error)
  {
    var text := TextOf(Execute(args, reply, loc).envelope);
    var rejected := ErrorLead + InvalidUrlMessage;
    if AcceptedUrl(Arg(args, "gitUrl")) {
      var message := HandleError(reply.error, "analyzeGitRepository");
      assert text == ErrorLead + message;
      assert text[|ErrorLead|..] == message;
      assert rejected[|ErrorLead|] == 'I' && message[0] == 'a';
      assert text[|ErrorLead| + 29..] == message[29..];
    } else {
      assert text == rejected;
    }
  }
}
