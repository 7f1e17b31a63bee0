/** The `generate_analysis_script` tool: fetches an offline analysis script
    and presents it with instructions for running it. */
module GenerateScript {
  import opened Wrappers
  import opened ApiClient
  import opened Protocol
  import opened Text

  const Name := "generate_analysis_script"

  const Definition := ToolDefinition(
    Name,
    "Generate a bash or PowerShell script for offline analysis",
    ObjectSchema([Property("scriptType", "string", "Type of script to generate", ["bash", "powershell"])], ["scriptType"]))

  const ErrorLead := "Error generating script: "

  // The instructions are written line by line, so that the proofs can index
  // into them: the verifier does not index into single literals this long.
  const BashInstructions :=
    "To use this script:\n"
    + "1. Save as analyze.sh\n"
    + "2. Make executable: chmod +x analyze.sh\n"
    + "3. Run: ./analyze.sh /path/to/project\n"
    + "4. Results will be saved as findings.json"

  const PowerShellInstructions :=
    "To use this script:\n"
    + "1. Save as analyze.ps1\n"
    + "2. Run: .\\analyze.ps1 -ProjectPath "
    + "\"C:\\path\\to\\project\"\n"
    + "3. Results will be saved as findings.json"

  /** The bash instructions for `'bash'`, the PowerShell ones for anything else.
      The two differ, so the instructions tell which type was asked for. */
  function Instructions(scriptType: Option<string>): (r: string)
    ensures r == BashInstructions <==> scriptType == Some("bash")
    ensures r != BashInstructions ==> r == PowerShellInstructions
  {
    assert |BashInstructions| != |PowerShellInstructions|;
    if scriptType == Some("bash") then BashInstructions else PowerShellInstructions
  }

  function ScriptTitle(scriptType: string): string {
    "# " + Upper(scriptType) + " Analysis Script\n\n"
  }

  /** The script in a Markdown fence whose language tag is the script type. */
  function ScriptFence(scriptType: string, content: string): string {
    "```" + scriptType + "\n" + content + "\n```"
  }

  /** The title, the instructions, and the fenced script. */
  function ScriptDocument(scriptType: string, content: string): (d: string)
    ensures ScriptTitle(scriptType) <= d
    ensures |ScriptFence(scriptType, content)| <= |d|
    ensures d[|d| - |ScriptFence(scriptType, content)|..] == ScriptFence(scriptType, content)
    ensures var k := |ScriptTitle(scriptType)|; var ins := Instructions(Some(scriptType));
      k + |ins| <= |d| && d[k..k + |ins|] == ins
  {
    Layout(ScriptTitle(scriptType), Instructions(Some(scriptType)), "\n\n", ScriptFence(scriptType, content));
    ScriptTitle(scriptType) + (Instructions(Some(scriptType)) + "\n\n") + ScriptFence(scriptType, content)
  }

  /** `execute`. The script text the service returns is the reply. */
  function Execute(args: Args, reply: Reply<string>): (run: ToolRun)
    ensures run.calls == [ScriptCall(Arg(args, "scriptType"))]
    ensures IsTextEnvelope(run.envelope)
    ensures run.envelope.isError <==> reply.Failed? || !("scriptType" in args)
    ensures reply.Failed? ==> TextOf(run.envelope) == ErrorLead + HandleError(reply.error, "generateScript")
    ensures reply.Delivered? && !("scriptType" in args) ==>
      TextOf(run.envelope) == ErrorLead + ReadingUndefined("toUpperCase")
    ensures reply.Delivered? && "scriptType" in args ==>
      TextOf(run.envelope) == ScriptDocument(args["scriptType"], reply.data)
  {
    var scriptType := Arg(args, "scriptType");
    var call := ScriptCall(scriptType);
    match Settle(reply, OperationName(call))
    case Err(message) => ToolRun(ErrorResult(ErrorLead + message), [call])
    case Ok(content) =>
      if scriptType.None? then
        ToolRun(ErrorResult(ErrorLead + ReadingUndefined("toUpperCase")), [call])
      else
        ToolRun(TextResult(ScriptDocument(scriptType.value, content)), [call])
  }

  /** The document opens with the title, whose type is upper-cased: no small
      letter of the type reaches the title. */
  lemma ScriptTitleLeads(scriptType: string, content: string)
    ensures "# " + Upper(scriptType) + " Analysis Script\n\n" <= ScriptDocument(scriptType, content)
    ensures var d := ScriptDocument(scriptType, content);
      2 + |scriptType| <= |d| && forall i :: 2 <= i < 2 + |scriptType| ==> !('a' <= d[i] <= 'z')
  {
    var d := ScriptDocument(scriptType, content);
    var title := "# " + Upper(scriptType) + " Analysis Script\n\n";
    assert ScriptTitle(scriptType) == title;
    forall i | 2 <= i < 2 + |scriptType|
      ensures !('a' <= d[i] <= 'z')
    {
      assert d[i] == title[i] == Upper(scriptType)[i - 2];
    }
  }

  /** `d` ends with `content` followed by the line that closes the fence. */
  predicate ClosesWithScript(d: string, content: string) {
    |d| >= |content| + 4 && d[|d| - |content| - 4..|d| - 4] == content && d[|d| - 4..] == "\n```"
  }

  /** The document closes with the script itself, which can be read back
      unchanged from the end. */
  lemma ScriptDocumentParts(scriptType: string, content: string)
    ensures ClosesWithScript(ScriptDocument(scriptType, content), content)
  {
    FencedTail(ScriptDocument(scriptType, content), "```" + scriptType + "\n", content);
  }

  /** A text that ends with a fence holds the script just before the closing fence. */
  lemma FencedTail(d: string, opening: string, content: string)
    requires |opening| + |content| + 4 <= |d|
    requires d[|d| - (|opening| + |content| + 4)..] == opening + content + "\n```"
    ensures ClosesWithScript(d, content)
  {
    var fence := opening + content + "\n```";
    var k := |d| - |fence|;
    var o := |opening|;
    assert fence[o..o + |content|] == content;
    assert fence[o + |content|..] == "\n```";
    SliceOfTail(d, k, fence, o, o + |content|);
    SliceOfTail(d, k, fence, o + |content|, |fence|);
    assert d[|d| - 4..] == d[k + o + |content|..k + |fence|];
  }

  /** Any type other than `'bash'` fetches the PowerShell script and shows the
      PowerShell instructions, yet the fence is labelled with the type given. */
  lemma OtherTypesGetPowerShell(scriptType: string, content: string, baseUrl: string, id: RequestId)
    requires scriptType != "bash"
    ensures RequestFor(ScriptCall(Some(scriptType)), baseUrl, id).path == "/api/script/powershell"
    ensures Instructions(Some(scriptType)) == PowerShellInstructions
    ensures var d := ScriptDocument(scriptType, content);
      |ScriptFence(scriptType, content)| <= |d| && d[|d| - |ScriptFence(scriptType, content)|..] == "```" + scriptType + "\n" + content + "\n```"
  {
  }
}
