/** The outbound client of the analysis service: which request each operation
    sends, one fresh request id per call, and the classification of failures
    into one message. */
module ApiClient {
  import opened Wrappers
  import opened Records
  import Text

  /** Why a request did not succeed, in the three shapes an HTTP client error takes. */
  datatype HttpError =
    | Responded(statusText: string, errorField: Option<string>)  // the server answered; `errorField` is `response.data.error`
    | NoResponse                                                // a request went out but nothing came back
    | SetupFailed(message: string)                              // the request could not be made

  /** What the transport returned for one request. */
  datatype Reply<T> = Delivered(data: T) | Failed(error: HttpError)

  const NoResponseText := "No response from server"

  /** The cause each failure shape reports; a missing or empty error field of a
      response falls back to its status text. */
  function Cause(e: HttpError): (cause: string)
    ensures e.Responded? && e.errorField.Some? && e.errorField.value != "" ==> cause == e.errorField.value
    ensures e.Responded? && (e.errorField.None? || e.errorField.value == "") ==> cause == e.statusText
    ensures e.NoResponse? ==> cause == NoResponseText
    ensures e.SetupFailed? ==> cause == e.message
  {
    match e
    case Responded(statusText, errorField) =>
      if errorField.Some? && errorField.value != "" then errorField.value else statusText
    case NoResponse => NoResponseText
    case SetupFailed(message) => message
  }

  /** The message of the error every operation throws: the operation's name,
      then the cause, which can be read back from the message. */
  function HandleError(e: HttpError, operation: string): (message: string)
    ensures operation + " failed: " <= message
    ensures message[|operation| + 9..] == Cause(e)
  {
    operation + " failed: " + Cause(e)
  }

  /** A transport failure and a server error are told apart by their messages,
      and a server's own error text is what the message reports. */
  lemma TransportFailureDistinct(operation: string, statusText: string, serverText: string)
    requires serverText != "" && serverText != NoResponseText
    ensures HandleError(Responded(statusText, Some(serverText)), operation) != HandleError(NoResponse, operation)
    ensures HandleError(Responded(statusText, Some(serverText)), operation) == operation + " failed: " + serverText
  {
    var m := HandleError(Responded(statusText, Some(serverText)), operation);
    var n := HandleError(NoResponse, operation);
    assert m[|operation| + 9..] != n[|operation| + 9..];
  }

  /** Two failures give the same message for one operation exactly when they
      report the same cause. */
  lemma SameMessageSameCause(e1: HttpError, e2: HttpError, operation: string)
    ensures HandleError(e1, operation) == HandleError(e2, operation) <==> Cause(e1) == Cause(e2)
  {
  }

  /** What an operation returns: the response body, or the classified error. */
  function Settle<T>(reply: Reply<T>, operation: string): (r: Result<T, string>)
    ensures r.Ok? <==> reply.Delivered?
    ensures reply.Delivered? ==> r.value == reply.data
    ensures reply.Failed? ==> r.error == HandleError(reply.error, operation)
  {
    match reply
    case Delivered(data) => Ok(data)
    case Failed(e) => Err(HandleError(e, operation))
  }

  /** The operations of the client, with the arguments each is called with;
      an absent argument is `None`. */
  datatype ApiCall =
    | AnalyzeGitCall(gitUrl: string, sshKeyId: Option<string>)
    | AnalyzeLocalCall(archive: ArchiveId)
    | ScriptCall(scriptType: Option<string>)
    | FindingsCall(projectName: Option<string>)
    | SshKeyCall

  function OperationName(c: ApiCall): string {
    match c
    case AnalyzeGitCall(_, _) => "analyzeGitRepository"
    case AnalyzeLocalCall(_) => "analyzeLocalProject"
    case ScriptCall(_) => "generateScript"
    case FindingsCall(_) => "getProjectFindings"
    case SshKeyCall => "generateSSHKey"
  }

  datatype Verb = Get | Post
  datatype JsonValue = JsonString(s: string) | JsonNull
  datatype FormPart = FieldPart(name: string, value: string) | FilePart(name: string, archive: ArchiveId)
  datatype Body = NoBody | Json(members: seq<(string, JsonValue)>) | Multipart(parts: seq<FormPart>)

  /** The stand-in for a uuid: a token that no earlier request carried. */
  type RequestId = nat

  /** An outbound request; `requestId` travels as the `X-Request-ID` header. */
  datatype Request = Request(baseUrl: string, verb: Verb, path: string, requestId: RequestId, contentType: Option<string>, body: Body)

  /** The script endpoint: the bash one exactly for `'bash'`, otherwise PowerShell. */
  function ScriptPath(scriptType: Option<string>): (path: string)
    ensures path == "/api/script/bash" <==> scriptType == Some("bash")
    ensures path != "/api/script/bash" ==> path == "/api/script/powershell"
  {
    if scriptType == Some("bash") then "/api/script/bash" else "/api/script/powershell"
  }

  const FindingsPrefix := "/findings/"

  /** The request an operation sends. */
  function RequestFor(c: ApiCall, baseUrl: string, id: RequestId): (r: Request)
    ensures r.requestId == id && r.baseUrl == baseUrl
  {
    match c
    case AnalyzeGitCall(gitUrl, sshKeyId) =>
      var key := if sshKeyId.Some? then JsonString(sshKeyId.value) else JsonNull;
      Request(baseUrl, Post, "/analyze", id, Some("application/json"),
              Json([("type", JsonString("git")), ("gitUrl", JsonString(gitUrl)), ("sshKeyId", key)]))
    case AnalyzeLocalCall(archive) =>
      Request(baseUrl, Post, "/analyze", id, Some("multipart/form-data"),
              Multipart([FieldPart("type", "zip"), FilePart("zipFile", archive)]))
    case ScriptCall(scriptType) =>
      Request(baseUrl, Get, ScriptPath(scriptType), id, None, NoBody)
    case FindingsCall(projectName) =>
      Request(baseUrl, Get, FindingsPrefix + Text.Interpolate(projectName), id, None, NoBody)
    case SshKeyCall =>
      Request(baseUrl, Post, "/api/ssh/generate", id, None, Json([]))
  }

  /** Which operation a request asks for, with which arguments, read from the
      request as built: verb, unparsed path and body. */
  function OperationOf(r: Request): Option<ApiCall> {
    match r.body
    case Json(members) =>
      if r.verb == Post && r.path == "/analyze" && |members| == 3
         && members[0] == ("type", JsonString("git"))
         && members[1].0 == "gitUrl" && members[1].1.JsonString?
         && members[2].0 == "sshKeyId"
      then
        var key := members[2].1;
        Some(AnalyzeGitCall(members[1].1.s, if key.JsonString? then Some(key.s) else None))
      else if r.verb == Post && r.path == "/api/ssh/generate" && members == [] then Some(SshKeyCall)
      else None
    case Multipart(parts) =>
      if r.verb == Post && r.path == "/analyze" && |parts| == 2
         && parts[0] == FieldPart("type", "zip") && parts[1].FilePart? && parts[1].name == "zipFile"
      then Some(AnalyzeLocalCall(parts[1].archive))
      else None
    case NoBody =>
      if r.verb != Get then None
      else if r.path == "/api/script/bash" then Some(ScriptCall(Some("bash")))
      else if r.path == "/api/script/powershell" then Some(ScriptCall(Some("powershell")))
      else if FindingsPrefix <= r.path then Some(FindingsCall(Some(r.path[|FindingsPrefix|..])))
      else None
  }

  /** The call a built request stands for: any script type other than
      `'bash'` asks for PowerShell, and an absent project name is written as
      `undefined`. */
  function AsSent(c: ApiCall): ApiCall {
    match c
    case ScriptCall(t) => ScriptCall(Some(if t == Some("bash") then "bash" else "powershell"))
    case FindingsCall(n) => FindingsCall(Some(Text.Interpolate(n)))
    case _ => c
  }

  /** Every request, as built, can be read back as the operation that sent it. */
  lemma RequestRoundTrip(c: ApiCall, baseUrl: string, id: RequestId)
    ensures OperationOf(RequestFor(c, baseUrl, id)) == Some(AsSent(c))
  {
    match c
    case FindingsCall(n) =>
      var p := FindingsPrefix + Text.Interpolate(n);
      assert p[|FindingsPrefix|..] == Text.Interpolate(n);
      assert p != "/api/script/bash" && p != "/api/script/powershell" by {
        assert p[1] == 'f';
      }
    case _ =>
  }

  /** Two calls send the same request only when the service would see the same call. */
  lemma RequestsIdentifyCalls(c1: ApiCall, c2: ApiCall, baseUrl: string, id: RequestId)
    requires RequestFor(c1, baseUrl, id) == RequestFor(c2, baseUrl, id)
    ensures AsSent(c1) == AsSent(c2)
  {
    RequestRoundTrip(c1, baseUrl, id);
    RequestRoundTrip(c2, baseUrl, id);
  }

  /** The configured base URL, replaced by the environment's when that is set and non-empty. */
  function ResolveBaseUrl(envOverride: Option<string>, configured: string): (url: string)
    ensures envOverride.Some? && envOverride.value != "" ==> url == envOverride.value
    ensures envOverride.None? || envOverride.value == "" ==> url == configured
  {
    if envOverride.Some? && envOverride.value != "" then envOverride.value else configured
  }

  datatype Config = Config(baseUrl: string, timeout: nat)

  /** The shared client. `sent` records every request handed to the transport. */
  class Client {
    const baseUrl: string
    const timeout: nat
    var nextId: RequestId
    var sent: seq<Request>

    /** Every request went to the configured base URL and carried an id of its
        own, issued in increasing order. */
    ghost predicate Valid()
      reads this
    {
      && (forall i :: 0 <= i < |sent| ==> sent[i].baseUrl == baseUrl && sent[i].requestId < nextId)
      && (forall i, j :: 0 <= i < j < |sent| ==> sent[i].requestId < sent[j].requestId)
    }

    constructor (envOverride: Option<string>, config: Config)
      ensures Valid() && sent == []
      ensures baseUrl == ResolveBaseUrl(envOverride, config.baseUrl) && timeout == config.timeout
    {
      baseUrl := ResolveBaseUrl(envOverride, config.baseUrl);
      timeout := config.timeout;
      nextId := 0;
      sent := [];
    }

    /** A token that no request sent so far carries. */
    method GenerateRequestId() returns (id: RequestId)
      requires Valid()
      modifies this
      ensures Valid() && sent == old(sent)
      ensures forall i :: 0 <= i < |sent| ==> sent[i].requestId < id
      ensures id < nextId
    {
      id := nextId;
      nextId := nextId + 1;
    }

    /** Hands the request of `call`, under a fresh id, to the transport. */
    method Send(call: ApiCall) returns (request: Request)
      requires Valid()
      modifies this
      ensures Valid()
      ensures sent == old(sent) + [request]
      ensures request == RequestFor(call, baseUrl, request.requestId)
      ensures forall i :: 0 <= i < |old(sent)| ==> old(sent)[i].requestId < request.requestId
    {
      var id := GenerateRequestId();
      request := RequestFor(call, baseUrl, id);
      sent := sent + [request];
    }

    /** Sends the request of `call` under a fresh id and settles the reply. */
    method Perform<T>(call: ApiCall, reply: Reply<T>) returns (r: Result<T, string>)
      requires Valid()
      modifies this
      ensures Valid()
      ensures |sent| == |old(sent)| + 1 && sent[..|old(sent)|] == old(sent)
      ensures sent[|old(sent)|] == RequestFor(call, baseUrl, sent[|old(sent)|].requestId)
      ensures forall i :: 0 <= i < |old(sent)| ==> sent[i].requestId != sent[|old(sent)|].requestId
      ensures r == Settle(reply, OperationName(call))
    {
      var request := Send(call);
      r := Settle(reply, OperationName(call));
    }

    method AnalyzeGitRepository(gitUrl: string, sshKeyId: Option<string>, reply: Reply<AnalysisResult>)
      returns (r: Result<AnalysisResult, string>)
      requires Valid()
      modifies this
      ensures Valid()
      ensures |sent| == |old(sent)| + 1 && sent[..|old(sent)|] == old(sent)
      ensures sent[|old(sent)|] == RequestFor(AnalyzeGitCall(gitUrl, sshKeyId), baseUrl, sent[|old(sent)|].requestId)
      ensures forall i :: 0 <= i < |old(sent)| ==> sent[i].requestId != sent[|old(sent)|].requestId
      ensures r == Settle(reply, "analyzeGitRepository")
    {
      r := Perform(AnalyzeGitCall(gitUrl, sshKeyId), reply);
    }

    method AnalyzeLocalProject(archive: ArchiveId, reply: Reply<AnalysisResult>)
      returns (r: Result<AnalysisResult, string>)
      requires Valid()
      modifies this
      ensures Valid()
      ensures |sent| == |old(sent)| + 1 && sent[..|old(sent)|] == old(sent)
      ensures sent[|old(sent)|] == RequestFor(AnalyzeLocalCall(archive), baseUrl, sent[|old(sent)|].requestId)
      ensures forall i :: 0 <= i < |old(sent)| ==> sent[i].requestId != sent[|old(sent)|].requestId
      ensures r == Settle(reply, "analyzeLocalProject")
    {
      r := Perform(AnalyzeLocalCall(archive), reply);
    }

    method GenerateScript(scriptType: Option<string>, reply: Reply<string>)
      returns (r: Result<string, string>)
      requires Valid()
      modifies this
      ensures Valid()
      ensures |sent| == |old(sent)| + 1 && sent[..|old(sent)|] == old(sent)
      ensures sent[|old(sent)|] == RequestFor(ScriptCall(scriptType), baseUrl, sent[|old(sent)|].requestId)
      ensures forall i :: 0 <= i < |old(sent)| ==> sent[i].requestId != sent[|old(sent)|].requestId
      ensures r == Settle(reply, "generateScript")
    {
      r := Perform(ScriptCall(scriptType), reply);
    }

    method GetProjectFindings(projectName: Option<string>, reply: Reply<Option<seq<Scan>>>)
      returns (r: Result<Option<seq<Scan>>, string>)
      requires Valid()
      modifies this
      ensures Valid()
      ensures |sent| == |old(sent)| + 1 && sent[..|old(sent)|] == old(sent)
      ensures sent[|old(sent)|] == RequestFor(FindingsCall(projectName), baseUrl, sent[|old(sent)|].requestId)
      ensures forall i :: 0 <= i < |old(sent)| ==> sent[i].requestId != sent[|old(sent)|].requestId
      ensures r == Settle(reply, "getProjectFindings")
    {
      r := Perform(FindingsCall(projectName), reply);
    }

    /** The key pair's shape is the service's business; it is a type parameter here. */
    method GenerateSshKey<K>(reply: Reply<K>) returns (r: Result<K, string>)
      requires Valid()
      modifies this
      ensures Valid()
      ensures |sent| == |old(sent)| + 1 && sent[..|old(sent)|] == old(sent)
      ensures sent[|old(sent)|] == RequestFor(SshKeyCall, baseUrl, sent[|old(sent)|].requestId)
      ensures forall i :: 0 <= i < |old(sent)| ==> sent[i].requestId != sent[|old(sent)|].requestId
      ensures r == Settle(reply, "generateSSHKey")
    {
      r := Perform(SshKeyCall, reply);
    }
  }
}
