/** The `analyze_local_project` tool: checks that the path is a directory,
    archives it into a temporary file, sends the archive for analysis, and
    deletes the archive again on every way out. */
module AnalyzeLocal {
  import opened Wrappers
  import opened Records
  import opened ApiClient
  import opened Protocol
  import ResultFormatter

  const Name := "analyze_local_project"

  const Definition := ToolDefinition(
    Name,
    "Analyze a local project directory for stateful code patterns",
    ObjectSchema([Property("projectPath", "string", "Absolute path to project directory", [])], ["projectPath"]))

  const ErrorLead := "Error analyzing local project: "
  const NotDirectoryMessage := "Project path must be a directory"

  /** The message of the error `fs.stat` throws for an `undefined` path. */
  const UndefinedPathMessage :=
    "The \"path\" argument must be of type string or an instance of Buffer or URL. "
    + "Received undefined"

  /** What `fs.stat` reports for the path: its kind, or the error it throws. */
  datatype StatOutcome = Stat(isDirectory: bool) | StatFailed(message: string)

  /** Whether the zipper finished writing the archive or failed with a message. */
  datatype ZipOutcome = Zipped | ZipFailed(message: string)

  /** The temporary directory, as far as the tool touches it: which archives
      exist, which were created and which deletions were attempted. */
  class TempStorage {
    var present: set<ArchiveId>
    var created: seq<ArchiveId>
    var deleted: seq<ArchiveId>
    /** The stamp the next archive is named by. Each archive gets a stamp of
        its own; the zipper's millisecond time stamps are not modelled. */
    var clock: ArchiveId

    ghost predicate Valid()
      reads this
    {
      && (forall a :: a in present ==> a < clock)
      && (forall i :: 0 <= i < |created| ==> created[i] < clock)
    }

    constructor ()
      ensures Valid() && present == {} && created == [] && deleted == []
    {
      present := {};
      created := [];
      deleted := [];
      clock := 0;
    }

    /** `projectZipper.zipProject`: a new archive, or the zipper's error. */
    method Zip(outcome: ZipOutcome) returns (r: Result<ArchiveId, string>)
      requires Valid()
      modifies this
      ensures Valid() && deleted == old(deleted)
      ensures outcome.Zipped? ==>
        && r == Ok(old(clock)) && old(clock) !in old(present) && old(clock) !in old(created)
        && present == old(present) + {old(clock)} && created == old(created) + [old(clock)]
      ensures outcome.ZipFailed? ==>
        r == Err(outcome.message) && present == old(present) && created == old(created)
    {
      if outcome.ZipFailed? {
        r := Err(outcome.message);
      } else {
        r := Ok(clock);
        present := present + {clock};
        created := created + [clock];
        clock := clock + 1;
      }
    }

    /** `fs.unlink`: the attempt is recorded; the archive is gone only when it succeeds. */
    method Unlink(archive: ArchiveId, succeeds: bool)
      requires Valid()
      modifies this
      ensures Valid() && created == old(created) && clock == old(clock)
      ensures deleted == old(deleted) + [archive]
      ensures present == if succeeds then old(present) - {archive} else old(present)
    {
      deleted := deleted + [archive];
      if succeeds {
        present := present - {archive};
      }
    }
  }

  /** The validation steps before any archive exists: the error they throw, if any. */
  function Validate(args: Args, stat: StatOutcome): (failure: Option<string>)
    ensures failure.None? <==> "projectPath" in args && stat == Stat(true)
  {
    if !("projectPath" in args) then Some(UndefinedPathMessage)
    else match stat
      case StatFailed(message) => Some(message)
      case Stat(isDirectory) => if isDirectory then None else Some(NotDirectoryMessage)
  }

  /** An archive is created exactly when validation passes and the zipper succeeds. */
  predicate Archives(args: Args, stat: StatOutcome, zip: ZipOutcome) {
    Validate(args, stat).None? && zip.Zipped?
  }

  /** What the `try` block ends with: the analysis, or the message of the
      error thrown by validation, the zipper or the request. */
  function Outcome(args: Args, stat: StatOutcome, zip: ZipOutcome, reply: Reply<AnalysisResult>)
    : (outcome: Result<AnalysisResult, string>)
    ensures outcome.Ok? <==> Archives(args, stat, zip) && reply.Delivered?
    ensures outcome.Ok? ==> outcome.value == reply.data
    ensures Validate(args, stat).Some? ==> outcome == Err(Validate(args, stat).value)
    ensures Validate(args, stat).None? && zip.ZipFailed? ==> outcome == Err(zip.message)
    ensures Archives(args, stat, zip) && reply.Failed? ==> outcome == Err(HandleError(reply.error, "analyzeLocalProject"))
  {
    match Validate(args, stat)
    case Some(message) => Err(message)
    case None =>
      match zip
      case ZipFailed(message) => Err(message)
      case Zipped => Settle(reply, "analyzeLocalProject")
  }

  /** The envelope of the `return` statement, or of the `catch` block. */
  function Respond(outcome: Result<AnalysisResult, string>, loc: Locale): (e: Envelope)
    ensures IsTextEnvelope(e) && (e.isError <==> outcome.Err?)
    ensures outcome.Err? ==> TextOf(e) == ErrorLead + outcome.error
    ensures outcome.Ok? ==> TextOf(e) == ResultFormatter.AnalysisText(outcome.value, loc)
  {
    match outcome
    case Ok(result) => TextResult(ResultFormatter.AnalysisText(result, loc))
    case Err(message) => ErrorResult(ErrorLead + message)
  }

  /** What `execute` returns, and which request it made, when a new archive
      would be named `archive`. */
  function Run(args: Args, stat: StatOutcome, zip: ZipOutcome, reply: Reply<AnalysisResult>, loc: Locale, archive: ArchiveId)
    : (run: ToolRun)
    ensures IsTextEnvelope(run.envelope)
    ensures run.calls == if Archives(args, stat, zip) then [AnalyzeLocalCall(archive)] else []
    ensures run.envelope.isError <==> !Archives(args, stat, zip) || reply.Failed?
    ensures run.envelope.isError ==> ErrorLead <= TextOf(run.envelope)
    ensures !run.envelope.isError ==> TextOf(run.envelope) == ResultFormatter.AnalysisText(reply.data, loc)
  {
    ToolRun(Respond(Outcome(args, stat, zip, reply), loc),
            if Archives(args, stat, zip) then [AnalyzeLocalCall(archive)] else [])
  }

  /** The error text of each step that can fail: a missing path, a path that
      `fs.stat` rejects, a path that is not a directory, the zipper, and the
      request. */
  lemma ErrorMessages(args: Args, stat: StatOutcome, zip: ZipOutcome, reply: Reply<AnalysisResult>, loc: Locale, archive: ArchiveId)
    ensures var text := TextOf(Run(args, stat, zip, reply, loc, archive).envelope);
      && (!("projectPath" in args) ==> text == ErrorLead + UndefinedPathMessage)
      && ("projectPath" in args && stat.StatFailed? ==> text == ErrorLead + stat.message)
      && ("projectPath" in args && stat == Stat(false) ==> text == ErrorLead + NotDirectoryMessage)
      && (Validate(args, stat).None? && zip.ZipFailed? ==> text == ErrorLead + zip.message)
      && (Archives(args, stat, zip) && reply.Failed? ==> text == ErrorLead + HandleError(reply.error, "analyzeLocalProject"))
  {
  }

  /** The `try` block up to its `return`: validation, the zipper and the
      request. `zipFilePath` is the archive the `finally` block sees. */
  method Attempt(args: Args, stat: StatOutcome, zip: ZipOutcome, reply: Reply<AnalysisResult>,
                 storage: TempStorage, client: Client) returns (outcome: Result<AnalysisResult, string>, zipFilePath: Option<ArchiveId>)
    requires storage.Valid() && client.Valid()
    modifies storage, client
    ensures storage.Valid() && client.Valid()
    ensures outcome == Outcome(args, stat, zip, reply)
    ensures zipFilePath == if Archives(args, stat, zip) then Some(old(storage.clock)) else None
    ensures storage.created == old(storage.created) + if Archives(args, stat, zip) then [old(storage.clock)] else []
    ensures storage.present == old(storage.present) + if Archives(args, stat, zip) then {old(storage.clock)} else {}
    ensures storage.deleted == old(storage.deleted) && old(storage.clock) !in old(storage.present)
    ensures |client.sent| == |old(client.sent)| + (if Archives(args, stat, zip) then 1 else 0)
    ensures client.sent[..|old(client.sent)|] == old(client.sent)
    ensures Archives(args, stat, zip) ==>
      && client.sent[|old(client.sent)|] == RequestFor(AnalyzeLocalCall(old(storage.clock)), client.baseUrl, client.sent[|old(client.sent)|].requestId)
      && forall i :: 0 <= i < |old(client.sent)| ==> client.sent[i].requestId != client.sent[|old(client.sent)|].requestId
  {
    zipFilePath := None;
    var projectPath := Arg(args, "projectPath");
    if projectPath.None? {
      outcome := Err(UndefinedPathMessage);
    } else if stat.StatFailed? {
      outcome := Err(stat.message);
    } else if !stat.isDirectory {
      outcome := Err(NotDirectoryMessage);
    } else {
      var zipped := storage.Zip(zip);
      if zipped.Err? {
        outcome := Err(zipped.error);
      } else {
        zipFilePath := Some(zipped.value);
        outcome := client.AnalyzeLocalProject(zipped.value, reply);
      }
    }
  }

  /** `execute`, with its `try`, `catch` and `finally`. */
  method Execute(args: Args, stat: StatOutcome, zip: ZipOutcome, reply: Reply<AnalysisResult>, unlinkSucceeds: bool,
                 loc: Locale, storage: TempStorage, client: Client) returns (run: ToolRun)
    requires storage.Valid() && client.Valid()
    modifies storage, client
    ensures storage.Valid() && client.Valid()
    ensures run == Run(args, stat, zip, reply, loc, old(storage.clock))
    // the archive is created only after validation, and deleted exactly once when it was
    ensures storage.created == old(storage.created) + if Archives(args, stat, zip) then [old(storage.clock)] else []
    ensures storage.deleted == old(storage.deleted) + if Archives(args, stat, zip) then [old(storage.clock)] else []
    ensures storage.present == old(storage.present) + if Archives(args, stat, zip) && !unlinkSucceeds then {old(storage.clock)} else {}
    // the one request made, if any, is the one `run.calls` names, under a fresh id
    ensures |client.sent| == |old(client.sent)| + |run.calls| && client.sent[..|old(client.sent)|] == old(client.sent)
    ensures |run.calls| == 1 ==>
      && client.sent[|old(client.sent)|] == RequestFor(run.calls[0], client.baseUrl, client.sent[|old(client.sent)|].requestId)
      && forall i :: 0 <= i < |old(client.sent)| ==> client.sent[i].requestId != client.sent[|old(client.sent)|].requestId
  {
    var outcome, zipFilePath := Attempt(args, stat, zip, reply, storage, client);
    run := ToolRun(Respond(outcome, loc), if zipFilePath.Some? then [AnalyzeLocalCall(zipFilePath.value)] else []);

    // finally
    if zipFilePath.Some? {
      storage.Unlink(zipFilePath.value, unlinkSucceeds);
    }
  }
}
