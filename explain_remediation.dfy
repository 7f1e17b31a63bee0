/** The `explain_remediation` tool: looks a pattern category up in the
    remediation catalog, case-insensitively, and renders its guidance, or
    lists the categories the catalog knows. */
module ExplainRemediation {
  import opened Wrappers
  import opened Records
  import opened Protocol
  import opened Text

  const Name := "explain_remediation"

  const Definition := ToolDefinition(
    Name,
    "Get detailed remediation guidance for a specific stateful pattern",
    ObjectSchema(
      [Property("category", "string", "Pattern category (e.g., \"Session State\", \"Static Mutable Field\")", [])],
      ["category"]))

  const ErrorLead := "Error explaining remediation: "
  const NotFoundLead := "No remediation guidance found for category: "

  /** The comparison of the `find` callback. An entry matches its own
      category, and only names of the same length, as case is all it ignores. */
  predicate Matches(entry: RemediationEntry, category: string)
    ensures category == entry.category ==> Matches(entry, category)
    ensures Matches(entry, category) ==> |category| == |entry.category|
  {
    Lower(entry.category) == Lower(category)
  }

  /** `actions.find(...)`, as the index of the entry found: the first entry,
      in catalog order, whose category matches. */
  function FindEntry(catalog: seq<RemediationEntry>, category: string): (r: Option<nat>)
    ensures r.Some? ==> r.value < |catalog| && Matches(catalog[r.value], category)
    ensures r.Some? ==> forall j :: 0 <= j < r.value ==> !Matches(catalog[j], category)
    ensures r.None? <==> forall j :: 0 <= j < |catalog| ==> !Matches(catalog[j], category)
    decreases |catalog|
  {
    if catalog == [] then None
    else if Matches(catalog[0], category) then Some(0)
    else match FindEntry(catalog[1..], category)
      case None => None
      case Some(i) => Some(i + 1)
  }

  /** The item of sub-action number `n`: its number and action lead, and its
      description, or nothing when it has none, ends it. */
  function GuidanceItem(n: nat, sub: SubAction): (item: string)
    ensures NatToDecimal(n) + ". **" + sub.action + "**" <= item
    ensures |sub.description.GetOr("")| <= |item|
    ensures item[|item| - |sub.description.GetOr("")|..] == sub.description.GetOr("")
  {
    NatToDecimal(n) + ". **" + sub.action + "** (" + sub.effort + " points)\n   " + sub.description.GetOr("")
  }

  /** `subActions.map((action, idx) => ...)`. */
  function GuidanceItems(subs: seq<SubAction>): (items: seq<string>)
    ensures |items| == |subs|
    ensures forall i :: 0 <= i < |subs| ==> items[i] == GuidanceItem(i + 1, subs[i])
  {
    seq(|subs|, i requires 0 <= i < |subs| => GuidanceItem(i + 1, subs[i]))
  }

  function GuidanceHeader(entry: RemediationEntry): string {
    "# Remediation: " + entry.category + "\n\n"
    + ("**Effort**: " + entry.effortWeight + " points\n\n")
    + "## Actions Required:\n\n"
  }

  /** The guidance for a catalog entry: its header, then the items separated
      by blank lines; an entry without sub-actions shows the header alone. */
  function Guidance(entry: RemediationEntry): (g: string)
    ensures GuidanceHeader(entry) <= g
    ensures entry.subActions == [] ==> g == GuidanceHeader(entry)
  {
    GuidanceHeader(entry) + Join(GuidanceItems(entry.subActions), "\n\n")
  }

  /** `actions.map(a => `- ${a.category}`).join('\n')`. */
  function CategoryLines(catalog: seq<RemediationEntry>): (lines: seq<string>)
    ensures |lines| == |catalog|
    ensures forall i :: 0 <= i < |catalog| ==> lines[i] == "- " + catalog[i].category
  {
    seq(|catalog|, i requires 0 <= i < |catalog| => "- " + catalog[i].category)
  }

  /** The not-found text: the requested category as given, `undefined` when
      absent, then the listing of every catalog category. */
  function NotFoundText(category: Option<string>, catalog: seq<RemediationEntry>): (text: string)
    ensures NotFoundLead + Interpolate(category) + "\n\n" <= text
    ensures var listing := Join(CategoryLines(catalog), "\n");
      |listing| <= |text| && text[|text| - |listing|..] == listing
  {
    NotFoundLead + Interpolate(category) + "\n\nAvailable categories:\n" + Join(CategoryLines(catalog), "\n")
  }

  /** `execute`. The catalog is the parsed file, or the message of the failure
      to read or parse it. */
  function Execute(args: Args, catalog: Result<seq<RemediationEntry>, string>): (run: ToolRun)
    ensures run.calls == []
    ensures IsTextEnvelope(run.envelope)
    ensures run.envelope.isError <==> catalog.Err? || (!("category" in args) && |catalog.value| > 0)
    ensures catalog.Err? ==> TextOf(run.envelope) == ErrorLead + catalog.error
    ensures catalog.Ok? && !("category" in args) && |catalog.value| > 0 ==>
      TextOf(run.envelope) == ErrorLead + ReadingUndefined("toLowerCase")
    ensures catalog.Ok? && !("category" in args) && |catalog.value| == 0 ==>
      TextOf(run.envelope) == NotFoundText(None, [])
    ensures catalog.Ok? && "category" in args ==>
      match FindEntry(catalog.value, args["category"])
      case Some(i) => TextOf(run.envelope) == Guidance(catalog.value[i])
      case None => TextOf(run.envelope) == NotFoundText(Some(args["category"]), catalog.value)
  {
    match catalog
    case Err(message) => ToolRun(ErrorResult(ErrorLead + message), [])
    case Ok(entries) =>
      var category := Arg(args, "category");
      if category.None? then
        // the callback lower-cases `category` once it is given an entry
        if |entries| > 0 then ToolRun(ErrorResult(ErrorLead + ReadingUndefined("toLowerCase")), [])
        else ToolRun(TextResult(NotFoundText(category, entries)), [])
      else
        match FindEntry(entries, category.value)
        case None => ToolRun(TextResult(NotFoundText(category, entries)), [])
        case Some(i) => ToolRun(TextResult(Guidance(entries[i])), [])
  }

  /** The lookup ignores case on both sides: a category and its upper- and
      lower-cased forms find the same entry. */
  lemma {:induction false} LookupIgnoresCase(catalog: seq<RemediationEntry>, category: string)
    ensures FindEntry(catalog, Upper(category)) == FindEntry(catalog, category)
    ensures FindEntry(catalog, Lower(category)) == FindEntry(catalog, category)
    decreases |catalog|
  {
    LowerOfUpper(category);
    LowerIdempotent(category);
    if catalog != [] {
      LookupIgnoresCase(catalog[1..], category);
    }
  }

  /** Each catalog category has its own line in the listing, in catalog order,
      between the lines of the categories before and after it. */
  lemma ListingShowsCategory(catalog: seq<RemediationEntry>, i: nat)
    requires i < |catalog|
    ensures var lines := CategoryLines(catalog);
      Join(lines, "\n") ==
        Join(lines[..i], "\n") + (if i > 0 then "\n" else "") + ("- " + catalog[i].category)
        + (if i + 1 < |catalog| then "\n" + Join(lines[i + 1..], "\n") else "")
  {
    JoinAt(CategoryLines(catalog), "\n", i);
  }

  /** Sub-action `i` is item number `i + 1`, between the items before and
      after it, each pair separated by a blank line. */
  lemma GuidanceShowsSubAction(entry: RemediationEntry, i: nat)
    requires i < |entry.subActions|
    ensures var items := GuidanceItems(entry.subActions);
      Guidance(entry) == GuidanceHeader(entry)
        + (Join(items[..i], "\n\n") + (if i > 0 then "\n\n" else "") + GuidanceItem(i + 1, entry.subActions[i])
           + (if i + 1 < |items| then "\n\n" + Join(items[i + 1..], "\n\n") else ""))
  {
    JoinAt(GuidanceItems(entry.subActions), "\n\n", i);
  }

  /** The heading carries the catalog's spelling of the category, whatever
      the caller's casing was. */
  lemma HeadingUsesStoredSpelling(entry: RemediationEntry)
    ensures "# Remediation: " + entry.category + "\n\n" <= Guidance(entry)
  {
    var title := "# Remediation: " + entry.category + "\n\n";
    var effort := "**Effort**: " + entry.effortWeight + " points\n\n";
    AppendAssoc(title, effort, "## Actions Required:\n\n");
    AppendAssoc(title, effort + "## Actions Required:\n\n", Join(GuidanceItems(entry.subActions), "\n\n"));
  }

  /** Asking for `session state` finds the entry stored as `Session State`. */
  lemma SessionStateFound(entry: RemediationEntry, rest: seq<RemediationEntry>)
    requires entry.category == "Session State"
    ensures FindEntry([entry] + rest, "session state") == Some(0)
  {
    assert Lower("Session State") == "session state";
    assert Lower("session state") == "session state";
  }
}
