# Statelessor MCP bridge, modelled in Dafny

Statelessor MCP is a tool server for the Model Context Protocol. It offers five
tools to an AI assistant:

- `analyze_git_repository`
- `analyze_local_project`
- `generate_analysis_script`
- `get_project_findings`
- `explain_remediation`

Four of them forward the request to the remote Statelessor analysis service over
HTTP and render its answer as Markdown. The fifth looks guidance up in a static
remediation catalog.

This project models:

- the HTTP client: which request each operation sends, one fresh request id per
  call, and the failure classification into a single message;
- the result formatter: analysis results, scan histories and the trend line;
- each tool's handler, including its validation, its error envelope and, for the
  local tool, the temporary archive that is removed afterwards;
- the server's tool listing and its dispatch by name.

The modules follow the source files:

| file | module | source |
|---|---|---|
| `wrappers.dfy` | `Wrappers` | `Option` and `Result`, for `undefined`/`null` and thrown errors |
| `text.dfy` | `Text` | number printing, ASCII case mapping, `join`, template interpolation |
| `records.dfy` | `Records` | the payloads of the service and of the catalog |
| `api_client.dfy` | `ApiClient` | `utils/api-client.js` |
| `protocol.dfy` | `Protocol` | the tool-result envelope and tool definitions |
| `result_formatter.dfy` | `ResultFormatter` | `utils/result-formatter.js` |
| `analyze_git.dfy` | `AnalyzeGit` | `tools/analyze-git.js` |
| `analyze_local.dfy` | `AnalyzeLocal` | `tools/analyze-local.js` |
| `generate_script.dfy` | `GenerateScript` | `tools/generate-script.js` |
| `get_findings.dfy` | `GetFindings` | `tools/get-findings.js` |
| `explain_remediation.dfy` | `ExplainRemediation` | `tools/explain-remediation.js` |
| `mcp_server.dfy` | `McpServer` | `mcp-server.js` |

Modelling choices:

- **The formatter is imperative.** It builds its text with `+=` inside `forEach`
  loops, so it is modelled as methods with `while` loops. Each method is proved
  equal to a specification function: `AnalysisText` or `HistoryText`. The
  lemmas state what the rendering promises about those functions.
- **The outside world is a parameter.**
  - The service's reply is a `Reply<T>`: either the body, or one of the three
    failure shapes of an HTTP client.
  - The file system's answers to `stat` and to the zipper are parameters too, as
    is the result of reading the catalog.
  - The host's locale rendering of dates is the `Locale` value, left
    uninterpreted.
- **Tools that touch no state are functions.** The four tools other than
  `analyze_local_project` return a `ToolRun`: the envelope plus the list of
  service calls the handler makes. The server sends those calls through the one
  shared `ApiClient.Client`.
- **The shared client and the temporary files are classes.**
  `ApiClient.Client` logs every request it sends. `AnalyzeLocal.TempStorage`
  tracks the archive files that are created and deleted.
- **Absent arguments are `None`.** A template literal prints them as
  `undefined`. Where the code calls a string method on an absent argument, the
  resulting `TypeError` text is modelled: V8's message,
  `Cannot read properties of undefined (reading '…')`.

Several long string constants, such as the invalid-URL message and the script
instructions, are written as concatenations of shorter pieces. The proofs need to
index into them, and the verifier does not index into single literals that long.
The text is unchanged.

The stable trend keeps the code's wording. A history whose first and last scans
have the same issue count prints `➡️ Stable: 0 issues resolved`
(`utils/result-formatter.js:73-76`). A delta of zero is shown, not omitted, and
`TrendStableExample` states it.

## Model

| member | source | states |
|---|---|---|
| Text.NatToDecimal | utils/result-formatter.js:26 | a 1-based position or a count is printed as a non-empty run of decimal digits, with a leading zero only for zero |
| Text.DecimalRoundTrip | utils/result-formatter.js:59 | reading the printed scan count back as a decimal gives the count |
| Text.NatToDecimalInjective | utils/result-formatter.js:26 | two different positions are never printed alike |
| Text.IntToDecimal | utils/result-formatter.js:63 | a scan's issue count is printed with a minus sign exactly when it is negative, and its digits read back as its magnitude |
| Text.LowerIdempotent | tools/explain-remediation.js:30 | lower-casing an already lower-cased category changes nothing |
| Text.LowerOfUpper | tools/explain-remediation.js:30 | lower-casing an upper-cased category gives the same result as lower-casing the category |
| Text.Lower | tools/explain-remediation.js:30 | lower-casing keeps the length, turns each ASCII capital into its small letter (code point plus 32), leaves no capital, and changes no other character |
| Text.Upper | tools/generate-script.js:43 | upper-casing keeps the length, turns each ASCII small letter into its capital (code point minus 32), leaves no small letter, and changes no other character |
| Text.Join | tools/explain-remediation.js:38 | joining no parts gives the empty string, and a join of parts opens with the first part |
| Text.JoinAt | tools/explain-remediation.js:38 | a joined list holds part `i` between the earlier and the later parts, with one separator on each side |
| Text.JoinSplit | tools/explain-remediation.js:50 | a joined list splits at any inner position into two joined halves around one separator |
| ResultFormatter.EnumerateAppend | utils/result-formatter.js:25-31 | the numbered blocks of two lists in a row are the blocks of the first, then those of the second, whose numbering continues from the first |
| ResultFormatter.EnumerateAt | utils/result-formatter.js:25-31 | the block of entry `i` carries number `first + i` and stands between the blocks before and after it |
| ResultFormatter.AppendStatistics | utils/result-formatter.js:16-20 | appends the statistics heading and the four counts |
| ResultFormatter.AppendFinding | utils/result-formatter.js:26-30 | appends the block of summary finding number `idx + 1` |
| ResultFormatter.AppendFindings | utils/result-formatter.js:25-31 | appends the blocks of all findings, numbered from 1 in list order |
| ResultFormatter.AppendSubActions | utils/result-formatter.js:40-42 | appends one bullet line per sub-action, in order |
| ResultFormatter.AppendAction | utils/result-formatter.js:38-44 | appends the line of action number `idx + 1`, its sub-action lines when it has any, and a blank line |
| ResultFormatter.AppendActions | utils/result-formatter.js:37-45 | appends the blocks of all actions, numbered from 1 in list order |
| ResultFormatter.FormatAnalysisResult | utils/result-formatter.js:7-49 | the output is `AnalysisText`: header, statistics, then the summary and the actions sections, each present only when its list is present and non-empty |
| ResultFormatter.AnalysisTextOpening | utils/result-formatter.js:10-13 | the text opens with the project's title, type, locale-rendered scan date and complexity lines |
| ResultFormatter.AnalysisText | utils/result-formatter.js:10-46 | the header and the statistics always open the text; without summary entries and actions they are the whole text |
| ResultFormatter.SummaryHeadingLeads | utils/result-formatter.js:23-24 | the rest of the text after the statistics opens with the summary heading if and only if the summary has entries |
| ResultFormatter.SummaryHeadingIff | utils/result-formatter.js:23-32 | right after the statistics block comes the summary heading if and only if the summary is present and non-empty |
| ResultFormatter.ActionsHeadingIff | utils/result-formatter.js:35-46 | right after the summary section comes the actions heading if and only if the actions are present and non-empty |
| ResultFormatter.SubActionLinesIgnoreDescriptions | utils/result-formatter.js:40-42 | the sub-action lines do not depend on the sub-actions' descriptions |
| ResultFormatter.ActionEntriesIgnoreDescriptions | utils/result-formatter.js:37-45 | the action blocks do not depend on the sub-actions' descriptions |
| ResultFormatter.DescriptionsNotRendered | utils/result-formatter.js:41 | removing every sub-action description leaves the analysis text unchanged |
| ResultFormatter.AppendScan | utils/result-formatter.js:62-65 | appends the block of scan number `idx + 1`: locale date, issue count, complexity and effort |
| ResultFormatter.AppendScans | utils/result-formatter.js:61-66 | appends the blocks of all scans, numbered from 1 in list order |
| ResultFormatter.FormatHistoricalFindings | utils/result-formatter.js:57-80 | the output is `HistoryText`: title, scan count, one block per scan, and the trend section only for two or more scans |
| ResultFormatter.HistoryCountsScans | utils/result-formatter.js:58-59 | the history opens with the project's title line and the number of scans |
| ResultFormatter.HistoryText | utils/result-formatter.js:58-77 | the header and the scan blocks always open the text; for fewer than two scans they are the whole text |
| ResultFormatter.TrendHeadingIff | utils/result-formatter.js:69-77 | after the scan blocks comes the trend heading if and only if there are at least two scans |
| ResultFormatter.TrendLineCases | utils/result-formatter.js:73-76 | an increase prints `📈 Increasing` with the delta and `added`; a decrease prints `📉 Decreasing` with the absolute delta and `resolved`; no change prints `➡️ Stable: 0 issues resolved` |
| ResultFormatter.TrendLine | utils/result-formatter.js:73-76 | the line's first symbol is 📈 exactly for an increase, 📉 exactly for a decrease and ➡ exactly for no change; the line ends with a newline |
| ResultFormatter.TrendLineInjective | utils/result-formatter.js:72-76 | different changes in issue count print different trend lines |
| ResultFormatter.TrendIgnoresMiddle | utils/result-formatter.js:69-72 | the trend depends only on the first and the last scan's issue counts |
| ResultFormatter.TrendIncreaseExample | utils/result-formatter.js:69-77 | scans with 10 and then 14 issues give `📈 Increasing: 4 issues added` |
| ResultFormatter.TrendStableExample | utils/result-formatter.js:73-76 | two scans with equal counts give `➡️ Stable: 0 issues resolved` |
| ResultFormatter.FormatError | utils/result-formatter.js:87-89 | the message stands between the `❌ **Error**: ` marker and the retry hint, and can be read back from between them |
| ApiClient.HandleError | utils/api-client.js:141-154 | every failure becomes `<operation> failed: <cause>`; the cause can be read back after the prefix |
| ApiClient.Cause | utils/api-client.js:142-153 | a server response reports its non-empty error field, else its status text; no response reports `No response from server`; a setup failure reports its own message |
| ApiClient.TransportFailureDistinct | utils/api-client.js:142-149 | a server's own error text is what the message reports, and that message differs from the no-response message |
| ApiClient.SameMessageSameCause | utils/api-client.js:141-154 | for one operation, two failures give the same message if and only if they have the same cause (error field, else status text; transport failure; setup message) |
| ApiClient.Settle | utils/api-client.js:34-49 | an operation returns the response body when one arrived, and otherwise fails with `HandleError`'s message for that operation |
| ApiClient.ScriptPath | utils/api-client.js:87 | the bash endpoint exactly for `'bash'`; every other type, absent included, gets the PowerShell endpoint |
| ApiClient.RequestFor | utils/api-client.js:31-139 | each request goes to the client's base URL and carries the id it was given |
| ApiClient.RequestRoundTrip | utils/api-client.js:35-129 | every request as built reads back as the operation and arguments that sent it: verb, unparsed path, body and form fields identify the call |
| ApiClient.RequestsIdentifyCalls | utils/api-client.js:35-129 | two calls that build the same request ask for the same thing |
| ApiClient.ResolveBaseUrl | utils/api-client.js:9 | a set, non-empty environment override wins over the configured base URL |
| ApiClient.Client.constructor | utils/api-client.js:8-19 | the base URL is resolved once and the timeout taken from configuration; nothing has been sent yet |
| ApiClient.Client.GenerateRequestId | utils/api-client.js:21-23 | the id differs from every id sent so far |
| ApiClient.Client.Send | utils/api-client.js:32-44 | exactly one request is appended to the log: the call's request, under an id larger than every earlier one |
| ApiClient.Client.Perform | utils/api-client.js:31-50 | one request is sent under a fresh id, and the result is the body or the classified error |
| ApiClient.Client.AnalyzeGitRepository | utils/api-client.js:31-50 | sends the JSON git request (an absent SSH key id is sent as `null`), under a fresh id, and returns the body or the classified error |
| ApiClient.Client.AnalyzeLocalProject | utils/api-client.js:57-76 | sends the multipart request carrying the archive, under a fresh id, and returns the body or the classified error |
| ApiClient.Client.GenerateScript | utils/api-client.js:83-98 | sends a GET to the script endpoint for the type, under a fresh id, and returns the body or the classified error |
| ApiClient.Client.GetProjectFindings | utils/api-client.js:105-119 | sends a GET to `/findings/<name>`, under a fresh id, and returns the body or the classified error |
| ApiClient.Client.GenerateSshKey | utils/api-client.js:125-139 | sends an empty JSON POST to the key endpoint, under a fresh id, and returns the body or the classified error |
| Protocol.TextResult | tools/analyze-git.js:37-44 | a successful tool result holds exactly one text item and is not flagged as an error |
| Protocol.ErrorResult | tools/analyze-git.js:46-54 | a failed tool result holds exactly one text item and is flagged as an error |
| AnalyzeGit.Execute | tools/analyze-git.js:24-56 | the service is called only for a URL that starts with `https://` or `git@`; the result is an error exactly when the URL is rejected or the call fails, with the error lead; a rejected URL gives exactly the lead plus the invalid-URL message, a failed call exactly the lead plus `HandleError` for `analyzeGitRepository`; otherwise it is the formatted analysis |
| AnalyzeGit.AcceptedUrl | tools/analyze-git.js:29 | a URL is accepted if and only if it is present and starts with `https://` or `git@`; the emptiness test adds nothing |
| AnalyzeGit.ErrorTextsDistinct | tools/analyze-git.js:29-54 | the invalid-URL text appears exactly when the URL was rejected; a failed call's cause can be read back from the error text |
| AnalyzeLocal.TempStorage.constructor | utils/project-zipper.js:15-17 | the temporary directory, where the zipper puts its archives, starts with no archive, none created and no deletion attempted |
| AnalyzeLocal.TempStorage.Zip | tools/analyze-local.js:36 | a successful zip creates one archive under a name not used before; a failed one creates none |
| AnalyzeLocal.TempStorage.Unlink | tools/analyze-local.js:62-67 | the deletion is logged; the archive disappears only when the unlink succeeds |
| AnalyzeLocal.Validate | tools/analyze-local.js:27-33 | validation passes if and only if a path was given and names a directory |
| AnalyzeLocal.Outcome | tools/analyze-local.js:26-49 | the try block succeeds if and only if validation passes, the zip succeeds and the service answers, with the service's answer; otherwise it fails with the first failing step's message: validation's, the zipper's, or `analyzeLocalProject failed: <cause>` |
| AnalyzeLocal.Respond | tools/analyze-local.js:42-59 | a success gives the formatted analysis; a failure gives the error lead and the failure's message, flagged as an error |
| AnalyzeLocal.Run | tools/analyze-local.js:23-70 | the service is called, with the new archive, exactly when an archive was made; the result is an error exactly when some step failed |
| AnalyzeLocal.ErrorMessages | tools/analyze-local.js:30-55 | the error text for a missing path, a failed stat, a non-directory, a failed zip and a failed request is each one's own message after the error lead |
| AnalyzeLocal.Attempt | tools/analyze-local.js:26-49 | the try block: validate, zip, call; it records the archive path only when the zip succeeded, and sends at most that one request |
| AnalyzeLocal.Execute | tools/analyze-local.js:23-70 | the result is `Run`'s; an archive is created only after validation and deleted exactly once in every outcome; no other file changes; the one request is the archive's |
| GetFindings.Execute | tools/get-findings.js:20-58 | one findings call is made; it is an error exactly when the call fails; missing or empty findings give the not-found text; otherwise the result is the formatted history |
| GetFindings.SuccessTexts | tools/get-findings.js:27-46 | a successful answer gives the not-found text if and only if there are no findings; otherwise it opens with the history title and the scan count |
| GenerateScript.Execute | tools/generate-script.js:20-58 | one script call is made; it is an error exactly when the call fails or no type was given (the `toUpperCase` error); otherwise it is the script document |
| GenerateScript.Instructions | tools/generate-script.js:28-37 | the bash instructions are chosen if and only if the type is `'bash'`; every other type, absent included, gets the PowerShell instructions |
| GenerateScript.ScriptDocument | tools/generate-script.js:43 | the document opens with the title, the chosen instructions follow the title directly, and the fenced script closes it |
| GenerateScript.ScriptTitleLeads | tools/generate-script.js:43 | the document opens with the title built from the upper-cased type, and no small letter of the type is left in the title |
| GenerateScript.ScriptDocumentParts | tools/generate-script.js:43 | the document ends with the script content, unchanged, followed by the closing fence |
| GenerateScript.OtherTypesGetPowerShell | tools/generate-script.js:28-43 | any type other than `'bash'` gets the PowerShell endpoint and instructions, and is still named in the code fence |
| ExplainRemediation.FindEntry | tools/explain-remediation.js:29-31 | finds the first catalog entry whose category matches without regard to case, or reports that none matches |
| ExplainRemediation.Matches | tools/explain-remediation.js:30 | an entry matches its own category, and matches only names of the same length as it |
| ExplainRemediation.LookupIgnoresCase | tools/explain-remediation.js:29-31 | upper- or lower-casing the requested category does not change which entry is found |
| ExplainRemediation.SessionStateFound | tools/explain-remediation.js:29-31 | a request for `session state` finds a leading `Session State` entry |
| ExplainRemediation.CategoryLines | tools/explain-remediation.js:38 | the not-found listing has one `- <category>` line per catalog entry, in catalog order |
| ExplainRemediation.ListingShowsCategory | tools/explain-remediation.js:38 | every catalog category appears in the listing, in its place |
| ExplainRemediation.NotFoundText | tools/explain-remediation.js:38 | the text opens with the requested category as given, `undefined` when absent, and ends with the listing of every catalog category |
| ExplainRemediation.GuidanceItems | tools/explain-remediation.js:48-50 | one numbered item per sub-action, numbered from 1 in order |
| ExplainRemediation.GuidanceItem | tools/explain-remediation.js:49 | an item opens with its number and the action in bold, and ends with the description, or with nothing when there is none |
| ExplainRemediation.Guidance | tools/explain-remediation.js:45-50 | the guidance opens with the entry's header; an entry without sub-actions shows the header alone |
| ExplainRemediation.GuidanceShowsSubAction | tools/explain-remediation.js:45-50 | every sub-action's item appears in the guidance, after the header and in its place |
| ExplainRemediation.HeadingUsesStoredSpelling | tools/explain-remediation.js:45 | the guidance heading shows the category as the catalog spells it |
| ExplainRemediation.Execute | tools/explain-remediation.js:20-71 | makes no service call; it is an error exactly when the catalog cannot be read, or when no category was given and the catalog is not empty; a match gives the guidance, otherwise the not-found text with the listing |
| McpServer.DefinitionOf | mcp-server.js:41-45 | each tool's definition carries that tool's name |
| McpServer.Route | mcp-server.js:54-66 | a routed name is the name of the tool it routes to, and a name that routes nowhere is the name of no tool |
| McpServer.ListTools | mcp-server.js:38-48 | lists exactly five definitions, in the order git, local, script, findings, remediation |
| McpServer.RouteIsNaming | mcp-server.js:54-66 | a name routes to a tool if and only if it is that tool's name |
| McpServer.NamesDistinct | mcp-server.js:54-64 | no two tools share a name |
| McpServer.ListingAgreesWithRouting | mcp-server.js:38-66 | every tool is listed exactly once, and every listed name routes to the tool it defines |
| McpServer.Handle | mcp-server.js:54-64 | every tool answers with exactly one text item and makes at most one service call; the remediation tool makes none |
| McpServer.Submit | mcp-server.js:54-64 | the call a handler made, if any, is appended to the shared client's log as its request, under a fresh id, and nothing else is |
| McpServer.Dispatch | mcp-server.js:54-64 | runs the routed tool: its result is `Handle`'s; its call, if any, goes through the shared client under a fresh id; only the local tool touches temporary files, creating an archive only when validation and zipping succeed and deleting it exactly once |
| McpServer.CallTool | mcp-server.js:51-68 | an unknown name fails with `Unknown tool: <name>` and sends nothing; a known name returns the routed tool's envelope, sends exactly the routed tool's request under a fresh id, and for the local tool creates and deletes the archive as `AnalyzeLocal.Execute` does |

## Left out

- The archive itself is not modelled. Zipping is an outcome parameter: success
  with a fresh archive, or a failure message. `utils/project-zipper.js` is not
  part of this model. So is any partial file a failed zip may leave behind; the
  handler never deletes such a file, because it only deletes a path it was given.
- A failed unlink is only logged on the console; the archive then stays in
  `TempStorage.present`. Console output is not modelled.
- The bodies of HTTP transport (axios, multipart encoding, stream reading), the
  `User-Agent` header and the request timeout are left out. The timeout is kept
  as a field of the client, without behaviour.
- ApiClient.RequestFor: the project name goes into the findings path unencoded,
  and the HTTP client's URL parsing is not modelled. A path is the string as
  built. So `RequestRoundTrip` and `RequestsIdentifyCalls` speak of the request
  as built, not of what the service receives. For a name holding `#`, `?` or
  `/`, the two differ: `C# Service` is fetched as `/findings/C`, while the tool
  text is still headed `C# Service`.
- `ApiClient.Client.GenerateRequestId`: a uuid is modelled as a counter. Only its
  freshness is stated, not its format or randomness.
- The MCP SDK's server, the stdio transport, `onerror` and the `SIGINT` handler
  are left out. So is the SDK's wrapping of a thrown `Unknown tool` error into a
  protocol error.
- Reading and parsing `data/remediation-actions.json` is a parameter:
  - the catalog, or
  - the message of the read or parse error.

  A catalog entry always has its `category` and its `subActions` list.
- A missing `arguments` object, and argument values that are not strings, are
  not modelled. Each argument is present as a string or absent.
- Answers of the service that lack a field the formatter reads (a missing
  `stats`, say, which makes the formatter throw) are not modelled. The records
  hold every field they need, and only `summary`, `actions`, `subActions`,
  `description` and the findings list may be missing.
- Case mapping is ASCII-only, in `Text.Lower` and `Text.Upper`. JavaScript's
  `toLowerCase` and `toUpperCase` also map non-ASCII letters.
- Locale date rendering (`toLocaleString`, `toLocaleDateString`) is an
  uninterpreted function of the host. Numbers that are only interpolated (counts,
  points, complexity factors) are kept as the text JavaScript prints for them;
  only a scan's issue count, which the trend arithmetic uses, is an integer.
- Archive names are modelled as stamps that are never reused, and one tool call
  runs at a time. The zipper names an archive `<directory name>-<Date.now()>.zip`
  in the system's temporary directory. Two calls for directories of the same
  name in the same millisecond would therefore share one path, and a concurrent
  call could delete the other's archive. The model captures neither.
- A scan's issue count is an unbounded integer. JavaScript holds it as a double,
  prints it in exponent form from 10^21, and subtracts it in floating point. The
  model agrees with the code for integer counts below 2^53.
