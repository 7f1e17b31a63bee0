/** The payloads this layer receives from the remote service and from the
    remediation catalog, reduced to the fields it reads. */
module Records {
  import opened Wrappers

  /** The text a template literal prints for a JSON number that this layer only
      interpolates (counts, points, complexity factors, which may be fractional). */
  type Numeral = string

  /** A temporary archive, named by the stamp that makes its file name unique. */
  type ArchiveId = nat

  datatype Stats = Stats(totalIssues: Numeral, highSeverity: Numeral, mediumSeverity: Numeral, lowSeverity: Numeral)

  /** One entry of an analysis summary. */
  datatype Finding = Finding(category: string, pattern: string, count: Numeral, severity: string, effort: Numeral)

  /** A step of a remediation; `description` may be missing. */
  datatype SubAction = SubAction(action: string, effort: Numeral, description: Option<string>)

  /** A recommended action of an analysis result; `subActions` may be missing. */
  datatype Action = Action(category: string, effortWeight: Numeral, subActions: Option<seq<SubAction>>)

  /** An analysis result; `summary` and `actions` may be missing. */
  datatype AnalysisResult = AnalysisResult(
    projectName: string,
    projectType: string,
    scanDate: string,
    complexityFactor: Numeral,
    stats: Stats,
    summary: Option<seq<Finding>>,
    actions: Option<seq<Action>>)

  /** One past scan of a project; `totalIssues` takes part in arithmetic. */
  datatype Scan = Scan(scanDate: string, totalIssues: int, complexityFactor: Numeral, totalEffort: Numeral)

  /** An entry of the static remediation catalog. */
  datatype RemediationEntry = RemediationEntry(category: string, effortWeight: Numeral, subActions: seq<SubAction>)

  /** How the host renders a timestamp: `new Date(t).toLocaleString()` and
      `new Date(t).toLocaleDateString()`. Both depend on the host's locale and
      clock settings and are left uninterpreted. */
  datatype Locale = Locale(dateTime: string -> string, date: string -> string)
}
