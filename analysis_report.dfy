/**
 * The report produced by `POST /analysis` (server/routes/analysis.js): the
 * scanning engine's raw result, the canonical report shape, the mapping from
 * one to the other (lines 168-185) and the degraded reports of the fallback
 * paths (lines 95-102, 138-145, 191-199).
 */
module AnalysisReport {

  import opened Wrappers

  /** One DOM node the engine flagged, as the engine reports it. */
  datatype RawNode = RawNode(html: string, failureSummary: string)

  /** One failed rule, as the engine reports it. */
  datatype RawViolation = RawViolation(
    id: string,
    impact: string,
    description: string,
    help: string,
    helpUrl: string,
    nodes: seq<RawNode>)

  /**
   * The engine's result: the failed rules and the passed ones. Each passed
   * rule is given by its id; only the number of them reaches the report.
   */
  datatype RawResult = RawResult(violations: seq<RawViolation>, passes: seq<string>)

  /** An affected node in the report; `codeSuggestion` echoes the node's HTML. */
  datatype Node = Node(html: string, failureSummary: string, codeSuggestion: string)

  datatype Violation = Violation(
    id: string,
    impact: string,
    description: string,
    help: string,
    helpUrl: string,
    nodes: seq<Node>)

  /** The JSON body of every non-error response of `POST /analysis`. */
  datatype Report = Report(
    url: string,
    timestamp: int,
    violations: seq<Violation>,
    passes: nat,
    totalIssues: nat,
    note: Option<string>,
    error: Option<string>)

  /** `{ violations: [], passes: [] }`: what an engine error or the deadline yields. */
  const EmptyResult := RawResult([], [])

  const NavigationFailedNote := "Page could not be fully loaded, but basic analysis completed"
  const InjectionFailedNote := "Accessibility analysis could not be performed"
  const InternalErrorNote := "Analysis failed due to an internal error"
  const UnknownUrl := "Unknown URL"

  /** JavaScript truthiness of `req.body.url`: present and not the empty string. */
  predicate UrlGiven(url: Option<string>)
  {
    url.Some? && url.value != ""
  }

  function NormalizeNode(n: RawNode): Node
  {
    Node(n.html, n.failureSummary, n.html)
  }

  function NormalizeViolation(v: RawViolation): Violation
  {
    Violation(v.id, v.impact, v.description, v.help, v.helpUrl,
      seq(|v.nodes|, i requires 0 <= i < |v.nodes| => NormalizeNode(v.nodes[i])))
  }

  /** The report built from a completed (or emptied) scan. */
  function Normalize(url: string, now: int, raw: RawResult): Report
  {
    Report(url, now,
      seq(|raw.violations|, i requires 0 <= i < |raw.violations| => NormalizeViolation(raw.violations[i])),
      |raw.passes|, |raw.violations|, None, None)
  }

  /** A report for a stage that could not complete: nothing found, nothing passed. */
  function DegradedReport(url: string, now: int, note: string): Report
  {
    Report(url, now, [], 0, 0, Some(note), None)
  }

  /** The catch-all report for an unanticipated fault with message `message`. */
  function InternalErrorReport(bodyUrl: Option<string>, now: int, message: string): Report
  {
    Report(if UrlGiven(bodyUrl) then bodyUrl.value else UnknownUrl,
      now, [], 0, 0, Some(InternalErrorNote), Some(message))
  }

  /** What the node mapping keeps of a node: the inverse of `NormalizeNode`. */
  function RawOfNode(n: Node): RawNode
  {
    RawNode(n.html, n.failureSummary)
  }

  function RawOfViolation(v: Violation): RawViolation
  {
    RawViolation(v.id, v.impact, v.description, v.help, v.helpUrl,
      seq(|v.nodes|, i requires 0 <= i < |v.nodes| => RawOfNode(v.nodes[i])))
  }

  /**
   * The invariants every report keeps: a completed scan (no note) counts
   * exactly its violations; a degraded report carries a non-empty note and
   * reports nothing found; an error always comes with a note.
   */
  predicate WellFormed(r: Report)
  {
    && (r.note.None? ==> r.totalIssues == |r.violations| && r.error.None?)
    && (r.note.Some? ==> r.note.value != "" && r.violations == [] && r.totalIssues == 0 && r.passes == 0)
  }

  /**
   * The mapping keeps the counts, keeps violations and nodes in order with
   * every field copied verbatim, and echoes each node's HTML as its code
   * suggestion; mapping back gives the engine's violations unchanged.
   */
  lemma NormalizeFaithful(url: string, now: int, raw: RawResult)
    ensures var r := Normalize(url, now, raw);
      && r.url == url && r.timestamp == now
      && r.totalIssues == |r.violations| == |raw.violations|
      && r.passes == |raw.passes|
      && r.note.None? && r.error.None?
      && (forall i :: 0 <= i < |r.violations| ==>
            var v, w := r.violations[i], raw.violations[i];
            && v.id == w.id && v.impact == w.impact && v.description == w.description
            && v.help == w.help && v.helpUrl == w.helpUrl
            && |v.nodes| == |w.nodes|
            && forall j :: 0 <= j < |v.nodes| ==>
                 && v.nodes[j].html == w.nodes[j].html
                 && v.nodes[j].failureSummary == w.nodes[j].failureSummary
                 && v.nodes[j].codeSuggestion == w.nodes[j].html)
  {
  }

  /** Mapping a raw result and reading it back loses nothing but the pass ids. */
  lemma NormalizeRoundTrip(url: string, now: int, raw: RawResult)
    ensures var vs := Normalize(url, now, raw).violations;
      seq(|vs|, i requires 0 <= i < |vs| => RawOfViolation(vs[i])) == raw.violations
  {
    var vs := Normalize(url, now, raw).violations;
    forall i | 0 <= i < |vs|
      ensures RawOfViolation(vs[i]) == raw.violations[i]
    {
      var w := raw.violations[i];
      assert seq(|vs[i].nodes|, j requires 0 <= j < |vs[i].nodes| => RawOfNode(vs[i].nodes[j])) == w.nodes;
    }
  }

  /** Every report the mapping builds keeps the report invariants. */
  lemma NormalizeWellFormed(url: string, now: int, raw: RawResult)
    ensures WellFormed(Normalize(url, now, raw))
  {
  }

  /** An emptied scan reports nothing found, nothing passed and no note. */
  lemma EmptyResultReport(url: string, now: int)
    ensures Normalize(url, now, EmptyResult) == Report(url, now, [], 0, 0, None, None)
  {
  }

  /** Degraded and catch-all reports keep the report invariants. */
  lemma DegradedWellFormed(url: string, bodyUrl: Option<string>, now: int, note: string, message: string)
    requires note != ""
    ensures WellFormed(DegradedReport(url, now, note))
    ensures WellFormed(InternalErrorReport(bodyUrl, now, message))
  {
  }
}
