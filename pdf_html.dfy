/**
 * The HTML that `generatePDF` in server/routes/pdf.js hands to the PDF
 * renderer, and the missing-report check of `POST /generate-pdf`.
 *
 * The template literal is modelled as a concatenation of its fixed markup
 * and its interpolations; the whitespace between tags and the rules inside
 * the `<style>` element are not reproduced.
 *
 * Two conventions serve the positional lemmas below (built on
 * `StartsWith` and `OccursAt`):
 *  - every concatenation is grouped to the right, `A + (B + (C + D))`,
 *    so that each step peels one known prefix off the text that follows;
 *  - the openings whose first tag a lemma must tell apart from another
 *    (the issues heading, the success banner, the "Affected Elements"
 *    block and a violation's block) are written with `OpenTag`, whose
 *    second character is the tag's first letter, instead of as literals.
 */
module PdfHtml {

  import opened Wrappers
  import opened Strings
  import AnalysisReport

  type Violation = AnalysisReport.Violation
  type Node = AnalysisReport.Node

  /**
   * The report as posted by the client: `totalIssues`, `passes` and
   * `violations` may each be absent (a stored report has no `totalIssues`).
   */
  datatype PdfReport = PdfReport(
    url: string,
    totalIssues: Option<int>,
    passes: Option<int>,
    violations: Option<seq<Violation>>)

  /** `report.totalIssues || report.violations?.length || 0`. */
  function IssuesCount(r: PdfReport): int
  {
    if r.totalIssues.Some? && r.totalIssues.value != 0 then r.totalIssues.value
    else if r.violations.Some? && |r.violations.value| != 0 then |r.violations.value|
    else 0
  }

  /** `report.passes || 0`. */
  function PassesCount(r: PdfReport): int
  {
    if r.passes.Some? && r.passes.value != 0 then r.passes.value else 0
  }

  /** `report.violations && report.violations.length > 0`. */
  predicate HasIssues(r: PdfReport)
  {
    r.violations.Some? && |r.violations.value| > 0
  }

  /** `html.replace(/</g, '&lt;').replace(/>/g, '&gt;')`. */
  function Escape(html: string): string
  {
    ReplaceAll(ReplaceAll(html, '<', "&lt;"), '>', "&gt;")
  }

  /** The replacement of one character: the reference for `Escape`. */
  function EscapeChar(c: char): string
  {
    if c == '<' then "&lt;" else if c == '>' then "&gt;" else [c]
  }

  function EscapeText(s: string): string
  {
    if s == [] then "" else EscapeChar(s[0]) + EscapeText(s[1..])
  }

  /** Reads `&lt;` and `&gt;` back as `<` and `>`; everything else is kept. */
  function Unescape(t: string): string
  {
    if t == [] then ""
    else if |t| >= 4 && t[..4] == "&lt;" then "<" + Unescape(t[4..])
    else if |t| >= 4 && t[..4] == "&gt;" then ">" + Unescape(t[4..])
    else [t[0]] + Unescape(t[1..])
  }

  const StyleSheet := "<style></style>"

  const HeadOpening := "<!DOCTYPE html><html><head><meta charset=\"utf-8\">"
    + "<meta name=\"viewport\" content=\"width=device-width, initial-scale=1.0\">"
    + "<title>Accessibility Report - "

  const HeadClosing := "</title>" + StyleSheet + "</head>"

  function DocumentHead(url: string): string
  {
    HeadOpening + (url + HeadClosing)
  }

  const HeaderOpening := "<body><div class=\"container\"><div class=\"header\"><h1>\U{1F4D1} Accessibility Report</h1>"
    + "<p>Analysis completed for: <strong>"

  const HeaderMiddle := "</strong></p><div class=\"timestamp\">Generated on: "

  const HeaderClosing := "</div></div><div class=\"content\">"

  function Header(url: string, generatedOn: string): string
  {
    HeaderOpening + (url + (HeaderMiddle + (generatedOn + HeaderClosing)))
  }

  const StatsOpening := "<div class=\"stats\"><div class=\"stat\"><span class=\"stat-number\">"

  const StatsMiddle := "</span><div>Issues Found</div></div>"
    + "<div class=\"stat\"><span class=\"stat-number\">"

  const StatsClosing := "</span><div>Passes</div></div></div>"

  function Stats(issues: int, passes: int): string
  {
    StatsOpening + (IntToString(issues) + (StatsMiddle + (IntToString(passes) + StatsClosing)))
  }

  const IssuesHeading := OpenTag("h2", "")
    + "\U{1F6A8} Issues Found:</h2>"

  const IssuesOpening := "<div class=\"issues\">"

  const SuccessBanner := OpenTag("div", " class=\"success-message\"")
    + "<h2>\U{2705} Great News!</h2><p>No accessibility violations were found on this website.</p></div>"

  const DocumentEnd := "</div></div></body></html>"

  const AffectedOpening := OpenTag("div", "")
    + "<h4>Affected Elements:</h4>"

  const NodeOpening := "<div>"

  function IssueLabel(number: int): string
  {
    "<p>Issue " + IntToString(number) + ":</p>"
  }

  const SummaryOpening := "<p>"

  const SummaryClosing := "</p><p>Suggested Code:</p>"

  const PreOpening := "<pre>"

  const NodeClosing := "</pre></div>"

  /** A node's block up to the opening of its `<pre>` element. */
  function NodeHead(number: int, failureSummary: string): string
  {
    NodeOpening + (IssueLabel(number) + (SummaryOpening + (failureSummary + (SummaryClosing + PreOpening))))
  }

  function NodeBlock(n: Node, number: int): string
  {
    NodeHead(number, n.failureSummary) + (Escape(n.html) + NodeClosing)
  }

  /** `nodes.map((node, nIndex) => ...)`: node `j` is numbered `j + 1`. */
  function NodeBlocks(nodes: seq<Node>): seq<string>
  {
    seq(|nodes|, j requires 0 <= j < |nodes| => NodeBlock(nodes[j], j + 1))
  }

  /** The "Affected Elements" block, or nothing for a violation without nodes. */
  function NodesPart(nodes: seq<Node>): string
  {
    if |nodes| > 0 then AffectedOpening + (Concat(NodeBlocks(nodes)) + "</div>") else ""
  }

  function ViolationOpening(impact: string): string
  {
    OpenTag("div", " class=\"issue impact-" + impact + "\"")
  }

  function TitlePrefix(number: int): string
  {
    "<h3>" + IntToString(number) + ". "
  }

  function NumberedTitle(number: int, description: string): string
  {
    TitlePrefix(number) + (description + "</h3>")
  }

  const ImpactOpening := "<p><strong>Impact:</strong> <span>"
  const HelpOpening := "</span></p><p><strong>Help:</strong> <span>"
  const LinkOpening := "</span></p><p><strong>Learn More:</strong> <a href=\""
  const LinkMiddle := "\">"
  const LinkClosing := "</a></p>"

  /** The impact, help text and help link of a violation. */
  function ViolationDetails(v: Violation): string
  {
    ImpactOpening + (v.impact + HelpPart(v))
  }

  /** A violation's details from the help text on; the link shows its own address. */
  function HelpPart(v: Violation): string
  {
    HelpOpening + (v.help + (LinkOpening + (v.helpUrl + (LinkMiddle + (v.helpUrl + LinkClosing)))))
  }

  /** A violation's block up to its affected elements. */
  function ViolationHead(v: Violation, number: int): string
  {
    ViolationOpening(v.impact) + (NumberedTitle(number, v.description) + ViolationDetails(v))
  }

  function ViolationBlock(v: Violation, number: int): string
  {
    ViolationHead(v, number) + (NodesPart(v.nodes) + "</div>")
  }

  /** `violations.map((violation, index) => ...)`: violation `i` is numbered `i + 1`. */
  function ViolationBlocks(vs: seq<Violation>): seq<string>
  {
    seq(|vs|, i requires 0 <= i < |vs| => ViolationBlock(vs[i], i + 1))
  }

  function IssuesSection(vs: seq<Violation>): string
  {
    IssuesHeading + (IssuesOpening + (Concat(ViolationBlocks(vs)) + "</div>"))
  }

  /** The document up to where the issues list or the success banner begins. */
  function Preamble(r: PdfReport, generatedOn: string): string
  {
    DocumentHead(r.url) + (Header(r.url, generatedOn) + Stats(IssuesCount(r), PassesCount(r)))
  }

  /** The issues list when the report has violations, the success banner otherwise. */
  function Findings(r: PdfReport): string
  {
    if HasIssues(r) then IssuesSection(r.violations.value) else SuccessBanner
  }

  /**
   * The HTML of the PDF for report `r`; `generatedOn` is the locale text of
   * `new Date(report.timestamp || report.createdAt)`.
   */
  function Document(r: PdfReport, generatedOn: string): string
  {
    Preamble(r, generatedOn) + (Findings(r) + DocumentEnd)
  }

  /** The reply of `POST /generate-pdf`; a produced PDF is the rendering of `html`. */
  datatype PdfReply =
    | Rejected(status: nat, error: string, details: Option<string>)
    | PdfOf(html: string)

  const ReportRequired := "Report data is required"
  const PdfFailed := "Failed to generate PDF. Please try again."

  /**
   * `POST /generate-pdf` with body field `report`; `renderFault` is the
   * message of a failure of the headless renderer, if it fails.
   */
  function GeneratePdf(report: Option<PdfReport>, generatedOn: string, renderFault: Option<string>): (reply: PdfReply)
    ensures report.None? <==> reply == Rejected(400, ReportRequired, None)
    ensures reply.PdfOf? <==> report.Some? && renderFault.None?
    ensures reply.PdfOf? ==> reply.html == Document(report.value, generatedOn)
    ensures report.Some? && renderFault.Some? ==> reply == Rejected(500, PdfFailed, renderFault)
  {
    if report.None? then Rejected(400, ReportRequired, None)
    else match renderFault
      case Some(m) => Rejected(500, PdfFailed, Some(m))
      case None => PdfOf(Document(report.value, generatedOn))
  }

  // ---------------------------------------------------------------------
  // Counts

  /**
   * The issue count shown is zero exactly when the report neither claims
   * issues nor lists any; a report without `totalIssues` shows the length
   * of its list.
   */
  lemma IssuesCountFallback(r: PdfReport)
    ensures IssuesCount(r) == 0 <==> (r.totalIssues.None? || r.totalIssues.value == 0) && !HasIssues(r)
    ensures r.totalIssues.None? ==> IssuesCount(r) == if r.violations.Some? then |r.violations.value| else 0
    ensures r.totalIssues.Some? && r.totalIssues.value != 0 ==> IssuesCount(r) == r.totalIssues.value
    ensures PassesCount(r) == if r.passes.Some? then r.passes.value else 0
  {
  }

  /** The report `POST /analysis` returns, as posted back for a PDF. */
  function FromAnalysis(r: AnalysisReport.Report): PdfReport
  {
    PdfReport(r.url, Some(r.totalIssues), Some(r.passes), Some(r.violations))
  }

  /** The same report once stored: the stored shape has no `totalIssues`. */
  function FromStored(r: AnalysisReport.Report): PdfReport
  {
    PdfReport(r.url, None, Some(r.passes), Some(r.violations))
  }

  /**
   * For every report the analysis handler returns, fresh or stored, the PDF
   * shows the true number of violations and passes, and lists the issues
   * exactly when there are any.
   */
  lemma AnalysisReportCounts(r: AnalysisReport.Report)
    requires AnalysisReport.WellFormed(r)
    ensures IssuesCount(FromAnalysis(r)) == IssuesCount(FromStored(r)) == |r.violations| == r.totalIssues
    ensures PassesCount(FromAnalysis(r)) == PassesCount(FromStored(r)) == r.passes
    ensures HasIssues(FromAnalysis(r)) <==> r.totalIssues > 0
  {
  }

  // ---------------------------------------------------------------------
  // Sections

  /**
   * Where the findings begin, the document carries the issues heading when
   * the report lists violations and the "Great News!" banner otherwise.
   */
  lemma BannerExactlyWithoutIssues(r: PdfReport, generatedOn: string)
    ensures var rest := Document(r, generatedOn)[|Preamble(r, generatedOn)|..];
      && (StartsWith(rest, SuccessBanner) <==> !HasIssues(r))
      && (StartsWith(rest, IssuesHeading) <==> HasIssues(r))
  {
    var f := Findings(r);
    SliceAfter(Preamble(r, generatedOn), f + DocumentEnd);
    var rest := f + DocumentEnd;
    var headingTail := "\U{1F6A8} Issues Found:</h2>";
    var bannerTail := "<h2>\U{2705} Great News!</h2><p>No accessibility violations were found on this website.</p></div>";
    OpenTagName("h2", "", headingTail);
    OpenTagName("div", " class=\"success-message\"", bannerTail);
    if HasIssues(r) {
      StartsWithAppend(IssuesHeading, IssuesOpening + (Concat(ViolationBlocks(r.violations.value)) + "</div>"));
      StartsWithExtend(f, IssuesHeading, DocumentEnd);
      DifferentStarts(rest, IssuesHeading, SuccessBanner);
    } else {
      StartsWithAppend(SuccessBanner, DocumentEnd);
      DifferentStarts(rest, SuccessBanner, IssuesHeading);
    }
  }

  /**
   * Violations appear in input order, one block each, with nothing between
   * them; block `i` sits after the blocks before it, is tagged with its impact
   * and carries the number `i + 1` before its description.
   */
  lemma ViolationsNumberedInOrder(vs: seq<Violation>, i: nat)
    requires i < |vs|
    ensures var blocks := ViolationBlocks(vs);
      var o := Offset(blocks, i);
      && |blocks| == |vs|
      && o + |blocks[i]| <= |Concat(blocks)|
      && Concat(blocks)[o..o + |blocks[i]|] == blocks[i]
      && StartsWith(blocks[i], ViolationOpening(vs[i].impact) + NumberedTitle(i + 1, vs[i].description))
      && IntToString(i + 1) == NatToString(i + 1)
      && ParseDigits(NatToString(i + 1)) == i + 1
  {
    ConcatPart(ViolationBlocks(vs), i);
    ParseNatToString(i + 1);
    ViolationBlockOpening(vs[i], i + 1);
  }

  /** A violation's block opens with its impact class and its numbered title. */
  lemma ViolationBlockOpening(v: Violation, number: int)
    ensures StartsWith(ViolationBlock(v, number), ViolationOpening(v.impact) + NumberedTitle(number, v.description))
  {
    StartsWithGrouped(ViolationOpening(v.impact), NumberedTitle(number, v.description), ViolationDetails(v));
    StartsWithExtend(ViolationHead(v, number), ViolationOpening(v.impact) + NumberedTitle(number, v.description),
      NodesPart(v.nodes) + "</div>");
  }

  /**
   * After a violation's head comes the "Affected Elements" block exactly when
   * the violation has nodes; otherwise the violation's block closes at once.
   */
  lemma AffectedBlockExactlyWithNodes(v: Violation, number: int)
    ensures var rest := ViolationBlock(v, number)[|ViolationHead(v, number)|..];
      && (StartsWith(rest, AffectedOpening) <==> |v.nodes| > 0)
      && (|v.nodes| == 0 <==> rest == "</div>")
  {
    SliceAfter(ViolationHead(v, number), NodesPart(v.nodes) + "</div>");
    if |v.nodes| > 0 {
      AffectedTailWithNodes(v.nodes);
    } else {
      AffectedTailWithoutNodes(v.nodes);
    }
  }

  lemma AffectedTailWithNodes(nodes: seq<Node>)
    requires |nodes| > 0
    ensures StartsWith(NodesPart(nodes) + "</div>", AffectedOpening)
    ensures NodesPart(nodes) + "</div>" != "</div>"
  {
    StartsWithAppend(AffectedOpening, Concat(NodeBlocks(nodes)) + "</div>");
    StartsWithExtend(NodesPart(nodes), AffectedOpening, "</div>");
    assert |NodesPart(nodes)| > 0;
  }

  lemma AffectedTailWithoutNodes(nodes: seq<Node>)
    requires |nodes| == 0
    ensures NodesPart(nodes) + "</div>" == "</div>"
    ensures !StartsWith(NodesPart(nodes) + "</div>", AffectedOpening)
  {
    var rest := NodesPart(nodes) + "</div>";
    assert rest == "</div>";
    OpenTagName("div", "", "<h4>Affected Elements:</h4>");
    StartsWithAppend(rest, "");
    DifferentStarts(rest, "</div>", AffectedOpening);
  }

  /** Nodes appear in order, numbered "Issue 1" to "Issue m", with nothing between them. */
  lemma NodesNumberedInOrder(nodes: seq<Node>, j: nat)
    requires j < |nodes|
    ensures var blocks := NodeBlocks(nodes);
      var o := Offset(blocks, j);
      && |blocks| == |nodes|
      && o + |blocks[j]| <= |Concat(blocks)|
      && Concat(blocks)[o..o + |blocks[j]|] == blocks[j]
      && StartsWith(blocks[j], NodeOpening + IssueLabel(j + 1))
      && IntToString(j + 1) == NatToString(j + 1)
      && ParseDigits(NatToString(j + 1)) == j + 1
  {
    var blocks := NodeBlocks(nodes);
    ConcatPart(blocks, j);
    ParseNatToString(j + 1);
    var n := nodes[j];
    StartsWithGrouped(NodeOpening, IssueLabel(j + 1),
      SummaryOpening + (n.failureSummary + (SummaryClosing + PreOpening)));
    StartsWithExtend(NodeHead(j + 1, n.failureSummary), NodeOpening + IssueLabel(j + 1), Escape(n.html) + NodeClosing);
  }

  // ---------------------------------------------------------------------
  // Escaping

  lemma {:induction false} ReplaceAllAppend(a: string, b: string, c: char, rep: string)
    ensures ReplaceAll(a + b, c, rep) == ReplaceAll(a, c, rep) + ReplaceAll(b, c, rep)
  {
    if a == [] {
      assert a + b == b;
    } else {
      assert (a + b)[1..] == a[1..] + b;
      ReplaceAllAppend(a[1..], b, c, rep);
    }
  }

  /** The two chained replacements amount to replacing each character on its own. */
  lemma {:induction false} EscapeIsCharwise(s: string)
    ensures Escape(s) == EscapeText(s)
  {
    if s != [] {
      var first := if s[0] == '<' then "&lt;" else [s[0]];
      assert ReplaceAll(s, '<', "&lt;") == first + ReplaceAll(s[1..], '<', "&lt;");
      ReplaceAllAppend(first, ReplaceAll(s[1..], '<', "&lt;"), '>', "&gt;");
      if s[0] == '<' {
        ReplaceAllAbsent("&lt;", '>', "&gt;");
      } else {
        assert [s[0]][1..] == [];
        assert ReplaceAll([s[0]], '>', "&gt;") == EscapeChar(s[0]);
      }
      EscapeIsCharwise(s[1..]);
    }
  }

  /** The escaped text contains no `<` and no `>`, so it cannot open or close a tag. */
  lemma EscapeRemovesAngles(s: string)
    ensures '<' !in Escape(s) && '>' !in Escape(s)
  {
    var once := ReplaceAll(s, '<', "&lt;");
    ReplaceAllRemoves(s, '<', "&lt;", '<');
    ReplaceAllRemoves(once, '>', "&gt;", '>');
    ReplaceAllRemoves(once, '>', "&gt;", '<');
  }

  /** Text without `<` or `>` passes unchanged: `&` in particular is left as it is. */
  lemma EscapeKeepsOtherText(s: string)
    requires '<' !in s && '>' !in s
    ensures Escape(s) == s
  {
    ReplaceAllAbsent(s, '<', "&lt;");
    ReplaceAllAbsent(s, '>', "&gt;");
  }

  /** For HTML without `&`, unescaping the escaped text gives the HTML back. */
  lemma {:induction false} UnescapeEscape(s: string)
    requires '&' !in s
    ensures Unescape(EscapeText(s)) == s
  {
    if s != [] {
      var t := EscapeText(s);
      assert t == EscapeChar(s[0]) + EscapeText(s[1..]);
      UnescapeEscape(s[1..]);
      if s[0] == '<' {
        assert t[..4] == "&lt;" && t[4..] == EscapeText(s[1..]);
      } else if s[0] == '>' {
        assert t[..4] == "&gt;" && t[4..] == EscapeText(s[1..]);
      } else {
        assert t[0] == s[0] && t[1..] == EscapeText(s[1..]);
      }
      assert s == [s[0]] + s[1..];
    }
  }

  /**
   * Because `&` is not escaped, HTML that already contains `&lt;` is shown
   * the same as HTML containing `<`: the suggested code can misstate the node.
   */
  lemma EscapeConflatesEntities()
    ensures Escape("&lt;") == Escape("<") == "&lt;"
  {
    EscapeKeepsOtherText("&lt;");
    EscapeIsCharwise("<");
  }

  /**
   * A node's escaped HTML sits between the `<pre>` opening and its closing
   * tag, and holds no `<` or `>`: it cannot break out of the element.
   */
  lemma PreContentContained(n: Node, number: int)
    ensures var b := NodeBlock(n, number);
      var p := |NodeHead(number, n.failureSummary)|;
      && b[p..] == Escape(n.html) + NodeClosing
      && forall j :: p <= j < p + |Escape(n.html)| ==> b[j] != '<' && b[j] != '>'
  {
    var h := NodeHead(number, n.failureSummary);
    var e := Escape(n.html);
    SliceAfter(h, e + NodeClosing);
    EscapeRemovesAngles(n.html);
    var b := NodeBlock(n, number);
    forall j | |h| <= j < |h| + |e|
      ensures b[j] != '<' && b[j] != '>'
    {
      assert b[j] == (e + NodeClosing)[j - |h|] == e[j - |h|];
    }
  }

  /** `t` occurs somewhere in `s`. */
  predicate Occurs(s: string, t: string)
  {
    exists at: nat | at <= |s| :: OccursAt(s, t, at)
  }

  /**
   * A violation's description is placed as it is, without escaping: a `<`
   * in it reaches the document as `<`.
   */
  lemma DescriptionVerbatim(v: Violation, number: int)
    ensures Occurs(ViolationBlock(v, number), v.description)
  {
    var p := DescriptionInHead(v, number);
    OccursBeforeSuffix(ViolationHead(v, number), NodesPart(v.nodes) + "</div>", v.description, p);
    assert OccursAt(ViolationBlock(v, number), v.description, p);
  }

  /** A violation's description sits in its head at position `p`. */
  lemma DescriptionInHead(v: Violation, number: int) returns (p: nat)
    ensures OccursAt(ViolationHead(v, number), v.description, p)
  {
    var prefix := TitlePrefix(number);
    var inTitle := DescriptionInTitle(number, v.description);
    OccursBeforeSuffix(NumberedTitle(number, v.description), ViolationDetails(v), v.description, inTitle);
    OccursAfterPrefix(ViolationOpening(v.impact), NumberedTitle(number, v.description) + ViolationDetails(v),
      v.description, inTitle);
    p := |ViolationOpening(v.impact)| + inTitle;
  }

  lemma DescriptionInTitle(number: int, description: string) returns (p: nat)
    ensures OccursAt(NumberedTitle(number, description), description, p)
  {
    OccursAtStart(description, "</h3>");
    OccursAfterPrefix(TitlePrefix(number), description + "</h3>", description, 0);
    p := |TitlePrefix(number)|;
  }

  /** Text inside a violation's details is inside its block. */
  lemma DetailsWithinBlock(v: Violation, number: int, t: string, at: nat)
    requires OccursAt(HelpPart(v), t, at)
    ensures Occurs(ViolationBlock(v, number), t)
  {
    var inHead := DetailsWithinHead(v, number, t, at);
    OccursBeforeSuffix(ViolationHead(v, number), NodesPart(v.nodes) + "</div>", t, inHead);
    assert OccursAt(ViolationBlock(v, number), t, inHead);
  }

  /** Text inside a violation's details is inside its head, at position `p`. */
  lemma DetailsWithinHead(v: Violation, number: int, t: string, at: nat) returns (p: nat)
    requires OccursAt(HelpPart(v), t, at)
    ensures OccursAt(ViolationHead(v, number), t, p)
  {
    var opening := ViolationOpening(v.impact);
    var title := NumberedTitle(number, v.description);
    var inDetails := HelpWithinDetails(v, t, at);
    OccursAfterPrefixes(opening, title, ViolationDetails(v), t, inDetails);
    p := |opening| + (|title| + inDetails);
  }

  /** Text inside the help part of a violation's details is inside the details, at position `p`. */
  lemma HelpWithinDetails(v: Violation, t: string, at: nat) returns (p: nat)
    requires OccursAt(HelpPart(v), t, at)
    ensures OccursAt(ViolationDetails(v), t, p)
  {
    OccursAfterPrefixes(ImpactOpening, v.impact, HelpPart(v), t, at);
    p := |ImpactOpening| + (|v.impact| + at);
  }

  /** A violation's help text and help link are placed as they are, without escaping. */
  lemma HelpVerbatim(v: Violation, number: int)
    ensures Occurs(ViolationBlock(v, number), v.help)
    ensures Occurs(ViolationBlock(v, number), v.helpUrl)
  {
    var link := LinkOpening + (v.helpUrl + (LinkMiddle + (v.helpUrl + LinkClosing)));
    OccursAtStart(v.help, link);
    OccursAfterPrefix(HelpOpening, v.help + link, v.help, 0);
    DetailsWithinBlock(v, number, v.help, |HelpOpening|);
    OccursAtStart(v.helpUrl, LinkMiddle + (v.helpUrl + LinkClosing));
    OccursAfterPrefix(LinkOpening, v.helpUrl + (LinkMiddle + (v.helpUrl + LinkClosing)), v.helpUrl, 0);
    OccursAfterPrefix(v.help, link, v.helpUrl, |LinkOpening|);
    OccursAfterPrefix(HelpOpening, v.help + link, v.helpUrl, |v.help| + |LinkOpening|);
    DetailsWithinBlock(v, number, v.helpUrl, |HelpOpening| + |v.help| + |LinkOpening|);
  }

  /** A node's failure summary is placed as it is, without escaping. */
  lemma FailureSummaryVerbatim(n: Node, number: int)
    ensures Occurs(NodeBlock(n, number), n.failureSummary)
  {
    var fs := n.failureSummary;
    var after := SummaryClosing + PreOpening;
    OccursAtStart(fs, after);
    OccursAfterPrefix(SummaryOpening, fs + after, fs, 0);
    OccursAfterPrefix(IssueLabel(number), SummaryOpening + (fs + after), fs, |SummaryOpening|);
    OccursAfterPrefix(NodeOpening, IssueLabel(number) + (SummaryOpening + (fs + after)), fs,
      |IssueLabel(number)| + |SummaryOpening|);
    OccursBeforeSuffix(NodeHead(number, fs), Escape(n.html) + NodeClosing, fs,
      |NodeOpening| + |IssueLabel(number)| + |SummaryOpening|);
  }

  /** The report's URL is placed as it is, without escaping, in the title. */
  lemma UrlVerbatim(r: PdfReport, generatedOn: string)
    ensures Occurs(Document(r, generatedOn), r.url)
  {
    var p := UrlInPreamble(r, generatedOn);
    OccursBeforeSuffix(Preamble(r, generatedOn), Findings(r) + DocumentEnd, r.url, p);
    assert OccursAt(Document(r, generatedOn), r.url, p);
  }

  /** The URL sits in the preamble at position `p`, inside the title. */
  lemma UrlInPreamble(r: PdfReport, generatedOn: string) returns (p: nat)
    ensures OccursAt(Preamble(r, generatedOn), r.url, p)
  {
    p := UrlInHead(r.url);
    OccursBeforeSuffix(DocumentHead(r.url), Header(r.url, generatedOn) + Stats(IssuesCount(r), PassesCount(r)),
      r.url, p);
  }

  lemma UrlInHead(url: string) returns (p: nat)
    ensures OccursAt(DocumentHead(url), url, p)
  {
    OccursAtStart(url, HeadClosing);
    OccursAfterPrefix(HeadOpening, url + HeadClosing, url, 0);
    p := |HeadOpening|;
  }
}
