# Accessibility analyzer: analysis pipeline and PDF report, in Dafny

This project models two parts of the accessibility analyzer's server.

The first is the `POST /analysis` handler (`server/routes/analysis.js`). It
rejects a request without a URL. It then launches a headless browser and
configures the page: a random user agent and viewport, and a filter that
aborts image, stylesheet and font requests. It tries three page-load
strategies in a fixed order and stops at the first one that works. It makes
some human-like mouse movement, injects the axe-core scanning engine, and
races the scan against an 8000 ms timer. Finally it maps the engine's result
to the canonical report. Two stages degrade to a report with a note instead
of failing: when every load strategy fails, and when injection fails. Any
other fault becomes a catch-all report with the fault's message. The browser
is closed on every way out.

The second is the HTML that `generatePDF` (`server/routes/pdf.js`) builds
from a report before it is rendered to PDF. It covers the issue and pass
counts with their fallbacks, the numbered list of violations and of their
affected nodes, the success banner shown when there are no violations, and
the escaping of each node's HTML. It also covers the `/generate-pdf` check
for a missing report.

Files:

- `wrappers.dfy`: `Option`.
- `strings.dfy` (module `Strings`): `join('')` as `Concat`, the decimal
  text of a number, `replace(/c/g, …)` as `ReplaceAll`, and small lemmas
  about where text sits in a concatenation.
- `analysis_report.dfy` (module `AnalysisReport`): the engine's raw
  result, the report, the mapping between them, and the degraded reports.
- `analysis_handler.dfy` (module `AnalysisHandler`): the handler.
  - Every external call (launch, page setup, `goto` per strategy,
    humanization, injection, the scan race, close) is an oracle field of
    `Environment`.
  - `Analyze` is the handler. The try block is `TryBlock`, with the
    strategy loop in `Navigate` and the steps after a successful
    navigation in `Loaded`. `Analyze` itself applies the catch and the
    finally.
  - `Analyze` returns the response, the list of external calls made
    (`Effect`), and the final state of the `browser` variable.
  - Each method is proved equal to declarative functions
    (`AnalysisResponse`, `AnalysisTrace` and the functions they are built
    from). The lemmas state the handler's promises about those functions.
- `session_config.dfy` (module `SessionConfig`): the bounded random
  delay, the random viewport and the request filter. `Math.random()` is
  passed in as a real number in [0, 1).
- `pdf_html.dfy` (module `PdfHtml`): the HTML document, the counts, the
  escaping and the `/generate-pdf` reply.

Two behaviours of the code are worth stating up front:

- The mouse movement and link hover (`server/routes/analysis.js:109-130`)
  are not guarded. A throw there reaches the catch-all report
  (`HumanizeFaultReachesCatchAll`).
- A rejection of `page.evaluate` itself rejects the race and reaches the
  catch-all (`ScanOutcome.EvaluateFault`). An engine error is different: it
  resolves to the empty result.

## Model

| member | source | states |
|---|---|---|
| AnalysisHandler.Analyze | server/routes/analysis.js:19-210 | The response and the external calls are exactly those the declarative definitions give. The browser is never launched without a URL or after a launch fault. Otherwise it ends closed, or as a failed close left it when `close()` throws. |
| AnalysisHandler.TryBlock | server/routes/analysis.js:22-187 | The try block returns the degraded, emptied or mapped report, or throws the fault's message, as the oracles decide. `browser` is set exactly when the launch succeeded. |
| AnalysisHandler.Navigate | server/routes/analysis.js:74-91 | The loop reports success exactly when some strategy's navigation succeeds. It issues `goto` for exactly the strategies up to and including the first success. |
| AnalysisHandler.Loaded | server/routes/analysis.js:106-187 | After a successful navigation, a mouse-movement fault is thrown, a failed injection gives the "could not be performed" report, and the race gives the mapped, emptied or thrown outcome. The calls made are humanize, then inject, then scan, each only if the step before it went through. |
| AnalysisHandler.AttemptedIsFirstPrefix | server/routes/analysis.js:81-91 | The strategies attempted are a non-empty prefix of the three. Every one but the last failed, and the last succeeded unless all three were tried. |
| AnalysisHandler.FirstSuccess | server/routes/analysis.js:81-91 | The first succeeding strategy is found: every earlier one failed. There is none exactly when all fail. |
| AnalysisHandler.MissingUrlRejected | server/routes/analysis.js:23-27 | A missing or empty URL gets the "URL is required" error, and no external call is made. |
| AnalysisHandler.StrategiesInOrder | server/routes/analysis.js:75-91 | The strategies tried are a prefix of domcontentloaded, load, networkidle0, in that order. Every strategy but the last one tried failed. The last one succeeded, unless all three were tried. |
| AnalysisHandler.NavigationExhausted | server/routes/analysis.js:93-104 | When every strategy fails, the report has no violations, zero counts and the "could not be fully loaded" note. Nothing is humanized, injected or scanned. |
| AnalysisHandler.InjectionFailure | server/routes/analysis.js:134-147 | A failed injection gives the "could not be performed" report with zero counts, and no scan is run. |
| AnalysisHandler.EmptyScanOutcomes | server/routes/analysis.js:151-166 | An engine error and the deadline both give the report of `{violations: [], passes: []}`: zero counts and no note. |
| AnalysisHandler.CompletedScan | server/routes/analysis.js:151-187 | A completed scan is reported through the mapping. The scan is the last call before the browser is closed. |
| AnalysisHandler.HumanizeFaultReachesCatchAll | server/routes/analysis.js:109-130 | A throw from the unguarded mouse movement or link hover reaches the catch-all report, with the URL, the internal-error note and the message. Nothing is injected. |
| AnalysisHandler.UnanticipatedFaults | server/routes/analysis.js:189-199 | Launch, page-setup and evaluate faults give the catch-all report: empty violations, zero counts, the internal-error note, and `error` set to the message. |
| AnalysisHandler.ReportEchoesUrl | server/routes/analysis.js:192 | Every report names the requested URL and the request's timestamp. The "Unknown URL" fallback is never used. |
| AnalysisHandler.ResponsesWellFormed | server/routes/analysis.js:95-199 | Every report returned keeps the report invariants. |
| AnalysisHandler.TeardownOnEveryPath | server/routes/analysis.js:200-209 | On every path, close is called exactly once if the browser was launched, and never otherwise. It is the last call. `puppeteer.launch` is called exactly when the URL was given. |
| AnalysisHandler.CloseFailureInvisible | server/routes/analysis.js:202-207 | A close that throws is swallowed: it changes neither the response nor the calls made, only the final browser state. |
| AnalysisReport.NormalizeFaithful | server/routes/analysis.js:168-185 | `totalIssues` equals the number of violations and `passes` the number of passed rules. Violations and nodes keep their order. Every field is copied verbatim, `codeSuggestion` equals the node's HTML, and there is no note or error. |
| AnalysisReport.NormalizeRoundTrip | server/routes/analysis.js:171-182 | Mapping the violations and reading them back gives the engine's violations unchanged. |
| AnalysisReport.NormalizeWellFormed | server/routes/analysis.js:168-185 | A mapped report keeps the report invariants. |
| AnalysisReport.EmptyResultReport | server/routes/analysis.js:164-165 | The empty result maps to a report with no violations, zero counts and no note. |
| AnalysisReport.DegradedWellFormed | server/routes/analysis.js:95-102 | Degraded and catch-all reports keep the report invariants: a non-empty note, nothing found, nothing passed. |
| SessionConfig.RandomInt | server/routes/analysis.js:15-17 | `floor(random * (max - min + 1)) + min` lies in [min, max]. |
| SessionConfig.RandomIntCovers | server/routes/analysis.js:16 | Every value of [min, max] is drawn for some random number. |
| SessionConfig.RandomDelayMs | server/routes/analysis.js:15 | The default delay lies between 200 and 1200 ms. |
| SessionConfig.RandomViewport | server/routes/analysis.js:52-56 | The width lies in [1200, 1920], the height in [700, 1080], and the scale factor is 1. |
| SessionConfig.RandomViewportCovers | server/routes/analysis.js:52-56 | Every viewport within those bounds can be chosen. |
| SessionConfig.InterceptRequest | server/routes/analysis.js:61-68 | A request is aborted exactly when its resource type is image, stylesheet or font. |
| PdfHtml.IssuesCountFallback | server/routes/pdf.js:161-165 | The issue count shown is `totalIssues` when non-zero, otherwise the list's length, otherwise 0. It is zero exactly when neither gives issues. A report without `totalIssues` shows its list's length. Passes show as `passes`, or 0. |
| PdfHtml.AnalysisReportCounts | server/routes/pdf.js:161-170 | For every report the handler returns, fresh or stored, the PDF shows the true violation and pass counts. It lists issues exactly when there are any. |
| PdfHtml.BannerExactlyWithoutIssues | server/routes/pdf.js:170-215 | Where the findings begin, the document has the issues heading when the report lists violations, and the "Great News!" banner otherwise. |
| PdfHtml.ViolationsNumberedInOrder | server/routes/pdf.js:174-208 | Violation i has its own block at its place in the join, with no separator. The block carries the class `impact-<impact>` and the number i + 1, which reads back as i + 1, before the description. |
| PdfHtml.AffectedBlockExactlyWithNodes | server/routes/pdf.js:182-206 | The "Affected Elements" block follows a violation's head exactly when the violation has nodes. Otherwise the block closes at once. |
| PdfHtml.NodesNumberedInOrder | server/routes/pdf.js:185-204 | Node j has its own block at its place in the join, labelled "Issue j + 1". |
| PdfHtml.EscapeIsCharwise | server/routes/pdf.js:201 | The two chained replacements equal replacing each `<` by `&lt;` and each `>` by `&gt;`, character by character. |
| PdfHtml.EscapeRemovesAngles | server/routes/pdf.js:201 | The escaped HTML contains no `<` and no `>`. |
| PdfHtml.EscapeKeepsOtherText | server/routes/pdf.js:201 | Text without `<` or `>`, `&` included, passes unchanged. |
| PdfHtml.UnescapeEscape | server/routes/pdf.js:201 | For HTML without `&`, unescaping gives the HTML back. |
| PdfHtml.EscapeConflatesEntities | server/routes/pdf.js:201 | Since `&` is untouched, `&lt;` and `<` escape to the same text. |
| PdfHtml.PreContentContained | server/routes/pdf.js:190-201 | A node's escaped HTML sits between the `<pre>` opening and `</pre>`, and contains no `<` or `>`. |
| PdfHtml.DescriptionVerbatim | server/routes/pdf.js:176 | The description is placed in the violation's block without escaping. |
| PdfHtml.HelpVerbatim | server/routes/pdf.js:178-179 | The help text and help link are placed without escaping. |
| PdfHtml.FailureSummaryVerbatim | server/routes/pdf.js:188 | The failure summary is placed in the node's block without escaping. |
| PdfHtml.UrlVerbatim | server/routes/pdf.js:28 | The report's URL is placed in the document without escaping. |
| PdfHtml.GeneratePdf | server/routes/pdf.js:270-300 | A missing report is rejected with 400 "Report data is required", and no PDF is made. A PDF is made exactly when a report is given and rendering works. A rendering failure gives 500 with the message. |
| Strings.ConcatPart | server/routes/pdf.js:204-208 | Each part of a `join('')` sits unchanged right after the parts before it. |
| Strings.ConcatAppend | server/routes/pdf.js:208 | Joining two lists is joining each and concatenating the results. |
| Strings.ParseNatToString | server/routes/pdf.js:176 | The decimal text written for a number reads back as that number. |
| Strings.ReplaceAllRemoves | server/routes/pdf.js:201 | A global replacement removes the character unless the replacement text brings it back. |

## Left out

- puppeteer, the stealth plugin (`USE_STEALTH`), random-useragent and axe-core are not part of this model. What they do for one request is an input (`Environment`), and the user agent string is not modelled.
- Time is not modelled: the delays, the page-load timeouts and the 8000 ms timer have no effect in the model. The race is an input that says which side settled first (`ScanOutcome`). A late engine result after the timer wins is therefore never observed.
- `new Date()` is the parameter `now`. The PDF's "Generated on" text (`toLocaleString` of the timestamp) is the parameter `generatedOn`.
- `Math.random()` is a real number in [0, 1). Floating-point rounding is not modelled.
- The mouse movement and the link hover: only the fact that they may throw is kept. Their coordinates, step counts and delays are left out.
- Console logging, the `res.status`/`res.json` plumbing and HTTP headers are left out. The HTTP status of a report response (200) is implicit in `Response.Json`.
- `req.body.url` is modelled as absent, empty or a non-empty string. Other falsy or non-string JSON values, and a missing `req.body`, are not modelled.
- The engine's result is assumed to be well-formed, with string fields and `violations`/`passes` arrays. A malformed result that would make the mapping throw is not modelled. A null `impact` is not modelled: impact is a string.
- AnalysisHandler.TeardownOnEveryPath: states that close is called. What a throwing `close()` leaves of the browser process is not modelled; the model only marks the browser `CloseFailed`.
- In the PDF template, the `<style>` rules (server/routes/pdf.js:29-146), the inline `style` attributes and the whitespace between tags are not reproduced. They only affect presentation. The model keeps every element, class, text and interpolation.
- Numbers in the PDF are integers; non-integer JSON numbers are not modelled. A violation's `nodes` is always present.
- The PDF rendering itself (`page.pdf`) and the `/email-pdf` route (validation middleware, nodemailer) are out of scope. A produced PDF is shown as the HTML it renders.
- server/routes/report.js and server/models/report.js (the report store) are not part of this model. `FromStored` only reflects that the stored shape has no `totalIssues`.
- The client (Dash.jsx, App.js, api.js) and server/index.js are not part of this model.
