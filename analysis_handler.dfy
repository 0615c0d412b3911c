/**
 * The `POST /analysis` handler of server/routes/analysis.js: validate the URL,
 * launch a browser, configure the page, try the load strategies in order,
 * humanize, inject the scanning engine, race the scan against its deadline,
 * map the result, turn any other fault into a catch-all report, and close the
 * browser on every way out.
 *
 * Everything outside the handler (the browser, the engine, timers) is an
 * oracle: an `Environment` says how each external call turns out.
 */
module AnalysisHandler {

  import opened Wrappers
  import opened AnalysisReport

  /** The `waitUntil` criterion of a page load. */
  datatype WaitUntil = DomContentLoaded | Load | NetworkIdle0

  datatype Strategy = Strategy(waitUntil: WaitUntil, timeoutMs: nat)

  /** The page-load strategies, in the order they are tried. */
  const Strategies: seq<Strategy> := [
    Strategy(DomContentLoaded, 10000),
    Strategy(Load, 10000),
    Strategy(NetworkIdle0, 5000)
  ]

  /** How the race between the engine run and the deadline timer settles. */
  datatype ScanOutcome =
    | Completed(raw: RawResult)      // the engine delivered its result first
    | EngineError                    // the engine's callback got an error first
    | Timeout                        // the 8000 ms timer fired first
    | EvaluateFault(message: string) // `page.evaluate` itself rejected first

  /** How every external call of one request turns out. */
  datatype Environment = Environment(
    launchFault: Option<string>,   // `puppeteer.launch` throws
    setupFault: Option<string>,    // `newPage`, user agent, viewport or interception setup throws
    gotoOk: seq<bool>,             // `page.goto` succeeds under each strategy, in strategy order
    humanizeFault: Option<string>, // the mouse movement or link hover throws
    injectionFails: bool,          // `page.evaluate(axe.source)` throws
    scan: ScanOutcome,
    closeFails: bool)              // `browser.close` throws

  /** One navigation outcome per strategy. */
  predicate WellFormedEnv(env: Environment)
  {
    |env.gotoOk| == |Strategies|
  }

  /** The external calls the handler makes, in the order it makes them. */
  datatype Effect = Launch | Setup | Goto(strategy: Strategy) | Humanize | Inject | Scan | Close

  /**
   * The `browser` variable: unset, holding a launched browser, closed, or
   * left as it was by a `close` that threw (the error is logged and swallowed).
   */
  datatype BrowserState = NotLaunched | Open | Closed | CloseFailed

  datatype Response = BadRequest(error: string) | Json(report: Report)

  const UrlRequired := "URL is required"

  /** The try block either returns a response or throws a fault with a message. */
  datatype Outcome = Returned(response: Response) | Thrown(message: string)

  /** The position of the first strategy whose navigation succeeds, if any. */
  function FirstSuccess(ok: seq<bool>): (k: Option<nat>)
    ensures k.Some? ==> k.value < |ok| && ok[k.value] && forall j :: 0 <= j < k.value ==> !ok[j]
    ensures k.None? <==> forall j :: 0 <= j < |ok| ==> !ok[j]
  {
    if ok == [] then None
    else if ok[0] then Some(0)
    else match FirstSuccess(ok[1..])
      case None => None
      case Some(k) => Some(k + 1)
  }

  /** The strategies that are tried: up to and including the first success. */
  function Attempted(ok: seq<bool>): seq<Strategy>
    requires |ok| == |Strategies|
  {
    match FirstSuccess(ok)
    case Some(k) => Strategies[..k + 1]
    case None => Strategies
  }

  function Gotos(ss: seq<Strategy>): seq<Effect>
  {
    seq(|ss|, i requires 0 <= i < |ss| => Goto(ss[i]))
  }

  lemma GotosSnoc(ss: seq<Strategy>, s: Strategy)
    ensures Gotos(ss + [s]) == Gotos(ss) + [Goto(s)]
  {
    assert forall k :: 0 <= k < |ss| ==> (ss + [s])[k] == ss[k];
  }

  /** What the try block of the handler does for a given URL. */
  function TryOutcome(url: string, env: Environment, now: int): Outcome
    requires WellFormedEnv(env)
  {
    if env.launchFault.Some? then Thrown(env.launchFault.value)
    else if env.setupFault.Some? then Thrown(env.setupFault.value)
    else if FirstSuccess(env.gotoOk).None? then Returned(Json(DegradedReport(url, now, NavigationFailedNote)))
    else LoadedOutcome(url, env, now)
  }

  /** What the try block does once navigation has succeeded. */
  function LoadedOutcome(url: string, env: Environment, now: int): Outcome
  {
    if env.humanizeFault.Some? then Thrown(env.humanizeFault.value)
    else if env.injectionFails then Returned(Json(DegradedReport(url, now, InjectionFailedNote)))
    else match env.scan
      case Completed(raw) => Returned(Json(Normalize(url, now, raw)))
      case EngineError => Returned(Json(Normalize(url, now, EmptyResult)))
      case Timeout => Returned(Json(Normalize(url, now, EmptyResult)))
      case EvaluateFault(m) => Thrown(m)
  }

  /** The external calls the try block makes for a given URL. */
  function TryTrace(env: Environment): seq<Effect>
    requires WellFormedEnv(env)
  {
    [Launch] + (if env.launchFault.Some? then [] else [Setup] + PageTrace(env))
  }

  /** The calls made once the page is configured. */
  function PageTrace(env: Environment): seq<Effect>
    requires WellFormedEnv(env)
  {
    if env.setupFault.Some? then []
    else Gotos(Attempted(env.gotoOk)) + (if FirstSuccess(env.gotoOk).None? then [] else LoadedTrace(env))
  }

  /** The calls made once navigation has succeeded. */
  function LoadedTrace(env: Environment): seq<Effect>
  {
    [Humanize] + (if env.humanizeFault.Some? then [] else [Inject] + (if env.injectionFails then [] else [Scan]))
  }

  /** Whether the handler ends up holding a browser. */
  predicate Launched(url: Option<string>, env: Environment)
  {
    UrlGiven(url) && env.launchFault.None?
  }

  /** The response of `POST /analysis` with body URL `url`. */
  function AnalysisResponse(url: Option<string>, env: Environment, now: int): Response
    requires WellFormedEnv(env)
  {
    if !UrlGiven(url) then BadRequest(UrlRequired)
    else match TryOutcome(url.value, env, now)
      case Returned(r) => r
      case Thrown(m) => Json(InternalErrorReport(url, now, m))
  }

  /** Every external call `POST /analysis` makes, the closing one included. */
  function AnalysisTrace(url: Option<string>, env: Environment): seq<Effect>
    requires WellFormedEnv(env)
  {
    if !UrlGiven(url) then []
    else TryTrace(env) + if Launched(url, env) then [Close] else []
  }

  /**
   * The strategy loop: each strategy in turn until one navigation succeeds.
   * Returns whether one did and the navigation calls made.
   */
  method Navigate(env: Environment) returns (navigationSuccess: bool, attempts: seq<Effect>)
    requires WellFormedEnv(env)
    ensures navigationSuccess <==> FirstSuccess(env.gotoOk).Some?
    ensures attempts == Gotos(Attempted(env.gotoOk))
  {
    navigationSuccess := false;
    attempts := [];
    var i := 0;
    while i < |Strategies|
      invariant 0 <= i <= |Strategies|
      invariant !navigationSuccess
      invariant forall j :: 0 <= j < i ==> !env.gotoOk[j]
      invariant attempts == Gotos(Strategies[..i])
    {
      GotosSnoc(Strategies[..i], Strategies[i]);
      assert Strategies[..i + 1] == Strategies[..i] + [Strategies[i]];
      attempts := attempts + [Goto(Strategies[i])];
      if env.gotoOk[i] {
        navigationSuccess := true;
        assert FirstSuccess(env.gotoOk) == Some(i);
        break;
      }
      i := i + 1;
    }
    if !navigationSuccess {
      assert Strategies[..i] == Strategies;
    }
  }

  /**
   * The try block of the handler for a URL that passed validation: returns
   * what it returns or throws, the calls it makes, and the `browser` variable
   * as the finally block finds it.
   */
  method TryBlock(url: string, env: Environment, now: int)
    returns (outcome: Outcome, trace: seq<Effect>, browser: BrowserState)
    requires WellFormedEnv(env)
    ensures outcome == TryOutcome(url, env, now)
    ensures trace == TryTrace(env)
    ensures browser == if env.launchFault.None? then Open else NotLaunched
  {
    browser := NotLaunched;
    trace := [Launch];
    if env.launchFault.Some? {
      return Thrown(env.launchFault.value), trace, browser;
    }
    browser := Open;
    trace := trace + [Setup];
    if env.setupFault.Some? {
      return Thrown(env.setupFault.value), trace, browser;
    }
    var navigationSuccess, attempts := Navigate(env);
    trace := trace + attempts;
    if !navigationSuccess {
      return Returned(Json(DegradedReport(url, now, NavigationFailedNote))), trace, browser;
    }
    var calls;
    outcome, calls := Loaded(url, env, now);
    trace := trace + calls;
    assert trace == [Launch] + ([Setup] + (attempts + calls));
  }

  /**
   * The try block from the moment navigation has succeeded: the mouse
   * movement, the injection, and the scan race.
   */
  method Loaded(url: string, env: Environment, now: int) returns (outcome: Outcome, calls: seq<Effect>)
    ensures outcome == LoadedOutcome(url, env, now)
    ensures calls == LoadedTrace(env)
  {
    calls := [Humanize];
    if env.humanizeFault.Some? {
      return Thrown(env.humanizeFault.value), calls;
    }
    calls := calls + [Inject];
    if env.injectionFails {
      return Returned(Json(DegradedReport(url, now, InjectionFailedNote))), calls;
    }
    calls := calls + [Scan];
    var results: RawResult;
    match env.scan {
      case Completed(raw) =>
        results := raw;
      case EngineError =>
        results := EmptyResult;
      case Timeout =>
        results := EmptyResult;
      case EvaluateFault(m) =>
        return Thrown(m), calls;
    }
    outcome := Returned(Json(Normalize(url, now, results)));
  }

  /**
   * The handler. The URL check of the try block is done first here: when it
   * fails nothing else in the try block has run and `browser` is unset.
   * `url` is `req.body.url`, `now` the clock reading every
   * `new Date()` of the request gives. Returns the response, the external
   * calls made, and what became of the browser.
   */
  method Analyze(url: Option<string>, env: Environment, now: int)
    returns (response: Response, trace: seq<Effect>, browser: BrowserState)
    requires WellFormedEnv(env)
    ensures response == AnalysisResponse(url, env, now)
    ensures trace == AnalysisTrace(url, env)
    ensures browser == if !Launched(url, env) then NotLaunched
                       else if env.closeFails then CloseFailed
                       else Closed
  {
    var outcome: Outcome;
    if !UrlGiven(url) {
      outcome, trace, browser := Returned(BadRequest(UrlRequired)), [], NotLaunched;
    } else {
      outcome, trace, browser := TryBlock(url.value, env, now);
    }
    // catch
    match outcome {
      case Returned(r) =>
        response := r;
      case Thrown(m) =>
        response := Json(InternalErrorReport(url, now, m));
    }
    // finally: close a launched browser; a throwing close is logged and swallowed
    if browser == Open {
      trace := trace + [Close];
      if env.closeFails {
        browser := CloseFailed;
      } else {
        browser := Closed;
      }
    }
  }

  /** The strategies navigated with, read off a list of calls. */
  function Navigations(trace: seq<Effect>): seq<Strategy>
  {
    if trace == [] then []
    else (if trace[0].Goto? then [trace[0].strategy] else []) + Navigations(trace[1..])
  }

  lemma {:induction false} NavigationsAppend(a: seq<Effect>, b: seq<Effect>)
    ensures Navigations(a + b) == Navigations(a) + Navigations(b)
  {
    if a == [] {
      assert a + b == b;
    } else {
      var ab := a + b;
      var head := if a[0].Goto? then [a[0].strategy] else [];
      assert ab != [] && ab[0] == a[0];
      assert ab[1..] == a[1..] + b;
      assert Navigations(ab) == head + Navigations(a[1..] + b);
      NavigationsAppend(a[1..], b);
      assert Navigations(a) == head + Navigations(a[1..]);
    }
  }

  lemma {:induction false} NavigationsOfGotos(ss: seq<Strategy>)
    ensures Navigations(Gotos(ss)) == ss
  {
    if ss != [] {
      assert Gotos(ss)[1..] == Gotos(ss[1..]);
      NavigationsOfGotos(ss[1..]);
    }
  }

  /** Calls that are not navigations contribute no strategy. */
  lemma {:induction false} NavigationsNone(trace: seq<Effect>)
    requires forall k :: 0 <= k < |trace| ==> !trace[k].Goto?
    ensures Navigations(trace) == []
  {
    if trace != [] {
      NavigationsNone(trace[1..]);
    }
  }

  /** A missing or empty URL is rejected before any browser is launched. */
  lemma MissingUrlRejected(url: Option<string>, env: Environment, now: int)
    requires WellFormedEnv(env)
    requires !UrlGiven(url)
    ensures AnalysisResponse(url, env, now) == BadRequest(UrlRequired)
    ensures AnalysisTrace(url, env) == []
  {
  }

  /**
   * The strategies are tried in their fixed order, one at a time, and the
   * first success ends the loop: what is tried is a prefix of the list in
   * which every strategy but the last failed, and the last succeeded unless
   * the whole list was used up.
   */
  lemma StrategiesInOrder(url: Option<string>, env: Environment)
    requires WellFormedEnv(env)
    requires Launched(url, env) && env.setupFault.None?
    ensures var tried := Navigations(AnalysisTrace(url, env));
      && 1 <= |tried| <= |Strategies|
      && tried == Strategies[..|tried|]
      && (forall j :: 0 <= j < |tried| - 1 ==> !env.gotoOk[j])
      && (env.gotoOk[|tried| - 1] || |tried| == |Strategies|)
  {
    NavigationsOfTrace(url, env);
    AttemptedIsFirstPrefix(env.gotoOk);
  }

  /** The navigations in the handler's calls are exactly the strategies attempted. */
  lemma NavigationsOfTrace(url: Option<string>, env: Environment)
    requires WellFormedEnv(env)
    requires Launched(url, env) && env.setupFault.None?
    ensures Navigations(AnalysisTrace(url, env)) == Attempted(env.gotoOk)
  {
    TryNavigations(env);
    NavigationsAppend(TryTrace(env), [Close]);
    NavigationsNone([Close]);
  }

  lemma TryNavigations(env: Environment)
    requires WellFormedEnv(env)
    requires env.launchFault.None? && env.setupFault.None?
    ensures Navigations(TryTrace(env)) == Attempted(env.gotoOk)
  {
    PageNavigations(env);
    NavigationsAppend([Launch], [Setup] + PageTrace(env));
    NavigationsAppend([Setup], PageTrace(env));
    NavigationsNone([Launch]);
    NavigationsNone([Setup]);
  }

  lemma PageNavigations(env: Environment)
    requires WellFormedEnv(env)
    requires env.setupFault.None?
    ensures Navigations(PageTrace(env)) == Attempted(env.gotoOk)
  {
    var tried := Attempted(env.gotoOk);
    var loaded := if FirstSuccess(env.gotoOk).None? then [] else LoadedTrace(env);
    assert PageTrace(env) == Gotos(tried) + loaded;
    NavigationsAppend(Gotos(tried), loaded);
    NavigationsOfGotos(tried);
    NavigationsNone(loaded);
  }

  /**
   * The strategies attempted are a non-empty prefix of `Strategies` in which
   * every strategy but the last failed, and the last succeeded unless all were tried.
   */
  lemma AttemptedIsFirstPrefix(ok: seq<bool>)
    requires |ok| == |Strategies|
    ensures var tried := Attempted(ok);
      && 1 <= |tried| <= |Strategies|
      && tried == Strategies[..|tried|]
      && (forall j :: 0 <= j < |tried| - 1 ==> !ok[j])
      && (ok[|tried| - 1] || |tried| == |Strategies|)
  {
    match FirstSuccess(ok) {
      case Some(k) => assert Attempted(ok) == Strategies[..k + 1];
      case None => assert Attempted(ok) == Strategies;
    }
  }

  /**
   * When every strategy fails the report is the "could not be fully loaded"
   * one, and nothing is humanized, injected or scanned.
   */
  lemma NavigationExhausted(url: Option<string>, env: Environment, now: int)
    requires WellFormedEnv(env)
    requires Launched(url, env) && env.setupFault.None?
    requires forall j :: 0 <= j < |env.gotoOk| ==> !env.gotoOk[j]
    ensures AnalysisResponse(url, env, now) == Json(Report(url.value, now, [], 0, 0, Some(NavigationFailedNote), None))
    ensures Humanize !in AnalysisTrace(url, env)
    ensures Inject !in AnalysisTrace(url, env)
    ensures Scan !in AnalysisTrace(url, env)
  {
    assert AnalysisTrace(url, env) == [Launch, Setup] + Gotos(Strategies) + [Close];
  }

  /** A failed injection yields the "could not be performed" report and no scan. */
  lemma InjectionFailure(url: Option<string>, env: Environment, now: int)
    requires WellFormedEnv(env)
    requires Launched(url, env) && env.setupFault.None?
    requires FirstSuccess(env.gotoOk).Some? && env.humanizeFault.None?
    requires env.injectionFails
    ensures AnalysisResponse(url, env, now) == Json(Report(url.value, now, [], 0, 0, Some(InjectionFailedNote), None))
    ensures Inject in AnalysisTrace(url, env)
    ensures Scan !in AnalysisTrace(url, env)
  {
    var t := [Launch, Setup] + Gotos(Attempted(env.gotoOk));
    assert AnalysisTrace(url, env) == t + [Humanize, Inject, Close];
    assert Scan !in t;
  }

  /**
   * An engine error and the deadline both give the report of an empty result:
   * nothing found, nothing passed, no note.
   */
  lemma EmptyScanOutcomes(url: Option<string>, env: Environment, now: int)
    requires WellFormedEnv(env)
    requires Launched(url, env) && env.setupFault.None?
    requires FirstSuccess(env.gotoOk).Some? && env.humanizeFault.None? && !env.injectionFails
    requires env.scan == EngineError || env.scan == Timeout
    ensures AnalysisResponse(url, env, now) == Json(Report(url.value, now, [], 0, 0, None, None))
    ensures AnalysisResponse(url, env, now) == AnalysisResponse(url, env.(scan := Completed(EmptyResult)), now)
  {
  }

  /** A completed scan is reported through the mapping, with no note. */
  lemma CompletedScan(url: Option<string>, env: Environment, now: int)
    requires WellFormedEnv(env)
    requires Launched(url, env) && env.setupFault.None?
    requires FirstSuccess(env.gotoOk).Some? && env.humanizeFault.None? && !env.injectionFails
    requires env.scan.Completed?
    ensures AnalysisResponse(url, env, now) == Json(Normalize(url.value, now, env.scan.raw))
    ensures AnalysisTrace(url, env)[|AnalysisTrace(url, env)| - 2..] == [Scan, Close]
  {
    assert LoadedTrace(env) == [Humanize, Inject, Scan];
    var page := PageTrace(env);
    assert page == Gotos(Attempted(env.gotoOk)) + [Humanize, Inject, Scan];
    assert page[|page| - 1] == Scan;
    var t := TryTrace(env);
    assert t == [Launch] + ([Setup] + page);
    assert t[|t| - 1] == Scan;
    var a := AnalysisTrace(url, env);
    assert a == t + [Close];
    assert a[|a| - 2..] == [Scan, Close];
  }

  /**
   * A throw from the humanization steps is not guarded locally: it reaches the
   * catch-all, whose report names the URL, the internal-error note and the
   * fault's message.
   */
  lemma HumanizeFaultReachesCatchAll(url: Option<string>, env: Environment, now: int)
    requires WellFormedEnv(env)
    requires Launched(url, env) && env.setupFault.None?
    requires FirstSuccess(env.gotoOk).Some? && env.humanizeFault.Some?
    ensures AnalysisResponse(url, env, now)
      == Json(Report(url.value, now, [], 0, 0, Some(InternalErrorNote), Some(env.humanizeFault.value)))
    ensures Inject !in AnalysisTrace(url, env)
  {
    assert AnalysisTrace(url, env) == [Launch, Setup] + Gotos(Attempted(env.gotoOk)) + [Humanize, Close];
  }

  /** The faults with no handler of their own all end in the catch-all report. */
  lemma UnanticipatedFaults(url: Option<string>, env: Environment, now: int, message: string)
    requires WellFormedEnv(env)
    requires UrlGiven(url)
    requires || env.launchFault == Some(message)
             || (env.launchFault.None? && env.setupFault == Some(message))
             || (env.launchFault.None? && env.setupFault.None? && FirstSuccess(env.gotoOk).Some?
                 && env.humanizeFault.None? && !env.injectionFails && env.scan == EvaluateFault(message))
    ensures AnalysisResponse(url, env, now)
      == Json(Report(url.value, now, [], 0, 0, Some(InternalErrorNote), Some(message)))
  {
  }

  /**
   * Every report names the requested URL: the catch-all's "Unknown URL"
   * fallback is never used, since every fault comes after the URL check.
   */
  lemma ReportEchoesUrl(url: Option<string>, env: Environment, now: int)
    requires WellFormedEnv(env)
    requires AnalysisResponse(url, env, now).Json?
    ensures UrlGiven(url)
    ensures AnalysisResponse(url, env, now).report.url == url.value
    ensures AnalysisResponse(url, env, now).report.timestamp == now
  {
  }

  /** Every report the handler returns keeps the report invariants. */
  lemma ResponsesWellFormed(url: Option<string>, env: Environment, now: int)
    requires WellFormedEnv(env)
    requires AnalysisResponse(url, env, now).Json?
    ensures WellFormed(AnalysisResponse(url, env, now).report)
  {
    if env.scan.Completed? {
      NormalizeWellFormed(url.value, now, env.scan.raw);
    }
  }

  /** How many times `e` occurs in `trace`. */
  function Occurrences(trace: seq<Effect>, e: Effect): nat
  {
    multiset(trace)[e]
  }

  /**
   * Teardown: the browser is closed exactly when it was launched, exactly
   * once, and as the last call, on every way out of the handler.
   */
  lemma TeardownOnEveryPath(url: Option<string>, env: Environment)
    requires WellFormedEnv(env)
    ensures Occurrences(AnalysisTrace(url, env), Close) == if Launched(url, env) then 1 else 0
    ensures Launched(url, env) ==> AnalysisTrace(url, env)[|AnalysisTrace(url, env)| - 1] == Close
    ensures Launch in AnalysisTrace(url, env) <==> UrlGiven(url)
  {
    if UrlGiven(url) {
      var t := TryTrace(env);
      TryBlockNeverCloses(env);
      assert multiset(t)[Close] == 0;
      if Launched(url, env) {
        assert multiset(t + [Close]) == multiset(t) + multiset{Close};
      }
    }
  }

  /** The try block starts with the launch and never closes the browser itself. */
  lemma TryBlockNeverCloses(env: Environment)
    requires WellFormedEnv(env)
    ensures TryTrace(env)[0] == Launch
    ensures Close !in TryTrace(env)
  {
    if env.launchFault.None? {
      if env.setupFault.None? {
        var g := Gotos(Attempted(env.gotoOk));
        var loaded := if FirstSuccess(env.gotoOk).None? then [] else LoadedTrace(env);
        assert PageTrace(env) == g + loaded;
        assert Close !in g;
        assert Close !in loaded;
      }
      assert Close !in PageTrace(env);
      assert TryTrace(env) == [Launch] + ([Setup] + PageTrace(env));
    }
  }

  /** A failure to close the browser never changes the response or the calls made. */
  lemma CloseFailureInvisible(url: Option<string>, env: Environment, now: int, closeFails: bool)
    requires WellFormedEnv(env)
    ensures AnalysisResponse(url, env.(closeFails := closeFails), now) == AnalysisResponse(url, env, now)
    ensures AnalysisTrace(url, env.(closeFails := closeFails)) == AnalysisTrace(url, env)
  {
    var other := env.(closeFails := closeFails);
    assert LoadedTrace(other) == LoadedTrace(env);
    assert PageTrace(other) == PageTrace(env);
    assert TryTrace(other) == TryTrace(env);
    if UrlGiven(url) {
      assert LoadedOutcome(url.value, other, now) == LoadedOutcome(url.value, env, now);
      assert TryOutcome(url.value, other, now) == TryOutcome(url.value, env, now);
    }
  }
}
