/** The monitoring bot: the API rate limiter, the per-instrument evaluation with its retries,
    and one pass of the monitoring loop over the configured instruments. */
module Bot {
  import opened Frames
  import opened Indicators
  import opened Strategy
  import opened DataProviders
  import opened Config

  const MaxAttempts: nat := 3
  const RetryDelay: real := 5.0
  const MinBars: nat := 60
  const Pacing: real := 1.0
  const MaxRequests: int := 8
  const Period: real := 60.0

  // ---------------------------------------------------------------------------
  // APIRateLimiter

  /** The limiter's fields; clock readings are seconds. */
  datatype Limiter = Limiter(maxRequests: int, period: real, requestCount: int, lastReset: real)

  /** What `check_limit` does: return, sleep for `seconds` and return, or raise because the
      computed sleep is negative (which `time.sleep` refuses). */
  datatype Check = Passed(state: Limiter) | Waited(state: Limiter, seconds: real) | SleepFailed(state: Limiter)

  /** `check_limit` with `now` read on entry and `after` read once the sleep is over. */
  function LimitStep(s: Limiter, now: real, after: real): Check
  {
    var s1 := if now - s.lastReset > s.period then s.(requestCount := 0, lastReset := now) else s;
    if s1.requestCount < s1.maxRequests then Passed(s1)
    else
      var t := s1.period - (now - s1.lastReset) + 1.0;
      if t < 0.0 then SleepFailed(s1) else Waited(s1.(requestCount := 0, lastReset := after), t)
  }

  class RateLimiter {
    var maxRequests: int
    var period: real
    var requestCount: int
    var lastReset: real

    function State(): Limiter
      reads this
    {
      Limiter(maxRequests, period, requestCount, lastReset)
    }

    /** `APIRateLimiter(max_requests, period)` at clock reading `now`. */
    constructor(maxRequests: int, period: real, now: real)
      ensures State() == Limiter(maxRequests, period, 0, now)
    {
      this.maxRequests := maxRequests;
      this.period := period;
      this.requestCount := 0;
      this.lastReset := now;
    }

    /** `check_limit`: returns how long it slept, or that the sleep raised. */
    method CheckLimit(now: real, after: real) returns (slept: Option<real>, failed: bool)
      modifies this
      ensures var c := LimitStep(old(State()), now, after);
        && State() == c.state
        && failed == c.SleepFailed?
        && slept == (if c.Waited? then Some(c.seconds) else None)
    {
      slept, failed := None, false;
      if now - lastReset > period {
        requestCount := 0;
        lastReset := now;
      }
      if requestCount >= maxRequests {
        var sleepTime := period - (now - lastReset) + 1.0;
        if sleepTime < 0.0 {
          failed := true;
          return;
        }
        slept := Some(sleepTime);
        requestCount := 0;
        lastReset := after;
      }
    }
  }

  /** Once the window has elapsed the count restarts at 0 from `now`; with a positive limit
      that is all, and no sleep happens. */
  lemma ResetWhenElapsed(s: Limiter, now: real, after: real)
    requires now - s.lastReset > s.period && s.maxRequests > 0
    ensures LimitStep(s, now, after) == Passed(s.(requestCount := 0, lastReset := now))
  {
  }

  /** With a positive limit, a check that returns leaves the count below the limit. */
  lemma BelowLimitAfterCheck(s: Limiter, now: real, after: real)
    requires s.maxRequests > 0
    ensures var c := LimitStep(s, now, after);
      !c.SleepFailed? ==> 0 <= c.state.requestCount < c.state.maxRequests || c.state.requestCount == s.requestCount < s.maxRequests
  {
  }

  /** A sleep lasts period - (now - last_reset) + 1 seconds, measured from the last reset after
      any window restart; it is at least 1 second when the window had not elapsed, or when the
      period is not negative. Afterwards the count is 0 and the reset time is the clock read
      after the sleep. */
  lemma WaitDuration(s: Limiter, now: real, after: real)
    ensures var c := LimitStep(s, now, after);
      c.Waited? ==>
        var last := if now - s.lastReset > s.period then now else s.lastReset;
        && c.seconds == s.period - (now - last) + 1.0
        && (now - s.lastReset <= s.period || s.period >= 0.0 ==> c.seconds >= 1.0)
        && c.state == s.(requestCount := 0, lastReset := after)
  {
  }

  /** Below the limit and inside the window, a check changes nothing and does not sleep. */
  lemma UnderLimitUnchanged(s: Limiter, now: real, after: real)
    requires s.requestCount < s.maxRequests && now - s.lastReset <= s.period
    ensures LimitStep(s, now, after) == Passed(s)
  {
  }

  /** The sleep can only fail when the period is below -1 second. */
  lemma SleepFailsOnlyBelowMinusOne(s: Limiter, now: real, after: real)
    requires s.period >= -1.0
    ensures !LimitStep(s, now, after).SleepFailed?
  {
  }

  /** Eight requests 30 seconds into a 60-second window wait 31 seconds. */
  lemma EightRequestsScenario(after: real)
    ensures LimitStep(Limiter(MaxRequests, Period, 8, 0.0), 30.0, after)
         == Waited(Limiter(MaxRequests, Period, 0, after), 31.0)
  {
  }

  // ---------------------------------------------------------------------------
  // evaluar_activo

  /** The result of one attempt: an exception, or the list the attempt returns. */
  datatype Outcome = Raised | Finished(signals: seq<Signal>)

  /** One attempt on the frame `obtener_datos` returned: the soft failures return []; a
      missing high or low column makes `calcular_indicadores` raise. */
  function Attempt(name: string, df: Option<Frame>, model: Option<Classifier>): Outcome
    requires df.Some? ==> IndicatorInput(df.value)
  {
    if df.None? || "close" !in df.value.names || |df.value.rows| < MinBars then Finished([])
    else
      match AddIndicators(df.value)
      case None => Raised
      case Some(g) =>
        if model.None? then Finished([]) else Finished(EvaluateStrategy(name, Some(g), model, Threshold))
  }

  /** An attempt that fetches with `reply` as the quote service's answer. */
  function AttemptOn(name: string, apiKey: Option<string>, reply: Response, model: Option<Classifier>): Outcome
  {
    NormalisedFeedsIndicators(apiKey, reply);
    Attempt(name, Normalise(apiKey, reply), model)
  }

  /** The outcomes of the three attempts, attempt `k + 1` answered by `replies[k]`. */
  function Outcomes(name: string, apiKey: Option<string>, replies: seq<Response>, model: Option<Classifier>): (os: seq<Outcome>)
    ensures |os| == |replies| && forall k :: 0 <= k < |replies| ==> os[k] == AttemptOn(name, apiKey, replies[k], model)
  {
    seq(|replies|, k requires 0 <= k < |replies| => AttemptOn(name, apiKey, replies[k], model))
  }

  /** The returned list and the number of the attempt that produced it. */
  datatype Run = Run(signals: seq<Signal>, tries: nat)

  /** `evaluar_activo(nombre, ticker, intento)` over the outcomes of its attempts: a raising
      attempt before the last is followed by the next one. */
  function Retry(outcomes: seq<Outcome>, attempt: nat): Run
    requires 1 <= attempt <= MaxAttempts == |outcomes|
    decreases MaxAttempts - attempt
  {
    match outcomes[attempt - 1]
    case Finished(s) => Run(s, attempt)
    case Raised => if attempt < MaxAttempts then Retry(outcomes, attempt + 1) else Run([], attempt)
  }

  /** The result is that of the first attempt that does not raise, made after as many earlier
      attempts; when all three raise it is [] after three attempts. */
  lemma {:induction false} FirstFinishedWins(outcomes: seq<Outcome>, attempt: nat)
    requires 1 <= attempt <= MaxAttempts == |outcomes|
    ensures var r := Retry(outcomes, attempt);
      && attempt <= r.tries <= MaxAttempts
      && (forall j :: attempt - 1 <= j < r.tries - 1 ==> outcomes[j].Raised?)
      && (match outcomes[r.tries - 1]
          case Finished(s) => r.signals == s
          case Raised => r.tries == MaxAttempts && r.signals == [])
    decreases MaxAttempts - attempt
  {
    if outcomes[attempt - 1].Raised? && attempt < MaxAttempts {
      FirstFinishedWins(outcomes, attempt + 1);
    }
  }

  /** Three raising attempts give [] after three attempts. */
  lemma AllRaisedGiveNothing(outcomes: seq<Outcome>)
    requires MaxAttempts == |outcomes| && forall k :: 0 <= k < |outcomes| ==> outcomes[k].Raised?
    ensures Retry(outcomes, 1) == Run([], MaxAttempts)
  {
  }

  /** On a frame whose names are lower-case, the indicators can be added exactly when high
      and low are there besides close. */
  lemma IndicatorsNeedHighLow(f: Frame)
    requires IndicatorInput(f) && "close" in f.names && forall k :: k in f.names ==> IsLower(k)
    ensures AddIndicators(f).Some? <==> {"high", "low"} <= f.names
  {
    LowerFrameOfLowerNames(Frame(f.names, f.rows));
    assert LowerNames(f.names) == f.names by {
      forall k | k in f.names ensures Lower(k) == k { LowerOfLower(k); }
    }
  }

  /** An attempt raises exactly when the frame passes the soft checks but lacks high or low;
      otherwise, with a model loaded, it returns `evaluar_estrategia`'s list on the frame with
      indicators. */
  lemma AttemptCases(name: string, df: Option<Frame>, model: Option<Classifier>)
    requires df.Some? ==> IndicatorInput(df.value) && forall k :: k in df.value.names ==> IsLower(k)
    ensures var passes := df.Some? && "close" in df.value.names && |df.value.rows| >= MinBars;
      && (Attempt(name, df, model).Raised? <==> passes && !({"high", "low"} <= df.value.names))
      && (passes && {"high", "low"} <= df.value.names && model.None? ==> Attempt(name, df, model) == Finished([]))
      && (passes && {"high", "low"} <= df.value.names && model.Some? ==>
            Attempt(name, df, model) == Finished(EvaluateStrategy(name, AddIndicators(df.value), model, Threshold)))
  {
    if df.Some? && "close" in df.value.names {
      IndicatorsNeedHighLow(df.value);
    }
  }

  /** A soft failure on the first attempt returns [] at once: no data, no close, fewer than
      60 rows, or no model once the indicators were added (a frame without high or low makes
      `calcular_indicadores` raise before the model is looked at). */
  lemma SoftFailureNoRetry(name: string, apiKey: Option<string>, replies: seq<Response>, model: Option<Classifier>)
    requires MaxAttempts == |replies|
    requires var df := Normalise(apiKey, replies[0]);
      || df.None? || "close" !in df.value.names || |df.value.rows| < MinBars
      || (model.None? && {"high", "low"} <= df.value.names)
    ensures Retry(Outcomes(name, apiKey, replies, model), 1) == Run([], 1)
  {
    NormalisedFeedsIndicators(apiKey, replies[0]);
    AttemptCases(name, Normalise(apiKey, replies[0]), model);
    var os := Outcomes(name, apiKey, replies, model);
    assert os[0] == AttemptOn(name, apiKey, replies[0], model);
  }

  /** A message and a notification log line for each signal. */
  datatype LogLine = LogLine(asset: string, stamp: int, price: real, direction: Direction, modelPath: string)

  function Alerts(signals: seq<Signal>): (ms: seq<Message>)
    ensures |ms| == |signals| && forall i :: 0 <= i < |signals| ==> ms[i] == signals[i].message
  {
    if signals == [] then [] else [signals[0].message] + Alerts(signals[1..])
  }

  function LogLines(signals: seq<Signal>, logStamp: int): (ls: seq<LogLine>)
    ensures |ls| == |signals|
    ensures forall i :: 0 <= i < |signals| ==>
      ls[i] == LogLine(signals[i].asset, logStamp, signals[i].price, signals[i].direction, ModelPath)
  {
    if signals == [] then []
    else [LogLine(signals[0].asset, logStamp, signals[0].price, signals[0].direction, ModelPath)] + LogLines(signals[1..], logStamp)
  }

  function Repeat(x: real, n: nat): (xs: seq<real>)
    ensures |xs| == n && forall i :: 0 <= i < n ==> xs[i] == x
  {
    if n == 0 then [] else [x] + Repeat(x, n - 1)
  }

  /** `evaluar_activo` from its first attempt, as a bounded loop over what its attempts give
      (`outcomes[k]` for attempt `k + 1`, which `AttemptOn` defines): the list, the attempts
      made and the five-second sleeps between them. */
  method RunAttempts(outcomes: seq<Outcome>) returns (signals: seq<Signal>, tries: nat, sleeps: seq<real>)
    requires |outcomes| == MaxAttempts
    ensures Run(signals, tries) == Retry(outcomes, 1)
    ensures 1 <= tries <= MaxAttempts && sleeps == Repeat(RetryDelay, tries - 1)
  {
    var attempt := 1;
    sleeps := [];
    while true
      invariant 1 <= attempt <= MaxAttempts
      invariant Retry(outcomes, attempt) == Retry(outcomes, 1)
      invariant sleeps == Repeat(RetryDelay, attempt - 1)
      decreases MaxAttempts - attempt
    {
      var outcome := outcomes[attempt - 1];
      if outcome.Finished? {
        signals, tries := outcome.signals, attempt;
        break;
      }
      if attempt == MaxAttempts {
        signals, tries := [], attempt;
        break;
      }
      sleeps := sleeps + [RetryDelay];
      assert sleeps == Repeat(RetryDelay, attempt);
      attempt := attempt + 1;
    }
  }

  /** For each signal, in order, the message sent and the line appended to the results file,
      stamped with `logStamp` (`datetime.now()`). */
  method Notify(signals: seq<Signal>, logStamp: int) returns (sent: seq<Message>, logged: seq<LogLine>)
    ensures sent == Alerts(signals) && logged == LogLines(signals, logStamp)
  {
    sent, logged := [], [];
    for i := 0 to |signals|
      invariant sent == Alerts(signals[..i]) && logged == LogLines(signals[..i], logStamp)
    {
      assert signals[..i + 1] == signals[..i] + [signals[i]];
      NotifySnoc(signals[..i], signals[i], logStamp);
      sent := sent + [signals[i].message];
      logged := logged + [LogLine(signals[i].asset, logStamp, signals[i].price, signals[i].direction, ModelPath)];
    }
    assert signals[..|signals|] == signals;
  }

  /** One more signal adds its message and its log line at the end. */
  lemma NotifySnoc(signals: seq<Signal>, x: Signal, logStamp: int)
    ensures Alerts(signals + [x]) == Alerts(signals) + [x.message]
    ensures LogLines(signals + [x], logStamp) == LogLines(signals, logStamp) + [LogLine(x.asset, logStamp, x.price, x.direction, ModelPath)]
  {
    var a, b := Alerts(signals + [x]), Alerts(signals) + [x.message];
    assert |a| == |b| && forall i :: 0 <= i < |a| ==> a[i] == b[i];
    var c, d := LogLines(signals + [x], logStamp), LogLines(signals, logStamp) + [LogLine(x.asset, logStamp, x.price, x.direction, ModelPath)];
    assert |c| == |d| && forall i :: 0 <= i < |c| ==> c[i] == d[i];
  }

  /** `evaluar_activo` with its notifications. */
  method EvaluateAsset(outcomes: seq<Outcome>, logStamp: int)
    returns (signals: seq<Signal>, tries: nat, sleeps: seq<real>, sent: seq<Message>, logged: seq<LogLine>)
    requires |outcomes| == MaxAttempts
    ensures Run(signals, tries) == Retry(outcomes, 1)
    ensures 1 <= tries <= MaxAttempts && sleeps == Repeat(RetryDelay, tries - 1)
    ensures sent == Alerts(signals) && logged == LogLines(signals, logStamp)
  {
    signals, tries, sleeps := RunAttempts(outcomes);
    sent, logged := Notify(signals, logStamp);
  }

  // ---------------------------------------------------------------------------
  // One cycle of monitorear

  /** The clock readings around one instrument's `check_limit` (on entry and after its sleep),
      what its three attempts give, and the `datetime.now()` its signal lines are stamped with. */
  datatype Input = Input(now: real, after: real, outcomes: seq<Outcome>, logStamp: int)

  predicate InputsFit(assets: seq<Asset>, inputs: seq<Input>)
  {
    |inputs| == |assets| && forall i :: 0 <= i < |inputs| ==> |inputs[i].outcomes| == MaxAttempts
  }

  /** What a stretch of the cycle leaves: the limiter, the instruments without a signal, the
      messages sent, the lines logged, and the sleeps in order. */
  datatype Cycle = Cycle(state: Limiter, quiet: seq<string>, sent: seq<Message>, logged: seq<LogLine>, sleeps: seq<real>)

  function Join(a: Cycle, b: Cycle): Cycle
  {
    Cycle(b.state, a.quiet + b.quiet, a.sent + b.sent, a.logged + b.logged, a.sleeps + b.sleeps)
  }

  lemma JoinAssociates(a: Cycle, b: Cycle, c: Cycle)
    ensures Join(Join(a, b), c) == Join(a, Join(b, c))
  {
    assert (a.quiet + b.quiet) + c.quiet == a.quiet + (b.quiet + c.quiet);
    assert (a.sent + b.sent) + c.sent == a.sent + (b.sent + c.sent);
    assert (a.logged + b.logged) + c.logged == a.logged + (b.logged + c.logged);
    assert (a.sleeps + b.sleeps) + c.sleeps == a.sleeps + (b.sleeps + c.sleeps);
  }

  /** The loop body for one instrument: `check_limit`; if it raised, nothing else; otherwise
      the evaluation, one more counted request, the one-second pause, and the name noted when
      the list is empty. */
  function VisitSpec(s: Limiter, asset: Asset, input: Input): Cycle
    requires |input.outcomes| == MaxAttempts
  {
    match LimitStep(s, input.now, input.after)
    case SleepFailed(s1) => Cycle(s1, [], [], [], [])
    case Passed(s1) => Evaluated(s1, [], asset, input)
    case Waited(s1, t) => Evaluated(s1, [t], asset, input)
  }

  function Evaluated(s1: Limiter, waits: seq<real>, asset: Asset, input: Input): Cycle
    requires |input.outcomes| == MaxAttempts
  {
    var r := Retry(input.outcomes, 1);
    Cycle(s1.(requestCount := s1.requestCount + 1),
          if r.signals == [] then [asset.name] else [],
          Alerts(r.signals), LogLines(r.signals, input.logStamp),
          waits + Repeat(RetryDelay, r.tries - 1) + [Pacing])
  }

  /** The instruments from `assets` on, in order, starting from limiter state `s`. */
  function CycleFrom(s: Limiter, assets: seq<Asset>, inputs: seq<Input>): Cycle
    requires InputsFit(assets, inputs)
    decreases |assets|
  {
    if assets == [] then Cycle(s, [], [], [], [])
    else
      var v := VisitSpec(s, assets[0], inputs[0]);
      Join(v, CycleFrom(v.state, assets[1..], inputs[1..]))
  }

  /** One visit, changing the limiter in place. */
  method Visit(limiter: RateLimiter, asset: Asset, input: Input)
    returns (v: Cycle)
    requires |input.outcomes| == MaxAttempts
    modifies limiter
    ensures v == VisitSpec(old(limiter.State()), asset, input)
    ensures limiter.State() == v.state
  {
    var slept, failed := limiter.CheckLimit(input.now, input.after);
    if failed {
      return Cycle(limiter.State(), [], [], [], []);
    }
    var waits := if slept.Some? then [slept.value] else [];
    var signals, tries, retrySleeps, sent, logged := EvaluateAsset(input.outcomes, input.logStamp);
    limiter.requestCount := limiter.requestCount + 1;
    var quiet := if signals == [] then [asset.name] else [];
    v := Cycle(limiter.State(), quiet, sent, logged, waits + retrySleeps + [Pacing]);
  }

  /** The loop of `monitorear` over `assets`, visiting them in order with the one limiter. */
  method VisitAll(limiter: RateLimiter, assets: seq<Asset>, inputs: seq<Input>) returns (c: Cycle)
    requires InputsFit(assets, inputs)
    modifies limiter
    ensures c == CycleFrom(old(limiter.State()), assets, inputs)
    ensures limiter.State() == c.state
  {
    ghost var s0 := limiter.State();
    c := Cycle(limiter.State(), [], [], [], []);
    for i := 0 to |assets|
      invariant limiter.State() == c.state
      invariant Join(c, CycleFrom(c.state, assets[i..], inputs[i..])) == CycleFrom(s0, assets, inputs)
    {
      ghost var rest := CycleFrom(c.state, assets[i..], inputs[i..]);
      var v := Visit(limiter, assets[i], inputs[i]);
      assert assets[i..][1..] == assets[i + 1..] && inputs[i..][1..] == inputs[i + 1..];
      ghost var tail := CycleFrom(v.state, assets[i + 1..], inputs[i + 1..]);
      assert rest == Join(v, tail);
      JoinAssociates(c, v, tail);
      c := Join(c, v);
    }
    assert assets[|assets|..] == [];
  }

  /** One pass of `monitorear`'s loop over the configured instruments, then the summary of
      the instruments without a signal, sent only when there is one, and the pause. */
  method MonitorCycle(limiter: RateLimiter, inputs: seq<Input>)
    returns (c: Cycle, summary: Option<seq<string>>, pause: real)
    requires InputsFit(Universe, inputs)
    modifies limiter
    ensures c == CycleFrom(old(limiter.State()), Universe, inputs)
    ensures limiter.State() == c.state
    ensures summary == (if c.quiet == [] then None else Some(c.quiet))
    ensures pause == PauseHours as real * 3600.0
  {
    c := VisitAll(limiter, Universe, inputs);
    summary := if c.quiet == [] then None else Some(c.quiet);
    pause := PauseHours as real * 3600.0;
  }

  // ---------------------------------------------------------------------------
  // Properties of a cycle

  /** A visit that gets past `check_limit` counts exactly one request, however many attempts
      the evaluation made; a visit whose sleep raised counts none. */
  lemma VisitCountsOneRequest(s: Limiter, asset: Asset, input: Input)
    requires |input.outcomes| == MaxAttempts
    ensures var c := LimitStep(s, input.now, input.after);
      VisitSpec(s, asset, input).state.requestCount
        == c.state.requestCount + (if c.SleepFailed? then 0 else 1)
  {
  }

  /** A visit whose `check_limit` raised does nothing else. Any other visit ends with the
      one-second pause, after the limiter's wait if there was one and the retry delays; it
      either notes the instrument and sends nothing (the evaluation returned []) or notes
      nothing and sends one message and one log line per signal. */
  lemma VisitEnds(s: Limiter, asset: Asset, input: Input)
    requires |input.outcomes| == MaxAttempts
    ensures var c, v, r := LimitStep(s, input.now, input.after), VisitSpec(s, asset, input), Retry(input.outcomes, 1);
      && (c.SleepFailed? ==> v.quiet == [] && v.sent == [] && v.logged == [] && v.sleeps == [])
      && (!c.SleepFailed? ==>
            && |v.sleeps| >= 1 && v.sleeps[|v.sleeps| - 1] == Pacing
            && v.sleeps == (if c.Waited? then [c.seconds] else []) + Repeat(RetryDelay, r.tries - 1) + [Pacing]
            && (r.signals == [] ==> v.quiet == [asset.name] && v.sent == [])
            && v.logged == LogLines(r.signals, input.logStamp)
            && (r.signals != [] ==> v.quiet == [] && |v.sent| == |v.logged| == |r.signals| >= 1))
  {
  }

  /** The no-signal list is no longer than the instrument list and holds only instrument
      names; one message and one log line are produced per signal. This holds whether or not
      a sleep raises. */
  lemma {:induction false} QuietNamesListed(s: Limiter, assets: seq<Asset>, inputs: seq<Input>)
    requires InputsFit(assets, inputs)
    ensures var c := CycleFrom(s, assets, inputs);
      && |c.quiet| <= |assets|
      && (forall n :: n in c.quiet ==> exists i :: 0 <= i < |assets| && assets[i].name == n)
      && |c.sent| == |c.logged|
    decreases |assets|
  {
    if assets != [] {
      var v := VisitSpec(s, assets[0], inputs[0]);
      QuietNamesListed(v.state, assets[1..], inputs[1..]);
      var rest := CycleFrom(v.state, assets[1..], inputs[1..]);
      forall n | n in rest.quiet ensures exists i :: 0 <= i < |assets| && assets[i].name == n {
        var j :| 0 <= j < |assets[1..]| && assets[1..][j].name == n;
        assert assets[j + 1].name == n;
      }
    }
  }

  /** The names whose evaluation returns [], in order: what the no-signal list must hold when
      every instrument is visited. */
  function QuietOf(assets: seq<Asset>, inputs: seq<Input>): (q: seq<string>)
    requires InputsFit(assets, inputs)
    ensures forall n :: n in q <==>
      exists i :: 0 <= i < |assets| && assets[i].name == n && Retry(inputs[i].outcomes, 1).signals == []
    decreases |assets|
  {
    if assets == [] then []
    else
      var rest := QuietOf(assets[1..], inputs[1..]);
      assert forall n :: n in rest <==>
        exists i :: 1 <= i < |assets| && assets[i].name == n && Retry(inputs[i].outcomes, 1).signals == [] by {
        forall n ensures n in rest ==>
          exists i :: 1 <= i < |assets| && assets[i].name == n && Retry(inputs[i].outcomes, 1).signals == [] {
          if n in rest {
            var j :| 0 <= j < |assets[1..]| && assets[1..][j].name == n && Retry(inputs[1..][j].outcomes, 1).signals == [];
            assert assets[j + 1].name == n && Retry(inputs[j + 1].outcomes, 1).signals == [];
          }
        }
        forall n ensures (exists i :: 1 <= i < |assets| && assets[i].name == n && Retry(inputs[i].outcomes, 1).signals == []) ==> n in rest {
          if exists i :: 1 <= i < |assets| && assets[i].name == n && Retry(inputs[i].outcomes, 1).signals == [] {
            var i :| 1 <= i < |assets| && assets[i].name == n && Retry(inputs[i].outcomes, 1).signals == [];
            assert assets[1..][i - 1].name == n && Retry(inputs[1..][i - 1].outcomes, 1).signals == [];
          }
        }
      }
      (if Retry(inputs[0].outcomes, 1).signals == [] then [assets[0].name] else []) + rest
  }

  /** When the period is at least -1 second no sleep raises, so every instrument is visited:
      the no-signal list is exactly the instruments whose evaluation returned [], in visiting
      order; quiet instruments plus messages sent, and sleeps, each number at least the
      instruments (`VisitEnds` gives the per-visit facts behind these counts). */
  lemma {:induction false} EveryInstrumentVisited(s: Limiter, assets: seq<Asset>, inputs: seq<Input>)
    requires InputsFit(assets, inputs) && s.period >= -1.0
    ensures var c := CycleFrom(s, assets, inputs);
      && c.state.period == s.period && c.state.maxRequests == s.maxRequests
      && c.quiet == QuietOf(assets, inputs)
      && |c.quiet| + |c.sent| >= |assets|
      && |c.sleeps| >= |assets|
    decreases |assets|
  {
    if assets != [] {
      SleepFailsOnlyBelowMinusOne(s, inputs[0].now, inputs[0].after);
      var v := VisitSpec(s, assets[0], inputs[0]);
      EveryInstrumentVisited(v.state, assets[1..], inputs[1..]);
      var r := Retry(inputs[0].outcomes, 1);
      assert |v.quiet| + |v.sent| >= 1 by {
        if r.signals != [] { assert |Alerts(r.signals)| >= 1; }
      }
    }
  }

  /** When no sleep can raise, a cycle over at least one instrument ends with the one-second
      pause of its last visit. */
  lemma {:induction false} CycleEndsWithPause(s: Limiter, assets: seq<Asset>, inputs: seq<Input>)
    requires InputsFit(assets, inputs) && s.period >= -1.0 && assets != []
    ensures var c := CycleFrom(s, assets, inputs);
      |c.sleeps| >= 1 && c.sleeps[|c.sleeps| - 1] == Pacing
    decreases |assets|
  {
    SleepFailsOnlyBelowMinusOne(s, inputs[0].now, inputs[0].after);
    VisitEnds(s, assets[0], inputs[0]);
    var v := VisitSpec(s, assets[0], inputs[0]);
    if |assets| > 1 {
      CycleEndsWithPause(v.state, assets[1..], inputs[1..]);
    }
  }
}
