/** The signal decision of `evaluar_estrategia`: a chain of early rejections (too few rows,
    missing columns, no session breakout, low classifier confidence) followed by the BUY and
    SELL rules with their ATR-based stop-loss and take-profit levels. */
module Strategy {
  import opened Frames
  import opened Indicators

  const MinRows: nat := 50
  const Favorable: string := "GANANCIA"
  const Required: set<string> := {"close", "atr", "ema_rapida", "ema_lenta", "rsi", "high", "low"}

  // ---------------------------------------------------------------------------
  // Trading sessions

  datatype Window = Asian | London | US

  /** `between_time` bounds in minutes since midnight; both ends are included. */
  function Start(w: Window): int
  {
    match w
    case Asian => 0
    case London => 360
    case US => 780
  }

  function End(w: Window): int
  {
    match w
    case Asian => 360
    case London => 720
    case US => 1200
  }

  function Rank(w: Window): nat
  {
    match w
    case Asian => 0
    case London => 1
    case US => 2
  }

  predicate InWindow(stamp: int, w: Window)
  {
    Start(w) <= TimeOfDay(stamp) <= End(w)
  }

  /** 06:00 belongs to both the Asian and the London session, 12:00 to London, and the times
      strictly between 12:00 and 13:00 (and after 20:00) to none. */
  lemma SessionEdges(stamp: int)
    ensures InWindow(stamp, Asian) && InWindow(stamp, London) <==> TimeOfDay(stamp) == 360
    ensures TimeOfDay(stamp) == 720 ==> InWindow(stamp, London) && !InWindow(stamp, US)
    ensures 720 < TimeOfDay(stamp) < 780 || TimeOfDay(stamp) > 1200 ==>
      !InWindow(stamp, Asian) && !InWindow(stamp, London) && !InWindow(stamp, US)
  {
  }

  // ---------------------------------------------------------------------------
  // Session ranges and breakouts

  /** A row whose high and low are floats. */
  predicate Priced(r: Row)
  {
    "high" in r.cells && r.cells["high"].Num? && "low" in r.cells && r.cells["low"].Num?
  }

  predicate PricedRows(rows: seq<Row>)
  {
    forall r :: r in rows ==> Priced(r)
  }

  function High(r: Row): real requires Priced(r) { r.cells["high"].v }
  function Low(r: Row): real requires Priced(r) { r.cells["low"].v }

  /** `df.between_time(Start(w), End(w))`: the rows of the session, in order. */
  function Session(rows: seq<Row>, w: Window): (s: seq<Row>)
    ensures forall x :: x in s <==> x in rows && InWindow(x.stamp, w)
  {
    if rows == [] then []
    else (if InWindow(rows[0].stamp, w) then [rows[0]] else []) + Session(rows[1..], w)
  }

  function Highs(s: seq<Row>): (hs: seq<real>)
    requires PricedRows(s)
    ensures |hs| == |s| && forall i :: 0 <= i < |s| ==> hs[i] == High(s[i])
  {
    seq(|s|, i requires 0 <= i < |s| => High(s[i]))
  }

  function Lows(s: seq<Row>): (ls: seq<real>)
    requires PricedRows(s)
    ensures |ls| == |s| && forall i :: 0 <= i < |s| ==> ls[i] == Low(s[i])
  {
    seq(|s|, i requires 0 <= i < |s| => Low(s[i]))
  }

  /** The session has rows and the price lies beyond its highest high or its lowest low. */
  predicate Broken(rows: seq<Row>, w: Window, price: real)
    requires PricedRows(rows)
  {
    var s := Session(rows, w);
    |s| > 0 && (price > SeqMax(Highs(s)) || price < SeqMin(Lows(s)))
  }

  /** `rompimientos`: the broken sessions, appended in the order Asian, London, US. */
  function Breakouts(rows: seq<Row>, price: real): (b: seq<Window>)
    requires PricedRows(rows)
  {
    (if Broken(rows, Asian, price) then [Asian] else [])
    + (if Broken(rows, London, price) then [London] else [])
    + (if Broken(rows, US, price) then [US] else [])
  }

  /** The breakout list is in session order without repetitions. */
  lemma BreakoutsOrdered(rows: seq<Row>, price: real)
    requires PricedRows(rows)
    ensures var b := Breakouts(rows, price);
      |b| <= 3 && forall i, j :: 0 <= i < j < |b| ==> Rank(b[i]) < Rank(b[j])
  {
  }

  lemma SessionMaxMin(rows: seq<Row>, w: Window, price: real)
    requires PricedRows(rows) && |Session(rows, w)| > 0
    ensures var s := Session(rows, w);
      && (price > SeqMax(Highs(s)) <==> forall r :: r in rows && InWindow(r.stamp, w) ==> price > High(r))
      && (price < SeqMin(Lows(s)) <==> forall r :: r in rows && InWindow(r.stamp, w) ==> price < Low(r))
  {
    var s := Session(rows, w);
    var hs, ls := Highs(s), Lows(s);
    var hi, lo := SeqMax(hs), SeqMin(ls);
    forall r | r in rows && InWindow(r.stamp, w) ensures High(r) <= hi && lo <= Low(r) {
      var i :| 0 <= i < |s| && s[i] == r;
      assert hs[i] == High(r) && ls[i] == Low(r);
    }
    var a :| 0 <= a < |hs| && hs[a] == hi;
    var b :| 0 <= b < |ls| && ls[b] == lo;
    assert s[a] in rows && InWindow(s[a].stamp, w) && High(s[a]) == hi;
    assert s[b] in rows && InWindow(s[b].stamp, w) && Low(s[b]) == lo;
  }

  /** A session is recorded as broken exactly when it has rows and the price is above every
      high of the session or below every low of it. */
  lemma BreakoutCharacterised(rows: seq<Row>, price: real, w: Window)
    requires PricedRows(rows)
    ensures w in Breakouts(rows, price) <==>
      && (exists r :: r in rows && InWindow(r.stamp, w))
      && ((forall r :: r in rows && InWindow(r.stamp, w) ==> price > High(r))
          || (forall r :: r in rows && InWindow(r.stamp, w) ==> price < Low(r)))
  {
    var s := Session(rows, w);
    assert w in Breakouts(rows, price) <==> Broken(rows, w, price);
    if |s| > 0 {
      SessionMaxMin(rows, w, price);
      assert s[0] in rows && InWindow(s[0].stamp, w);
    } else {
      assert forall r :: r in rows && InWindow(r.stamp, w) ==> r in s;
    }
  }

  /** The range includes the bar being tested: when the last bar lies in a session and its
      close lies within its own high and low, that session is never broken by that close. */
  lemma CurrentBarNeverBreaks(rows: seq<Row>, w: Window, close: real)
    requires PricedRows(rows) && |rows| > 0
    requires InWindow(rows[|rows| - 1].stamp, w)
    requires Low(rows[|rows| - 1]) <= close <= High(rows[|rows| - 1])
    ensures w !in Breakouts(rows, close)
  {
    BreakoutCharacterised(rows, close, w);
    assert rows[|rows| - 1] in rows;
  }

  // ---------------------------------------------------------------------------
  // Confidence gate

  /** The feature row handed to the classifier: atr, ema_rapida, ema_lenta, rsi. */
  datatype Features = Features(atr: real, emaFast: real, emaSlow: real, rsi: Cell)

  /** What `predict_proba(...)[0]` does for one feature row: raise, or give a probability vector. */
  datatype Prediction = Raises | Proba(p: seq<real>)

  /** A loaded classifier: its `classes_` and its answer for each feature row. */
  datatype Classifier = Classifier(classes: seq<string>, predictProba: Features -> Prediction)

  /** `list(classes).index(x)`, the first position of `x`. */
  function IndexOf(xs: seq<string>, x: string): (k: nat)
    requires x in xs
    ensures k < |xs| && xs[k] == x && forall j :: 0 <= j < k ==> xs[j] != x
  {
    if xs[0] == x then 0 else 1 + IndexOf(xs[1..], x)
  }

  /** `confianza`; every exception inside the `try` (a raising classifier, an index past the
      probability vector, the maximum of an empty vector) leaves it at 0. */
  function Confidence(model: Option<Classifier>, x: Features): real
  {
    match model
    case None => 0.0
    case Some(m) =>
      match m.predictProba(x)
      case Raises => 0.0
      case Proba(p) =>
        if Favorable in m.classes then
          var k := IndexOf(m.classes, Favorable);
          if k < |p| then p[k] else 0.0
        else if |p| > 0 then SeqMax(p) else 0.0
  }

  /** Confidence is the probability of the first "GANANCIA" class when there is one, otherwise
      the largest probability, and 0 without a model or when the classifier raises. */
  lemma ConfidenceCases(model: Option<Classifier>, x: Features)
    ensures model.None? ==> Confidence(model, x) == 0.0
    ensures model.Some? && model.value.predictProba(x).Raises? ==> Confidence(model, x) == 0.0
    ensures model.Some? && model.value.predictProba(x).Proba? ==>
      var m, p := model.value, model.value.predictProba(x).p;
      && (forall k :: (0 <= k < |m.classes| && k < |p| && m.classes[k] == Favorable &&
            (forall j :: 0 <= j < k ==> m.classes[j] != Favorable)) ==> Confidence(model, x) == p[k])
      && (Favorable !in m.classes && |p| > 0 ==>
            (forall i :: 0 <= i < |p| ==> p[i] <= Confidence(model, x)) &&
            (exists i :: 0 <= i < |p| && p[i] == Confidence(model, x)))
  {
    if model.Some? && model.value.predictProba(x).Proba? {
      var m, p := model.value, model.value.predictProba(x).p;
      forall k | 0 <= k < |m.classes| && k < |p| && m.classes[k] == Favorable &&
                 (forall j :: 0 <= j < k ==> m.classes[j] != Favorable)
        ensures Confidence(model, x) == p[k]
      {
        assert Favorable in m.classes;
        var first := IndexOf(m.classes, Favorable);
        assert first == k;
      }
      if Favorable !in m.classes && |p| > 0 {
        assert Confidence(model, x) == SeqMax(p);
      }
    }
  }

  // ---------------------------------------------------------------------------
  // Directional rules

  datatype Direction = Buy | Sell

  /** The rendered notification of `formatear_mensaje`, kept as the values it shows. */
  datatype Message = Message(direction: Direction, asset: string, price: real, stopLoss: real,
                             takeProfit: real, atr: real, emaFast: real, emaSlow: real,
                             rsi: Cell, confidence: real, ranges: seq<Window>)

  datatype Signal = Signal(asset: string, direction: Direction, price: real, stopLoss: real,
                           takeProfit: real, message: Message)

  /** The last row's values the decision reads. */
  datatype Snapshot = Snapshot(price: real, atr: real, emaFast: real, emaSlow: real, rsi: Cell)

  predicate BuyRule(s: Snapshot)
  {
    s.emaFast > s.emaSlow && s.rsi.Num? && 40.0 < s.rsi.v < 70.0
  }

  predicate SellRule(s: Snapshot)
  {
    s.emaFast < s.emaSlow && s.rsi.Num? && 30.0 < s.rsi.v < 60.0
  }

  function MakeSignal(name: string, d: Direction, s: Snapshot, conf: real, broken: seq<Window>): Signal
  {
    var sl := if d == Buy then s.price - s.atr * 1.5 else s.price + s.atr * 1.5;
    var tp := if d == Buy then s.price + s.atr * 2.0 else s.price - s.atr * 2.0;
    Signal(name, d, s.price, sl, tp,
           Message(d, name, s.price, sl, tp, s.atr, s.emaFast, s.emaSlow, s.rsi, conf, broken))
  }

  /** `señales`: the BUY signal if its rule holds, then the SELL signal if its rule holds. */
  function Rules(name: string, s: Snapshot, conf: real, broken: seq<Window>): seq<Signal>
  {
    (if BuyRule(s) then [MakeSignal(name, Buy, s, conf, broken)] else [])
    + (if SellRule(s) then [MakeSignal(name, Sell, s, conf, broken)] else [])
  }

  /** The trend conditions exclude each other, so at most one rule fires. */
  lemma RulesExclusive(s: Snapshot)
    ensures !(BuyRule(s) && SellRule(s))
  {
  }

  // ---------------------------------------------------------------------------
  // evaluar_estrategia

  function LastSnapshot(f: Frame): Snapshot
    requires IndicatorOutput(f) && |f.rows| > 0 && Required <= f.names
  {
    var last := f.rows[|f.rows| - 1];
    assert NumericColumn(f, "close") && NumericColumn(f, "atr");
    assert NumericColumn(f, "ema_rapida") && NumericColumn(f, "ema_lenta");
    Snapshot(last.cells["close"].v, last.cells["atr"].v, last.cells["ema_rapida"].v,
             last.cells["ema_lenta"].v, last.cells["rsi"])
  }

  function FeaturesOf(s: Snapshot): Features
  {
    Features(s.atr, s.emaFast, s.emaSlow, s.rsi)
  }

  lemma ReadyRowsPriced(f: Frame)
    requires IndicatorOutput(f) && Required <= f.names
    ensures PricedRows(f.rows)
  {
    assert NumericColumn(f, "high") && NumericColumn(f, "low");
    forall r | r in f.rows ensures Priced(r) {
      var i :| 0 <= i < |f.rows| && f.rows[i] == r;
    }
  }

  function EvaluateStrategy(name: string, df: Option<Frame>, model: Option<Classifier>, threshold: real): (signals: seq<Signal>)
    requires df.Some? ==> IndicatorOutput(df.value)
    ensures |signals| <= 1
    ensures forall s :: s in signals ==> s.asset == name
  {
    if df.None? || |df.value.rows| < MinRows then []
    else
      var f := df.value;
      if !(Required <= f.names) then []
      else
        var snap := LastSnapshot(f);
        ReadyRowsPriced(f);
        var broken := Breakouts(f.rows, snap.price);
        if broken == [] then []
        else
          var conf := Confidence(model, FeaturesOf(snap));
          if conf < threshold then []
          else
            RulesExclusive(snap);
            Rules(name, snap, conf, broken)
  }

  /** Everything the gates look at, and the rules' inputs, for a frame that reaches the rules. */
  ghost predicate PassesGates(f: Frame, model: Option<Classifier>, threshold: real)
    requires IndicatorOutput(f)
  {
    && |f.rows| >= MinRows && Required <= f.names
    && (ReadyRowsPriced(f);
        var snap := LastSnapshot(f);
        Breakouts(f.rows, snap.price) != [] && Confidence(model, FeaturesOf(snap)) >= threshold)
  }

  /** A missing frame or one of fewer than 50 rows gives no signal. */
  lemma ShortFrameNoSignals(name: string, df: Option<Frame>, model: Option<Classifier>, threshold: real)
    requires df.Some? ==> IndicatorOutput(df.value)
    requires df.None? || |df.value.rows| < MinRows
    ensures EvaluateStrategy(name, df, model, threshold) == []
  {
  }

  /** A frame lacking any of close, atr, ema_rapida, ema_lenta, rsi, high, low gives no signal. */
  lemma MissingColumnNoSignals(name: string, f: Frame, model: Option<Classifier>, threshold: real, c: string)
    requires IndicatorOutput(f) && c in Required && c !in f.names
    ensures EvaluateStrategy(name, Some(f), model, threshold) == []
  {
  }

  /** Without a breakout there is no signal, whatever the classifier says. */
  lemma NoBreakoutNoSignals(name: string, f: Frame, model: Option<Classifier>, threshold: real)
    requires IndicatorOutput(f) && |f.rows| >= MinRows && Required <= f.names
    requires (ReadyRowsPriced(f); Breakouts(f.rows, LastSnapshot(f).price) == [])
    ensures EvaluateStrategy(name, Some(f), model, threshold) == []
  {
  }

  /** Confidence strictly below the threshold gives no signal, even when a session is broken
      and a rule holds. */
  lemma LowConfidenceNoSignals(name: string, f: Frame, model: Option<Classifier>, threshold: real)
    requires IndicatorOutput(f) && |f.rows| >= MinRows && Required <= f.names
    requires Confidence(model, FeaturesOf(LastSnapshot(f))) < threshold
    ensures EvaluateStrategy(name, Some(f), model, threshold) == []
  {
  }

  /** Past the gates, a BUY is emitted exactly when the fast EMA is above the slow one and RSI
      lies in (40, 70), a SELL exactly when the fast EMA is below the slow one and RSI lies in
      (30, 60); the levels are price -/+ 1.5 ATR and price +/- 2 ATR. Before the gates pass,
      nothing is emitted. */
  lemma DecisionRules(name: string, f: Frame, model: Option<Classifier>, threshold: real)
    requires IndicatorOutput(f)
    ensures var signals := EvaluateStrategy(name, Some(f), model, threshold);
      && (!PassesGates(f, model, threshold) ==> signals == [])
      && (PassesGates(f, model, threshold) ==>
            var snap := LastSnapshot(f);
            && ((exists s :: s in signals && s.direction == Buy) <==> BuyRule(snap))
            && ((exists s :: s in signals && s.direction == Sell) <==> SellRule(snap))
            && forall s :: s in signals ==>
                 && s.price == snap.price
                 && (s.direction == Buy ==> s.stopLoss == snap.price - 1.5 * snap.atr && s.takeProfit == snap.price + 2.0 * snap.atr)
                 && (s.direction == Sell ==> s.stopLoss == snap.price + 1.5 * snap.atr && s.takeProfit == snap.price - 2.0 * snap.atr))
  {
    if PassesGates(f, model, threshold) {
      ReadyRowsPriced(f);
      var snap := LastSnapshot(f);
      RulesExclusive(snap);
    }
  }

  /** With a non-negative ATR, a BUY has stop-loss <= price <= take-profit and a SELL has
      take-profit <= price <= stop-loss. */
  lemma LevelsBracketPrice(name: string, df: Option<Frame>, model: Option<Classifier>, threshold: real)
    requires df.Some? ==> IndicatorOutput(df.value)
    ensures forall s :: s in EvaluateStrategy(name, df, model, threshold) && s.message.atr >= 0.0 ==>
      && (s.direction == Buy ==> s.stopLoss <= s.price <= s.takeProfit)
      && (s.direction == Sell ==> s.takeProfit <= s.price <= s.stopLoss)
  {
  }

  /** A frame whose close breaks the US session range, with the fast EMA above the slow one,
      RSI 55 and confidence 0.7 against a 0.55 threshold, gives exactly one BUY. */
  lemma BreakoutBuyScenario(name: string, f: Frame, model: Option<Classifier>)
    requires IndicatorOutput(f) && |f.rows| >= 100 && Required <= f.names
    requires (ReadyRowsPriced(f); US in Breakouts(f.rows, LastSnapshot(f).price))
    requires LastSnapshot(f).emaFast > LastSnapshot(f).emaSlow && LastSnapshot(f).rsi == Num(55.0)
    requires Confidence(model, FeaturesOf(LastSnapshot(f))) == 0.7
    ensures var p, atr := LastSnapshot(f).price, LastSnapshot(f).atr;
      EvaluateStrategy(name, Some(f), model, 0.55) ==
        [MakeSignal(name, Buy, LastSnapshot(f), 0.7, Breakouts(f.rows, p))]
      && EvaluateStrategy(name, Some(f), model, 0.55)[0].stopLoss == p - 1.5 * atr
      && EvaluateStrategy(name, Some(f), model, 0.55)[0].takeProfit == p + 2.0 * atr
  {
  }
}
