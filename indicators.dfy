/** The indicator engine: exponential moving averages, RSI and ATR as pandas computes them
    with `ewm(..., adjust=False)`, and the frame step that adds them as columns. */
module Indicators {
  import opened Frames

  const FastSpan: nat := 25
  const SlowSpan: nat := 50
  const RsiPeriod: nat := 14
  const AtrPeriod: nat := 14

  /** Smoothing factor for `ewm(span=s)`. */
  function Alpha(span: nat): (a: real)
    requires span >= 1
    ensures 0.0 < a <= 1.0
  {
    2.0 / (span as real + 1.0)
  }

  // ---------------------------------------------------------------------------
  // ewm(alpha, adjust=False).mean(): y0 = x0, yt = y(t-1) + alpha * (xt - y(t-1))

  /** The averages after `prev` as the values `xs` arrive, one by one. */
  function EwmFrom(prev: real, xs: seq<real>, alpha: real): (ys: seq<real>)
    ensures |ys| == |xs|
    decreases |xs|
  {
    if xs == [] then []
    else
      var y := prev + alpha * (xs[0] - prev);
      [y] + EwmFrom(y, xs[1..], alpha)
  }

  function Ewm(xs: seq<real>, alpha: real): (ys: seq<real>)
    ensures |ys| == |xs|
    ensures |xs| > 0 ==> ys[0] == xs[0]
  {
    if xs == [] then [] else [xs[0]] + EwmFrom(xs[0], xs[1..], alpha)
  }

  lemma {:induction false} EwmFromStep(prev: real, xs: seq<real>, alpha: real, t: nat)
    requires t < |xs|
    decreases t
    ensures var ys := EwmFrom(prev, xs, alpha);
            var before := if t == 0 then prev else ys[t - 1];
            ys[t] == before + alpha * (xs[t] - before)
  {
    if t > 0 {
      var y := prev + alpha * (xs[0] - prev);
      EwmFromStep(y, xs[1..], alpha, t - 1);
    }
  }

  /** Every later average moves from the previous one towards the new value by `alpha`. */
  lemma EwmRecurrence(xs: seq<real>, alpha: real, t: nat)
    requires 0 < t < |xs|
    ensures Ewm(xs, alpha)[t] == Ewm(xs, alpha)[t - 1] + alpha * (xs[t] - Ewm(xs, alpha)[t - 1])
  {
    EwmFromStep(xs[0], xs[1..], alpha, t - 1);
  }

  lemma ConvexStep(p: real, x: real, alpha: real, lo: real, hi: real)
    requires 0.0 <= alpha <= 1.0
    requires lo <= p <= hi && lo <= x <= hi
    ensures lo <= p + alpha * (x - p) <= hi
  {
    assert p + alpha * (x - p) - lo == (1.0 - alpha) * (p - lo) + alpha * (x - lo);
    assert hi - (p + alpha * (x - p)) == (1.0 - alpha) * (hi - p) + alpha * (hi - x);
    MulNonNegative(1.0 - alpha, p - lo);
    MulNonNegative(alpha, x - lo);
    MulNonNegative(1.0 - alpha, hi - p);
    MulNonNegative(alpha, hi - x);
  }

  lemma MulNonNegative(a: real, b: real)
    requires a >= 0.0 && b >= 0.0
    ensures a * b >= 0.0
  {
  }

  /** An average stays within any bounds that hold for every value seen so far. */
  lemma {:induction false} EwmWithin(xs: seq<real>, alpha: real, t: nat, lo: real, hi: real)
    requires 0.0 <= alpha <= 1.0
    requires t < |xs|
    requires forall i :: 0 <= i <= t ==> lo <= xs[i] <= hi
    ensures lo <= Ewm(xs, alpha)[t] <= hi
  {
    if t > 0 {
      EwmWithin(xs, alpha, t - 1, lo, hi);
      EwmRecurrence(xs, alpha, t);
      ConvexStep(Ewm(xs, alpha)[t - 1], xs[t], alpha, lo, hi);
    }
  }

  lemma EwmNonNegative(xs: seq<real>, alpha: real)
    requires 0.0 <= alpha <= 1.0
    requires forall i :: 0 <= i < |xs| ==> xs[i] >= 0.0
    ensures forall t :: 0 <= t < |xs| ==> Ewm(xs, alpha)[t] >= 0.0
  {
    forall t | 0 <= t < |xs| ensures Ewm(xs, alpha)[t] >= 0.0 {
      EwmWithin(xs, alpha, t, 0.0, SeqMax(xs));
    }
  }

  // ---------------------------------------------------------------------------
  // calcular_ema

  function Ema(xs: seq<real>, span: nat): (ys: seq<real>)
    requires span >= 1
    ensures |ys| == |xs|
  {
    Ewm(xs, Alpha(span))
  }

  /** The EMA starts at the first value and then follows the span's recurrence. */
  lemma EmaDefinition(xs: seq<real>, span: nat)
    requires span >= 1
    ensures |xs| > 0 ==> Ema(xs, span)[0] == xs[0]
    ensures forall t :: 0 < t < |xs| ==>
      Ema(xs, span)[t] == Ema(xs, span)[t - 1] + 2.0 / (span as real + 1.0) * (xs[t] - Ema(xs, span)[t - 1])
  {
    forall t | 0 < t < |xs|
      ensures Ema(xs, span)[t] == Ema(xs, span)[t - 1] + 2.0 / (span as real + 1.0) * (xs[t] - Ema(xs, span)[t - 1])
    {
      EwmRecurrence(xs, Alpha(span), t);
    }
  }

  /** Every EMA value lies between the smallest and largest input seen so far. */
  lemma EmaWithinSeenRange(xs: seq<real>, span: nat, t: nat)
    requires span >= 1 && t < |xs|
    ensures SeqMin(xs[..t + 1]) <= Ema(xs, span)[t] <= SeqMax(xs[..t + 1])
  {
    var seen := xs[..t + 1];
    assert forall i :: 0 <= i <= t ==> xs[i] == seen[i];
    EwmWithin(xs, Alpha(span), t, SeqMin(seen), SeqMax(seen));
  }

  /** A constant series has a constant EMA. */
  lemma EmaOfConstant(xs: seq<real>, span: nat, c: real)
    requires span >= 1
    requires forall i :: 0 <= i < |xs| ==> xs[i] == c
    ensures forall t :: 0 <= t < |xs| ==> Ema(xs, span)[t] == c
  {
    forall t | 0 <= t < |xs| ensures Ema(xs, span)[t] == c {
      EwmWithin(xs, Alpha(span), t, c, c);
    }
  }

  // ---------------------------------------------------------------------------
  // calcular_rsi

  /** Positive price changes; the first change (NaN in pandas) counts as 0. */
  function Gains(xs: seq<real>): (g: seq<real>)
    ensures |g| == |xs|
  {
    seq(|xs|, t requires 0 <= t < |xs| => if t > 0 && xs[t] - xs[t - 1] > 0.0 then xs[t] - xs[t - 1] else 0.0)
  }

  /** Negative price changes made positive; the first change counts as 0. */
  function Losses(xs: seq<real>): (l: seq<real>)
    ensures |l| == |xs|
  {
    seq(|xs|, t requires 0 <= t < |xs| => if t > 0 && xs[t] - xs[t - 1] < 0.0 then xs[t - 1] - xs[t] else 0.0)
  }

  /** Gains and losses split each change: both non-negative, at most one non-zero, gain minus
      loss equals the change, and both zero on the first bar. */
  lemma GainLossSplit(xs: seq<real>, t: nat)
    requires t < |xs|
    ensures Gains(xs)[t] >= 0.0 && Losses(xs)[t] >= 0.0
    ensures Gains(xs)[t] == 0.0 || Losses(xs)[t] == 0.0
    ensures t == 0 ==> Gains(xs)[t] == 0.0 && Losses(xs)[t] == 0.0
    ensures t > 0 ==> Gains(xs)[t] - Losses(xs)[t] == xs[t] - xs[t - 1]
  {
  }

  function AvgGain(xs: seq<real>, period: nat): (g: seq<real>)
    requires period >= 1
    ensures |g| == |xs| && forall t :: 0 <= t < |xs| ==> g[t] >= 0.0
  {
    EwmNonNegative(Gains(xs), 1.0 / period as real);
    Ewm(Gains(xs), 1.0 / period as real)
  }

  function AvgLoss(xs: seq<real>, period: nat): (l: seq<real>)
    requires period >= 1
    ensures |l| == |xs| && forall t :: 0 <= t < |xs| ==> l[t] >= 0.0
  {
    EwmNonNegative(Losses(xs), 1.0 / period as real);
    Ewm(Losses(xs), 1.0 / period as real)
  }

  /** `100 - 100 / (1 + g / l)` in floating point: an infinite ratio gives 100, 0/0 gives NaN. */
  function RsiValue(g: real, l: real): Option<real>
    requires g >= 0.0 && l >= 0.0
  {
    if l > 0.0 then Some(100.0 - 100.0 / (1.0 + g / l))
    else if g > 0.0 then Some(100.0)
    else None
  }

  function Rsi(xs: seq<real>, period: nat): (r: seq<Option<real>>)
    requires period >= 1
    ensures |r| == |xs|
  {
    var g := AvgGain(xs, period);
    var l := AvgLoss(xs, period);
    seq(|xs|, t requires 0 <= t < |xs| => RsiValue(g[t], l[t]))
  }

  lemma DivideExact(a: real, b: real, c: real)
    requires b != 0.0 && a == c * b
    ensures a / b == c
  {
  }

  lemma RsiQuotient(g: real, l: real)
    requires g >= 0.0 && l > 0.0
    ensures 100.0 - 100.0 / (1.0 + g / l) == 100.0 * g / (g + l)
    ensures 0.0 <= 100.0 * g / (g + l) < 100.0
  {
    var s := g + l;
    var d := 1.0 + g / l;
    assert g / l * l == g;
    assert d * l == s;
    assert d > 0.0;
    var u := 100.0 / d;
    assert u * d == 100.0;
    assert u * s == (u * d) * l;
    DivideExact(100.0 * l, s, u);
    assert (100.0 - u) * s == 100.0 * g;
    DivideExact(100.0 * g, s, 100.0 - u);
    MulNonNegative(100.0, g);
    assert 100.0 * l / s > 0.0;
  }

  /** RSI range: below 100 while the average loss is positive, exactly 100 when only gains
      remain, undefined when both averages are zero. */
  lemma RsiRange(xs: seq<real>, period: nat, t: nat)
    requires period >= 1 && t < |xs|
    ensures AvgLoss(xs, period)[t] > 0.0 ==>
      Rsi(xs, period)[t].Some? && 0.0 <= Rsi(xs, period)[t].value < 100.0
    ensures AvgLoss(xs, period)[t] == 0.0 && AvgGain(xs, period)[t] > 0.0 ==>
      Rsi(xs, period)[t] == Some(100.0)
    ensures AvgLoss(xs, period)[t] == 0.0 && AvgGain(xs, period)[t] == 0.0 ==>
      Rsi(xs, period)[t] == None
  {
    var g, l := AvgGain(xs, period)[t], AvgLoss(xs, period)[t];
    if l > 0.0 {
      RsiQuotient(g, l);
    }
  }

  /** RSI is the share of average gain in average movement, as a percentage. */
  lemma RsiAsShare(xs: seq<real>, period: nat, t: nat)
    requires period >= 1 && t < |xs|
    ensures var g, l := AvgGain(xs, period)[t], AvgLoss(xs, period)[t];
      Rsi(xs, period)[t] == if g + l > 0.0 then Some(100.0 * g / (g + l)) else None
  {
    var g, l := AvgGain(xs, period)[t], AvgLoss(xs, period)[t];
    if l > 0.0 {
      RsiQuotient(g, l);
    } else if g > 0.0 {
      DivideExact(100.0 * g, g + l, 100.0);
    }
  }

  /** On the first bar both averages are zero, so RSI is undefined there. */
  lemma RsiFirstBarUndefined(xs: seq<real>, period: nat)
    requires period >= 1 && |xs| > 0
    ensures Rsi(xs, period)[0] == None
  {
    GainLossSplit(xs, 0);
  }

  // ---------------------------------------------------------------------------
  // calcular_atr

  function Abs(x: real): real { if x < 0.0 then -x else x }

  function Max3(a: real, b: real, c: real): real
  {
    if a >= b && a >= c then a else if b >= c then b else c
  }

  /** True range; the first bar has no previous close and uses high - low alone. */
  function TrueRange(high: seq<real>, low: seq<real>, close: seq<real>): (tr: seq<real>)
    requires |high| == |low| == |close|
    ensures |tr| == |high|
  {
    seq(|high|, t requires 0 <= t < |high| =>
      if t == 0 then high[0] - low[0]
      else Max3(high[t] - low[t], Abs(high[t] - close[t - 1]), Abs(low[t] - close[t - 1])))
  }

  /** The first bar's true range is its high - low; a later bar's is the largest of its three
      candidates, so never below high - low. */
  lemma TrueRangeBounds(high: seq<real>, low: seq<real>, close: seq<real>, t: nat)
    requires |high| == |low| == |close| && t < |high|
    ensures t == 0 ==> TrueRange(high, low, close)[0] == high[0] - low[0]
    ensures TrueRange(high, low, close)[t] >= high[t] - low[t]
    ensures high[t] >= low[t] ==> TrueRange(high, low, close)[t] >= 0.0
    ensures t > 0 ==> TrueRange(high, low, close)[t] >= Abs(high[t] - close[t - 1])
    ensures t > 0 ==> TrueRange(high, low, close)[t] >= Abs(low[t] - close[t - 1])
    ensures t > 0 ==> (TrueRange(high, low, close)[t] in
      {high[t] - low[t], Abs(high[t] - close[t - 1]), Abs(low[t] - close[t - 1])})
  {
  }

  /** ATR: the span-14 EMA of the true range (factor 2/15, not the RSI's 1/14). */
  function Atr(high: seq<real>, low: seq<real>, close: seq<real>, period: nat): (a: seq<real>)
    requires |high| == |low| == |close| && period >= 1
    ensures |a| == |high|
  {
    Ema(TrueRange(high, low, close), period)
  }

  lemma AtrFactor()
    ensures Alpha(AtrPeriod) == 2.0 / 15.0 && Alpha(AtrPeriod) != 1.0 / RsiPeriod as real
  {
  }

  /** ATR is never negative when every bar's high is at least its low. */
  lemma AtrNonNegative(high: seq<real>, low: seq<real>, close: seq<real>, period: nat)
    requires |high| == |low| == |close| && period >= 1
    requires forall t :: 0 <= t < |high| ==> high[t] >= low[t]
    ensures forall t :: 0 <= t < |high| ==> Atr(high, low, close, period)[t] >= 0.0
  {
    var tr := TrueRange(high, low, close);
    forall t | 0 <= t < |high| ensures tr[t] >= 0.0 {
      TrueRangeBounds(high, low, close, t);
    }
    EwmNonNegative(tr, Alpha(period));
  }

  // ---------------------------------------------------------------------------
  // calcular_indicadores: lower-case the names, then add four columns

  const PriceNames: set<string> := {"close", "high", "low"}
  const IndicatorNames: set<string> := {"ema_rapida", "ema_lenta", "rsi", "atr"}

  /** What the engine needs of its frame: cells of the price columns are floats. */
  predicate IndicatorInput(f: Frame)
  {
    && WellFormed(f)
    && forall i, k :: 0 <= i < |f.rows| && k in f.rows[i].cells && Lower(k) in PriceNames ==>
         f.rows[i].cells[k].Num?
  }

  /** What the strategy may read: the price and indicator columns that exist hold floats, and
      the RSI column holds floats or NaN. */
  predicate IndicatorOutput(f: Frame)
  {
    && WellFormed(f)
    && (forall k :: k in f.names && (k in PriceNames || k in {"ema_rapida", "ema_lenta", "atr"}) ==> NumericColumn(f, k))
    && ("rsi" in f.names ==> forall i :: 0 <= i < |f.rows| ==> !f.rows[i].cells["rsi"].Str?)
  }

  function NumCells(xs: seq<real>): (cs: seq<Cell>)
    ensures |cs| == |xs| && forall i :: 0 <= i < |xs| ==> cs[i] == Num(xs[i])
  {
    seq(|xs|, i requires 0 <= i < |xs| => Num(xs[i]))
  }

  function RsiCells(rs: seq<Option<real>>): (cs: seq<Cell>)
    ensures |cs| == |rs| && forall i :: 0 <= i < |rs| ==> cs[i] == RsiCell(rs[i])
  {
    seq(|rs|, i requires 0 <= i < |rs| => RsiCell(rs[i]))
  }

  function RsiCell(r: Option<real>): Cell
  {
    if r.Some? then Num(r.value) else NaN
  }

  /** The four columns of `g` are the indicators of its own price columns; every other column
      of `g` is the lower-cased column of `f`, unchanged. */
  ghost predicate IndicatorsAdded(f: Frame, g: Frame)
    requires WellFormed(f)
  {
    && WellFormed(g)
    && g.names == LowerNames(f.names) + IndicatorNames
    && |g.rows| == |f.rows|
    && (forall i :: 0 <= i < |f.rows| ==> g.rows[i].stamp == f.rows[i].stamp)
    && OthersKept(f, g)
    && IndicatorOutput(g)
    && (forall k :: k in PriceNames ==> k in g.names)
    && IndicatorColumns(g)
  }

  ghost predicate OthersKept(f: Frame, g: Frame)
    requires |g.rows| == |f.rows|
  {
    forall i, k :: 0 <= i < |f.rows| && k in f.names && Lower(k) !in IndicatorNames ==>
      Lower(k) in g.rows[i].cells && k in f.rows[i].cells && g.rows[i].cells[Lower(k)] == f.rows[i].cells[k]
  }

  ghost predicate IndicatorColumns(g: Frame)
    requires IndicatorOutput(g) && forall k :: k in PriceNames + IndicatorNames ==> k in g.names
  {
    var close, high, low := Column(g, "close"), Column(g, "high"), Column(g, "low");
    && Column(g, "ema_rapida") == Ema(close, FastSpan)
    && Column(g, "ema_lenta") == Ema(close, SlowSpan)
    && Column(g, "atr") == Atr(high, low, close, AtrPeriod)
    && forall i :: 0 <= i < |g.rows| ==> g.rows[i].cells["rsi"] == RsiCell(Rsi(close, RsiPeriod)[i])
  }

  /** `calcular_indicadores`; `None` stands for the KeyError raised when a price column is
      missing (and for names that coincide once lower-cased). */
  function AddIndicators(f: Frame): (g: Option<Frame>)
    requires IndicatorInput(f)
    ensures g.Some? <==> LowerInjective(f.names) && PriceNames <= LowerNames(f.names)
    ensures g.Some? ==> IndicatorsAdded(f, g.value)
  {
    if !LowerInjective(f.names) then None
    else
      var lf := LowerFrame(f);
      if !(PriceNames <= lf.names) then None
      else
        LowerFramePrices(f, lf);
        var close, high, low := Column(lf, "close"), Column(lf, "high"), Column(lf, "low");
        var g := FourColumns(lf, NumCells(Ema(close, FastSpan)), NumCells(Ema(close, SlowSpan)),
                             RsiCells(Rsi(close, RsiPeriod)), NumCells(Atr(high, low, close, AtrPeriod)));
        AddedColumns(f, lf, g, close, high, low);
        Some(g)
  }

  lemma LowerFramePrices(f: Frame, lf: Frame)
    requires IndicatorInput(f) && LowerInjective(f.names)
    requires lf == LowerFrame(f) && PriceNames <= lf.names
    ensures forall k :: k in PriceNames ==> NumericColumn(lf, k)
  {
    forall k, i | k in PriceNames && 0 <= i < |lf.rows| ensures k in lf.rows[i].cells && lf.rows[i].cells[k].Num? {
      var j :| j in f.names && Lower(j) == k;
      assert lf.rows[i].cells[k] == f.rows[i].cells[j];
    }
  }

  lemma WithColumnKeeps(f: Frame, name: string, col: seq<Cell>, k: string)
    requires WellFormed(f) && |col| == |f.rows| && k in f.names && k != name
    ensures forall i :: 0 <= i < |f.rows| ==> WithColumn(f, name, col).rows[i].cells[k] == f.rows[i].cells[k]
  {
  }

  lemma WithColumnWrites(f: Frame, name: string, col: seq<Cell>)
    requires WellFormed(f) && |col| == |f.rows|
    ensures forall i :: 0 <= i < |f.rows| ==> WithColumn(f, name, col).rows[i].cells[name] == col[i]
  {
  }

  /** The four column assignments of `calcular_indicadores`, in order. */
  function FourColumns(lf: Frame, c1: seq<Cell>, c2: seq<Cell>, c3: seq<Cell>, c4: seq<Cell>): (g: Frame)
    requires WellFormed(lf) && |c1| == |c2| == |c3| == |c4| == |lf.rows|
    ensures WellFormed(g) && g.names == lf.names + IndicatorNames && |g.rows| == |lf.rows|
    ensures forall i :: 0 <= i < |lf.rows| ==> g.rows[i].stamp == lf.rows[i].stamp
  {
    WithColumn(WithColumn(WithColumn(WithColumn(lf, "ema_rapida", c1), "ema_lenta", c2), "rsi", c3), "atr", c4)
  }

  lemma FourColumnsKeep(lf: Frame, c1: seq<Cell>, c2: seq<Cell>, c3: seq<Cell>, c4: seq<Cell>, k: string)
    requires WellFormed(lf) && |c1| == |c2| == |c3| == |c4| == |lf.rows|
    requires k in lf.names && k !in IndicatorNames
    ensures forall i :: 0 <= i < |lf.rows| ==> FourColumns(lf, c1, c2, c3, c4).rows[i].cells[k] == lf.rows[i].cells[k]
  {
    var g1 := WithColumn(lf, "ema_rapida", c1);
    var g2 := WithColumn(g1, "ema_lenta", c2);
    var g3 := WithColumn(g2, "rsi", c3);
    WithColumnKeeps(lf, "ema_rapida", c1, k);
    WithColumnKeeps(g1, "ema_lenta", c2, k);
    WithColumnKeeps(g2, "rsi", c3, k);
    WithColumnKeeps(g3, "atr", c4, k);
  }

  lemma FourColumnsWrite(lf: Frame, c1: seq<Cell>, c2: seq<Cell>, c3: seq<Cell>, c4: seq<Cell>)
    requires WellFormed(lf) && |c1| == |c2| == |c3| == |c4| == |lf.rows|
    ensures var g := FourColumns(lf, c1, c2, c3, c4);
      forall i :: 0 <= i < |lf.rows| ==>
        && g.rows[i].cells["ema_rapida"] == c1[i] && g.rows[i].cells["ema_lenta"] == c2[i]
        && g.rows[i].cells["rsi"] == c3[i] && g.rows[i].cells["atr"] == c4[i]
  {
    var g1 := WithColumn(lf, "ema_rapida", c1);
    var g2 := WithColumn(g1, "ema_lenta", c2);
    var g3 := WithColumn(g2, "rsi", c3);
    WithColumnWrites(lf, "ema_rapida", c1);
    WithColumnKeeps(g1, "ema_lenta", c2, "ema_rapida");
    WithColumnKeeps(g2, "rsi", c3, "ema_rapida");
    WithColumnKeeps(g3, "atr", c4, "ema_rapida");
    WithColumnWrites(g1, "ema_lenta", c2);
    WithColumnKeeps(g2, "rsi", c3, "ema_lenta");
    WithColumnKeeps(g3, "atr", c4, "ema_lenta");
    WithColumnWrites(g2, "rsi", c3);
    WithColumnKeeps(g3, "atr", c4, "rsi");
    WithColumnWrites(g3, "atr", c4);
  }

  lemma AddedColumns(f: Frame, lf: Frame, g: Frame, close: seq<real>, high: seq<real>, low: seq<real>)
    requires IndicatorInput(f) && LowerInjective(f.names)
    requires lf == LowerFrame(f) && PriceNames <= lf.names
    requires forall k :: k in PriceNames ==> NumericColumn(lf, k)
    requires close == Column(lf, "close") && high == Column(lf, "high") && low == Column(lf, "low")
    requires g == FourColumns(lf, NumCells(Ema(close, FastSpan)), NumCells(Ema(close, SlowSpan)),
                              RsiCells(Rsi(close, RsiPeriod)), NumCells(Atr(high, low, close, AtrPeriod)))
    ensures IndicatorsAdded(f, g)
  {
    var e1, e2, r, a := Ema(close, FastSpan), Ema(close, SlowSpan), Rsi(close, RsiPeriod), Atr(high, low, close, AtrPeriod);
    AddedKeeps(f, lf, g, NumCells(e1), NumCells(e2), RsiCells(r), NumCells(a));
    AddedWrites(lf, g, close, high, low, e1, e2, r, a);
  }

  lemma AddedKeeps(f: Frame, lf: Frame, g: Frame, c1: seq<Cell>, c2: seq<Cell>, c3: seq<Cell>, c4: seq<Cell>)
    requires IndicatorInput(f) && LowerInjective(f.names)
    requires lf == LowerFrame(f) && PriceNames <= lf.names
    requires forall k :: k in PriceNames ==> NumericColumn(lf, k)
    requires |c1| == |c2| == |c3| == |c4| == |lf.rows|
    requires g == FourColumns(lf, c1, c2, c3, c4)
    ensures OthersKept(f, g)
    ensures forall k :: k in PriceNames ==> NumericColumn(g, k) && Column(g, k) == Column(lf, k)
  {
    KeptColumns(lf, g, c1, c2, c3, c4);
    forall i, k | 0 <= i < |f.rows| && k in f.names && Lower(k) !in IndicatorNames
      ensures Lower(k) in g.rows[i].cells && k in f.rows[i].cells && g.rows[i].cells[Lower(k)] == f.rows[i].cells[k]
    {
      assert Lower(k) in lf.names;
      assert g.rows[i].cells[Lower(k)] == lf.rows[i].cells[Lower(k)];
    }
  }

  lemma KeptColumns(lf: Frame, g: Frame, c1: seq<Cell>, c2: seq<Cell>, c3: seq<Cell>, c4: seq<Cell>)
    requires WellFormed(lf) && |c1| == |c2| == |c3| == |c4| == |lf.rows|
    requires g == FourColumns(lf, c1, c2, c3, c4)
    requires forall k :: k in PriceNames ==> NumericColumn(lf, k)
    ensures forall k, i :: k in lf.names && k !in IndicatorNames && 0 <= i < |lf.rows| ==>
      g.rows[i].cells[k] == lf.rows[i].cells[k]
    ensures forall k :: k in PriceNames ==> NumericColumn(g, k) && Column(g, k) == Column(lf, k)
  {
    forall k | k in lf.names && k !in IndicatorNames
      ensures forall i :: 0 <= i < |lf.rows| ==> g.rows[i].cells[k] == lf.rows[i].cells[k]
    {
      FourColumnsKeep(lf, c1, c2, c3, c4, k);
    }
  }

  lemma AddedWrites(lf: Frame, g: Frame, close: seq<real>, high: seq<real>, low: seq<real>,
                    e1: seq<real>, e2: seq<real>, r: seq<Option<real>>, a: seq<real>)
    requires WellFormed(lf) && PriceNames <= lf.names
    requires forall k :: k in PriceNames ==> NumericColumn(lf, k)
    requires close == Column(lf, "close") && high == Column(lf, "high") && low == Column(lf, "low")
    requires e1 == Ema(close, FastSpan) && e2 == Ema(close, SlowSpan)
    requires r == Rsi(close, RsiPeriod) && a == Atr(high, low, close, AtrPeriod)
    requires forall k :: k in PriceNames ==> NumericColumn(g, k) && Column(g, k) == Column(lf, k)
    requires g == FourColumns(lf, NumCells(e1), NumCells(e2), RsiCells(r), NumCells(a))
    ensures IndicatorOutput(g) && forall k :: k in PriceNames + IndicatorNames ==> k in g.names
    ensures IndicatorColumns(g)
  {
    FourColumnsWrite(lf, NumCells(e1), NumCells(e2), RsiCells(r), NumCells(a));
    assert NumericColumn(g, "ema_rapida") && Column(g, "ema_rapida") == e1;
    assert NumericColumn(g, "ema_lenta") && Column(g, "ema_lenta") == e2;
    assert NumericColumn(g, "atr") && Column(g, "atr") == a;
  }
}
