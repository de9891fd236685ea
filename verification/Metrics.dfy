/** The figures of a backtest report and what they mean for the trades of a run. */
module Metrics {
  import opened Prelude
  import opened BacktestModel

  function Wins(trades: seq<Trade>): nat {
    if trades == [] then 0 else Wins(trades[..|trades| - 1]) + if trades[|trades| - 1].pnlPercent > 0.0 then 1 else 0
  }

  function SumR(trades: seq<Trade>): real {
    if trades == [] then 0.0 else SumR(trades[..|trades| - 1]) + trades[|trades| - 1].rMultiple
  }

  function WinRate(trades: seq<Trade>): Option<real> {
    if trades == [] then None else Some(Wins(trades) as real / |trades| as real)
  }

  function ExpectancyR(trades: seq<Trade>): Option<real> {
    if trades == [] then None else Some(SumR(trades) / |trades| as real)
  }

  function Gains(trades: seq<Trade>): real {
    if trades == [] then 0.0
    else Gains(trades[..|trades| - 1]) + MaxR(0.0, trades[|trades| - 1].pnlPercent)
  }

  function Losses(trades: seq<Trade>): real {
    if trades == [] then 0.0
    else Losses(trades[..|trades| - 1]) + MaxR(0.0, -trades[|trades| - 1].pnlPercent)
  }

  function ProfitFactor(trades: seq<Trade>): Option<real> {
    if Losses(trades) <= 0.0 then None else Some(Gains(trades) / Losses(trades))
  }

  // ----- expectancy ------------------------------------------------------------------------------

  ghost predicate MinusOneOr(trades: seq<Trade>, rr: real) {
    forall k | 0 <= k < |trades| ::
      trades[k].rMultiple == if trades[k].pnlPercent > 0.0 then rr else -1.0
  }

  lemma {:induction false} SumRCountsWins(trades: seq<Trade>, rr: real)
    requires MinusOneOr(trades, rr)
    ensures SumR(trades) == Wins(trades) as real * (rr + 1.0) - |trades| as real
  {
    if trades != [] {
      SumRCountsWins(trades[..|trades| - 1], rr);
    }
  }

  lemma {:induction false} RunIsMinusOneOrReward(bars: seq<Bar>, cfg: Config)
    requires SoundGates(cfg) && cfg.strategy.takeProfitRr > 0.0
    ensures MinusOneOr(After(bars, cfg).trades, cfg.strategy.takeProfitRr)
  {
    TradesAreSound(bars, cfg);
    var trades, rr := After(bars, cfg).trades, cfg.strategy.takeProfitRr;
    hide After, SoundGates, SoundTrade;
    forall k | 0 <= k < |trades|
      ensures trades[k].rMultiple == if trades[k].pnlPercent > 0.0 then rr else -1.0
    {
      TradeIsMinusOneOrReward(trades[k], bars, cfg);
    }
  }

  lemma {:induction false} ExpectancyOf(trades: seq<Trade>, rr: real)
    requires trades != [] && MinusOneOr(trades, rr)
    ensures ExpectancyLaw(trades, rr)
  {
    SumRCountsWins(trades, rr);
    hide SumR, Wins, MinusOneOr;
    var w, n, k := Wins(trades) as real, |trades| as real, rr + 1.0;
    assert n > 0.0;
    MeanOf(w, k, n);
    assert SumR(trades) == w * k - n;
    assert ExpectancyR(trades).value == (w * k - n) / n;
  }

  /** The expectancy is the win rate times (reward-to-risk + 1), minus one. */
  ghost predicate ExpectancyLaw(trades: seq<Trade>, rr: real) {
    && ExpectancyR(trades).Some? && WinRate(trades).Some?
    && ExpectancyR(trades).value == WinRate(trades).value * (rr + 1.0) - 1.0
  }

  /** So it is for every run with at least one trade. */
  lemma {:induction false} ExpectancyFollowsWinRate(bars: seq<Bar>, cfg: Config)
    requires SoundGates(cfg) && cfg.strategy.takeProfitRr > 0.0 && After(bars, cfg).trades != []
    ensures ExpectancyLaw(After(bars, cfg).trades, cfg.strategy.takeProfitRr)
  {
    hide After, SoundGates, MinusOneOr, ExpectancyLaw;
    RunIsMinusOneOrReward(bars, cfg);
    ExpectancyOf(After(bars, cfg).trades, cfg.strategy.takeProfitRr);
  }

  lemma {:induction false} MeanOf(w: real, k: real, n: real)
    requires n > 0.0
    ensures (w * k - n) / n == w / n * k - 1.0
  {
    var x, f := w * k - n, w / n;
    DivMul(x, n);
    DivMul(w, n);
    var y := f * k - 1.0;
    assert y * n == (f * n) * k - n == x;
    Unscale(x / n, y, n);
    Unscale(y, x / n, n);
  }

  /** The profit factor is undefined iff no trade lost, and otherwise not negative. */
  lemma {:induction false} LossesVanish(trades: seq<Trade>)
    ensures Losses(trades) >= 0.0 && Gains(trades) >= 0.0
    ensures ProfitFactor(trades).Some? ==> ProfitFactor(trades).value * Losses(trades) == Gains(trades)
    ensures ProfitFactor(trades).None? <==> forall k | 0 <= k < |trades| :: trades[k].pnlPercent >= 0.0
    ensures Losses(trades) <= 0.0 <==> forall k | 0 <= k < |trades| :: trades[k].pnlPercent >= 0.0
  {
    if trades != [] {
      var n := |trades| - 1;
      LossesVanish(trades[..n]);
      assert forall k | 0 <= k < n :: trades[..n][k] == trades[k];
    }
  }

  /** The results, and the multiples of risk, one per trade. */
  function Pnls(trades: seq<Trade>): seq<real> {
    seq(|trades|, i requires 0 <= i < |trades| => trades[i].pnlPercent)
  }

  function Magnitudes(trades: seq<Trade>): seq<real> {
    seq(|trades|, i requires 0 <= i < |trades| => Abs(trades[i].pnlPercent))
  }

  function RMultiples(trades: seq<Trade>): seq<real> {
    seq(|trades|, i requires 0 <= i < |trades| => trades[i].rMultiple)
  }

  /** Gains less losses is the total result, gains plus losses the total movement. */
  lemma {:induction false} FiguresAreTotals(trades: seq<Trade>)
    ensures Gains(trades) - Losses(trades) == Sum(Pnls(trades))
    ensures Gains(trades) + Losses(trades) == Sum(Magnitudes(trades))
    ensures SumR(trades) == Sum(RMultiples(trades))
  {
    if trades != [] {
      var n := |trades| - 1;
      FiguresAreTotals(trades[..n]);
      assert Pnls(trades)[..n] == Pnls(trades[..n]) && Magnitudes(trades)[..n] == Magnitudes(trades[..n]);
      assert RMultiples(trades)[..n] == RMultiples(trades[..n]);
    }
  }

  /** The winning trades. */
  ghost function Winners(trades: seq<Trade>): set<nat> {
    set k: nat | k < |trades| && trades[k].pnlPercent > 0.0
  }

  /** The win rate times the number of trades counts them; the expectancy times that number sums the multiples. */
  lemma {:induction false} RatesAreShares(trades: seq<Trade>)
    ensures WinRate(trades).Some? <==> trades != []
    ensures ExpectancyR(trades).Some? <==> trades != []
    ensures trades != [] ==>
              && WinRate(trades).value * |trades| as real == |Winners(trades)| as real
              && ExpectancyR(trades).value * |trades| as real == Sum(RMultiples(trades))
  {
    if trades != [] {
      WinsCount(trades);
      FiguresAreTotals(trades);
      DivMul(Wins(trades) as real, |trades| as real);
      DivMul(SumR(trades), |trades| as real);
    }
  }

  lemma {:induction false} WinsCount(trades: seq<Trade>)
    ensures Wins(trades) == |Winners(trades)|
  {
    if trades == [] {
      assert Winners(trades) == {};
    } else {
      var n := |trades| - 1;
      WinsCount(trades[..n]);
      var before := Winners(trades[..n]);
      assert n !in before;
      assert Winners(trades) == if trades[n].pnlPercent > 0.0 then before + {n} else before;
    }
  }

  // ----- drawdown ----------------------------------------------------------------------------------

  function Grow(equity: real, pnlPercent: real): real {
    equity * (1.0 + pnlPercent / 100.0)
  }

  /** Equity before the first trade and after each one, from 100. */
  function Curve(trades: seq<Trade>): (c: seq<real>)
    ensures |c| == |trades| + 1
  {
    if trades == [] then [100.0]
    else
      var c := Curve(trades[..|trades| - 1]);
      c + [Grow(c[|c| - 1], trades[|trades| - 1].pnlPercent)]
  }

  /** The highest point up to and including `j`. */
  function Peak(c: seq<real>, j: nat): real
    requires j < |c|
  {
    if j == 0 then c[0] else MaxR(Peak(c, j - 1), c[j])
  }

  function FallPercent(high: real, low: real): real
    requires high != 0.0
  {
    (high - low) / high * 100.0
  }

  lemma {:induction false} PeakIsHighest(c: seq<real>, j: nat)
    requires j < |c|
    ensures forall i | 0 <= i <= j :: c[i] <= Peak(c, j)
    ensures exists i | 0 <= i <= j :: c[i] == Peak(c, j)
  {
    if j > 0 {
      PeakIsHighest(c, j - 1);
    }
    var i := PeakIndex(c, j);
  }

  lemma {:induction false} PeakIndex(c: seq<real>, j: nat) returns (i: nat)
    requires j < |c|
    ensures i <= j && c[i] == Peak(c, j)
  {
    i := j;
    if j > 0 && Peak(c, j - 1) >= c[j] {
      i := PeakIndex(c, j - 1);
    }
  }

  /** At point `j` the curve is at most, or exactly, `d` percent below its peak. */
  ghost predicate AtMost(c: seq<real>, j: nat, d: real)
    requires j < |c|
  {
    (Peak(c, j) - c[j]) * 100.0 <= d * Peak(c, j)
  }

  ghost predicate Exactly(c: seq<real>, j: nat, d: real)
    requires j < |c|
  {
    (Peak(c, j) - c[j]) * 100.0 == d * Peak(c, j)
  }

  /** `d` is the largest fall from a running peak. */
  ghost predicate LargestPeakFall(c: seq<real>, d: real) {
    && (forall j | 0 <= j < |c| :: AtMost(c, j, d))
    && (exists j | 0 <= j < |c| :: Exactly(c, j, d))
  }

  ghost predicate Positive(c: seq<real>) {
    forall i | 0 <= i < |c| :: c[i] > 0.0
  }

  /** `d` is the largest fall between any two points in time order. */
  ghost predicate LargestFall(c: seq<real>, d: real) {
    && (forall i, j | 0 <= i <= j < |c| :: (c[i] - c[j]) * 100.0 <= d * c[i])
    && (exists i, j | 0 <= i <= j < |c| :: (c[i] - c[j]) * 100.0 == d * c[i])
  }

  lemma {:induction false} CurveStartsAtHundred(trades: seq<Trade>)
    ensures Curve(trades)[0] == 100.0
  {
    if trades != [] {
      CurveStartsAtHundred(trades[..|trades| - 1]);
    }
  }

  lemma {:induction false} CurveOfPrefix(trades: seq<Trade>, n: nat)
    requires n <= |trades|
    ensures Curve(trades[..n]) == Curve(trades)[..n + 1]
  {
    if n < |trades| {
      CurveOfPrefix(trades[..|trades| - 1], n);
      assert trades[..|trades| - 1][..n] == trades[..n];
    } else {
      assert trades[..n] == trades;
    }
  }

  lemma {:induction false} PeakPositive(c: seq<real>, j: nat)
    requires j < |c| && c[0] > 0.0
    ensures Peak(c, j) > 0.0
  {
    PeakIsHighest(c, j);
  }

  lemma {:induction false} PeakOfPrefix(c: seq<real>, n: nat, j: nat)
    requires j < n <= |c|
    ensures Peak(c[..n], j) == Peak(c, j)
  {
    if j > 0 {
      PeakOfPrefix(c, n, j - 1);
    }
  }

  /** The one-pass drawdown of the report. */
  method MaxDrawdownPercent(trades: seq<Trade>) returns (r: Option<real>)
    ensures r.None? <==> trades == []
    ensures r.Some? ==> Curve(trades)[0] == 100.0 && LargestPeakFall(Curve(trades), r.value)
  {
    if trades == [] {
      return None;
    }
    var equity, peak, maxDrawdown := 100.0, 100.0, 0.0;
    ghost var c := Curve(trades);
    CurveStartsAtHundred(trades);
    NoFall(c);
    hide Curve, Grow, FallPercent, Exactly, LargestPeakFall;
    for k := 0 to |trades|
      invariant equity == c[k] && peak == Peak(c, k)
      invariant LargestPeakFall(c[..k + 1], maxDrawdown)
    {
      CurveStep(trades, k);
      PeakPositive(c, k + 1);
      equity := Grow(equity, trades[k].pnlPercent);
      peak := MaxR(peak, equity);
      var drawdown := FallPercent(peak, equity);
      FallAt(c, k + 1, drawdown);
      OnePointMore(c, k + 1, maxDrawdown, drawdown);
      maxDrawdown := MaxR(maxDrawdown, drawdown);
    }
    assert c[..|trades| + 1] == c;
    r := Some(maxDrawdown);
  }

  lemma FallAt(c: seq<real>, j: nat, d: real)
    requires j < |c| && Peak(c, j) > 0.0 && d == FallPercent(Peak(c, j), c[j])
    ensures Exactly(c, j, d)
  {
    var p := Peak(c, j);
    DivMul(p - c[j], p);
    hide Peak;
    assert d * p == (p - c[j]) / p * p * 100.0;
  }

  lemma NoFall(c: seq<real>)
    requires c != [] && c[0] == 100.0
    ensures LargestPeakFall(c[..1], 0.0)
  {
    assert Exactly(c[..1], 0, 0.0);
  }

  lemma {:induction false} AtMostMore(c: seq<real>, j: nat, d: real, more: real)
    requires j < |c| && Peak(c, j) > 0.0 && d <= more && (AtMost(c, j, d) || Exactly(c, j, d))
    ensures AtMost(c, j, more)
  {
    hide Peak;
    Scale(d, more, Peak(c, j));
  }

  lemma {:induction false} FallOfPrefix(c: seq<real>, n: nat, j: nat, d: real)
    requires j < n <= |c|
    ensures AtMost(c[..n], j, d) <==> AtMost(c, j, d)
    ensures Exactly(c[..n], j, d) <==> Exactly(c, j, d)
  {
    PeakOfPrefix(c, n, j);
    hide Peak;
  }

  lemma {:induction false} OnePointMore(c: seq<real>, k: nat, d: real, fall: real)
    requires 0 < k < |c| && c[0] > 0.0 && LargestPeakFall(c[..k], d) && Exactly(c, k, fall)
    ensures LargestPeakFall(c[..k + 1], MaxR(d, fall))
  {
    hide AtMost, Exactly, Peak;
    var longer, most := c[..k + 1], MaxR(d, fall);
    forall j: nat | j <= k
      ensures AtMost(longer, j, most)
    {
      PeakPositive(c, j);
      if j < k {
        FallOfPrefix(c, k, j, d);
        assert AtMost(c[..k], j, d);
      }
      AtMostMore(c, j, if j < k then d else fall, most);
      FallOfPrefix(c, k + 1, j, most);
    }
    var j: nat := if d >= fall then AnyFall(c[..k], d) else k;
    FallOfPrefix(c, k + 1, j, most);
    if j < k {
      FallOfPrefix(c, k, j, most);
    }
    assert Exactly(longer, j, most);
  }

  ghost function AnyFall(c: seq<real>, d: real): (j: nat)
    requires LargestPeakFall(c, d)
    ensures j < |c| && Exactly(c, j, d)
  {
    var j: nat :| j < |c| && Exactly(c, j, d);
    j
  }

  /** The equity curve starts at 100, and each trade changes it by its result in percent. */
  lemma {:induction false} CurveLaw(trades: seq<Trade>)
    ensures var c := Curve(trades);
            && |c| == |trades| + 1 && c[0] == 100.0
            && forall k | 0 <= k < |trades| :: c[k + 1] * 100.0 == c[k] * (100.0 + trades[k].pnlPercent)
  {
    CurveStartsAtHundred(trades);
    forall k: nat | k < |trades|
      ensures Curve(trades)[k + 1] * 100.0 == Curve(trades)[k] * (100.0 + trades[k].pnlPercent)
    {
      CurveStep(trades, k);
      hide Curve;
      GrowLaw(Curve(trades)[k], trades[k].pnlPercent);
    }
  }

  lemma GrowLaw(equity: real, pnlPercent: real)
    ensures Grow(equity, pnlPercent) * 100.0 == equity * (100.0 + pnlPercent)
  {
  }

  lemma {:induction false} CurveStep(trades: seq<Trade>, k: nat)
    requires k < |trades|
    ensures Curve(trades)[k + 1] == Grow(Curve(trades)[k], trades[k].pnlPercent)
  {
    CurveOfPrefix(trades, k + 1);
    CurveOfPrefix(trades, k);
    assert trades[..k + 1][..k] == trades[..k];
  }

  lemma {:induction false} FallBounds(high: real, base: real, low: real, d: real)
    requires 0.0 < base <= high && 0.0 <= d <= 100.0 && (high - low) * 100.0 <= d * high
    ensures (base - low) * 100.0 <= d * base
  {
    Scale(base, high, 100.0 - d);
  }

  lemma {:induction false} FallBelowHundred(high: real, low: real, d: real)
    requires 0.0 < high && 0.0 < low && (high - low) * 100.0 == d * high
    ensures d < 100.0
  {
    if d >= 100.0 {
      Scale(100.0, d, high);
    }
  }

  lemma {:induction false} FallIsAttained(c: seq<real>, j: nat, d: real)
    requires j < |c| && Positive(c) && Exactly(c, j, d)
    ensures d < 100.0 && exists i | 0 <= i <= j :: (c[i] - c[j]) * 100.0 == d * c[i]
  {
    var i := PeakIndex(c, j);
    hide Peak;
    FallBelowHundred(c[i], c[j], d);
  }

  lemma {:induction false} FallIsBounded(c: seq<real>, i: nat, j: nat, d: real)
    requires i <= j < |c| && Positive(c) && 0.0 <= d <= 100.0 && AtMost(c, j, d)
    ensures (c[i] - c[j]) * 100.0 <= d * c[i]
  {
    PeakIsHighest(c, j);
    hide Peak;
    FallBounds(Peak(c, j), c[i], c[j], d);
  }

  lemma {:induction false} FallFromStart(c: seq<real>, d: real)
    requires c != [] && c[0] > 0.0 && AtMost(c, 0, d)
    ensures d >= 0.0
  {
    Unscale(0.0, d, c[0]);
  }

  /** On a positive curve the fall from the running peak is the largest fall over all pairs, and below 100 percent. */
  lemma {:induction false} PeakFallIsLargestFall(c: seq<real>, d: real)
    requires c != [] && Positive(c) && LargestPeakFall(c, d)
    ensures LargestFall(c, d) && 0.0 <= d < 100.0
  {
    hide AtMost, Exactly, Peak;
    var j: nat :| j < |c| && Exactly(c, j, d);
    FallIsAttained(c, j, d);
    FallFromStart(c, d);
    forall i, j | 0 <= i <= j < |c|
      ensures (c[i] - c[j]) * 100.0 <= d * c[i]
    {
      FallIsBounded(c, i, j, d);
    }
  }

  // ----- the drawdown of a run -----------------------------------------------------------------------

  ghost predicate PositiveLows(bars: seq<Bar>) {
    forall i | 0 <= i < |bars| :: bars[i].kline.low > 0.0
  }

  /** A stop that was hit is a price the bar reached, so no trade loses everything. */
  lemma {:induction false} ExitIsPositive(t: Trade, bars: seq<Bar>, cfg: Config)
    requires SoundTrade(t, bars, cfg) && PositiveLows(bars) && cfg.strategy.takeProfitRr > 0.0
    ensures t.exit > 0.0 && t.pnlPercent > -100.0
  {
    if t.state == TakeProfit {
      ScaleStrict(0.0, cfg.strategy.takeProfitRr, t.entry - t.stop);
    } else {
      assert bars[t.exitBar].kline.low <= t.stop;
    }
    assert t.exit > 0.0;
    hide SoundTrade;
    ExitAboveNothing(t.entry, t.exit);
    assert t.pnlPercent == PnlPercent(t.entry, t.exit) by {
      Recorded(t, bars, cfg);
    }
  }

  lemma Recorded(t: Trade, bars: seq<Bar>, cfg: Config)
    requires SoundTrade(t, bars, cfg)
    ensures t.pnlPercent == PnlPercent(t.entry, t.exit)
  {
  }

  lemma {:induction false} ExitAboveNothing(entry: real, exit: real)
    requires entry > 0.0 && exit > 0.0
    ensures (exit - entry) / entry * 100.0 > -100.0
  {
  }

  lemma {:induction false} CurvePositive(trades: seq<Trade>)
    requires forall k | 0 <= k < |trades| :: trades[k].pnlPercent > -100.0
    ensures Positive(Curve(trades))
  {
    if trades != [] {
      var front := trades[..|trades| - 1];
      CurvePositive(front);
      var c := Curve(front);
      GrowPositive(c[|c| - 1], trades[|trades| - 1].pnlPercent);
      hide Grow;
    }
  }

  lemma {:induction false} GrowPositive(equity: real, pnlPercent: real)
    requires equity > 0.0 && pnlPercent > -100.0
    ensures Grow(equity, pnlPercent) > 0.0
  {
  }

  /**
    For every run over bars with positive lows the reported drawdown is the largest percentage fall between any two
    points of the equity curve in time order, the starting equity included, and is below 100.
   */
  lemma {:induction false} DrawdownOfRun(bars: seq<Bar>, cfg: Config, d: real)
    requires SoundGates(cfg) && cfg.strategy.takeProfitRr > 0.0 && PositiveLows(bars)
    requires LargestPeakFall(Curve(After(bars, cfg).trades), d)
    ensures var c := Curve(After(bars, cfg).trades);
            Positive(c) && LargestFall(c, d) && 0.0 <= d < 100.0
  {
    TradesAreSound(bars, cfg);
    var trades := After(bars, cfg).trades;
    hide After, SoundGates, Curve;
    forall k | 0 <= k < |trades|
      ensures trades[k].pnlPercent > -100.0
    {
      ExitIsPositive(trades[k], bars, cfg);
    }
    CurvePositive(trades);
    hide LargestPeakFall, LargestFall;
    PeakFallIsLargestFall(Curve(trades), d);
  }
}
