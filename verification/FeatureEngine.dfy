/** The feature formulas over closed candles, and what bounding the candle window does to them. */
module FeatureEngine {
  import opened Prelude
  import opened Events
  import opened Statistics

  function TrueRange(current: Kline, prevClose: real): real {
    MaxR(MaxR(current.high - current.low, Abs(current.high - prevClose)), Abs(current.low - prevClose))
  }

  /** The true ranges of all candles that have a predecessor. */
  function TrueRanges(ks: seq<Kline>): (trs: seq<real>)
    ensures |trs| == Max(0, |ks| - 1)
  {
    if |ks| < 2 then []
    else TrueRanges(ks[..|ks| - 1]) + [TrueRange(ks[|ks| - 1], ks[|ks| - 2].close)]
  }

  function Mean(xs: seq<real>): real
    requires xs != []
  {
    Sum(xs) / |xs| as real
  }

  /** `n` times the mean is the total. */
  ghost predicate AddsUp(total: real, n: nat, mean: real) {
    n as real * mean == total
  }

  lemma {:induction false} MeanTimesCount(xs: seq<real>)
    requires xs != []
    ensures AddsUp(Sum(xs), |xs|, Mean(xs))
  {
  }

  function Atr(ks: seq<Kline>, period: nat): Option<real> {
    if |ks| < period + 1 then None
    else
      var trs := TrueRanges(Last(ks, period + 1));
      if trs == [] then None else Some(Mean(trs))
  }

  function Volumes(ks: seq<Kline>): (vs: seq<real>)
    ensures |vs| == |ks|
  {
    seq(|ks|, i requires 0 <= i < |ks| => ks[i].baseVolume)
  }

  /** The `n` candles right before the last `skip`. */
  function Before(ks: seq<Kline>, n: nat, skip: nat): (r: seq<Kline>)
    requires n + skip <= |ks|
    ensures |r| == n
  {
    ks[|ks| - n - skip..|ks| - skip]
  }

  function Rvol(ks: seq<Kline>, baseline: nat): Option<real>
    requires baseline > 0
  {
    if |ks| < baseline + 1 then None
    else
      var median := Median(Volumes(Before(ks, baseline, 1)));
      if median <= EPSILON then None else Some(ks[|ks| - 1].baseVolume / median)
  }

  function TradeAcceleration(ks: seq<Kline>, recent: nat, baseline: nat): Option<real>
    requires recent > 0 && baseline > 0
  {
    if |ks| < recent + baseline then None
    else
      var mean := Mean(Volumes(Before(ks, recent, 0)));
      var median := Median(Volumes(Before(ks, baseline, recent)));
      if median <= EPSILON then None else Some(mean / median)
  }

  /** The close `n` candles before the latest one. */
  function CloseAgo(ks: seq<Kline>, n: nat): real
    requires n < |ks|
  {
    ks[|ks| - (n + 1)].close
  }

  function MoveOverVolatility(current: real, earlier: real, atr: real): Option<real>
    requires earlier > 0.0 && current > 0.0
  {
    var baseline := atr / current;
    if baseline <= EPSILON then None else Some(Abs(current - earlier) / earlier / baseline)
  }

  function MomentumRatio(ks: seq<Kline>, minutes: nat, atrPeriod: nat): Option<real> {
    if |ks| < minutes + 1 then None
    else
      var current, earlier := CloseAgo(ks, 0), CloseAgo(ks, minutes);
      if earlier <= EPSILON || current <= EPSILON then None
      else
        var atr := Atr(ks, atrPeriod);
        if atr.None? then None else MoveOverVolatility(current, earlier, atr.value)
  }

  function MaxHigh(ks: seq<Kline>): real
    requires ks != []
  {
    if |ks| == 1 then ks[0].high else MaxR(MaxHigh(ks[..|ks| - 1]), ks[|ks| - 1].high)
  }

  datatype BreakoutInputs = BreakoutInputs(priorHigh: real, buffer: real, level: real, distanceAtr: real)

  function BreakoutFrom(priorHigh: real, atr: real, price: real, multiplier: real): BreakoutInputs {
    var buffer := multiplier * atr;
    BreakoutInputs(priorHigh, buffer, priorHigh + buffer,
                   if atr > EPSILON then (price - priorHigh) / atr else 0.0)
  }

  function Breakout(ks: seq<Kline>, price: real, multiplier: real, lookback: nat,
      atrPeriod: nat): Option<BreakoutInputs>
    requires lookback > 0
  {
    if |ks| < lookback then None
    else
      var priorHigh := MaxHigh(Last(ks, lookback));
      var atr := Atr(ks, atrPeriod);
      if atr.None? then None else Some(BreakoutFrom(priorHigh, atr.value, price, multiplier))
  }

  // ----- the bounded window refines the unbounded history ---------------------------------------

  /** The periods the formulas are called with. */
  datatype Periods = Periods(atr: nat, baseline: nat, recent: nat, minutes: nat, lookback: nat) {
    // A zero baseline, recent window or lookback takes the median, mean or maximum of nothing.
    predicate Valid() {
      baseline > 0 && recent > 0 && lookback > 0
    }

    /** The number of candles the most demanding formula looks at. */
    function Reach(): nat {
      Max(Max(recent + baseline, atr + 1), Max(minutes + 1, lookback))
    }
  }

  const DEFAULT_PERIODS := Periods(14, 20, 3, 3, 20)

  datatype Readings = Readings(
    atr: Option<real>, rvol: Option<real>, acceleration: Option<real>,
    momentum: Option<real>, breakout: Option<BreakoutInputs>)

  function Read(ks: seq<Kline>, p: Periods, price: real, multiplier: real): Readings
    requires p.Valid()
  {
    Readings(Atr(ks, p.atr), Rvol(ks, p.baseline), TradeAcceleration(ks, p.recent, p.baseline),
             MomentumRatio(ks, p.minutes, p.atr), Breakout(ks, price, multiplier, p.lookback, p.atr))
  }

  lemma {:induction false} AtrOnWindow(ks: seq<Kline>, w: nat, period: nat)
    requires w >= period + 1
    ensures Atr(Last(ks, w), period) == Atr(ks, period)
  {
    LastOfLast(ks, w, period + 1);
  }

  lemma {:induction false} BeforeOnWindow(ks: seq<Kline>, w: nat, n: nat, skip: nat)
    requires n + skip <= w && n + skip <= |ks|
    ensures Before(Last(ks, w), n, skip) == Before(ks, n, skip)
  {
  }

  lemma {:induction false} RvolOnWindow(ks: seq<Kline>, w: nat, baseline: nat)
    requires 0 < baseline < w
    ensures Rvol(Last(ks, w), baseline) == Rvol(ks, baseline)
  {
    if |ks| >= baseline + 1 {
      BeforeOnWindow(ks, w, baseline, 1);
    }
  }

  lemma {:induction false} AccelerationOnWindow(ks: seq<Kline>, w: nat, recent: nat, baseline: nat)
    requires 0 < recent && 0 < baseline && recent + baseline <= w
    ensures TradeAcceleration(Last(ks, w), recent, baseline) == TradeAcceleration(ks, recent, baseline)
  {
    if |ks| >= recent + baseline {
      BeforeOnWindow(ks, w, baseline, recent);
      BeforeOnWindow(ks, w, recent, 0);
    }
  }

  lemma {:induction false} MomentumOnWindow(ks: seq<Kline>, w: nat, minutes: nat, atrPeriod: nat)
    requires minutes < w && atrPeriod < w
    ensures MomentumRatio(Last(ks, w), minutes, atrPeriod) == MomentumRatio(ks, minutes, atrPeriod)
  {
    AtrOnWindow(ks, w, atrPeriod);
    if |ks| >= minutes + 1 {
      CloseOnWindow(ks, w, 0);
      CloseOnWindow(ks, w, minutes);
    }
    hide Atr, MoveOverVolatility, CloseAgo;
  }

  lemma {:induction false} CloseOnWindow(ks: seq<Kline>, w: nat, n: nat)
    requires n < w && n < |ks|
    ensures n < |Last(ks, w)| && CloseAgo(Last(ks, w), n) == CloseAgo(ks, n)
  {
  }

  lemma {:induction false} BreakoutOnWindow(ks: seq<Kline>, w: nat, price: real, multiplier: real, lookback: nat,
      atrPeriod: nat)
    requires 0 < lookback <= w && atrPeriod < w
    ensures Breakout(Last(ks, w), price, multiplier, lookback, atrPeriod)
            == Breakout(ks, price, multiplier, lookback, atrPeriod)
  {
    AtrOnWindow(ks, w, atrPeriod);
    LastOfLast(ks, w, lookback);
    hide Atr, MaxHigh, BreakoutFrom;
  }

  /** Every reading, None included, is the same on the last `w` candles as on the whole history. */
  lemma {:induction false} WindowSuffices(ks: seq<Kline>, w: nat, p: Periods, price: real, multiplier: real)
    requires p.Valid() && w >= p.Reach()
    ensures Read(Last(ks, w), p, price, multiplier) == Read(ks, p, price, multiplier)
  {
    AtrOnWindow(ks, w, p.atr);
    RvolOnWindow(ks, w, p.baseline);
    AccelerationOnWindow(ks, w, p.recent, p.baseline);
    MomentumOnWindow(ks, w, p.minutes, p.atr);
    BreakoutOnWindow(ks, w, price, multiplier, p.lookback, p.atr);
    hide Atr, Rvol, TradeAcceleration, MomentumRatio, Breakout, Last;
  }

  // ----- a shorter window would not do ------------------------------------------------------------

  const PLAIN := Kline(1.0, 2.0, 1.0, 1.0, 1.0, 1.0, 0.0, 0, true)

  function Plain(n: nat): seq<Kline> {
    seq(n, i => PLAIN)
  }

  lemma {:induction false} PlainRanges(n: nat)
    ensures forall i | 0 <= i < Max(0, n - 1) :: TrueRanges(Plain(n))[i] == 1.0
  {
    if n >= 2 {
      var ks := Plain(n);
      PlainRanges(n - 1);
      assert ks[..n - 1] == Plain(n - 1);
      assert ks[n - 1] == PLAIN && ks[n - 2] == PLAIN;
      assert TrueRange(PLAIN, PLAIN.close) == 1.0;
      assert TrueRanges(ks) == TrueRanges(Plain(n - 1)) + [1.0];
    }
  }

  lemma {:induction false} SumOfOnes(xs: seq<real>)
    requires forall i | 0 <= i < |xs| :: xs[i] == 1.0
    ensures Sum(xs) == |xs| as real
  {
    if xs != [] {
      SumOfOnes(xs[..|xs| - 1]);
    }
  }

  lemma {:induction false} CountOnes(xs: seq<real>)
    requires forall i | 0 <= i < |xs| :: xs[i] == 1.0
    ensures CountIn(xs, 1.0, 1.0) == |xs|
  {
    if xs != [] {
      CountOnes(xs[1..]);
    }
  }

  lemma {:induction false} PlainAtr(n: nat, period: nat)
    requires 0 < period < n
    ensures Atr(Plain(n), period) == Some(1.0)
  {
    assert Last(Plain(n), period + 1) == Plain(period + 1);
    PlainRanges(period + 1);
    SumOfOnes(TrueRanges(Plain(period + 1)));
    var p := period as real;
    assert p / p == 1.0;
  }

  lemma {:induction false} PlainAcceleration(n: nat, recent: nat, baseline: nat)
    requires 0 < recent && 0 < baseline && recent + baseline <= n
    ensures TradeAcceleration(Plain(n), recent, baseline).Some?
  {
    var vs := Volumes(Before(Plain(n), baseline, recent));
    CountOnes(vs);
    MajorityBoundsMedian(vs, 1.0, 1.0);
  }

  lemma {:induction false} PlainReadings(p: Periods, price: real, multiplier: real)
    requires p.Valid() && p.atr > 0
    ensures var r := Read(Plain(p.Reach()), p, price, multiplier);
            r.atr.Some? && r.momentum.Some? && r.breakout.Some? && r.acceleration.Some?
  {
    PlainAtr(p.Reach(), p.atr);
    PlainAcceleration(p.Reach(), p.recent, p.baseline);
    hide Atr, TradeAcceleration, Rvol;
  }

  lemma {:induction false} ShortReadings(ks: seq<Kline>, p: Periods, price: real, multiplier: real)
    requires p.Valid() && |ks| < p.Reach()
    ensures var r := Read(ks, p, price, multiplier);
            r.atr.None? || r.momentum.None? || r.breakout.None? || r.acceleration.None?
  {
    hide Rvol;
  }

  /** With a positive ATR period, `Reach` is exactly the window that makes the bounded readings faithful. */
  lemma {:induction false} WindowMustReach(w: nat, p: Periods, price: real, multiplier: real)
    requires p.Valid() && p.atr > 0
    ensures (forall ks: seq<Kline> :: Read(Last(ks, w), p, price, multiplier) == Read(ks, p, price, multiplier))
            <==> w >= p.Reach()
  {
    if w >= p.Reach() {
      forall ks: seq<Kline>
        ensures Read(Last(ks, w), p, price, multiplier) == Read(ks, p, price, multiplier)
      {
        WindowSuffices(ks, w, p, price, multiplier);
      }
    } else {
      var ks := Plain(p.Reach());
      PlainReadings(p, price, multiplier);
      ShortReadings(Last(ks, w), p, price, multiplier);
      hide Read;
      assert Read(Last(ks, w), p, price, multiplier) != Read(ks, p, price, multiplier);
    }
  }

  // ----- the volume baseline ------------------------------------------------------------------------

  /** Fewer than half the baseline candles cannot push RVOL out of the range the others allow. */
  lemma {:induction false} RvolIsRobust(ks: seq<Kline>, baseline: nat, lo: real, hi: real)
    requires baseline > 0 && |ks| >= baseline + 1 && 0.0 < lo <= hi
    requires 2 * CountIn(Volumes(Before(ks, baseline, 1)), lo, hi) > baseline
    requires ks[|ks| - 1].baseVolume >= 0.0
    ensures var r, v := Rvol(ks, baseline), ks[|ks| - 1].baseVolume;
            && (lo > EPSILON ==> r.Some?)
            && (r.Some? ==> v / hi <= r.value <= v / lo)
  {
    var vs := Volumes(Before(ks, baseline, 1));
    MajorityBoundsMedian(vs, lo, hi);
    Quotients(ks[|ks| - 1].baseVolume, lo, Median(vs), hi);
  }

  /**
    The relative volume, from the candles themselves: it exists iff the median volume of the `baseline` candles right
    before the latest is not negligible, and times that median it is the volume of the latest.
   */
  lemma {:induction false} RvolLaw(ks: seq<Kline>, baseline: nat, vs: seq<real>)
    requires 0 < baseline < |ks| && |vs| == baseline
    requires forall i | 0 <= i < baseline :: vs[i] == ks[|ks| - 1 - baseline + i].baseVolume
    ensures var r := Rvol(ks, baseline);
            && (r.Some? <==> Median(vs) > 0.000000001)
            && (r.Some? ==> r.value * Median(vs) == ks[|ks| - 1].baseVolume)
  {
    assert vs == Volumes(Before(ks, baseline, 1));
    hide Median;
    if Median(vs) > EPSILON {
      DivMul(ks[|ks| - 1].baseVolume, Median(vs));
    }
  }

  /** The acceleration likewise: the mean of the latest volumes over the median of those right before them. */
  lemma {:induction false} AccelerationLaw(ks: seq<Kline>, recent: nat, baseline: nat, latest: seq<real>, vs: seq<real>)
    requires 0 < recent && 0 < baseline && recent + baseline <= |ks| && |latest| == recent && |vs| == baseline
    requires forall i | 0 <= i < recent :: latest[i] == ks[|ks| - recent + i].baseVolume
    requires forall i | 0 <= i < baseline :: vs[i] == ks[|ks| - recent - baseline + i].baseVolume
    ensures var r := TradeAcceleration(ks, recent, baseline);
            && (r.Some? <==> Median(vs) > 0.000000001)
            && (r.Some? ==> AddsUp(Sum(latest), recent, r.value * Median(vs)))
  {
    assert latest == Volumes(Before(ks, recent, 0)) && vs == Volumes(Before(ks, baseline, recent));
    hide Median, Sum, Mean;
    MeanTimesCount(latest);
    if Median(vs) > EPSILON {
      DivMul(Mean(latest), Median(vs));
    }
  }

  lemma {:induction false} Quotients(v: real, lo: real, m: real, hi: real)
    requires v >= 0.0 && 0.0 < lo <= m <= hi
    ensures v / hi <= v / m <= v / lo
  {
  }

  lemma {:induction false} SumBounds(xs: seq<real>, lo: real, hi: real)
    requires forall i | 0 <= i < |xs| :: lo <= xs[i] <= hi
    ensures |xs| as real * lo <= Sum(xs) <= |xs| as real * hi
  {
    if xs != [] {
      SumBounds(xs[..|xs| - 1], lo, hi);
    }
  }

  lemma {:induction false} MeanBounds(xs: seq<real>, lo: real, hi: real)
    requires xs != [] && forall i | 0 <= i < |xs| :: lo <= xs[i] <= hi
    ensures lo <= Mean(xs) <= hi
  {
    SumBounds(xs, lo, hi);
    MeanTimesCount(xs);
    var n, m := |xs| as real, Mean(xs);
    hide Mean, Sum;
    Unscale(lo, m, n);
    Unscale(m, hi, n);
  }

  /** The recent mean over a robust baseline: outlying baseline candles move it no further than the others allow. */
  lemma {:induction false} AccelerationIsRobust(ks: seq<Kline>, recent: nat, baseline: nat, a: real, b: real,
      lo: real, hi: real)
    requires 0 < recent && 0 < baseline && recent + baseline <= |ks| && 0.0 <= a && 0.0 < lo <= hi
    requires forall i | 0 <= i < recent :: a <= Before(ks, recent, 0)[i].baseVolume <= b
    requires 2 * CountIn(Volumes(Before(ks, baseline, recent)), lo, hi) > baseline
    ensures var r := TradeAcceleration(ks, recent, baseline);
            && (lo > EPSILON ==> r.Some?)
            && (r.Some? ==> a / hi <= r.value <= b / lo)
  {
    var vs, base := Volumes(Before(ks, recent, 0)), Volumes(Before(ks, baseline, recent));
    MeanBounds(vs, a, b);
    MajorityBoundsMedian(base, lo, hi);
    var mean, median := Mean(vs), Median(base);
    hide Mean, Median, CountIn;
    Quotients(mean, lo, median, hi);
    DivBounds(a, mean, hi);
    DivBounds(mean, b, lo);
  }

  lemma {:induction false} DivBounds(x: real, y: real, c: real)
    requires x <= y && 0.0 < c
    ensures x / c <= y / c
  {
  }

  // ----- breakout levels --------------------------------------------------------------------------------

  lemma {:induction false} MaxHighIsHighest(ks: seq<Kline>)
    requires ks != []
    ensures forall i | 0 <= i < |ks| :: ks[i].high <= MaxHigh(ks)
    ensures exists i | 0 <= i < |ks| :: ks[i].high == MaxHigh(ks)
  {
    var last := |ks| - 1;
    if last == 0 {
      assert ks[0].high == MaxHigh(ks);
    } else {
      var front := ks[..last];
      MaxHighIsHighest(front);
      var i :| 0 <= i < |front| && front[i].high == MaxHigh(front);
      assert ks[i].high == MaxHigh(ks) || ks[last].high == MaxHigh(ks);
    }
  }

  /**
    The breakout inputs, from the candles: the prior high is the largest high of the last `lookback` candles, the level
    lies `multiplier` ATRs above it, and the distance counts the ATRs from the prior high to the price.
   */
  lemma {:induction false} BreakoutLaw(
      ks: seq<Kline>, price: real, multiplier: real, lookback: nat, atrPeriod: nat)
    requires lookback > 0
    ensures var r, atr := Breakout(ks, price, multiplier, lookback, atrPeriod), Atr(ks, atrPeriod);
            && (r.Some? <==> lookback <= |ks| && atr.Some?)
            && (r.Some? ==>
                  var b := r.value;
                  && (forall i | |ks| - lookback <= i < |ks| :: ks[i].high <= b.priorHigh)
                  && (exists i | |ks| - lookback <= i < |ks| :: ks[i].high == b.priorHigh)
                  && b.level - b.priorHigh == b.buffer == multiplier * atr.value
                  && (atr.value > 0.000000001 ==> b.distanceAtr * atr.value == price - b.priorHigh)
                  && (atr.value <= 0.000000001 ==> b.distanceAtr == 0.0))
  {
    hide Atr;
    if |ks| >= lookback && Atr(ks, atrPeriod).Some? {
      var w, n := Last(ks, lookback), |ks| - lookback;
      MaxHighIsHighest(w);
      hide MaxHigh;
      var j :| 0 <= j < |w| && w[j].high == MaxHigh(w);
      assert ks[n + j].high == MaxHigh(w);
      assert forall i | n <= i < |ks| :: ks[i] == w[i - n];
      var atr := Atr(ks, atrPeriod).value;
      if atr > EPSILON {
        DivMul(price - MaxHigh(w), atr);
      }
    }
  }

  /** The score floor and the trigger agree: the distance in ATRs reaches the multiplier exactly at the level. */
  lemma {:induction false} FloorIsTrigger(priorHigh: real, atr: real, price: real, multiplier: real)
    requires atr > EPSILON
    ensures var b := BreakoutFrom(priorHigh, atr, price, multiplier);
            b.distanceAtr >= multiplier <==> price >= b.level
  {
  }

  /**
    The window of prior highs contains the latest closed candle. So a candle whose close is within its own range
    never breaks out at its own close, whatever came before it, as soon as the buffer is positive.
   */
  lemma {:induction false} CloseNeverBreaksOut(ks: seq<Kline>, multiplier: real, lookback: nat, atrPeriod: nat)
    requires lookback > 0 && ks != [] && ks[|ks| - 1].close <= ks[|ks| - 1].high
    ensures var price := ks[|ks| - 1].close;
            var b := Breakout(ks, price, multiplier, lookback, atrPeriod);
            && (b.Some? && b.value.buffer > 0.0 ==> price < b.value.level)
            && (b.Some? ==> forall i | 0 <= i < |Last(ks, lookback)| :: Last(ks, lookback)[i].high <= b.value.priorHigh)
  {
    hide Atr;
    if |ks| >= lookback {
      var w := Last(ks, lookback);
      MaxHighIsHighest(w);
      assert w[|w| - 1] == ks[|ks| - 1];
    }
  }

  // ----- true range bounds movement -----------------------------------------------------------------

  /** The true range is the length of the smallest interval holding the candle and the previous close. */
  lemma {:induction false} TrueRangeIsHull(k: Kline, prevClose: real)
    ensures k.low <= k.high ==>
              TrueRange(k, prevClose) == MaxR(k.high, prevClose) - (if k.low <= prevClose then k.low else prevClose)
    ensures TrueRange(k, prevClose) >= 0.0
  {
  }

  predicate CloseInRange(k: Kline) {
    k.low <= k.close <= k.high
  }

  /** The true ranges crossed on the way from candle `i` to candle `j`. */
  function Path(ks: seq<Kline>, i: nat, j: nat): real
    requires i <= j < |ks|
  {
    if i == j then 0.0 else Path(ks, i, j - 1) + TrueRange(ks[j], ks[j - 1].close)
  }

  /** The move between any two closes is at most the sum of the true ranges between them. */
  lemma {:induction false} Telescoping(ks: seq<Kline>, i: nat, j: nat)
    requires i <= j < |ks| && forall k | i < k <= j :: CloseInRange(ks[k])
    ensures Abs(ks[j].close - ks[i].close) <= Path(ks, i, j)
  {
    if i < j {
      Telescoping(ks, i, j - 1);
      assert CloseInRange(ks[j]);
    }
  }

  lemma {:induction false} PathGrows(ks: seq<Kline>, i: nat, j: nat)
    requires i <= j < |ks|
    ensures 0.0 <= Path(ks, i, j) <= Path(ks, 0, j)
    decreases j
  {
    if i < j {
      PathGrows(ks, i, j - 1);
    } else if j > 0 {
      PathGrows(ks, j - 1, j - 1);
      PathGrows(ks, 0, j - 1);
    }
  }

  lemma {:induction false} PathIsSum(ks: seq<Kline>)
    requires ks != []
    ensures Path(ks, 0, |ks| - 1) == Sum(TrueRanges(ks))
  {
    if |ks| > 1 {
      var front := ks[..|ks| - 1];
      PathIsSum(front);
      PathOfFront(ks, |ks| - 2);
      var trs := TrueRanges(ks);
      assert trs[..|trs| - 1] == TrueRanges(front);
    }
  }

  lemma {:induction false} PathOfFront(ks: seq<Kline>, j: nat)
    requires j + 1 < |ks|
    ensures Path(ks[..|ks| - 1], 0, j) == Path(ks, 0, j)
  {
    if j > 0 {
      PathOfFront(ks, j - 1);
    }
  }

  lemma {:induction false} AtrIsMeanRange(ks: seq<Kline>, period: nat)
    requires Atr(ks, period).Some?
    ensures 0 < period < |ks| && AddsUp(Path(Last(ks, period + 1), 0, period), period, Atr(ks, period).value)
  {
    var w := Last(ks, period + 1);
    PathIsSum(w);
    hide Path, Sum, TrueRanges, Mean, AddsUp;
    assert |TrueRanges(w)| == period;
    assert Atr(ks, period) == Some(Mean(TrueRanges(w)));
    hide Atr, Last;
    MeanTimesCount(TrueRanges(w));
  }

  lemma {:induction false} PathOfLast(ks: seq<Kline>, n: nat, j: nat)
    requires j < n <= |ks|
    ensures |Last(ks, n)| == n && Path(Last(ks, n), 0, j) == Path(ks, |ks| - n, |ks| - n + j)
  {
    if j > 0 {
      PathOfLast(ks, n, j - 1);
      hide Path, TrueRange;
      assert Last(ks, n)[j] == ks[|ks| - n + j] && Last(ks, n)[j - 1] == ks[|ks| - n + j - 1];
    }
  }

  /** Period times the ATR is the sum of the true ranges of the last `period` candles, each against the close before. */
  lemma {:induction false} AtrLaw(ks: seq<Kline>, period: nat)
    ensures Atr(ks, period).Some? <==> 0 < period < |ks|
    ensures 0 < period < |ks| ==>
              AddsUp(Path(ks, |ks| - 1 - period, |ks| - 1), period, Atr(ks, period).value)
  {
    if 0 < period < |ks| {
      assert Atr(ks, period).Some? by {
        hide Mean;
      }
      hide Atr, Path, AddsUp;
      AtrIsMeanRange(ks, period);
      PathOfLast(ks, period + 1, period);
    }
  }

  lemma {:induction false} MoveLaw(current: real, earlier: real, atr: real)
    requires earlier > 0.0 && current > 0.0
    ensures var r := MoveOverVolatility(current, earlier, atr);
            && (r.Some? <==> atr > EPSILON * current)
            && (r.Some? ==> r.value * atr * earlier == Abs(current - earlier) * current)
  {
    var b, a := atr / current, Abs(current - earlier) / earlier;
    DivMul(atr, current);
    DivMul(Abs(current - earlier), earlier);
    if b > EPSILON {
      ScaleStrict(EPSILON, b, current);
      Rearrange(a / b, a, b, current, earlier, atr, Abs(current - earlier));
    } else {
      Scale(b, EPSILON, current);
    }
  }

  lemma {:induction false} Rearrange(r: real, a: real, b: real, current: real, earlier: real, atr: real, move: real)
    requires b > 0.0 && r == a / b && b * current == atr && a * earlier == move
    ensures r * atr * earlier == move * current
  {
    DivMul(a, b);
    assert r * atr * earlier == (r * b) * current * earlier;
  }

  /**
    The momentum ratio exists iff both closes and the ATR do and are not negligible; and then ratio times ATR,
    relative to the latest close, is the move relative to the earlier one.
   */
  lemma {:induction false} MomentumLaw(ks: seq<Kline>, minutes: nat, atrPeriod: nat)
    ensures var r, atr := MomentumRatio(ks, minutes, atrPeriod), Atr(ks, atrPeriod);
            && (atr.Some? <==> 0 < atrPeriod < |ks|)
            && (r.Some? ==> minutes < |ks| && atr.Some?)
            && (minutes < |ks| && atr.Some? ==>
                  var current, earlier := ks[|ks| - 1].close, ks[|ks| - 1 - minutes].close;
                  && (r.Some? <==> earlier > 0.000000001 && current > 0.000000001
                                   && atr.value > 0.000000001 * current)
                  && (r.Some? ==> r.value * atr.value * earlier == Abs(current - earlier) * current))
  {
    hide MoveOverVolatility, TrueRanges, Mean;
    if minutes < |ks| && Atr(ks, atrPeriod).Some? && CloseAgo(ks, minutes) > EPSILON && CloseAgo(ks, 0) > EPSILON {
      MoveLaw(CloseAgo(ks, 0), CloseAgo(ks, minutes), Atr(ks, atrPeriod).value);
    }
  }

  ghost predicate WithinReach(current: real, earlier: real, atr: real, period: nat) {
    Abs(current - earlier) <= period as real * atr
  }

  /** Within the ATR window, price moved by at most period * ATR. */
  lemma {:induction false} AtrBoundsMove(ks: seq<Kline>, period: nat, n: nat)
    requires n <= period && Atr(ks, period).Some?
    requires forall k | 0 <= k < |ks| :: CloseInRange(ks[k])
    ensures |ks| > period
    ensures WithinReach(CloseAgo(ks, 0), CloseAgo(ks, n), Atr(ks, period).value, period)
  {
    AtrIsMeanRange(ks, period);
    var w := Last(ks, period + 1);
    Telescoping(w, period - n, period);
    PathGrows(w, period - n, period);
    hide Atr, Path, Abs;
    assert w[period] == ks[|ks| - 1] && w[period - n] == ks[|ks| - 1 - n];
  }

  /** The largest momentum ratio the candles of one ATR window can produce. */
  function RatioCap(period: nat, current: real, earlier: real): real
    requires earlier > 0.0
  {
    period as real * current / earlier
  }

  lemma {:induction false} VolatilityBound(current: real, earlier: real, atr: real, period: nat)
    requires earlier > 0.0 && current > 0.0 && WithinReach(current, earlier, atr, period)
    requires MoveOverVolatility(current, earlier, atr).Some?
    ensures MoveOverVolatility(current, earlier, atr).value <= RatioCap(period, current, earlier)
  {
  }

  /** So the momentum ratio is at most period * current / earlier, whatever the candles are. */
  lemma {:induction false} MomentumIsBounded(ks: seq<Kline>, minutes: nat, atrPeriod: nat)
    requires minutes <= atrPeriod && MomentumRatio(ks, minutes, atrPeriod).Some?
    requires forall k | 0 <= k < |ks| :: CloseInRange(ks[k])
    ensures var current, earlier := CloseAgo(ks, 0), CloseAgo(ks, minutes);
            && 0.0 < earlier
            && MomentumRatio(ks, minutes, atrPeriod).value <= RatioCap(atrPeriod, current, earlier)
  {
    AtrBoundsMove(ks, atrPeriod, minutes);
    hide Atr, MoveOverVolatility, CloseAgo, WithinReach, RatioCap;
    VolatilityBound(CloseAgo(ks, 0), CloseAgo(ks, minutes), Atr(ks, atrPeriod).value, atrPeriod);
  }
}
