/** Stop-loss and take-profit levels of a long entry. */
module ExitLevels {
  import opened Prelude

  datatype StopLossResult = StopLossResult(stopLoss: real, distance: real, distanceFraction: real, valid: bool)

  function ComputeStopLoss(entry: real, atr: real, multiplier: real): StopLossResult {
    var distance := multiplier * atr;
    var stop := entry - distance;
    StopLossResult(stop, distance, if entry > EPSILON then distance / entry else 0.0, stop < entry)
  }

  datatype TakeProfitResult = TakeProfitResult(takeProfit: real, expectedMove: real, expectedMovePercent: real)

  function ComputeTakeProfit(entry: real, stop: real, rewardRisk: real): TakeProfitResult {
    var expectedMove := rewardRisk * Abs(entry - stop);
    TakeProfitResult(entry + expectedMove, expectedMove,
                     if entry > EPSILON then expectedMove / entry * 100.0 else 0.0)
  }
}

/** How much to buy: the risk budget over the stop distance, clamped to the size limits. */
module PositionSizing {
  import opened Prelude

  datatype RawSize = RawSize(riskAmount: real, size: real)

  function ComputeRawPositionSize(equity: real, riskPercent: real, stopFraction: real): RawSize {
    var riskAmount := equity * (riskPercent / 100.0);
    RawSize(riskAmount, if stopFraction <= EPSILON then 0.0 else riskAmount / stopFraction)
  }

  /** The larger of the raw size and the minimum, but never more than the maximum. */
  function FinalSize(raw: real, min: real, max: real): real {
    if MaxR(raw, min) > max then max else MaxR(raw, min)
  }

  method ApplyPositionConstraints(raw: real, min: real, max: real)
    returns (final: real, clampedByMin: bool, clampedByMax: bool)
    ensures final == FinalSize(raw, min, max) <= max
    ensures clampedByMin <==> raw < min
    ensures clampedByMax <==> max < raw || (clampedByMin && max < min)
    ensures final == if clampedByMax then max else if clampedByMin then min else raw
  {
    final := raw;
    clampedByMin, clampedByMax := false, false;
    if final < min {
      final := min;
      clampedByMin := true;
    }
    if final > max {
      final := max;
      clampedByMax := true;
    }
  }

  /** The clamps raise the size exactly if the raw size is below both limits. */
  lemma {:induction false} RaisedExactlyBelowBoth(raw: real, min: real, max: real)
    ensures FinalSize(raw, min, max) > raw <==> raw < min && raw < max
  {
  }

  /** At the raw size, hitting the stop costs exactly the risk budget. */
  lemma {:induction false} RawSizeRisksBudget(equity: real, riskPercent: real, stopFraction: real)
    requires stopFraction > EPSILON
    ensures var r := ComputeRawPositionSize(equity, riskPercent, stopFraction);
            r.size * stopFraction == r.riskAmount && r.riskAmount * 100.0 == equity * riskPercent
  {
  }

  /** Where `raw` costs the budget, the final size costs no more iff the minimum did not lift it. */
  lemma {:induction false} LossWithinBudget(raw: real, stopFraction: real, amount: real, min: real, max: real)
    requires stopFraction > 0.0 && raw * stopFraction == amount
    ensures FinalSize(raw, min, max) * stopFraction <= amount <==> !(raw < min && raw < max)
  {
    var final := FinalSize(raw, min, max);
    RaisedExactlyBelowBoth(raw, min, max);
    hide FinalSize;
    Compare(raw, final, stopFraction);
  }

  /** Lifted to a minimum of 100, a position of 20 with its stop half-way down risks 50 where the budget is 10. */
  lemma {:induction false} LiftedSizeBreaksBudget()
    ensures var r := ComputeRawPositionSize(1000.0, 1.0, 0.5);
            r.riskAmount == 10.0 && r.size == 20.0 && FinalSize(r.size, 100.0, 1000.0) * 0.5 == 50.0
  {
  }
}

/** Round-trip cost of a trade. The square root is any function that is monotone and not negative. */
module Friction {
  import opened Prelude

  const LIQUIDITY_FLOOR: real := 1.0

  datatype Costs = Costs(takerFee: real, baseSlippage: real, gamma: real, coverageRatio: real)

  datatype Liquidity = Liquidity(range: real, atr: real, volume: real, spread: real)

  ghost predicate IsRoot(root: real -> real) {
    forall x, y | 0.0 <= x <= y :: 0.0 <= root(x) <= root(y)
  }

  function Impact(size: real, m: Liquidity, c: Costs, root: real -> real): real {
    c.gamma * (m.range / MaxR(m.atr, EPSILON)) * root(size / MaxR(m.volume, LIQUIDITY_FLOOR))
  }

  function Slippage(size: real, m: Liquidity, c: Costs, root: real -> real): real {
    MaxR(0.0, c.baseSlippage + Impact(size, m, c, root))
  }

  function TotalFriction(size: real, m: Liquidity, c: Costs, root: real -> real): real {
    2.0 * c.takerFee + m.spread + Slippage(size, m, c, root)
  }

  function Coverage(expectedProfit: real, friction: real): real {
    expectedProfit / MaxR(friction, EPSILON)
  }

  predicate GatePasses(expectedProfit: real, friction: real, ratio: real) {
    expectedProfit >= ratio * friction
  }

  /** Coverage and gate are two forms of one test, except where friction vanishes. */
  lemma {:induction false} CoverageIsGate(expectedProfit: real, friction: real, ratio: real)
    requires friction >= EPSILON
    ensures Coverage(expectedProfit, friction) >= ratio <==> GatePasses(expectedProfit, friction, ratio)
  {
  }

  /**
    A round trip pays two taker fees and the spread, and on top the base slippage for an order too small to
    move prices.
   */
  lemma {:induction false} RoundTripFloor(size: real, m: Liquidity, c: Costs, root: real -> real)
    ensures TotalFriction(size, m, c, root) >= c.takerFee + c.takerFee + m.spread
    ensures root(0.0) == 0.0 && c.baseSlippage >= 0.0 ==>
              TotalFriction(0.0, m, c, root) == c.takerFee + c.takerFee + m.spread + c.baseSlippage
  {
    assert 0.0 / MaxR(m.volume, LIQUIDITY_FLOOR) == 0.0;
  }

  /**
    What a friction figure has to be, without the formula that computes it: above fees, spread and base slippage it is
    worth, times the ATR, the configured share of the range, weighted by the size relative to the volume; and it never
    falls below fees and spread.
   */
  ghost predicate Charges(f: real, size: real, m: Liquidity, c: Costs, root: real -> real) {
    var volume := if m.volume > 1.0 then m.volume else 1.0;
    var atr := if m.atr > 0.000000001 then m.atr else 0.000000001;
    var fixed := c.takerFee + c.takerFee + m.spread;
    var moved := (f - fixed - c.baseSlippage) * atr;
    var owed := c.gamma * m.range * root(size / volume);
    f >= fixed && moved >= owed && (f > fixed ==> moved == owed)
  }

  lemma {:induction false} Normalize(gamma: real, range: real, atr: real, r: real)
    requires atr > 0.0
    ensures gamma * (range / atr) * r * atr == gamma * range * r
  {
    var q := range / atr;
    DivMul(range, atr);
    assert gamma * q * r * atr == gamma * r * (q * atr);
  }

  /** The friction charged is that figure, and no other number is. */
  lemma {:induction false} FrictionLaw(f: real, size: real, m: Liquidity, c: Costs, root: real -> real)
    ensures Charges(f, size, m, c, root) <==> f == TotalFriction(size, m, c, root)
  {
    var volume, atr := MaxR(m.volume, LIQUIDITY_FLOOR), MaxR(m.atr, EPSILON);
    var impact, r := Impact(size, m, c, root), root(size / volume);
    var owed := c.gamma * m.range * r;
    Normalize(c.gamma, m.range, atr, r);
    assert impact * atr == owed;
    var moved := f - (c.takerFee + c.takerFee + m.spread) - c.baseSlippage;
    Compare(moved, impact, atr);
    hide Impact;
  }

  lemma {:induction false} Ratio(range: real, atr: real, k: real)
    requires atr > 0.0 && k > 0.0
    ensures k * range / (k * atr) == range / atr
  {
    var q := range / atr;
    DivMul(range, atr);
    assert k * range == q * (k * atr);
    DivMul(k * range, k * atr);
    Compare(k * range / (k * atr), q, k * atr);
  }

  /** Only the range relative to the volatility counts: in a market swinging `k` times as much, friction is the same. */
  lemma {:induction false} FrictionIsScaleFree(size: real, m: Liquidity, c: Costs, root: real -> real, k: real)
    requires k > 0.0 && m.atr > 0.000000001 && k * m.atr > 0.000000001
    ensures TotalFriction(size, m.(range := k * m.range, atr := k * m.atr), c, root) == TotalFriction(size, m, c, root)
  {
    Ratio(m.range, m.atr, k);
  }

  lemma {:induction false} DivMono(a: real, b: real, c: real, d: real)
    requires 0.0 <= a <= b && 0.0 < d <= c
    ensures 0.0 <= a / c <= b / d
  {
    var p, q := a / c, b / d;
    DivMul(a, c);
    DivMul(b, d);
    Unscale(0.0, q, d);
    Scale(d, c, q);
    Unscale(p, q, c);
    Unscale(0.0, p, c);
  }

  lemma {:induction false} ProductGrows(gamma: real, x: real, x': real, y: real, y': real)
    requires 0.0 <= gamma && 0.0 <= x <= x' && 0.0 <= y <= y'
    ensures gamma * x * y <= gamma * x' * y'
  {
    var a, b := gamma * x, gamma * x';
    Scale(x, x', gamma);
    Scale(0.0, x, gamma);
    assert 0.0 <= a <= b;
    Scale(a, b, y);
    Scale(y, y', b);
  }

  /** No more range, no less volume, all else equal. */
  predicate NoCostlier(m: Liquidity, thin: Liquidity) {
    0.0 <= m.range <= thin.range && thin.volume <= m.volume && thin.atr == m.atr && thin.spread == m.spread
  }

  lemma {:induction false} ImpactGrows(small: real, large: real, m: Liquidity, thin: Liquidity, c: Costs,
      root: real -> real)
    requires IsRoot(root) && 0.0 <= small <= large && NoCostlier(m, thin) && 0.0 <= c.gamma
    ensures Impact(small, m, c, root) <= Impact(large, thin, c, root)
  {
    var floor, floor', atr := MaxR(m.volume, LIQUIDITY_FLOOR), MaxR(thin.volume, LIQUIDITY_FLOOR), MaxR(m.atr, EPSILON);
    DivMono(small, large, floor, floor');
    DivMono(m.range, thin.range, atr, atr);
    var u, v := small / floor, large / floor';
    assert 0.0 <= root(u) <= root(v);
    ProductGrows(c.gamma, m.range / atr, thin.range / atr, root(u), root(v));
  }

  /** A smaller order never costs more, nor does the same order in a deeper market or over a narrower candle. */
  lemma {:induction false} FrictionIsMonotone(small: real, large: real, m: Liquidity, thin: Liquidity, c: Costs,
      root: real -> real)
    requires IsRoot(root) && 0.0 <= small <= large && NoCostlier(m, thin) && 0.0 <= c.gamma
    ensures TotalFriction(small, m, c, root) <= TotalFriction(large, thin, c, root)
  {
    ImpactGrows(small, large, m, thin, c, root);
    hide Impact, IsRoot;
  }

  /** So a gate passed at one size is passed at every smaller one. */
  lemma {:induction false} GateSurvivesSmallerSize(
      expectedProfit: real, small: real, large: real, m: Liquidity, c: Costs, root: real -> real)
    requires IsRoot(root) && 0.0 <= small <= large && 0.0 <= m.range && 0.0 <= c.gamma && 0.0 <= c.coverageRatio
    requires GatePasses(expectedProfit, TotalFriction(large, m, c, root), c.coverageRatio)
    ensures GatePasses(expectedProfit, TotalFriction(small, m, c, root), c.coverageRatio)
  {
    FrictionIsMonotone(small, large, m, m, c, root);
    var a, b := TotalFriction(small, m, c, root), TotalFriction(large, m, c, root);
    hide TotalFriction;
    Scale(a, b, c.coverageRatio);
    assert c.coverageRatio * a == a * c.coverageRatio && c.coverageRatio * b == b * c.coverageRatio;
  }
}
