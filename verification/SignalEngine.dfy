/** The ordered gate chain that turns market inputs into NO_TRADE, REJECTED or ENTRY_PENDING. */
module SignalEngine {
  import opened Prelude
  import opened ExitLevels
  import opened PositionSizing
  import Friction
  import Risk

  datatype Strategy = Strategy(
    scoreThreshold: real, slAtrMultiplier: real, takeProfitRr: real,
    minSize: real, maxSize: real, costs: Friction.Costs, limits: Risk.Limits)

  /** The outputs of quant score, breakout trigger and feature engine that the chain consumes at one price. */
  datatype Inputs = Inputs(
    score: Option<real>, triggered: bool, breakoutLevel: Option<real>,
    atr: Option<real>, range: Option<real>, volume: Option<real>, spread: Option<real>)

  datatype Reason =
    | MissingComponent | ScoreBelowThreshold | NotTriggered | AtrUnavailable | StopInvalid
    | RawSizeInvalid | FrictionInputsUnavailable

  type Price = x: real | x > 0.0 witness 1.0

  datatype Plan = Plan(
    entry: Price, stopLoss: real, takeProfit: real, expectedProfit: real,
    rawSize: real, finalSize: real, friction: real, breakoutLevel: Option<real>)

  /** The outcome of the gates before the risk check. */
  datatype GateResult =
    | Stopped(reason: Reason)
    | Uncovered
    | Passed(plan: Plan)

  datatype Decision =
    | NoTrade(reason: Reason)
    | FrictionRejected
    | RiskRejected(blocked: seq<Risk.BlockReason>)
    | EntryPending(plan: Plan)

  function Gates(inp: Inputs, price: real, st: Strategy, equity: real, root: real -> real): GateResult {
    if inp.score.None? then Stopped(MissingComponent)
    else if inp.score.value < st.scoreThreshold then Stopped(ScoreBelowThreshold)
    else if !inp.triggered then Stopped(NotTriggered)
    else if inp.atr.None? then Stopped(AtrUnavailable)
    else
      var stop := ComputeStopLoss(price, inp.atr.value, st.slAtrMultiplier);
      if !stop.valid then Stopped(StopInvalid)
      else
        var target := ComputeTakeProfit(price, stop.stopLoss, st.takeProfitRr);
        var raw := ComputeRawPositionSize(equity, st.limits.riskPerTrade, stop.distanceFraction);
        if raw.size <= 0.0 then Stopped(RawSizeInvalid)
        else if inp.range.None? || inp.volume.None? || inp.spread.None? then Stopped(FrictionInputsUnavailable)
        else
          var m := Friction.Liquidity(inp.range.value, inp.atr.value, inp.volume.value, inp.spread.value);
          var friction := Friction.TotalFriction(raw.size, m, st.costs, root);
          if !Friction.GatePasses(target.expectedMovePercent, friction, st.costs.coverageRatio) then Uncovered
          else Passed(Plan(price, stop.stopLoss, target.takeProfit, target.expectedMovePercent,
                           raw.size, FinalSize(raw.size, st.minSize, st.maxSize), friction, inp.breakoutLevel))
  }

  /** The risk check comes last and is the only gate that sees the risk engine, whose day it may roll over. */
  function Conclude(g: GateResult, risk: Risk.RiskState, l: Risk.Limits, btcPause: bool, today: int)
    : (Decision, Risk.RiskState)
  {
    match g
    case Stopped(reason) => (NoTrade(reason), risk)
    case Uncovered => (FrictionRejected, risk)
    case Passed(plan) =>
      var checked := Risk.ResetDay(risk, today);
      (if Risk.Allowed(checked, l, btcPause) then EntryPending(plan)
       else RiskRejected(Risk.Reasons(checked, l, btcPause)),
       checked)
  }

  function EvaluateSignal(inp: Inputs, price: real, st: Strategy, risk: Risk.RiskState, equity: real,
                          btcPause: bool, today: int, root: real -> real): (Decision, Risk.RiskState)
  {
    Conclude(Gates(inp, price, st, equity, root), risk, st.limits, btcPause, today)
  }

  function RiskAmount(st: Strategy, equity: real): real {
    equity * (st.limits.riskPerTrade / 100.0)
  }

  /** The stop distance of an entry at the given volatility. */
  function StopDistance(inp: Inputs, st: Strategy): real
    requires inp.atr.Some?
  {
    st.slAtrMultiplier * inp.atr.value
  }

  /** The size at which a stop `distance` below `price` costs the risk budget. */
  function BudgetSize(st: Strategy, equity: real, price: real, distance: real): real
    requires distance != 0.0
  {
    RiskAmount(st, equity) * price / distance
  }

  /** The reward, in percent of the entry, is worth the configured multiple of the friction at the budgeted size. */
  ghost predicate Covered(inp: Inputs, price: real, st: Strategy, equity: real, root: real -> real)
    requires inp.atr.Some? && inp.range.Some? && inp.volume.Some? && inp.spread.Some?
    requires price > 0.0 && StopDistance(inp, st) != 0.0
  {
    var d := StopDistance(inp, st);
    var m := Friction.Liquidity(inp.range.value, inp.atr.value, inp.volume.value, inp.spread.value);
    forall f | Friction.Charges(f, BudgetSize(st, equity, price, d), m, st.costs, root) ::
      st.takeProfitRr * d / price * 100.0 >= st.costs.coverageRatio * f
  }

  /** The conditions of an entry, in the documented order. */
  ghost predicate Qualifies(k: nat, inp: Inputs, price: real, st: Strategy, equity: real, root: real -> real) {
    match k
    case 0 => inp.score.Some?
    case 1 => inp.score.Some? && inp.score.value >= st.scoreThreshold
    case 2 => inp.triggered
    case 3 => inp.atr.Some?
    case 4 => inp.atr.Some? && StopDistance(inp, st) > 0.0
    case 5 => inp.atr.Some? && price > EPSILON && StopDistance(inp, st) > EPSILON * price
              && RiskAmount(st, equity) > 0.0
    case 6 => inp.range.Some? && inp.volume.Some? && inp.spread.Some?
    case 7 => inp.atr.Some? && inp.range.Some? && inp.volume.Some? && inp.spread.Some? && price > 0.0
              && StopDistance(inp, st) > 0.0 && Covered(inp, price, st, equity, root)
    case _ => true
  }

  /** What is reported when condition `k` is the first to fail. */
  function Reported(k: nat): GateResult
    requires k < 8
  {
    match k
    case 0 => Stopped(MissingComponent)
    case 1 => Stopped(ScoreBelowThreshold)
    case 2 => Stopped(NotTriggered)
    case 3 => Stopped(AtrUnavailable)
    case 4 => Stopped(StopInvalid)
    case 5 => Stopped(RawSizeInvalid)
    case 6 => Stopped(FrictionInputsUnavailable)
    case 7 => Uncovered
  }

  ghost predicate QualifiesUpTo(n: nat, inp: Inputs, price: real, st: Strategy, equity: real, root: real -> real) {
    forall k: nat | k < n :: Qualifies(k, inp, price, st, equity, root)
  }

  lemma {:induction false} RawSizeSign(st: Strategy, equity: real, price: real, distance: real)
    requires distance > 0.0
    ensures var f := if price > EPSILON then distance / price else 0.0;
            var raw := ComputeRawPositionSize(equity, st.limits.riskPerTrade, f).size;
            && (raw > 0.0 <==> price > EPSILON && distance > EPSILON * price && RiskAmount(st, equity) > 0.0)
            && (raw > 0.0 ==> raw == BudgetSize(st, equity, price, distance))
  {
  }

  lemma {:induction false} StopConditions(inp: Inputs, price: real, st: Strategy, equity: real)
    requires inp.atr.Some?
    ensures var stop := ComputeStopLoss(price, inp.atr.value, st.slAtrMultiplier);
            && (stop.valid <==> StopDistance(inp, st) > 0.0)
            && stop.distanceFraction == (if price > EPSILON then StopDistance(inp, st) / price else 0.0)
            && (stop.valid ==>
                  ComputeTakeProfit(price, stop.stopLoss, st.takeProfitRr).expectedMovePercent
                  == if price > EPSILON then st.takeProfitRr * StopDistance(inp, st) / price * 100.0 else 0.0)
  {
    var d := StopDistance(inp, st);
    assert d > 0.0 ==> Abs(price - (price - d)) == d;
  }

  /** There is exactly one friction figure, so the condition is a comparison with it. */
  lemma CoveredMeans(inp: Inputs, price: real, st: Strategy, equity: real, root: real -> real)
    requires inp.atr.Some? && inp.range.Some? && inp.volume.Some? && inp.spread.Some?
    requires price > 0.0 && StopDistance(inp, st) != 0.0
    ensures var d := StopDistance(inp, st);
            var m := Friction.Liquidity(inp.range.value, inp.atr.value, inp.volume.value, inp.spread.value);
            Covered(inp, price, st, equity, root) <==>
              Friction.GatePasses(st.takeProfitRr * d / price * 100.0,
                                  Friction.TotalFriction(BudgetSize(st, equity, price, d), m, st.costs, root),
                                  st.costs.coverageRatio)
  {
    var size := BudgetSize(st, equity, price, StopDistance(inp, st));
    var m := Friction.Liquidity(inp.range.value, inp.atr.value, inp.volume.value, inp.spread.value);
    hide Friction.TotalFriction, Friction.Charges, BudgetSize, StopDistance;
    forall f
      ensures Friction.Charges(f, size, m, st.costs, root) <==> f == Friction.TotalFriction(size, m, st.costs, root)
    {
      Friction.FrictionLaw(f, size, m, st.costs, root);
    }
    assert Friction.Charges(Friction.TotalFriction(size, m, st.costs, root), size, m, st.costs, root);
  }

  /** The gates in terms of the conditions, one by one. */
  lemma {:induction false} GatesInOrder(inp: Inputs, price: real, st: Strategy, equity: real, root: real -> real)
    ensures var g := Gates(inp, price, st, equity, root);
            if !Qualifies(0, inp, price, st, equity, root) then g == Reported(0)
            else if !Qualifies(1, inp, price, st, equity, root) then g == Reported(1)
            else if !Qualifies(2, inp, price, st, equity, root) then g == Reported(2)
            else if !Qualifies(3, inp, price, st, equity, root) then g == Reported(3)
            else if !Qualifies(4, inp, price, st, equity, root) then g == Reported(4)
            else if !Qualifies(5, inp, price, st, equity, root) then g == Reported(5)
            else if !Qualifies(6, inp, price, st, equity, root) then g == Reported(6)
            else if !Qualifies(7, inp, price, st, equity, root) then g == Reported(7)
            else g.Passed?
  {
    if inp.atr.Some? {
      StopConditions(inp, price, st, equity);
      if StopDistance(inp, st) > 0.0 {
        RawSizeSign(st, equity, price, StopDistance(inp, st));
        if price > 0.0 && inp.range.Some? && inp.volume.Some? && inp.spread.Some? {
          CoveredMeans(inp, price, st, equity, root);
        }
      }
      hide ComputeStopLoss, ComputeTakeProfit, ComputeRawPositionSize, StopDistance, Covered, Friction.GatePasses;
      hide BudgetSize, RiskAmount, Friction.TotalFriction, FinalSize;
    }
  }

  /**
    The gates pass iff every condition holds, in terms of the inputs alone; otherwise they report the first condition
    that fails.
   */
  lemma {:induction false} FirstFailureIsReported(inp: Inputs, price: real, st: Strategy, equity: real,
      root: real -> real)
    ensures var g := Gates(inp, price, st, equity, root);
            && (g.Passed? <==> QualifiesUpTo(8, inp, price, st, equity, root))
            && forall k: nat | k < 8 ::
                 g == Reported(k) <==>
                   QualifiesUpTo(k, inp, price, st, equity, root) && !Qualifies(k, inp, price, st, equity, root)
  {
    GatesInOrder(inp, price, st, equity, root);
    hide Gates, Qualifies;
  }

  /**
    The decision, condition by condition: no trade for the first of conditions 0 to 6 that fails, a friction rejection
    iff only condition 7 fails, and past all of them an entry iff the risk engine allows it on that day.
   */
  lemma {:induction false} DecisionByCondition(inp: Inputs, price: real, st: Strategy, risk: Risk.RiskState,
                                               equity: real, btcPause: bool, today: int, root: real -> real)
    ensures var d := EvaluateSignal(inp, price, st, risk, equity, btcPause, today, root).0;
            var all := QualifiesUpTo(8, inp, price, st, equity, root);
            var allowed := Risk.Allowed(Risk.ResetDay(risk, today), st.limits, btcPause);
            && (d.NoTrade? <==> !QualifiesUpTo(7, inp, price, st, equity, root))
            && (d.FrictionRejected? <==> !all && QualifiesUpTo(7, inp, price, st, equity, root))
            && (d.RiskRejected? <==> all && !allowed)
            && (d.EntryPending? <==> all && allowed)
            && forall k: nat | k < 7 :: d.NoTrade? && Stopped(d.reason) == Reported(k) <==>
                 QualifiesUpTo(k, inp, price, st, equity, root) && !Qualifies(k, inp, price, st, equity, root)
  {
    FirstFailureIsReported(inp, price, st, equity, root);
    var g := Gates(inp, price, st, equity, root);
    assert g.Uncovered? <==> g == Reported(7);
    hide Gates, Qualifies, Risk.Allowed, Risk.ResetDay, Risk.Reasons;
  }

  /** The last gate run against the risk engine object. */
  method ConcludeWith(g: GateResult, engine: Risk.RiskEngine, btcPause: bool, today: int) returns (d: Decision)
    modifies engine
    ensures (d, engine.View()) == Conclude(g, old(engine.View()), engine.limits, btcPause, today)
  {
    match g
    case Stopped(reason) => d := NoTrade(reason);
    case Uncovered => d := FrictionRejected;
    case Passed(plan) =>
      hide Risk.Allowed, Risk.Reasons;
      var allowed, reasons := engine.CheckTradeAllowed(btcPause, today);
      d := if allowed then EntryPending(plan) else RiskRejected(reasons);
  }

  /** What every plan satisfies, in terms a caller can check on its numbers. */
  ghost predicate SoundPlan(p: Plan, price: real, st: Strategy, equity: real) {
    && p.entry == price
    && p.stopLoss < p.entry
    && p.takeProfit - p.entry == st.takeProfitRr * (p.entry - p.stopLoss)
    && p.expectedProfit * p.entry == (p.takeProfit - p.entry) * 100.0
    && p.rawSize > 0.0
    && p.rawSize * (p.entry - p.stopLoss) == RiskAmount(st, equity) * p.entry
    && p.finalSize == FinalSize(p.rawSize, st.minSize, st.maxSize)
  }

  lemma {:induction false} PercentOf(move: real, price: real)
    requires price > 0.0
    ensures move / price * 100.0 * price == move * 100.0
  {
  }

  lemma {:induction false} Proportion(size: real, distance: real, price: real, amount: real)
    requires price > 0.0 && size * (distance / price) == amount
    ensures size * distance == amount * price
  {
  }

  /** Every plan the gates let through is sound. */
  lemma {:induction false} GatesMakeSoundPlans(inp: Inputs, price: real, st: Strategy, equity: real, root: real -> real)
    ensures var g := Gates(inp, price, st, equity, root);
            g.Passed? ==>
              && SoundPlan(g.plan, price, st, equity) && g.plan.breakoutLevel == inp.breakoutLevel
              && inp.atr.Some? && g.plan.entry - g.plan.stopLoss == st.slAtrMultiplier * inp.atr.value
  {
    var g := Gates(inp, price, st, equity, root);
    if g.Passed? {
      var stop := ComputeStopLoss(price, inp.atr.value, st.slAtrMultiplier);
      var raw := ComputeRawPositionSize(equity, st.limits.riskPerTrade, stop.distanceFraction);
      var distance := price - stop.stopLoss;
      RawSizeRisksBudget(equity, st.limits.riskPerTrade, stop.distanceFraction);
      Proportion(raw.size, distance, price, raw.riskAmount);
      var move := ComputeTakeProfit(price, stop.stopLoss, st.takeProfitRr).expectedMove;
      PercentOf(move, price);
      assert Abs(price - stop.stopLoss) == distance;
      hide Friction.TotalFriction, FinalSize;
    }
  }

  /**
    A pending entry has its stop below the entry and its target above it at the configured reward-to-risk; at
    its raw size the stop costs exactly the risk budget; and the risk engine allowed it after the
    last change to its state. No other outcome changes the risk state beyond rolling the day.
   */
  lemma {:induction false} PendingIsSound(inp: Inputs, price: real, st: Strategy, risk: Risk.RiskState, equity: real,
                                          btcPause: bool, today: int, root: real -> real)
    ensures var (d, risk') := EvaluateSignal(inp, price, st, risk, equity, btcPause, today, root);
            && (d.EntryPending? ==>
                  && SoundPlan(d.plan, price, st, equity)
                  && risk' == Risk.ResetDay(risk, today) && Risk.Allowed(risk', st.limits, btcPause)
                  && (st.takeProfitRr > 0.0 ==> d.plan.stopLoss < d.plan.entry < d.plan.takeProfit))
            && (risk' == risk || risk' == Risk.ResetDay(risk, today))
  {
    hide Gates, Risk.Allowed, Risk.Reasons;
    GatesMakeSoundPlans(inp, price, st, equity, root);
    var d := EvaluateSignal(inp, price, st, risk, equity, btcPause, today, root).0;
    if d.EntryPending? && st.takeProfitRr > 0.0 {
      Positive(st.takeProfitRr, d.plan.entry - d.plan.stopLoss);
    }
  }

  lemma {:induction false} Positive(a: real, b: real)
    requires a > 0.0 && b > 0.0
    ensures a * b > 0.0
  {
  }

  /** The loss at the stop in dollars, for a position of `size`. */
  function LossAtStop(p: Plan, size: real): real
  {
    size * (p.entry - p.stopLoss) / p.entry
  }

  lemma {:induction false} LossIsFraction(size: real, d: real, entry: real, raw: real, amount: real)
    requires entry > 0.0 && d > 0.0 && raw * d == amount * entry
    ensures d / entry > 0.0 && raw * (d / entry) == amount && size * d / entry == size * (d / entry)
  {
  }

  /** A stopped-out plan loses at most the risk budget iff the minimum size did not lift it. */
  lemma {:induction false} StopCostsAtMostBudget(p: Plan, price: real, st: Strategy, equity: real)
    requires SoundPlan(p, price, st, equity)
    ensures LossAtStop(p, p.finalSize) <= RiskAmount(st, equity)
            <==> !(p.rawSize < st.minSize && p.rawSize < st.maxSize)
  {
    var d, amount := p.entry - p.stopLoss, RiskAmount(st, equity);
    LossIsFraction(p.finalSize, d, p.entry, p.rawSize, amount);
    hide RiskAmount, FinalSize;
    LossWithinBudget(p.rawSize, d / p.entry, amount, st.minSize, st.maxSize);
  }

  /**
    The friction gate was passed at the raw size, and still passes at the size actually traded unless that is
    larger.
   */
  lemma {:induction false} GateHoldsAtFinalSize(inp: Inputs, price: real, st: Strategy, risk: Risk.RiskState,
      equity: real,
                                                btcPause: bool, today: int, root: real -> real)
    requires EvaluateSignal(inp, price, st, risk, equity, btcPause, today, root).0.EntryPending?
    requires Friction.IsRoot(root) && inp.range.Some? && inp.range.value >= 0.0
    requires st.costs.gamma >= 0.0 && st.costs.coverageRatio >= 0.0
    ensures inp.atr.Some? && inp.volume.Some? && inp.spread.Some?
    ensures var p := EvaluateSignal(inp, price, st, risk, equity, btcPause, today, root).0.plan;
            var m := Friction.Liquidity(inp.range.value, inp.atr.value, inp.volume.value, inp.spread.value);
            && p.friction == Friction.TotalFriction(p.rawSize, m, st.costs, root)
            && Friction.GatePasses(p.expectedProfit, p.friction, st.costs.coverageRatio)
            && (0.0 <= p.finalSize <= p.rawSize ==>
                  Friction.GatePasses(p.expectedProfit, Friction.TotalFriction(p.finalSize, m, st.costs, root),
                                      st.costs.coverageRatio))
  {
    var p := EvaluateSignal(inp, price, st, risk, equity, btcPause, today, root).0.plan;
    var m := Friction.Liquidity(inp.range.value, inp.atr.value, inp.volume.value, inp.spread.value);
    hide Friction.TotalFriction, Friction.GatePasses, ComputeStopLoss, ComputeTakeProfit;
    hide ComputeRawPositionSize, FinalSize, Risk.Allowed;
    if 0.0 <= p.finalSize <= p.rawSize {
      Friction.GateSurvivesSmallerSize(p.expectedProfit, p.finalSize, p.rawSize, m, st.costs, root);
    }
  }
}
