/** For which size limits the bound of Capital.dfy holds over every backtest. */
module CapitalExact {
  import opened Prelude
  import opened Events
  import opened FeatureStore
  import opened BacktestModel
  import opened SignalEngine
  import opened Capital
  import PositionSizing
  import Metrics
  import Risk

  /** Positive risk, limit and reward, a maximum size that is not negative, and limits that admit one position. */
  predicate Sensible(st: Strategy) {
    && 0.0 < st.limits.riskPerTrade <= st.limits.maxHeat && 1 <= st.limits.maxOpen
    && 0.0 < Abs(st.limits.dailyLoss) && 0.0 < st.takeProfitRr && 0.0 <= st.maxSize
  }

  /** The size a position can be lifted to. */
  function Lift(st: Strategy): real {
    if st.minSize <= st.maxSize then st.minSize else st.maxSize
  }

  // ----- a backtest whose stops are written into its candles ------------------------------------------------

  /** An entry at 1 with its stop a fraction `f` below. */
  function Steered(st: Strategy, equity: Price, s: Snapshot, price: real): GateResult {
    if s.klines == [] || price <= 0.0 then Stopped(StopInvalid)
    else
      var f := s.klines[|s.klines| - 1].quoteVolume;
      if f <= 0.0 || RiskAmount(st, equity) <= 0.0 then Stopped(StopInvalid)
      else
        var d, raw := price * f, RiskAmount(st, equity) / f;
        Passed(Plan(price, price - d, price + st.takeProfitRr * d, st.takeProfitRr * f * 100.0,
                    raw, PositionSizing.FinalSize(raw, st.minSize, st.maxSize), 0.0, Some(price)))
  }

  function SteeredConfig(st: Strategy, equity: Price): Config {
    Config(st, (Binance, "S"), equity, 0.0, 0, i => "", (s, p) => Steered(st, equity, s, p))
  }

  lemma PlanNumbers(price: real, f: real, rr: real, amount: real)
    requires price > 0.0 && f > 0.0
    ensures price * f > 0.0
    ensures amount / f * (price * f) == amount * price
    ensures rr * f * 100.0 * price == rr * (price * f) * 100.0
    ensures amount > 0.0 ==> amount / f > 0.0
  {
  }

  lemma {:induction false} SteeredIsSound(st: Strategy, equity: Price)
    ensures SoundGates(SteeredConfig(st, equity))
  {
    forall s: Snapshot, p: real | Steered(st, equity, s, p).Passed?
      ensures SoundPlan(Steered(st, equity, s, p).plan, p, st, equity)
    {
      PlanNumbers(p, s.klines[|s.klines| - 1].quoteVolume, st.takeProfitRr, RiskAmount(st, equity));
      hide RiskAmount, PositionSizing.FinalSize;
    }
  }

  function FlatBar(price: real, f: real): Bar {
    Bar(Binance, "S", Kline(price, price, price, price, 1.0, f, 0.0, 0, true))
  }

  function Pair(f: real): seq<Bar> {
    [FlatBar(1.0, f), FlatBar(1.0 - f, f)]
  }

  function Pairs(f: real, n: nat): seq<Bar> {
    if n == 0 then [] else Pairs(f, n - 1) + Pair(f)
  }

  /** What a stop `f` below costs, in percent of the account. */
  function Loss(st: Strategy, equity: Price, f: real): real
    requires f > 0.0
  {
    f * 100.0 * (PositionSizing.FinalSize(RiskAmount(st, equity) / f, st.minSize, st.maxSize) / equity)
  }

  /** Flat, not frozen, and the day's result so far. */
  ghost predicate At(bars: seq<Bar>, cfg: Config, pnl: real) {
    && OwnClosedBars(bars, cfg) && Metrics.PositiveLows(bars)
    && After(bars, cfg).open == None && !After(bars, cfg).risk.frozen && After(bars, cfg).risk.dailyPnl == pnl
  }

  ghost predicate EnteredAt(s: State, st: Strategy, equity: Price, f: real)
    requires f != 0.0
  {
    && s.open.Some? && s.open.value.entry == 1.0 && s.open.value.stop == 1.0 - f
    && s.open.value.target == 1.0 + st.takeProfitRr * f
    && s.open.value.sizeFraction
       == PositionSizing.FinalSize(RiskAmount(st, equity) / f, st.minSize, st.maxSize) / equity
  }

  lemma FlatFill(f: real)
    ensures PessimisticFill(FlatBar(1.0, f), Some(1.0), 0.0) == Some(1.0)
  {
  }

  lemma {:induction false} SeekEnters(s: State, i: nat, snap: Snapshot, st: Strategy, equity: Price, f: real)
    requires Sensible(st) && 0.0 < f < 1.0 && RiskAmount(st, equity) > 0.0
    requires s.open == None && s.risk.open == [] && !s.risk.frozen && s.risk.resetDate == 0
    requires snap.klines != [] && snap.klines[|snap.klines| - 1] == FlatBar(1.0, f).kline
    ensures var s' := Seek(s, i, FlatBar(1.0, f), Some(snap), SteeredConfig(st, equity));
            && EnteredAt(s', st, equity, f)
            && s'.risk.dailyPnl == s.risk.dailyPnl && !s'.risk.frozen && s'.risk.resetDate == 0
  {
    FlatFill(f);
    assert Risk.Heat(s.risk.open) == 0.0;
    hide PessimisticFill, RiskAmount, PositionSizing.FinalSize, Risk.Put, Risk.Reasons, Risk.Heat;
  }

  lemma {:induction false} Entered(bars: seq<Bar>, st: Strategy, equity: Price, f: real, pnl: real)
    requires Sensible(st) && 0.0 < f < 1.0 && RiskAmount(st, equity) > 0.0 && At(bars, SteeredConfig(st, equity), pnl)
    ensures var s := After(bars + [FlatBar(1.0, f)], SteeredConfig(st, equity));
            && EnteredAt(s, st, equity, f)
            && s.risk.dailyPnl == pnl && !s.risk.frozen && s.risk.resetDate == 0
  {
    hide After, SnapshotAfter, RiskAmount, EnteredAt, BarsAddUp, Separated, Seek, Sensible, Metrics.PositiveLows;
    var cfg, bar := SteeredConfig(st, equity), FlatBar(1.0, f);
    var more := bars + [bar];
    assert OwnClosedBars(more, cfg);
    LatestIsOwnBar(more, cfg);
    hide OwnClosedBars;
    BarsAreAccounted(bars, cfg);
    AfterOneMore(bars, bar, cfg);
    SeekEnters(After(bars, cfg), |bars|, SnapshotAfter(more, cfg.key).value, st, equity, f);
  }

  lemma {:induction false} ManageStops(s: State, o: OpenTrade, i: nat, bar: Bar, cfg: Config)
    requires s.open == Some(o) && s.risk.resetDate == cfg.today && !s.risk.frozen && bar.kline.low <= o.stop
    ensures var s', pnl := Manage(s, o, i, bar, cfg), s.risk.dailyPnl + PnlPercent(o.entry, o.stop) * o.sizeFraction;
            && s'.open == None && s'.risk.dailyPnl == pnl
            && (s'.risk.frozen <==> pnl <= -Abs(cfg.strategy.limits.dailyLoss))
  {
    assert ResolveIntrabarExit(bar, o.stop, o.target) == Some((o.stop, StopLoss));
    ResultOf(o, i, o.stop, StopLoss);
    hide PnlPercent, OfAccount, CloseTrade, ResolveIntrabarExit, Risk.Without;
  }

  /** Two candles that enter and stop out, whatever came before. */
  lemma {:induction false} StoppedOut(bars: seq<Bar>, st: Strategy, equity: Price, f: real, pnl: real)
    requires Sensible(st) && 0.0 < f < 1.0 && RiskAmount(st, equity) > 0.0 && At(bars, SteeredConfig(st, equity), pnl)
    ensures var cfg := SteeredConfig(st, equity);
            var s := After(bars + Pair(f), cfg);
            && OwnClosedBars(bars + Pair(f), cfg) && Metrics.PositiveLows(bars + Pair(f))
            && s.open == None && s.risk.dailyPnl == pnl - Loss(st, equity, f)
            && (s.risk.frozen <==> pnl - Loss(st, equity, f) <= -Abs(st.limits.dailyLoss))
  {
    hide After, SnapshotAfter, RiskAmount, PositionSizing.FinalSize, Manage, Seek, PnlPercent;
    var cfg, first, second := SteeredConfig(st, equity), FlatBar(1.0, f), FlatBar(1.0 - f, f);
    Entered(bars, st, equity, f, pnl);
    var mid := bars + [first];
    AfterOneMore(mid, second, cfg);
    assert mid + [second] == bars + Pair(f);
    var s := After(mid, cfg);
    ManageStops(s, s.open.value, |mid|, second, cfg);
    StopNumbers(f, s.open.value.sizeFraction);
  }

  lemma StopNumbers(f: real, size: real)
    requires 0.0 < f < 1.0
    ensures PnlPercent(1.0, 1.0 - f) * size == -(f * 100.0 * size)
  {
  }

  lemma NothingYet(st: Strategy, equity: Price)
    ensures At([], SteeredConfig(st, equity), 0.0)
  {
  }

  lemma {:induction false} AllStoppedOut(st: Strategy, equity: Price, f: real, n: nat)
    requires Sensible(st) && 0.0 < f < 1.0 && RiskAmount(st, equity) > 0.0 && Loss(st, equity, f) >= 0.0
    requires n as real * Loss(st, equity, f) < Abs(st.limits.dailyLoss)
    ensures At(Pairs(f, n), SteeredConfig(st, equity), -(n as real * Loss(st, equity, f)))
  {
    hide Loss, RiskAmount, SteeredConfig, After, OwnClosedBars, Metrics.PositiveLows, Pair, Sensible, Abs;
    var loss := Loss(st, equity, f);
    if n == 0 {
      NothingYet(st, equity);
    } else {
      assert n as real * loss == (n - 1) as real * loss + loss;
      AllStoppedOut(st, equity, f, n - 1);
      StoppedOut(Pairs(f, n - 1), st, equity, f, -((n - 1) as real * loss));
    }
  }

  // ----- the numbers --------------------------------------------------------------------------------------

  /** Any loss below the risk can be had, by a stop so near that the maximum size cuts the position. */
  lemma {:induction false} SmallLoss(st: Strategy, equity: Price, loss: real) returns (f: real)
    requires Sensible(st) && RiskAmount(st, equity) < st.maxSize && 0.0 < loss < st.limits.riskPerTrade
    ensures 0.0 < f < 1.0 && Loss(st, equity, f) == loss && RiskAmount(st, equity) > 0.0
  {
    var amount, max := RiskAmount(st, equity), st.maxSize;
    f := SolveFraction(loss, equity, max, amount, st.limits.riskPerTrade);
    assert PositionSizing.FinalSize(amount / f, st.minSize, max) == max;
  }

  lemma SolveFraction(loss: real, equity: real, size: real, amount: real, risk: real) returns (f: real)
    requires 0.0 < loss && 0.0 < equity && 0.0 < risk && amount == equity * (risk / 100.0) && amount < size
    ensures f * 100.0 * (size / equity) == loss && 0.0 < f && 0.0 < amount
    ensures loss < risk ==> amount / f > size && f < 1.0
    ensures loss > risk ==> amount / f < size
    ensures loss * amount < risk * size ==> f < 1.0
  {
    f := loss * equity / (100.0 * size);
    FractionNumbers(loss, equity, size, amount, risk, f);
  }

  lemma FractionNumbers(loss: real, equity: real, size: real, amount: real, risk: real, f: real)
    requires 0.0 < loss && 0.0 < equity && 0.0 < risk && amount == equity * (risk / 100.0) && amount < size
    requires 0.0 < 100.0 * size && f == loss * equity / (100.0 * size)
    ensures f * 100.0 * (size / equity) == loss && 0.0 < f && 0.0 < amount
    ensures loss < risk ==> amount / f > size && f < 1.0
    ensures loss > risk ==> amount / f < size
    ensures loss * amount < risk * size ==> f < 1.0
  {
    assert f * (100.0 * size) == loss * equity && 100.0 * amount == risk * equity;
    if loss < risk {
      ScaleStrict(loss, risk, equity);
      UnscaleStrict(f, 1.0, 100.0 * size);
    }
    if loss * amount < risk * size {
      SmallerThanSize(loss, equity, size, amount, risk);
      UnscaleStrict(f, 1.0, 100.0 * size);
    }
  }

  lemma SmallerThanSize(loss: real, equity: real, size: real, amount: real, risk: real)
    requires 0.0 < risk && 100.0 * amount == risk * equity && loss * amount < risk * size
    ensures loss * equity < 100.0 * size
  {
    assert (loss * equity) * risk == loss * (100.0 * amount) == 100.0 * (loss * amount);
    assert 100.0 * (loss * amount) < 100.0 * (risk * size) == (100.0 * size) * risk;
    UnscaleStrict(loss * equity, 100.0 * size, risk);
  }

  /** A loss beyond the risk can be had up to what the lifted size makes of the whole position. */
  lemma {:induction false} LargeLoss(st: Strategy, equity: Price, loss: real) returns (f: real)
    requires Sensible(st) && RiskAmount(st, equity) < Lift(st) && st.limits.riskPerTrade < loss
    requires loss * RiskAmount(st, equity) < st.limits.riskPerTrade * Lift(st)
    ensures 0.0 < f < 1.0 && Loss(st, equity, f) == loss && RiskAmount(st, equity) > 0.0
  {
    var amount, size := RiskAmount(st, equity), Lift(st);
    f := SolveFraction(loss, equity, size, amount, st.limits.riskPerTrade);
    assert PositionSizing.FinalSize(amount / f, st.minSize, st.maxSize) == size;
  }

  /** Equal losses below the risk that add up to a given sum. */
  lemma Shares(sum: real, risk: real) returns (n: nat, loss: real)
    requires 0.0 < sum && 0.0 < risk
    ensures 0.0 < loss < risk && n as real * loss == sum
  {
    var q := sum / risk;
    DivMul(sum, risk);
    n := q.Floor + 1;
    var m := n as real;
    loss := sum / m;
    DivMul(sum, m);
    ShareBelow(sum, loss, risk, q, m);
  }

  lemma ShareBelow(sum: real, loss: real, risk: real, q: real, m: real)
    requires 0.0 < sum && 0.0 < risk && 0.0 < m && loss * m == sum && q * risk == sum && q < m
    ensures 0.0 < loss < risk && m * loss == sum
  {
    UnscaleStrict(0.0, loss, m);
    ScaleStrict(q, m, risk);
    UnscaleStrict(loss, risk, m);
  }

  /** How far the last loss can go beyond the risk. */
  lemma Excess(limit: real, risk: real, amount: real, size: real) returns (extra: real)
    requires 0.0 < limit && 0.0 < risk && 0.0 < amount < size
    ensures 0.0 < extra < limit && (risk + extra) * amount < risk * size
  {
    var room := risk * (size - amount) / amount;
    DivMul(risk * (size - amount), amount);
    ScaleStrict(0.0, size - amount, risk);
    UnscaleStrict(0.0, room, amount);
    extra := if room < limit then room / 2.0 else limit / 2.0;
    ScaleStrict(extra, room, amount);
  }

  ghost predicate BoundHolds(st: Strategy, equity: Price) {
    forall cfg: Config, bars: seq<Bar>
      | cfg.strategy == st && cfg.equity == equity && SoundGates(cfg) && Metrics.PositiveLows(bars)
      :: Solvent(After(bars, cfg), cfg)
  }

  /** A run that comes close to the loss limit in small equal losses and then takes one large one. */
  lemma {:induction false} SinkingRun(st: Strategy, equity: Price, sum: real, last: real) returns (bars: seq<Bar>)
    requires Sensible(st) && RiskAmount(st, equity) < Lift(st) <= st.maxSize
    requires 0.0 < sum < Abs(st.limits.dailyLoss) && st.limits.riskPerTrade < last
    requires last * RiskAmount(st, equity) < st.limits.riskPerTrade * Lift(st)
    ensures Metrics.PositiveLows(bars) && After(bars, SteeredConfig(st, equity)).risk.dailyPnl == -sum - last
  {
    hide Metrics.PositiveLows, OwnClosedBars, After, Loss, Pairs, Pair, RiskAmount, Lift, SteeredConfig, Abs;
    var n, loss := Shares(sum, st.limits.riskPerTrade);
    var f := SmallLoss(st, equity, loss);
    var g := LargeLoss(st, equity, last);
    hide Sensible;
    assert n as real * Loss(st, equity, f) == sum;
    AllStoppedOut(st, equity, f, n);
    hide At;
    StoppedOut(Pairs(f, n), st, equity, g, -sum);
    bars := Pairs(f, n) + Pair(g);
  }

  /** With a lift beyond the budget some run loses the loss limit and one trade's risk in one day. */
  lemma {:induction false} LiftBreaksBound(st: Strategy, equity: Price)
    requires Sensible(st) && RiskAmount(st, equity) < Lift(st)
    ensures !BoundHolds(st, equity)
  {
    var limit, risk := Abs(st.limits.dailyLoss), st.limits.riskPerTrade;
    AmountPositive(st, equity);
    var cfg := SteeredConfig(st, equity);
    hide SoundGates, Metrics.PositiveLows, After, RiskAmount, Lift, SteeredConfig, Abs;
    var extra := Excess(limit, risk, RiskAmount(st, equity), Lift(st));
    var bars := SinkingRun(st, equity, limit - extra, risk + extra);
    SteeredIsSound(st, equity);
    SteeredFor(st, equity);
    assert !Solvent(After(bars, cfg), cfg);
  }

  lemma AmountPositive(st: Strategy, equity: Price)
    requires Sensible(st)
    ensures RiskAmount(st, equity) > 0.0 && Lift(st) <= st.maxSize
  {
    ScaleStrict(0.0, st.limits.riskPerTrade / 100.0, equity);
  }

  lemma SteeredFor(st: Strategy, equity: Price)
    ensures SteeredConfig(st, equity).strategy == st && SteeredConfig(st, equity).equity == equity
  {
  }

  /**
    The bound is exact: for sensible settings it holds over all bars with positive lows and all sound gates iff the size
    a position can be lifted to lies within the risk budget.
   */
  lemma {:induction false} CapitalBoundExactly(st: Strategy, equity: Price)
    requires Sensible(st)
    ensures BoundHolds(st, equity) <==> Lift(st) <= RiskAmount(st, equity)
  {
    if Lift(st) <= RiskAmount(st, equity) {
      forall cfg: Config, bars: seq<Bar>
        | cfg.strategy == st && cfg.equity == equity && SoundGates(cfg) && Metrics.PositiveLows(bars)
        ensures Solvent(After(bars, cfg), cfg)
      {
        CapitalBound(bars, cfg);
      }
    } else {
      LiftBreaksBound(st, equity);
    }
  }
}
