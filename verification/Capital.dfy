/** How much a whole backtest can lose in one day. */
module Capital {
  import opened Prelude
  import opened BacktestModel
  import opened SignalEngine
  import FeatureStore
  import opened Events
  import Metrics
  import PositionSizing
  import Risk

  /**
    Positive risk, limit and reward, a maximum size that is not negative, and a size a position can be lifted to that
    the risk budget covers even when the whole position is lost.
   */
  predicate Prudent(cfg: Config) {
    var st := cfg.strategy;
    && 0.0 < st.limits.riskPerTrade && 0.0 < Abs(st.limits.dailyLoss) && 0.0 < st.takeProfitRr
    && 0.0 <= st.maxSize
    && (st.minSize <= RiskAmount(st, cfg.equity) || st.maxSize <= RiskAmount(st, cfg.equity))
  }

  lemma {:induction false} BudgetPositive(cfg: Config)
    requires Prudent(cfg)
    ensures RiskAmount(cfg.strategy, cfg.equity) > 0.0
  {
  }

  /** A stop above zero is nearer than the whole entry price, so the raw size is more than the budget. */
  lemma {:induction false} HittableStopIsNotLifted(raw: real, entry: real, stop: real, amount: real)
    requires 0.0 < stop < entry && 0.0 < amount && raw * (entry - stop) == amount * entry
    ensures raw > amount
  {
  }

  lemma {:induction false} FractionOfBudget(raw: real, final: real, d: real, entry: real, equity: real, risk: real)
    requires 0.0 < d && 0.0 < entry && 0.0 < equity
    requires raw * d == equity * (risk / 100.0) * entry
    ensures d / entry * 100.0 * (final / equity) <= risk <==> final <= raw
  {
    var c := d / entry * 100.0 / equity;
    CostOfRaw(raw, d, entry, equity, risk);
    assert c > 0.0 && d / entry * 100.0 * (final / equity) == final * c;
    if final <= raw {
      Scale(final, raw, c);
    } else {
      ScaleStrict(raw, final, c);
    }
  }

  lemma {:induction false} CostOfRaw(raw: real, d: real, entry: real, equity: real, risk: real)
    requires 0.0 < d && 0.0 < entry && 0.0 < equity
    requires raw * d == equity * (risk / 100.0) * entry
    ensures raw * (d / entry * 100.0 / equity) == risk
    ensures d / entry * 100.0 / equity > 0.0
  {
  }

  /** The share of the account, in percent, that a stop `d` below `entry` costs at size fraction `size`. */
  function StopCost(d: real, entry: Price, size: real): real {
    d / entry * 100.0 * size
  }

  lemma {:induction false} Opposite(d: real, entry: Price, stop: real, size: real)
    requires d == entry - stop
    ensures PnlPercent(entry, stop) * size == -StopCost(d, entry, size)
  {
  }

  /** Whatever the settings, a stop costs at most the configured risk per trade iff the minimum size did not lift it. */
  lemma {:induction false} StopCostsAtMostRiskIff(raw: real, entry: Price, stop: real, cfg: Config)
    requires stop < entry && raw * (entry - stop) == RiskAmount(cfg.strategy, cfg.equity) * entry
    ensures StopCost(entry - stop, entry, SizeFraction(raw, cfg)) <= cfg.strategy.limits.riskPerTrade
            <==> !(raw < cfg.strategy.minSize && raw < cfg.strategy.maxSize)
  {
    var st := cfg.strategy;
    var final := PositionSizing.FinalSize(raw, st.minSize, st.maxSize);
    PositionSizing.RaisedExactlyBelowBoth(raw, st.minSize, st.maxSize);
    hide PositionSizing.FinalSize;
    FractionOfBudget(raw, final, entry - stop, entry, cfg.equity, st.limits.riskPerTrade);
  }

  lemma {:induction false} StopCostBound(raw: real, entry: Price, stop: real, cfg: Config)
    requires Prudent(cfg) && 0.0 < stop < entry && raw * (entry - stop) == RiskAmount(cfg.strategy, cfg.equity) * entry
    ensures StopCost(entry - stop, entry, SizeFraction(raw, cfg)) <= cfg.strategy.limits.riskPerTrade
  {
    BudgetPositive(cfg);
    HittableStopIsNotLifted(raw, entry, stop, RiskAmount(cfg.strategy, cfg.equity));
    StopCostsAtMostRiskIff(raw, entry, stop, cfg);
    hide StopCost, SizeFraction, RiskAmount;
  }

  lemma {:induction false} StopLossBound(o: OpenTrade, bars: seq<Bar>, cfg: Config)
    requires SoundOpen(o, bars, cfg) && Prudent(cfg) && 0.0 < o.stop
    ensures PnlPercent(o.entry, o.stop) * o.sizeFraction >= -cfg.strategy.limits.riskPerTrade
  {
    var d := o.entry - o.stop;
    var raw: real :| SizedFrom(raw, o, cfg);
    StopCostBound(raw, o.entry, o.stop, cfg);
    hide StopCost, SizeFraction, PnlPercent, SoundOpen, Prudent;
    Opposite(d, o.entry, o.stop, o.sizeFraction);
  }

  lemma {:induction false} SizePositive(raw: real, d: real, entry: Price, cfg: Config)
    requires Prudent(cfg) && 0.0 < d && raw * d == RiskAmount(cfg.strategy, cfg.equity) * entry
    ensures SizeFraction(raw, cfg) >= 0.0
  {
    var st, amount := cfg.strategy, RiskAmount(cfg.strategy, cfg.equity);
    BudgetPositive(cfg);
    ScaleStrict(0.0, amount, entry);
    UnscaleStrict(0.0, raw, d);
    var final := PositionSizing.FinalSize(raw, st.minSize, st.maxSize);
    assert final >= 0.0;
    DivMul(final, cfg.equity);
    Unscale(0.0, final / cfg.equity, cfg.equity);
  }

  lemma {:induction false} TargetPays(entry: Price, stop: real, target: real, rr: real)
    requires stop < entry && rr > 0.0 && target - entry == rr * (entry - stop)
    ensures PnlPercent(entry, target) >= 0.0
  {
  }

  lemma {:induction false} TargetGains(o: OpenTrade, bars: seq<Bar>, cfg: Config)
    requires SoundOpen(o, bars, cfg) && Prudent(cfg)
    ensures PnlPercent(o.entry, o.target) * o.sizeFraction >= 0.0
  {
    var d := o.entry - o.stop;
    var raw: real :| SizedFrom(raw, o, cfg);
    SizePositive(raw, d, o.entry, cfg);
    TargetPays(o.entry, o.stop, o.target, cfg.strategy.takeProfitRr);
    hide PnlPercent, SizeFraction, SoundOpen, Prudent;
    Scale(0.0, PnlPercent(o.entry, o.target), o.sizeFraction);
  }

  /** One close costs the account at most the configured risk per trade. */
  lemma {:induction false} CloseCostsAtMostRisk(o: OpenTrade, front: seq<Bar>, bar: Bar, cfg: Config)
    requires SoundOpen(o, front, cfg) && Prudent(cfg) && bar.kline.low > 0.0
    ensures var exit := ResolveIntrabarExit(bar, o.stop, o.target);
            exit.Some? ==> PnlPercent(o.entry, exit.value.0) * o.sizeFraction >= -cfg.strategy.limits.riskPerTrade
  {
    var exit := ResolveIntrabarExit(bar, o.stop, o.target);
    hide SoundOpen, PnlPercent;
    if exit.Some? {
      if exit.value.1 == StopLoss {
        StopLossBound(o, front, cfg);
      } else {
        TargetGains(o, front, cfg);
      }
    }
  }

  /** Not frozen means above the limit; a freeze is at most one trade below it; nothing is open while frozen. */
  ghost predicate Solvent(s: State, cfg: Config) {
    var limit, risk := Abs(cfg.strategy.limits.dailyLoss), cfg.strategy.limits.riskPerTrade;
    && s.risk.dailyPnl > -(limit + risk)
    && (!s.risk.frozen ==> s.risk.dailyPnl > -limit)
    && (s.risk.frozen ==> s.open == None)
  }

  lemma {:induction false} SeekKeepsResult(s: State, i: nat, bar: Bar, snap: Option<FeatureStore.Snapshot>, cfg: Config)
    requires RiskHoldsOpenTrade(s, cfg) && s.open.None?
    ensures var s' := Seek(s, i, bar, snap, cfg);
            && s'.trades == s.trades
            && s'.risk.dailyPnl == s.risk.dailyPnl && s'.risk.frozen == s.risk.frozen
            && (s.risk.frozen ==> s'.open == None)
            && (Solvent(s, cfg) ==> Solvent(s', cfg))
  {
    hide Risk.Heat, Risk.Put, Risk.Reasons, PessimisticFill;
  }

  lemma ResultOf(o: OpenTrade, i: nat, exit: real, state: ExitState)
    ensures OfAccount(CloseTrade(o, i, exit, state), o) == PnlPercent(o.entry, exit) * o.sizeFraction
  {
  }

  lemma {:induction false} ManageSolvent(s: State, o: OpenTrade, front: seq<Bar>, bar: Bar, cfg: Config)
    requires s.open == Some(o) && Solvent(s, cfg) && SoundOpen(o, front, cfg) && Prudent(cfg) && bar.kline.low > 0.0
    requires s.risk.resetDate == cfg.today
    ensures Solvent(Manage(s, o, |front|, bar, cfg), cfg)
  {
    CloseCostsAtMostRisk(o, front, bar, cfg);
    var exit := ResolveIntrabarExit(bar, o.stop, o.target);
    hide SoundOpen, ResolveIntrabarExit, Risk.Without;
    if exit.Some? {
      ResultOf(o, |front|, exit.value.0, exit.value.1);
      var pnl := OfAccount(CloseTrade(o, |front|, exit.value.0, exit.value.1), o);
      hide PnlPercent, OfAccount, CloseTrade;
      assert pnl >= -cfg.strategy.limits.riskPerTrade;
    }
  }

  /**
    Over every bar sequence with positive lows, the accumulated result of the day never reaches minus the loss limit
    plus one trade's risk.
   */
  lemma {:induction false} CapitalBound(bars: seq<Bar>, cfg: Config)
    requires SoundGates(cfg) && Prudent(cfg) && Metrics.PositiveLows(bars)
    ensures Solvent(After(bars, cfg), cfg)
  {
    if bars != [] {
      var n := |bars| - 1;
      var front := bars[..n];
      assert forall i | 0 <= i < n :: front[i] == bars[i];
      CapitalBound(front, cfg);
      BarsAreAccounted(front, cfg);
      TradesAreSound(front, cfg);
      var s := After(front, cfg);
      hide SoundGates, SoundTrade, SoundOpen, BarsAddUp, Separated, Manage, Seek, Prudent, Solvent, SnapshotAfter;
      if s.open.Some? {
        ManageSolvent(s, s.open.value, front, bars[n], cfg);
      } else {
        SeekKeepsResult(s, n, bars[n], SnapshotAfter(bars, cfg.key), cfg);
      }
    }
  }

  ghost predicate Halted(s: State, s': State) {
    s'.trades == s.trades && s'.open == None && s'.risk.frozen && s'.risk.dailyPnl == s.risk.dailyPnl
  }

  lemma {:induction false} AfterOneMore(front: seq<Bar>, bar: Bar, cfg: Config)
    ensures After(front + [bar], cfg)
            == Step(After(front, cfg), |front|, bar, SnapshotAfter(front + [bar], cfg.key), cfg)
  {
    assert (front + [bar])[..|front|] == front;
  }

  /** The freeze comes with a close, and nothing opens after it. */
  lemma {:induction false} FrozenHasNothingOpen(bars: seq<Bar>, cfg: Config)
    ensures After(bars, cfg).risk.frozen ==> After(bars, cfg).open == None
  {
    if bars != [] {
      var n := |bars| - 1;
      var front := bars[..n];
      FrozenHasNothingOpen(front, cfg);
      BarsAreAccounted(front, cfg);
      var s := After(front, cfg);
      hide BarsAddUp, Separated, SnapshotAfter, Seek, ResolveIntrabarExit, OfAccount, CloseTrade, Risk.Without;
      if s.open.None? {
        SeekKeepsResult(s, n, bars[n], SnapshotAfter(bars, cfg.key), cfg);
      }
    }
  }

  /** Once frozen, no further bar opens, closes or changes anything that counts. */
  lemma {:induction false} FrozenStopsTrading(bars: seq<Bar>, more: seq<Bar>, cfg: Config)
    requires After(bars, cfg).risk.frozen
    ensures Halted(After(bars, cfg), After(bars + more, cfg))
  {
    FrozenHasNothingOpen(bars, cfg);
    hide After, Seek, Manage, BarsAddUp, Separated;
    if more == [] {
      assert bars + more == bars;
    } else {
      var m := |more| - 1;
      var front := bars + more[..m];
      FrozenStopsTrading(bars, more[..m], cfg);
      BarsAreAccounted(front, cfg);
      assert bars + more == front + [more[m]];
      AfterOneMore(front, more[m], cfg);
      SeekKeepsResult(After(front, cfg), |front|, more[m], SnapshotAfter(bars + more, cfg.key), cfg);
    }
  }

  /** A bar that falls through the stop of a trade filled at 100.02. */
  const CRASH := Bar(Binance, "S", Kline(60.0, 60.0, 50.0, 50.0, 1.0, 1.0, 0.0, 1, true))

  /**
    Without a minimum size within the risk budget the bound fails: a position lifted from 200 to 5000 loses a quarter of
    the account at its stop, where the loss limit and one trade's risk add up to four percent.
   */
  lemma {:induction false} LiftedStopBreaksBound()
    ensures var cfg := EagerConfig(5000.0);
            && SoundGates(cfg) && Metrics.PositiveLows([GAP, CRASH])
            && After([GAP, CRASH], cfg).risk.dailyPnl == -25.0
            && !Solvent(After([GAP, CRASH], cfg), cfg)
  {
    var cfg := EagerConfig(5000.0);
    EagerIsSound(5000.0);
    EagerEntry(5000.0);
    hide After, SoundGates, SnapshotAfter;
    AfterOneMore([GAP], CRASH, cfg);
    var s := After([GAP], cfg);
    assert [GAP] + [CRASH] == [GAP, CRASH];
    assert Step(s, 1, CRASH, SnapshotAfter([GAP, CRASH], cfg.key), cfg) == Manage(s, s.open.value, 1, CRASH, cfg);
    assert PnlPercent(100.02, 50.01) == -50.0;
  }
}
