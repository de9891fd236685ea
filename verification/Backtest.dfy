/** The backtest engine's pass over a list of bars, with its own feature store and risk engine. */
module Backtest {
  import opened Prelude
  import opened FeatureEngine
  import opened FeatureStore
  import opened SignalEngine
  import opened BacktestModel
  import Risk

  datatype Report = Report(symbol: string, totalBars: nat, trades: seq<Trade>, noTradeCount: nat, rejectedCount: nat)

  /** The gates of the signal engine, over whatever the quant score and breakout trigger make of a snapshot. */
  lemma SignalEngineGatesAreSound(cfg: Config, inputs: (Snapshot, real) -> Inputs, root: real -> real)
    requires forall s, p :: cfg.gates(s, p) == Gates(inputs(s, p), p, cfg.strategy, cfg.equity, root)
    ensures SoundGates(cfg)
  {
    forall s, p
      ensures cfg.gates(s, p).Passed? ==> SoundPlan(cfg.gates(s, p).plan, p, cfg.strategy, cfg.equity)
    {
      GatesMakeSoundPlans(inputs(s, p), p, cfg.strategy, cfg.equity, root);
    }
  }

  function DollarVolume24h(s: Snapshot): Option<real> {
    if s.ticker.Some? && s.ticker.value.payload.MarketTicker? then s.ticker.value.payload.volume24hQuote else None
  }

  /** The real gates need a ticker, because a score without the 24h volume component is not computable. */
  lemma SignalEngineNeedsTicker(cfg: Config, inputs: (Snapshot, real) -> Inputs, root: real -> real)
    requires forall s, p :: cfg.gates(s, p) == Gates(inputs(s, p), p, cfg.strategy, cfg.equity, root)
    requires forall s, p :: inputs(s, p).score.Some? ==> DollarVolume24h(s).Some?
    ensures NeedsTicker(cfg)
  {
    forall s: Snapshot, p: real | s.ticker.None?
      ensures cfg.gates(s, p) == Stopped(MissingComponent)
    {
      assert inputs(s, p).score.None?;
    }
  }

  /** They also need a breakout, because the trigger asks for a price at or above the level. */
  lemma SignalEngineNeedsBreakout(cfg: Config, inputs: (Snapshot, real) -> Inputs, root: real -> real,
                                  multiplier: real, lookback: nat, atrPeriod: nat)
    requires lookback > 0
    requires forall s, p :: cfg.gates(s, p) == Gates(inputs(s, p), p, cfg.strategy, cfg.equity, root)
    requires forall s, p | inputs(s, p).triggered ::
               var b := Breakout(s.klines, p, multiplier, lookback, atrPeriod);
               b.Some? && b.value.buffer > 0.0 && p >= b.value.level
    ensures NeedsBreakout(cfg, multiplier, lookback, atrPeriod)
  {
    hide Breakout;
    forall s: Snapshot, p: real | !cfg.gates(s, p).Stopped?
      ensures inputs(s, p).triggered
    {
    }
  }

  class BacktestEngine {
    const cfg: Config

    constructor (cfg: Config)
      ensures this.cfg == cfg
    {
      this.cfg := cfg;
    }

    /** A bar while a trade is open; the trade is closed if the bar touches one of its levels. */
    method ManageBar(o: OpenTrade, i: nat, bar: Bar, riskEngine: Risk.RiskEngine, ghost s: State)
      returns (closed: Option<Trade>)
      requires s.open == Some(o) && riskEngine.View() == s.risk && riskEngine.limits == cfg.strategy.limits
      modifies riskEngine
      ensures var s' := Manage(s, o, i, bar, cfg);
              && riskEngine.View() == s'.risk
              && s'.trades == s.trades + (if closed.Some? then [closed.value] else [])
              && s'.open == (if closed.Some? then None else Some(o))
              && s'.noTrade == s.noTrade && s'.rejected == s.rejected
    {
      hide PnlPercent, RMultiple, Risk.Without;
      closed := None;
      var exit := ResolveIntrabarExit(bar, o.stop, o.target);
      if exit.Some? {
        var t := CloseTrade(o, i, exit.value.0, exit.value.1);
        riskEngine.RegisterClosedPosition(o.id, t.pnlPercent * o.sizeFraction, cfg.today);
        closed := Some(t);
      }
    }

    /** A bar while no trade is open. If none is `entered`, `rejected` says how the bar counts. */
    method SeekBar(i: nat, bar: Bar, snapshot: Snapshot, riskEngine: Risk.RiskEngine, ghost s: State)
      returns (entered: Option<OpenTrade>, rejected: bool)
      requires s.open == None && riskEngine.View() == s.risk && riskEngine.limits == cfg.strategy.limits
      modifies riskEngine
      ensures var s' := Seek(s, i, bar, Some(snapshot), cfg);
              && riskEngine.View() == s'.risk && s'.open == entered && s'.trades == s.trades
              && s'.noTrade == s.noTrade + (if entered.None? && !rejected then 1 else 0)
              && s'.rejected == s.rejected + (if rejected then 1 else 0)
    {
      hide Conclude, PessimisticFill, Risk.Put;
      entered, rejected := None, false;
      var d := ConcludeWith(cfg.gates(snapshot, bar.kline.close), riskEngine, false, cfg.today);
      if d.FrictionRejected? || d.RiskRejected? {
        rejected := true;
        return;
      }
      if !d.EntryPending? {
        return;
      }
      var fill := PessimisticFill(bar, d.plan.breakoutLevel, cfg.penetrationPercent);
      if fill.None? {
        return;
      }
      var filled := ConcludeWith(cfg.gates(snapshot, fill.value), riskEngine, false, cfg.today);
      if !filled.EntryPending? {
        return;
      }
      var p := filled.plan;
      riskEngine.RegisterOpenPosition(cfg.ids(i), cfg.key.1);
      entered := Some(OpenTrade(cfg.ids(i), i, p.entry, p.stopLoss, p.takeProfit, p.finalSize / cfg.equity));
    }

    /** One turn of the loop over the bars, after the bar was put into the store. */
    method Advance(open0: Option<OpenTrade>, trades0: seq<Trade>, noTrade0: nat, rejected0: nat,
                   i: nat, bar: Bar, snapshot: Option<Snapshot>, riskEngine: Risk.RiskEngine, ghost s: State)
      returns (open: Option<OpenTrade>, trades: seq<Trade>, noTrade: nat, rejected: nat)
      requires s == State(open0, trades0, noTrade0, rejected0, riskEngine.View())
      requires riskEngine.limits == cfg.strategy.limits
      modifies riskEngine
      ensures State(open, trades, noTrade, rejected, riskEngine.View()) == Step(s, i, bar, snapshot, cfg)
    {
      hide Manage, Seek;
      open, trades, noTrade, rejected := open0, trades0, noTrade0, rejected0;
      if open.Some? {
        var closed := ManageBar(open.value, i, bar, riskEngine, s);
        if closed.Some? {
          trades, open := trades + [closed.value], None;
        }
      } else if snapshot.None? {
        noTrade := noTrade + 1;
        NoSnapshot(s, i, bar);
      } else {
        var rejectedNow;
        open, rejectedNow := SeekBar(i, bar, snapshot.value, riskEngine, s);
        if rejectedNow {
          rejected := rejected + 1;
        } else if open.None? {
          noTrade := noTrade + 1;
        }
      }
    }

    method Observe(store: FeatureStore, ghost bars: seq<Bar>, i: nat, bar: Bar) returns (snapshot: Option<Snapshot>)
      requires i < |bars| && bars[i] == bar
      requires store.Valid() && store.window == DEFAULT_KLINE_WINDOW && store.View() == StoreAfter(bars[..i])
      modifies store, store.states.Values
      ensures store.Valid() && store.View() == StoreAfter(bars[..i + 1])
      ensures fresh(store.states.Values - old(store.states.Values))
      ensures snapshot == SnapshotAfter(bars[..i + 1], cfg.key)
    {
      hide Ingested, StoreAfter, After;
      OneBarMore(bars, i);
      store.Ingest(bar.AsEvent());
      var state := store.Get(cfg.key);
      snapshot := if state == null then None else Some(state.View());
    }

    /** The store and the risk engine are where the first `i` bars leave them. */
    ghost predicate InStep(store: FeatureStore, riskEngine: Risk.RiskEngine, bars: seq<Bar>, i: nat, s: State)
      reads store, store.states.Values, riskEngine
    {
      && i <= |bars|
      && store.Valid() && store.window == DEFAULT_KLINE_WINDOW && store.View() == StoreAfter(bars[..i])
      && riskEngine.limits == cfg.strategy.limits && riskEngine.View() == s.risk
      && s == After(bars[..i], cfg)
    }

    method ProcessBar(store: FeatureStore, riskEngine: Risk.RiskEngine, ghost bars: seq<Bar>, i: nat, bar: Bar,
                      open0: Option<OpenTrade>, trades0: seq<Trade>, noTrade0: nat, rejected0: nat)
      returns (open: Option<OpenTrade>, trades: seq<Trade>, noTrade: nat, rejected: nat)
      requires i < |bars| && bars[i] == bar
      requires InStep(store, riskEngine, bars, i, State(open0, trades0, noTrade0, rejected0, riskEngine.View()))
      modifies store, store.states.Values, riskEngine
      ensures InStep(store, riskEngine, bars, i + 1, State(open, trades, noTrade, rejected, riskEngine.View()))
      ensures fresh(store.states.Values - old(store.states.Values))
    {
      hide Step, StoreAfter, After, SnapshotAfter;
      OneBarMore(bars, i);
      ghost var s := After(bars[..i], cfg);
      var snapshot := Observe(store, bars, i, bar);
      open, trades, noTrade, rejected := Advance(open0, trades0, noTrade0, rejected0, i, bar, snapshot, riskEngine, s);
    }

    method Run(bars: seq<Bar>) returns (report: Report)
      ensures var s := After(bars, cfg);
              report == Report(cfg.key.1, |bars|, s.trades, s.noTrade, s.rejected)
    {
      var store := new FeatureStore(DEFAULT_KLINE_WINDOW);
      var riskEngine := new Risk.RiskEngine(cfg.strategy.limits, cfg.today);
      var trades: seq<Trade>, noTrade: nat, rejected: nat, open: Option<OpenTrade> := [], 0, 0, None;
      NothingFed();
      for i := 0 to |bars|
        invariant fresh(store) && fresh(riskEngine) && fresh(store.states.Values)
        invariant InStep(store, riskEngine, bars, i, State(open, trades, noTrade, rejected, riskEngine.View()))
      {
        hide InStep;
        open, trades, noTrade, rejected :=
          ProcessBar(store, riskEngine, bars, i, bars[i], open, trades, noTrade, rejected);
      }
      assert bars[..|bars|] == bars;
      report := Report(cfg.key.1, |bars|, trades, noTrade, rejected);
    }

    lemma NoSnapshot(s: State, i: nat, bar: Bar)
      ensures Seek(s, i, bar, None, cfg) == s.(noTrade := s.noTrade + 1)
    {
    }

    lemma NothingFed()
      ensures StoreAfter([]) == map[]
    {
    }

    lemma OneBarMore(bars: seq<Bar>, i: nat)
      requires i < |bars|
      ensures StoreAfter(bars[..i + 1]) == Ingested(StoreAfter(bars[..i]), bars[i].AsEvent(), DEFAULT_KLINE_WINDOW)
      ensures After(bars[..i + 1], cfg)
              == Step(After(bars[..i], cfg), i, bars[i], SnapshotAfter(bars[..i + 1], cfg.key), cfg)
    {
      assert bars[..i + 1][..i] == bars[..i];
      var fed := EventsOf(bars[..i + 1]);
      assert fed[..i] == EventsOf(bars[..i]) && fed[i] == bars[i].AsEvent();
    }
  }
}
