/**
  The bar-by-bar backtest loop as a state machine, and the books it keeps over every bar sequence. The gates
  before the risk check are any function that only lets sound plans through.
 */
module BacktestModel {
  import opened Prelude
  import opened Events
  import opened FeatureEngine
  import opened FeatureStore
  import opened SignalEngine
  import Friction
  import PositionSizing
  import Risk

  datatype Bar = Bar(exchange: Exchange, symbol: string, kline: Kline) {
    function AsEvent(): Event {
      Event(exchange, symbol, ClassifyPriority(KlineData(kline), false), KlineData(kline))
    }
  }

  /** `ids` names the signal evaluated at the fill of each bar; `gates` reads the store's view of the symbol. */
  datatype Config = Config(
    strategy: Strategy, key: Key, equity: Price, penetrationPercent: real, today: int,
    ids: nat -> string, gates: (Snapshot, real) -> GateResult)

  ghost predicate SoundGates(cfg: Config) {
    forall s, p :: cfg.gates(s, p).Passed? ==> SoundPlan(cfg.gates(s, p).plan, p, cfg.strategy, cfg.equity)
  }

  datatype ExitState = TakeProfit | StopLoss

  datatype OpenTrade = OpenTrade(id: string, entryBar: nat, entry: Price, stop: real, target: real, sizeFraction: real)

  datatype Trade = Trade(
    entryBar: nat, exitBar: nat, entry: Price, exit: real, stop: real, target: real,
    state: ExitState, pnlPercent: real, rMultiple: real)

  datatype State = State(
    open: Option<OpenTrade>, trades: seq<Trade>, noTrade: nat, rejected: nat, risk: Risk.RiskState)

  function Initial(cfg: Config): State {
    State(None, [], 0, 0, Risk.Initial(cfg.today))
  }

  function PnlPercent(entry: Price, exit: real): real {
    (exit - entry) / entry * 100.0
  }

  function RMultiple(entry: Price, stop: real, exit: real): real {
    var riskPercent := Abs(entry - stop) / entry * 100.0;
    if riskPercent > 0.0 then PnlPercent(entry, exit) / riskPercent else 0.0
  }

  function ResolveIntrabarExit(bar: Bar, stop: real, target: real): Option<(real, ExitState)> {
    var hitStop, hitTarget := bar.kline.low <= stop, bar.kline.high >= target;
    if hitStop && hitTarget then Some((stop, StopLoss))
    else if hitStop then Some((stop, StopLoss))
    else if hitTarget then Some((target, TakeProfit))
    else None
  }

  function PessimisticFill(bar: Bar, level: Option<real>, penetrationPercent: real): Option<real> {
    if level.None? then None
    else
      var fill := level.value + level.value * (penetrationPercent / 100.0);
      if bar.kline.high >= fill then Some(fill) else None
  }

  function CloseTrade(o: OpenTrade, i: nat, exit: real, state: ExitState): Trade {
    Trade(o.entryBar, i, o.entry, exit, o.stop, o.target, state,
          PnlPercent(o.entry, exit), RMultiple(o.entry, o.stop, exit))
  }

  /** A result in percent of the position, as a percentage of the account. */
  function OfAccount(t: Trade, o: OpenTrade): real {
    t.pnlPercent * o.sizeFraction
  }

  /** A bar while a trade is open. */
  function Manage(s: State, o: OpenTrade, i: nat, bar: Bar, cfg: Config): State {
    match ResolveIntrabarExit(bar, o.stop, o.target)
    case None => s
    case Some((exit, state)) =>
      var t := CloseTrade(o, i, exit, state);
      s.(open := None, trades := s.trades + [t],
         risk := Risk.Closed(s.risk, cfg.strategy.limits, o.id, OfAccount(t, o), cfg.today))
  }

  /** A bar while no trade is open: evaluate at the close, then again at the fill. */
  function Seek(s: State, i: nat, bar: Bar, snap: Option<Snapshot>, cfg: Config): State {
    if snap.None? then s.(noTrade := s.noTrade + 1)
    else
      var (d, r) := Conclude(cfg.gates(snap.value, bar.kline.close), s.risk, cfg.strategy.limits, false, cfg.today);
      match d
      case FrictionRejected => s.(rejected := s.rejected + 1, risk := r)
      case RiskRejected(_) => s.(rejected := s.rejected + 1, risk := r)
      case NoTrade(_) => s.(noTrade := s.noTrade + 1, risk := r)
      case EntryPending(plan) =>
        var fill := PessimisticFill(bar, plan.breakoutLevel, cfg.penetrationPercent);
        if fill.None? then s.(noTrade := s.noTrade + 1, risk := r)
        else
          var (d2, r2) := Conclude(cfg.gates(snap.value, fill.value), r, cfg.strategy.limits, false, cfg.today);
          if !d2.EntryPending? then s.(noTrade := s.noTrade + 1, risk := r2)
          else
            var p := d2.plan;
            s.(open := Some(OpenTrade(cfg.ids(i), i, p.entry, p.stopLoss, p.takeProfit, p.finalSize / cfg.equity)),
               risk := Risk.Opened(r2, cfg.strategy.limits, cfg.ids(i), cfg.key.1))
  }

  function Step(s: State, i: nat, bar: Bar, snap: Option<Snapshot>, cfg: Config): State {
    if s.open.Some? then Manage(s, s.open.value, i, bar, cfg) else Seek(s, i, bar, snap, cfg)
  }

  function EventsOf(bars: seq<Bar>): seq<Event> {
    seq(|bars|, i requires 0 <= i < |bars| => bars[i].AsEvent())
  }

  function StoreAfter(bars: seq<Bar>): StoreView {
    IngestedAll(map[], EventsOf(bars), DEFAULT_KLINE_WINDOW)
  }

  function SnapshotAfter(bars: seq<Bar>, key: Key): Option<Snapshot> {
    var v := StoreAfter(bars);
    if key in v then Some(v[key]) else None
  }

  function After(bars: seq<Bar>, cfg: Config): State {
    if bars == [] then Initial(cfg)
    else
      var n := |bars| - 1;
      Step(After(bars[..n], cfg), n, bars[n], SnapshotAfter(bars, cfg.key), cfg)
  }

  // ----- bar accounting ----------------------------------------------------------------------------

  function BarsHeld(trades: seq<Trade>): int {
    if trades == [] then 0
    else
      var t := trades[|trades| - 1];
      BarsHeld(trades[..|trades| - 1]) + t.exitBar - t.entryBar + 1
  }

  ghost predicate BarsAddUp(s: State, n: nat) {
    && (s.open.Some? ==> s.open.value.entryBar < n)
    && n == s.noTrade + s.rejected + BarsHeld(s.trades) + if s.open.Some? then n - s.open.value.entryBar else 0
  }

  /** One trade at a time, each over before the next begins. */
  ghost predicate Separated(s: State, n: nat) {
    && (forall k | 0 <= k < |s.trades| :: s.trades[k].entryBar < s.trades[k].exitBar < n)
    && (forall k, l | 0 <= k < l < |s.trades| :: s.trades[k].exitBar < s.trades[l].entryBar)
    && (s.open.Some? ==> s.open.value.entryBar < n
                         && forall k | 0 <= k < |s.trades| :: s.trades[k].exitBar < s.open.value.entryBar)
  }

  /** The risk engine holds exactly the open trade, or nothing. */
  ghost predicate RiskHoldsOpenTrade(s: State, cfg: Config) {
    && s.risk.resetDate == cfg.today
    && s.risk.open == if s.open.Some?
        then [Risk.OpenRisk(s.open.value.id, cfg.key.1, cfg.strategy.limits.riskPerTrade)] else []
  }

  lemma {:induction false} RiskOfOne(e: Risk.OpenRisk)
    ensures Risk.Put([], e) == [e] && Risk.Without([e], e.id) == []
  {
    assert [e][..0] == [];
    assert Risk.Find([e], e.id) == 0;
  }

  /** The possible outcomes of one bar, without the details of the decision. */
  lemma {:induction false} StepShape(s: State, i: nat, bar: Bar, snap: Option<Snapshot>, cfg: Config)
    requires RiskHoldsOpenTrade(s, cfg)
    ensures var s' := Step(s, i, bar, snap, cfg);
            && RiskHoldsOpenTrade(s', cfg)
            && (s.open.Some? ==>
                  var o := s.open.value;
                  var exit := ResolveIntrabarExit(bar, o.stop, o.target);
                  && s'.noTrade == s.noTrade && s'.rejected == s.rejected
                  && (exit.None? ==> s' == s)
                  && (exit.Some? ==>
                        && s'.open == None
                        && s'.trades == s.trades + [CloseTrade(o, i, exit.value.0, exit.value.1)]))
            && (s.open.None? ==>
                  && s'.trades == s.trades
                  && (s'.open.Some? ==>
                        s'.open.value.entryBar == i && s'.noTrade == s.noTrade && s'.rejected == s.rejected)
                  && (s'.open.None? ==> s'.noTrade + s'.rejected == s.noTrade + s.rejected + 1))
  {
    hide CloseTrade, Risk.Allowed, Risk.Reasons, PessimisticFill, Risk.Without, Risk.Put;
    if s.open.Some? {
      hide ResolveIntrabarExit;
      RiskOfOne(s.risk.open[0]);
    } else {
      RiskOfOne(Risk.OpenRisk(cfg.ids(i), cfg.key.1, cfg.strategy.limits.riskPerTrade));
    }
  }

  ghost predicate Booked(s: State, n: nat, cfg: Config) {
    BarsAddUp(s, n) && Separated(s, n) && RiskHoldsOpenTrade(s, cfg)
  }

  lemma {:induction false} AddsUpStep(s: State, i: nat, bar: Bar, snap: Option<Snapshot>, cfg: Config)
    requires BarsAddUp(s, i) && RiskHoldsOpenTrade(s, cfg)
    ensures BarsAddUp(Step(s, i, bar, snap, cfg), i + 1)
  {
    StepShape(s, i, bar, snap, cfg);
    var s' := Step(s, i, bar, snap, cfg);
    hide Step, RiskHoldsOpenTrade, ResolveIntrabarExit, PnlPercent, RMultiple;
    if |s'.trades| > |s.trades| {
      assert s'.trades[..|s.trades|] == s.trades;
    }
  }

  lemma {:induction false} SeparatedStep(s: State, i: nat, bar: Bar, snap: Option<Snapshot>, cfg: Config)
    requires Separated(s, i) && RiskHoldsOpenTrade(s, cfg)
    ensures Separated(Step(s, i, bar, snap, cfg), i + 1)
  {
    StepShape(s, i, bar, snap, cfg);
    hide Step, RiskHoldsOpenTrade, ResolveIntrabarExit, PnlPercent, RMultiple;
  }

  lemma {:induction false} BookedStep(s: State, i: nat, bar: Bar, snap: Option<Snapshot>, cfg: Config)
    requires Booked(s, i, cfg)
    ensures Booked(Step(s, i, bar, snap, cfg), i + 1, cfg)
  {
    AddsUpStep(s, i, bar, snap, cfg);
    SeparatedStep(s, i, bar, snap, cfg);
    StepShape(s, i, bar, snap, cfg);
    hide Step, BarsAddUp, Separated, RiskHoldsOpenTrade;
  }

  /**
    Over every bar sequence: each bar is counted exactly once as no-trade, rejected, or part of a trade held from
    its entry bar to its exit bar; trades are strictly separated in time; and the risk engine holds
    exactly the open trade or nothing.
   */
  lemma {:induction false} BarsAreAccounted(bars: seq<Bar>, cfg: Config)
    ensures Booked(After(bars, cfg), |bars|, cfg)
  {
    if bars != [] {
      var n := |bars| - 1;
      BarsAreAccounted(bars[..n], cfg);
      BookedStep(After(bars[..n], cfg), n, bars[n], SnapshotAfter(bars, cfg.key), cfg);
    }
  }

  // ----- fed with candles alone --------------------------------------------------------------------

  /** The engine ingests candles only, so no symbol it knows ever has a ticker or a book ticker. */
  lemma {:induction false} CandlesBringNoTicker(bars: seq<Bar>, key: Key)
    ensures var s := SnapshotAfter(bars, key); s.Some? ==> s.value.ticker.None? && s.value.bookTicker.None?
  {
    var es := EventsOf(bars);
    StoreIsHistory(es, key, DEFAULT_KLINE_WINDOW);
    assert forall i | 0 <= i < |es| :: es[i] == bars[i].AsEvent() && es[i].payload.KlineData?;
    var s := SnapshotAfter(bars, key);
    hide IngestedAll, ClosedOf;
    if s.Some? {
      assert IsNewest(es, key, TickerFeed, Latest(s.value, TickerFeed));
      assert IsNewest(es, key, BookFeed, Latest(s.value, BookFeed));
    }
  }

  /** A quant score without the 24h volume of a ticker is not computable. */
  ghost predicate NeedsTicker(cfg: Config) {
    forall s: Snapshot, p: real | s.ticker.None? :: cfg.gates(s, p) == Stopped(MissingComponent)
  }

  /** So with gates that need it a backtest never trades and never rejects: every bar counts as no-trade. */
  lemma {:induction false} CandlesAloneNeverTrade(bars: seq<Bar>, cfg: Config)
    requires NeedsTicker(cfg)
    ensures After(bars, cfg) == Initial(cfg).(noTrade := |bars|)
  {
    if bars != [] {
      CandlesAloneNeverTrade(bars[..|bars| - 1], cfg);
      CandlesBringNoTicker(bars, cfg.key);
      hide SnapshotAfter, PessimisticFill;
    }
  }

  lemma EagerIsSound(minSize: real)
    ensures SoundGates(EagerConfig(minSize))
  {
  }

  lemma {:induction false} SnapshotOfOne(bar: Bar)
    ensures SnapshotAfter([bar], (bar.exchange, bar.symbol)).Some?
  {
    var es := EventsOf([bar]);
    assert es[0] == bar.AsEvent();
    StoreIsHistory(es, (bar.exchange, bar.symbol), DEFAULT_KLINE_WINDOW);
    hide IngestedAll, ClosedOf;
  }

  /** The eager gates enter on the gapping bar, at a price below everything it traded. */
  lemma {:induction false} EagerEntry(minSize: real)
    ensures var cfg := EagerConfig(minSize);
            var size := MaxR(200.0, minSize);
            && After([GAP], cfg).open == Some(OpenTrade("", 0, 100.02, 50.01, 200.04, size / 10000.0))
            && After([GAP], cfg).risk == Risk.Initial(0).(open := [Risk.OpenRisk("", "S", 1.0)])
            && 100.02 < GAP.kline.low
  {
    var cfg := EagerConfig(minSize);
    SnapshotOfOne(GAP);
    GapFillsBelowTheBar();
    assert [GAP][..0] == [];
    assert After([], cfg) == Initial(cfg);
    hide SnapshotAfter, PessimisticFill;
    assert Risk.Heat([]) == 0.0;
  }

  // ----- judged at its own close --------------------------------------------------------------------

  /** Closed candles of the key the engine trades, none closing above its own high. */
  ghost predicate OwnClosedBars(bars: seq<Bar>, cfg: Config) {
    forall i | 0 <= i < |bars| ::
      && (bars[i].exchange, bars[i].symbol) == cfg.key
      && bars[i].kline.isClosed && bars[i].kline.close <= bars[i].kline.high
  }

  /** The gates stop early unless the price is at or above a breakout level with a positive buffer. */
  ghost predicate NeedsBreakout(cfg: Config, multiplier: real, lookback: nat, atrPeriod: nat)
    requires lookback > 0
  {
    forall s: Snapshot, p: real | !cfg.gates(s, p).Stopped? ::
      var b := Breakout(s.klines, p, multiplier, lookback, atrPeriod);
      b.Some? && b.value.buffer > 0.0 && p >= b.value.level
  }

  lemma {:induction false} LatestIsOwnBar(bars: seq<Bar>, cfg: Config)
    requires bars != [] && OwnClosedBars(bars, cfg)
    ensures var s, k := SnapshotAfter(bars, cfg.key), bars[|bars| - 1].kline;
            s.Some? && s.value.klines != [] && s.value.klines[|s.value.klines| - 1] == k
  {
    var es, n := EventsOf(bars), |bars| - 1;
    assert es[n] == bars[n].AsEvent() && es[n].IsClosedKline() && es[n].Key() == cfg.key;
    StoreIsHistory(es, cfg.key, DEFAULT_KLINE_WINDOW);
    assert ClosedOf(es, cfg.key) == ClosedOf(es[..n], cfg.key) + [bars[n].kline];
    hide IngestedAll, ClosedOf, IsNewest;
  }

  /**
    A second reason, whatever the ticker: the latest candle is in the window of prior highs, so gates that need a
    breakout never pass at a bar's own close, and such a backtest never trades and never rejects.
   */
  lemma {:induction false} OwnCloseNeverTrades(
      bars: seq<Bar>, cfg: Config, multiplier: real, lookback: nat, atrPeriod: nat)
    requires lookback > 0 && NeedsBreakout(cfg, multiplier, lookback, atrPeriod) && OwnClosedBars(bars, cfg)
    ensures After(bars, cfg) == Initial(cfg).(noTrade := |bars|)
  {
    if bars != [] {
      var n := |bars| - 1;
      assert forall i | 0 <= i < n :: bars[..n][i] == bars[i];
      OwnCloseNeverTrades(bars[..n], cfg, multiplier, lookback, atrPeriod);
      LatestIsOwnBar(bars, cfg);
      var s := SnapshotAfter(bars, cfg.key).value;
      hide SnapshotAfter, PessimisticFill, OwnClosedBars, Breakout;
      CloseNeverBreaksOut(s.klines, multiplier, lookback, atrPeriod);
      assert cfg.gates(s, bars[n].kline.close).Stopped?;
    }
  }

  // ----- what the loop reports to the risk engine ------------------------------------------------------

  /** What a bar closes, in percent of the account: nothing, or the one open trade. */
  function StepResult(s: State, i: nat, bar: Bar): seq<real> {
    if s.open.None? then []
    else
      var o := s.open.value;
      var exit := ResolveIntrabarExit(bar, o.stop, o.target);
      if exit.None? then [] else [OfAccount(CloseTrade(o, i, exit.value.0, exit.value.1), o)]
  }

  /** The results of the closed trades, in order. */
  function Results(bars: seq<Bar>, cfg: Config): seq<real> {
    if bars == [] then []
    else
      var n := |bars| - 1;
      Results(bars[..n], cfg) + StepResult(After(bars[..n], cfg), n, bars[n])
  }

  lemma {:induction false} SeekKeepsBooks(s: State, i: nat, bar: Bar, snap: Option<Snapshot>, cfg: Config)
    requires s.risk.resetDate == cfg.today
    ensures var r := Seek(s, i, bar, snap, cfg).risk;
            r.dailyPnl == s.risk.dailyPnl && r.frozen == s.risk.frozen && r.resetDate == s.risk.resetDate
  {
    hide Risk.Heat, Risk.Put, Risk.Reasons, PessimisticFill;
  }

  lemma {:induction false} StepMirrors(s: State, i: nat, bar: Bar, snap: Option<Snapshot>, cfg: Config,
      results: seq<real>)
    requires Risk.Mirrors(s.risk, cfg.today, results, cfg.strategy.limits.dailyLoss)
    ensures Risk.Mirrors(Step(s, i, bar, snap, cfg).risk, cfg.today, results + StepResult(s, i, bar),
                         cfg.strategy.limits.dailyLoss)
  {
    hide Risk.LimitTouched, Risk.Closed, Sum, Seek, CloseTrade, OfAccount, ResolveIntrabarExit;
    assert results + [] == results;
    if s.open.None? {
      SeekKeepsBooks(s, i, bar, snap, cfg);
    } else {
      var o := s.open.value;
      var exit := ResolveIntrabarExit(bar, o.stop, o.target);
      if exit.Some? {
        var pnl := OfAccount(CloseTrade(o, i, exit.value.0, exit.value.1), o);
        Risk.CloseMirrors(s.risk, cfg.strategy.limits, results, o.id, pnl, cfg.today);
      }
    }
  }

  /** The freeze of a backtest: some non-empty prefix of its closed results summed to at most minus the limit. */
  lemma {:induction false} FreezeFollowsResults(bars: seq<Bar>, cfg: Config)
    ensures Risk.Mirrors(After(bars, cfg).risk, cfg.today, Results(bars, cfg), cfg.strategy.limits.dailyLoss)
  {
    if bars == [] {
      Risk.NothingClosed(cfg.strategy.limits.dailyLoss);
    } else {
      var n := |bars| - 1;
      FreezeFollowsResults(bars[..n], cfg);
      StepMirrors(After(bars[..n], cfg), n, bars[n], SnapshotAfter(bars, cfg.key), cfg, Results(bars[..n], cfg));
      hide Step, StepResult, SnapshotAfter, Risk.Mirrors;
    }
  }

  /** The fill never looks at the bar's low: it is beyond the level by the penetration buffer and not above the high. */
  lemma {:induction false} FillIsBeyondLevel(bar: Bar, level: Option<real>, percent: real)
    ensures var fill := PessimisticFill(bar, level, percent);
            && (fill.Some? ==> level.Some? && fill.value <= bar.kline.high)
            && (fill.Some? ==> fill.value * 100.0 == level.value * (100.0 + percent))
            && (fill.Some? && level.value > 0.0 && percent > 0.0 ==> fill.value > level.value)
            && (level.Some? && fill.None? ==> bar.kline.high * 100.0 < level.value * (100.0 + percent))
  {
  }

  function FillPrice(level: real, percent: real): real {
    level * (1.0 + percent / 100.0)
  }

  /** What a buy stop order at the level is filled at: the level, or the open of a bar that opens above it. */
  function StopOrderPrice(bar: Bar, level: real): real {
    MaxR(bar.kline.open, level)
  }

  /**
    Exactly when the fill is realistic. It happens at a price between the bar's low and high iff the fill price lies
    there; and it is no better than a stop order's price iff the bar does not open above it.
   */
  lemma {:induction false} FillIsTradedIff(bar: Bar, level: real, percent: real)
    ensures var fill, price := PessimisticFill(bar, Some(level), percent), FillPrice(level, percent);
            var low, high := bar.kline.low, bar.kline.high;
            && (fill.Some? <==> price <= high)
            && (fill.Some? ==> fill.value == price)
            && (fill.Some? && low <= fill.value <= high <==> low <= price <= high)
            && (fill.Some? && 0.0 <= level && 0.0 <= percent ==>
                  (fill.value >= StopOrderPrice(bar, level) <==> bar.kline.open <= price))
  {
    var part := percent / 100.0;
    assert level * (1.0 + part) == level + level * part;
    if 0.0 <= level && 0.0 <= percent {
      Scale(0.0, part, level);
    }
  }

  /** A bar that opens and stays above the breakout level by more than the buffer. */
  const GAP := Bar(Binance, "S", Kline(110.0, 112.0, 108.0, 111.0, 1.0, 1.0, 0.0, 0, true))

  lemma {:induction false} GapFillsBelowTheBar()
    ensures var fill := PessimisticFill(GAP, Some(100.0), 0.02);
            fill == Some(100.02) && fill.value < GAP.kline.low && fill.value < StopOrderPrice(GAP, 100.0)
  {
  }

  const FREE := Friction.Costs(0.0, 0.0, 0.0, 0.0)
  const EASY := Strategy(80.0, 1.0, 2.0, 0.0, 1000.0, FREE, Risk.Limits(1.0, 3, 10.0, 3.0))

  /** Gates that pass at every positive price, with the stop half-way down and the breakout level at 100. */
  function Eager(s: Snapshot, price: real): GateResult {
    if price > 0.0 then
      Passed(Plan(price, price / 2.0, 2.0 * price, 100.0, 200.0, 200.0, 0.0, Some(100.0)))
    else
      Stopped(StopInvalid)
  }

  function EagerConfig(minSize: real): Config {
    Config(EASY.(minSize := minSize, maxSize := MaxR(1000.0, minSize)), (Binance, "S"), 10000.0, 0.02, 0, i => "",
           (s, p) => WithMinimum(Eager(s, p), minSize))
  }

  function WithMinimum(g: GateResult, minSize: real): GateResult {
    if g.Passed? then Passed(g.plan.(finalSize := MaxR(g.plan.rawSize, minSize))) else g
  }

  // ----- every exit is the first touch ----------------------------------------------------------------

  predicate Touches(bar: Bar, stop: real, target: real) {
    bar.kline.low <= stop || bar.kline.high >= target
  }

  /** The first bar after entry that touches either level, the stop winning ties. */
  ghost predicate ExitsAtFirstTouch(t: Trade, bars: seq<Bar>) {
    && t.entryBar < t.exitBar < |bars|
    && (forall j | t.entryBar < j < t.exitBar :: !Touches(bars[j], t.stop, t.target))
    && (if bars[t.exitBar].kline.low <= t.stop then t.state == StopLoss && t.exit == t.stop
        else bars[t.exitBar].kline.high >= t.target && t.state == TakeProfit && t.exit == t.target)
  }

  /** Levels as a sound plan sets them, around an entry that is not above its bar's high. */
  ghost predicate SoundLevels(entryBar: nat, entry: Price, stop: real, target: real, bars: seq<Bar>, cfg: Config) {
    && entryBar < |bars|
    && stop < entry <= bars[entryBar].kline.high
    && target - entry == cfg.strategy.takeProfitRr * (entry - stop)
  }

  ghost predicate SoundTrade(t: Trade, bars: seq<Bar>, cfg: Config) {
    && ExitsAtFirstTouch(t, bars)
    && SoundLevels(t.entryBar, t.entry, t.stop, t.target, bars, cfg)
    && t.pnlPercent == PnlPercent(t.entry, t.exit) && t.rMultiple == RMultiple(t.entry, t.stop, t.exit)
  }

  ghost predicate SoundOpen(o: OpenTrade, bars: seq<Bar>, cfg: Config) {
    && SoundLevels(o.entryBar, o.entry, o.stop, o.target, bars, cfg)
    && (forall j | o.entryBar < j < |bars| :: !Touches(bars[j], o.stop, o.target))
    && exists raw: real :: SizedFrom(raw, o, cfg)
  }

  /** The size comes from a raw size whose loss at the stop is the risk budget. */
  ghost predicate SizedFrom(raw: real, o: OpenTrade, cfg: Config) {
    && raw * (o.entry - o.stop) == RiskAmount(cfg.strategy, cfg.equity) * o.entry
    && o.sizeFraction == SizeFraction(raw, cfg)
  }

  function SizeFraction(raw: real, cfg: Config): real {
    PositionSizing.FinalSize(raw, cfg.strategy.minSize, cfg.strategy.maxSize) / cfg.equity
  }

  ghost predicate TradesSound(s: State, bars: seq<Bar>, cfg: Config) {
    && (forall k | 0 <= k < |s.trades| :: SoundTrade(s.trades[k], bars, cfg))
    && (s.open.Some? ==> SoundOpen(s.open.value, bars, cfg))
  }

  lemma {:induction false} SoundTradeStays(t: Trade, front: seq<Bar>, bars: seq<Bar>, cfg: Config)
    requires front <= bars && SoundTrade(t, front, cfg)
    ensures SoundTrade(t, bars, cfg)
  {
    hide PnlPercent, RMultiple;
    assert forall j | 0 <= j < |front| :: front[j] == bars[j];
  }

  lemma {:induction false} SoundOpenManaged(o: OpenTrade, front: seq<Bar>, bars: seq<Bar>, cfg: Config)
    requires bars != [] && front == bars[..|bars| - 1] && SoundOpen(o, front, cfg)
    ensures var n := |bars| - 1;
            var exit := ResolveIntrabarExit(bars[n], o.stop, o.target);
            && (exit.None? ==> SoundOpen(o, bars, cfg))
            && (exit.Some? ==> SoundTrade(CloseTrade(o, n, exit.value.0, exit.value.1), bars, cfg))
  {
    hide PnlPercent, RMultiple, SizedFrom;
    assert forall j | 0 <= j < |front| :: front[j] == bars[j];
  }

  /** What a fresh entry looks like: a sound plan at the fill price, let through by the risk engine. */
  lemma {:induction false} SeekOpensSoundly(s: State, bars: seq<Bar>, snap: Option<Snapshot>, cfg: Config)
    requires SoundGates(cfg) && bars != []
    ensures var s' := Seek(s, |bars| - 1, bars[|bars| - 1], snap, cfg);
            s.open.None? && s'.open.Some? ==>
              && SoundOpen(s'.open.value, bars, cfg)
              && !Risk.ResetDay(s.risk, cfg.today).frozen && !s'.risk.frozen
              && s'.risk.dailyPnl == Risk.ResetDay(s.risk, cfg.today).dailyPnl
  {
    var n := |bars| - 1;
    var s' := Seek(s, n, bars[n], snap, cfg);
    if s.open.None? && s'.open.Some? {
      var g := cfg.gates(snap.value, bars[n].kline.close);
      var r := Risk.ResetDay(s.risk, cfg.today);
      var fill := PessimisticFill(bars[n], g.plan.breakoutLevel, cfg.penetrationPercent).value;
      var g2 := cfg.gates(snap.value, fill);
      assert fill <= bars[n].kline.high;
      assert g2.Passed? && SoundPlan(g2.plan, fill, cfg.strategy, cfg.equity);
      hide Risk.Heat, Risk.Put, Risk.Reasons, PessimisticFill, RiskAmount, SizeFraction, PositionSizing.FinalSize;
      assert SizedFrom(g2.plan.rawSize, s'.open.value, cfg);
    }
  }

  lemma {:induction false} TradesSoundStep(s: State, front: seq<Bar>, bars: seq<Bar>, snap: Option<Snapshot>,
      cfg: Config)
    requires SoundGates(cfg) && bars != [] && front == bars[..|bars| - 1]
    requires TradesSound(s, front, cfg) && RiskHoldsOpenTrade(s, cfg)
    ensures TradesSound(Step(s, |bars| - 1, bars[|bars| - 1], snap, cfg), bars, cfg)
  {
    var n := |bars| - 1;
    var s' := Step(s, n, bars[n], snap, cfg);
    StepShape(s, n, bars[n], snap, cfg);
    forall k | 0 <= k < |s.trades|
      ensures SoundTrade(s.trades[k], bars, cfg)
    {
      SoundTradeStays(s.trades[k], front, bars, cfg);
    }
    if s.open.Some? {
      SoundOpenManaged(s.open.value, front, bars, cfg);
    } else {
      SeekOpensSoundly(s, bars, snap, cfg);
    }
    hide Seek, Manage, SoundTrade, SoundOpen, CloseTrade, ResolveIntrabarExit, RiskHoldsOpenTrade, SoundGates;
  }

  /**
    Over every bar sequence: each recorded trade was entered not above the high of its entry bar, with its levels at the
    configured reward-to-risk, and left at the first later bar that touched either level, the stop
    winning ties; a trade still open has been touched by no bar since.
   */
  lemma {:induction false} TradesAreSound(bars: seq<Bar>, cfg: Config)
    requires SoundGates(cfg)
    ensures TradesSound(After(bars, cfg), bars, cfg)
  {
    if bars != [] {
      var n := |bars| - 1;
      TradesAreSound(bars[..n], cfg);
      BarsAreAccounted(bars[..n], cfg);
      hide TradesSound, SoundGates, BarsAddUp, Separated, Step;
      TradesSoundStep(After(bars[..n], cfg), bars[..n], bars, SnapshotAfter(bars, cfg.key), cfg);
    }
  }

  // ----- where trades are entered -------------------------------------------------------------------

  /** The breakout level the gates announce at the close of bar `i`, if they pass there. */
  function AnnouncedLevel(bars: seq<Bar>, i: nat, cfg: Config): Option<real>
    requires i < |bars|
  {
    var snap := SnapshotAfter(bars[..i + 1], cfg.key);
    if snap.None? then None
    else
      var g := cfg.gates(snap.value, bars[i].kline.close);
      if g.Passed? then g.plan.breakoutLevel else None
  }

  /** The gates passed at the close of bar `i`, its announced level is filled at `entry`, and they pass again there. */
  ghost predicate Announced(bars: seq<Bar>, i: nat, entry: Price, cfg: Config) {
    && i < |bars|
    && PessimisticFill(bars[i], AnnouncedLevel(bars, i, cfg), cfg.penetrationPercent) == Some(entry)
    && SnapshotAfter(bars[..i + 1], cfg.key).Some?
    && cfg.gates(SnapshotAfter(bars[..i + 1], cfg.key).value, entry).Passed?
  }

  ghost predicate EntriesAnnounced(s: State, bars: seq<Bar>, cfg: Config) {
    && (forall k | 0 <= k < |s.trades| :: Announced(bars, s.trades[k].entryBar, s.trades[k].entry, cfg))
    && (s.open.Some? ==> Announced(bars, s.open.value.entryBar, s.open.value.entry, cfg))
  }

  lemma {:induction false} SeekAnnounces(s: State, bars: seq<Bar>, cfg: Config)
    requires SoundGates(cfg) && s.open.None? && bars != []
    ensures var s' := Seek(s, |bars| - 1, bars[|bars| - 1], SnapshotAfter(bars, cfg.key), cfg);
            s'.open.Some? ==> Announced(bars, s'.open.value.entryBar, s'.open.value.entry, cfg)
  {
    hide PessimisticFill, SnapshotAfter, Risk.Heat, Risk.Put, Risk.Reasons, Risk.Allowed;
    var i := |bars| - 1;
    assert bars[..i + 1] == bars;
    var bar, snap := bars[i], SnapshotAfter(bars, cfg.key);
    var s' := Seek(s, i, bar, snap, cfg);
    if s'.open.Some? {
      var fill := PessimisticFill(bar, AnnouncedLevel(bars, i, cfg), cfg.penetrationPercent);
      var g := cfg.gates(snap.value, fill.value);
      assert SoundPlan(g.plan, fill.value, cfg.strategy, cfg.equity);
      assert s'.open.value.entry == g.plan.entry == fill.value && s'.open.value.entryBar == i;
      hide SoundGates, SoundPlan, Seek, AnnouncedLevel;
    }
  }

  lemma AnnouncedStays(bars: seq<Bar>, bar: Bar, i: nat, entry: Price, cfg: Config)
    requires Announced(bars, i, entry, cfg)
    ensures Announced(bars + [bar], i, entry, cfg)
  {
    hide PessimisticFill, SnapshotAfter;
    assert (bars + [bar])[..i + 1] == bars[..i + 1];
  }

  lemma {:induction false} AnnouncedStep(s: State, front: seq<Bar>, bars: seq<Bar>, cfg: Config)
    requires SoundGates(cfg) && bars != [] && front == bars[..|bars| - 1]
    requires EntriesAnnounced(s, front, cfg) && RiskHoldsOpenTrade(s, cfg)
    ensures EntriesAnnounced(Step(s, |bars| - 1, bars[|bars| - 1], SnapshotAfter(bars, cfg.key), cfg), bars, cfg)
  {
    hide Announced, SoundGates, Seek, Manage, ResolveIntrabarExit, RiskHoldsOpenTrade, SnapshotAfter, PnlPercent;
    hide RMultiple;
    var n := |bars| - 1;
    var snap := SnapshotAfter(bars, cfg.key);
    StepShape(s, n, bars[n], snap, cfg);
    assert front + [bars[n]] == bars;
    forall k | 0 <= k < |s.trades|
      ensures Announced(bars, s.trades[k].entryBar, s.trades[k].entry, cfg)
    {
      AnnouncedStays(front, bars[n], s.trades[k].entryBar, s.trades[k].entry, cfg);
    }
    if s.open.Some? {
      AnnouncedStays(front, bars[n], s.open.value.entryBar, s.open.value.entry, cfg);
    } else {
      SeekAnnounces(s, bars, cfg);
    }
  }

  /**
    Over every bar sequence: for every entry the gates passed at the close of its bar, the entry is the pessimistic fill
    of the level they announced there, and they passed again at that price.
   */
  lemma {:induction false} EntriesAreAnnounced(bars: seq<Bar>, cfg: Config)
    requires SoundGates(cfg)
    ensures EntriesAnnounced(After(bars, cfg), bars, cfg)
  {
    if bars != [] {
      var n := |bars| - 1;
      EntriesAreAnnounced(bars[..n], cfg);
      BarsAreAccounted(bars[..n], cfg);
      hide EntriesAnnounced, SoundGates, BarsAddUp, Separated, Step;
      AnnouncedStep(After(bars[..n], cfg), bars[..n], bars, cfg);
    }
  }

  // ----- what becomes of a flat bar -----------------------------------------------------------------

  /** The engine holds no trade when bar `i` arrives. */
  ghost predicate Flat(bars: seq<Bar>, i: nat, cfg: Config)
    requires i < |bars|
  {
    After(bars[..i], cfg).open.None?
  }

  /** The limits admit a first position, and no prefix of the results closed before bar `i` touched the loss limit. */
  ghost predicate RiskAdmits(bars: seq<Bar>, i: nat, cfg: Config)
    requires i < |bars|
  {
    var l := cfg.strategy.limits;
    1 <= l.maxOpen && l.riskPerTrade <= l.maxHeat && !Risk.LimitTouched(Results(bars[..i], cfg), l.dailyLoss)
  }

  /** What the gates say at the close of bar `i`, if the symbol is known by then. */
  function GatesAtClose(bars: seq<Bar>, i: nat, cfg: Config): Option<GateResult>
    requires i < |bars|
  {
    var snap := SnapshotAfter(bars[..i + 1], cfg.key);
    if snap.None? then None else Some(cfg.gates(snap.value, bars[i].kline.close))
  }

  /** The friction gate fails at the close of a flat bar, or all gates pass and the risk engine does not admit it. */
  ghost predicate RejectsAt(bars: seq<Bar>, i: nat, cfg: Config)
    requires i < |bars|
  {
    var g := GatesAtClose(bars, i, cfg);
    Flat(bars, i, cfg) && g.Some? && (g.value.Uncovered? || (g.value.Passed? && !RiskAdmits(bars, i, cfg)))
  }

  lemma {:induction false} RiskOfFlat(r: Risk.RiskState, l: Risk.Limits, today: int)
    requires r.open == [] && r.resetDate == today
    ensures Risk.ResetDay(r, today) == r
    ensures Risk.Allowed(r, l, false) <==> !r.frozen && 1 <= l.maxOpen && l.riskPerTrade <= l.maxHeat
  {
    assert Risk.Heat([]) == 0.0;
  }

  lemma {:induction false} SeekByVerdict(s: State, i: nat, bar: Bar, snap: Option<Snapshot>, cfg: Config)
    requires s.open.None? && s.risk.open == [] && s.risk.resetDate == cfg.today
    ensures var s', l := Seek(s, i, bar, snap, cfg), cfg.strategy.limits;
            var admits := !s.risk.frozen && 1 <= l.maxOpen && l.riskPerTrade <= l.maxHeat;
            if snap.None? then s'.rejected == s.rejected && s'.open == None
            else
              var g := cfg.gates(snap.value, bar.kline.close);
              && s'.rejected == s.rejected + (if g.Uncovered? || (g.Passed? && !admits) then 1 else 0)
              && (g.Passed? && admits ==>
                    var fill := PessimisticFill(bar, g.plan.breakoutLevel, cfg.penetrationPercent);
                    fill.Some? && cfg.gates(snap.value, fill.value).Passed? ==>
                      && s'.open.Some? && s'.open.value.entryBar == i
                      && s'.open.value.entry == cfg.gates(snap.value, fill.value).plan.entry)
  {
    RiskOfFlat(s.risk, cfg.strategy.limits, cfg.today);
    hide PessimisticFill, Risk.Allowed, Risk.ResetDay, Risk.Reasons, Risk.Put, Risk.Heat;
  }

  /** The state at bar `i` mirrors what was closed before it. */
  lemma FlatState(bars: seq<Bar>, cfg: Config)
    ensures var s := After(bars, cfg);
            && s.risk.resetDate == cfg.today && (s.open.None? ==> s.risk.open == [])
            && (s.risk.frozen <==> Risk.LimitTouched(Results(bars, cfg), cfg.strategy.limits.dailyLoss))
  {
    BarsAreAccounted(bars, cfg);
    FreezeFollowsResults(bars, cfg);
    hide After, Results, Risk.LimitTouched, Sum, BarsAddUp, Separated;
  }

  lemma {:induction false} RejectedStep(bars: seq<Bar>, cfg: Config)
    requires bars != []
    ensures var n := |bars| - 1;
            After(bars, cfg).rejected == After(bars[..n], cfg).rejected + if RejectsAt(bars, n, cfg) then 1 else 0
  {
    var n := |bars| - 1;
    var s := After(bars[..n], cfg);
    assert bars[..n + 1] == bars;
    FlatState(bars[..n], cfg);
    BarsAreAccounted(bars[..n], cfg);
    hide Results, SnapshotAfter, Risk.LimitTouched, BarsAddUp, Separated, ResolveIntrabarExit;
    if s.open.None? {
      SeekByVerdict(s, n, bars[n], SnapshotAfter(bars, cfg.key), cfg);
      hide Seek, PessimisticFill;
    } else {
      StepShape(s, n, bars[n], SnapshotAfter(bars, cfg.key), cfg);
      hide Manage, CloseTrade;
    }
  }

  ghost function Rejections(bars: seq<Bar>, cfg: Config): set<nat> {
    set i: nat | i < |bars| && RejectsAt(bars, i, cfg)
  }

  lemma RejectsAtFront(bars: seq<Bar>, i: nat, cfg: Config)
    requires i < |bars| - 1
    ensures RejectsAt(bars, i, cfg) <==> RejectsAt(bars[..|bars| - 1], i, cfg)
  {
    hide SnapshotAfter, After, Results, Risk.LimitTouched;
    var front := bars[..|bars| - 1];
    assert front[..i] == bars[..i] && front[..i + 1] == bars[..i + 1] && front[i] == bars[i];
  }

  /** The rejected count of a report is the number of flat bars the friction gate or the risk engine turned down. */
  lemma {:induction false} RejectedAreCounted(bars: seq<Bar>, cfg: Config)
    ensures After(bars, cfg).rejected == |Rejections(bars, cfg)|
  {
    hide RejectsAt;
    if bars == [] {
      assert Rejections(bars, cfg) == {};
    } else {
      var n := |bars| - 1;
      RejectedAreCounted(bars[..n], cfg);
      RejectedStep(bars, cfg);
      hide After;
      forall i: nat | i < n
        ensures RejectsAt(bars, i, cfg) <==> RejectsAt(bars[..n], i, cfg)
      {
        RejectsAtFront(bars, i, cfg);
      }
      var before := Rejections(bars[..n], cfg);
      assert n !in before;
      assert Rejections(bars, cfg) == if RejectsAt(bars, n, cfg) then before + {n} else before;
    }
  }

  /** A trade of that entry is in the books: open, or closed since. */
  ghost predicate Entered(s: State, i: nat, entry: Price) {
    || (s.open.Some? && s.open.value.entryBar == i && s.open.value.entry == entry)
    || exists k | 0 <= k < |s.trades| :: s.trades[k].entryBar == i && s.trades[k].entry == entry
  }

  lemma {:induction false} EnteredStays(s: State, n: nat, bar: Bar, snap: Option<Snapshot>, cfg: Config,
                                        i: nat, entry: Price)
    requires RiskHoldsOpenTrade(s, cfg) && Entered(s, i, entry)
    ensures Entered(Step(s, n, bar, snap, cfg), i, entry)
  {
    StepShape(s, n, bar, snap, cfg);
    var s' := Step(s, n, bar, snap, cfg);
    hide Step, RiskHoldsOpenTrade, ResolveIntrabarExit, PnlPercent, RMultiple;
    if k :| 0 <= k < |s.trades| && s.trades[k].entryBar == i && s.trades[k].entry == entry {
      assert s'.trades[k] == s.trades[k];
    } else if s'.open.None? {
      assert s'.trades[|s.trades|].entryBar == i;
    }
  }

  lemma {:induction false} AnnouncedIsEntered(bars: seq<Bar>, entry: Price, cfg: Config)
    requires SoundGates(cfg) && bars != [] && Announced(bars, |bars| - 1, entry, cfg)
    requires Flat(bars, |bars| - 1, cfg) && RiskAdmits(bars, |bars| - 1, cfg)
    ensures Entered(After(bars, cfg), |bars| - 1, entry)
  {
    var n := |bars| - 1;
    var s, snap := After(bars[..n], cfg), SnapshotAfter(bars, cfg.key);
    assert bars[..n + 1] == bars;
    FlatState(bars[..n], cfg);
    hide Results, SnapshotAfter, Risk.LimitTouched, PessimisticFill;
    SeekByVerdict(s, n, bars[n], snap, cfg);
    assert PessimisticFill(bars[n], None, cfg.penetrationPercent).None? by {
      NoLevelNoFill(bars[n], cfg.penetrationPercent);
    }
    assert SoundPlan(cfg.gates(snap.value, entry).plan, entry, cfg.strategy, cfg.equity);
    hide Seek, SoundGates;
  }

  /**
    The converse: an entry that is announced on a flat bar and admitted by the risk engine is taken, and is in the books
    ever after.
   */
  lemma {:induction false} AnnouncedEntriesAreTaken(bars: seq<Bar>, i: nat, entry: Price, cfg: Config)
    requires SoundGates(cfg) && Announced(bars, i, entry, cfg)
    requires Flat(bars, i, cfg) && RiskAdmits(bars, i, cfg)
    ensures Entered(After(bars, cfg), i, entry)
  {
    var n := |bars| - 1;
    if i == n {
      AnnouncedIsEntered(bars, entry, cfg);
    } else {
      var front := bars[..n];
      assert front[..i] == bars[..i] && front[..i + 1] == bars[..i + 1] && front[i] == bars[i];
      BarsAreAccounted(front, cfg);
      hide SoundGates, PessimisticFill, SnapshotAfter, Results, Risk.LimitTouched, Step, BarsAddUp, Separated;
      AnnouncedEntriesAreTaken(front, i, entry, cfg);
      hide Entered, RiskHoldsOpenTrade;
      EnteredStays(After(front, cfg), n, bars[n], SnapshotAfter(bars, cfg.key), cfg, i, entry);
    }
  }

  /** The trades of a run were entered at prices between the low and the high of their entry bars. */
  ghost predicate EntriesTraded(s: State, bars: seq<Bar>)
    requires forall k | 0 <= k < |s.trades| :: s.trades[k].entryBar < |bars|
  {
    forall k | 0 <= k < |s.trades| ::
      bars[s.trades[k].entryBar].kline.low <= s.trades[k].entry <= bars[s.trades[k].entryBar].kline.high
  }

  /** The bar of trade `k` comes down to the fill price of the level announced on it. */
  ghost predicate ComesDown(s: State, bars: seq<Bar>, k: nat, cfg: Config)
    requires k < |s.trades| && s.trades[k].entryBar < |bars|
  {
    var i := s.trades[k].entryBar;
    var level := AnnouncedLevel(bars, i, cfg);
    level.Some? && bars[i].kline.low <= FillPrice(level.value, cfg.penetrationPercent) <= bars[i].kline.high
  }

  /**
    So a run trades at prices its bars reached iff every entry bar's low comes down to the fill price of the level
    announced on it. On a bar that gaps above that price it does not.
   */
  lemma {:induction false} EntriesTradedIff(bars: seq<Bar>, cfg: Config)
    requires SoundGates(cfg)
    ensures var s := After(bars, cfg);
            && (forall k | 0 <= k < |s.trades| :: s.trades[k].entryBar < |bars|)
            && (EntriesTraded(s, bars) <==> forall k: nat | k < |s.trades| :: ComesDown(s, bars, k, cfg))
  {
    EntriesAreAnnounced(bars, cfg);
    var s := After(bars, cfg);
    hide After, SoundGates, AnnouncedLevel, SnapshotAfter;
    forall k: nat | k < |s.trades|
      ensures var i := s.trades[k].entryBar;
              i < |bars| && (ComesDown(s, bars, k, cfg) <==>
                               bars[i].kline.low <= s.trades[k].entry <= bars[i].kline.high)
    {
      var t := s.trades[k];
      var level := AnnouncedLevel(bars, t.entryBar, cfg);
      NoLevelNoFill(bars[t.entryBar], cfg.penetrationPercent);
      hide PessimisticFill, FillPrice;
      assert PessimisticFill(bars[t.entryBar], level, cfg.penetrationPercent) == Some(t.entry);
      assert level == Some(level.value);
      FillIsTradedIff(bars[t.entryBar], level.value, cfg.penetrationPercent);
    }
    hide ComesDown;
  }

  lemma NoLevelNoFill(bar: Bar, percent: real)
    ensures PessimisticFill(bar, None, percent).None?
  {
  }

  // ----- results in units of risk -----------------------------------------------------------------------

  /** Leaving at a level `k` stop distances away is worth `k` units of risk. */
  lemma {:induction false} RIsDistance(entry: Price, stop: real, exit: real, k: real)
    requires stop < entry && exit - entry == k * (entry - stop)
    ensures RMultiple(entry, stop, exit) == k
    ensures PnlPercent(entry, exit) == k * (Abs(entry - stop) / entry * 100.0)
    ensures Abs(entry - stop) / entry * 100.0 > 0.0
  {
  }

  /** Every trade is worth exactly -1 R at the stop and the configured reward-to-risk at the target. */
  lemma {:induction false} TradeIsMinusOneOrReward(t: Trade, bars: seq<Bar>, cfg: Config)
    requires SoundTrade(t, bars, cfg) && cfg.strategy.takeProfitRr > 0.0
    ensures t.rMultiple == if t.state == StopLoss then -1.0 else cfg.strategy.takeProfitRr
    ensures t.pnlPercent > 0.0 <==> t.state == TakeProfit
    ensures t.pnlPercent < 0.0 <==> t.state == StopLoss
    ensures t.pnlPercent * t.entry == (t.exit - t.entry) * 100.0
  {
    DivMul(t.exit - t.entry, t.entry);
    var k := if t.state == StopLoss then -1.0 else cfg.strategy.takeProfitRr;
    assert t.exit - t.entry == k * (t.entry - t.stop);
    RIsDistance(t.entry, t.stop, t.exit, k);
    var risk := Abs(t.entry - t.stop) / t.entry * 100.0;
    hide PnlPercent, RMultiple, ExitsAtFirstTouch;
    if t.state == TakeProfit {
      ScaleStrict(0.0, k, risk);
    }
  }
}
