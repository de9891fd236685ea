/** The risk engine: open positions, portfolio heat, the day's profit and loss, and the freeze latch. */
module Risk {
  import opened Prelude

  datatype Limits = Limits(riskPerTrade: real, maxOpen: int, maxHeat: real, dailyLoss: real)

  datatype OpenRisk = OpenRisk(id: string, symbol: string, riskPercent: real)

  /** `open` is a dictionary by id in insertion order. */
  datatype RiskState = RiskState(open: seq<OpenRisk>, dailyPnl: real, resetDate: int, frozen: bool)

  datatype BlockReason = DailyLossFreeze | BtcPause | MaxOpenPositions | MaxHeat

  function Initial(today: int): RiskState {
    RiskState([], 0.0, today, false)
  }

  function ResetDay(r: RiskState, today: int): RiskState {
    if today != r.resetDate then RiskState(r.open, 0.0, today, false) else r
  }

  function Heat(open: seq<OpenRisk>): real {
    if open == [] then 0.0 else Heat(open[..|open| - 1]) + open[|open| - 1].riskPercent
  }

  function Reasons(r: RiskState, l: Limits, btcPause: bool): seq<BlockReason> {
    (if r.frozen then [DailyLossFreeze] else [])
    + (if btcPause then [BtcPause] else [])
    + (if |r.open| >= l.maxOpen then [MaxOpenPositions] else [])
    + (if Heat(r.open) + l.riskPerTrade > l.maxHeat then [MaxHeat] else [])
  }

  predicate Allowed(r: RiskState, l: Limits, btcPause: bool) {
    && !r.frozen
    && !btcPause
    && |r.open| < l.maxOpen
    && Heat(r.open) + l.riskPerTrade <= l.maxHeat
  }

  /** The position of an id in the dictionary, or its size. */
  function Find(open: seq<OpenRisk>, id: string): (k: nat)
    ensures k <= |open|
    ensures k < |open| ==> open[k].id == id
    ensures forall j | 0 <= j < k :: open[j].id != id
  {
    if open == [] then 0
    else
      var k := Find(open[..|open| - 1], id);
      if k < |open| - 1 || open[k].id == id then k else |open|
  }

  function Put(open: seq<OpenRisk>, e: OpenRisk): seq<OpenRisk> {
    var k := Find(open, e.id);
    if k < |open| then open[k := e] else open + [e]
  }

  function Without(open: seq<OpenRisk>, id: string): seq<OpenRisk> {
    var k := Find(open, id);
    if k < |open| then open[..k] + open[k + 1..] else open
  }

  function Opened(r: RiskState, l: Limits, id: string, symbol: string): RiskState {
    r.(open := Put(r.open, OpenRisk(id, symbol, l.riskPerTrade)))
  }

  function Closed(r0: RiskState, l: Limits, id: string, pnlPercent: real, today: int): RiskState {
    var r := ResetDay(r0, today);
    var pnl := r.dailyPnl + pnlPercent;
    RiskState(Without(r.open, id), pnl, r.resetDate, r.frozen || pnl <= -Abs(l.dailyLoss))
  }

  // ----- whole runs ------------------------------------------------------------------------------

  datatype Op =
    | Check(btcPause: bool, today: int)
    | Open(id: string, symbol: string)
    | Close(closedId: string, pnlPercent: real, today: int)

  function Step(r: RiskState, l: Limits, op: Op): RiskState {
    match op
    case Check(_, today) => ResetDay(r, today)
    case Open(id, symbol) => Opened(r, l, id, symbol)
    case Close(id, pnl, today) => Closed(r, l, id, pnl, today)
  }

  function Run(start: int, l: Limits, ops: seq<Op>): RiskState {
    if ops == [] then Initial(start) else Step(Run(start, l, ops[..|ops| - 1]), l, ops[|ops| - 1])
  }

  /** The date of the latest dated call. */
  function Today(start: int, ops: seq<Op>): int {
    if ops == [] then start
    else
      match ops[|ops| - 1]
      case Check(_, today) => today
      case Close(_, _, today) => today
      case Open(_, _) => Today(start, ops[..|ops| - 1])
  }

  /** The results closed since the date last changed. */
  function DayCloses(start: int, ops: seq<Op>): seq<real> {
    if ops == [] then []
    else
      var front, op := ops[..|ops| - 1], ops[|ops| - 1];
      var kept := if Today(start, ops) == Today(start, front) then DayCloses(start, front) else [];
      if op.Close? then kept + [op.pnlPercent] else kept
  }

  /** The running total touched the loss limit at some point, the first close included. */
  ghost predicate LimitTouched(closes: seq<real>, limit: real) {
    exists k | 1 <= k <= |closes| :: Sum(closes[..k]) <= -Abs(limit)
  }

  lemma {:induction false} LimitStep(closes: seq<real>, pnl: real, limit: real)
    ensures LimitTouched(closes + [pnl], limit) <==> LimitTouched(closes, limit) || Sum(closes) + pnl <= -Abs(limit)
  {
    var all := closes + [pnl];
    assert all[..|closes|] == closes && all[..|all|] == all;
    assert forall k | 1 <= k <= |closes| :: all[..k] == closes[..k];
    if LimitTouched(closes, limit) {
      var k :| 1 <= k <= |closes| && Sum(closes[..k]) <= -Abs(limit);
      assert Sum(all[..k]) <= -Abs(limit);
    }
    if Sum(closes) + pnl <= -Abs(limit) {
      assert Sum(all[..|all|]) <= -Abs(limit);
    }
  }

  /** The engine's daily figure, date and latch say what the closes of the day amount to. */
  ghost predicate Mirrors(r: RiskState, today: int, closes: seq<real>, limit: real) {
    && r.resetDate == today
    && r.dailyPnl == Sum(closes)
    && (r.frozen <==> LimitTouched(closes, limit))
  }

  lemma {:induction false} ResetMirrors(r: RiskState, date: int, closes: seq<real>, today: int, limit: real)
    requires Mirrors(r, date, closes, limit)
    ensures Mirrors(ResetDay(r, today), today, if today == date then closes else [], limit)
  {
  }

  lemma {:induction false} CloseMirrors(r: RiskState, l: Limits, closes: seq<real>, id: string, pnl: real, today: int)
    requires Mirrors(r, today, closes, l.dailyLoss)
    ensures Mirrors(Closed(r, l, id, pnl, today), today, closes + [pnl], l.dailyLoss)
  {
    LimitStep(closes, pnl, l.dailyLoss);
    OneMore(closes, pnl);
    hide Sum, LimitTouched, Without;
  }

  /**
    The freeze is a statement about the day: in every run the daily figure is the sum of the results closed
    since the date last changed, and trading is frozen iff some non-empty prefix of them summed to
    at most minus the limit. Winning back the loss does not lift it; only a new date does.
   */
  lemma {:induction false} FrozenIsHistory(start: int, l: Limits, ops: seq<Op>)
    ensures Mirrors(Run(start, l, ops), Today(start, ops), DayCloses(start, ops), l.dailyLoss)
  {
    if ops == [] {
      NothingClosed(l.dailyLoss);
    } else {
      var front, op := ops[..|ops| - 1], ops[|ops| - 1];
      FrozenIsHistory(start, l, front);
      var r, date, closes := Run(start, l, front), Today(start, front), DayCloses(start, front);
      if !op.Open? {
        ResetMirrors(r, date, closes, op.today, l.dailyLoss);
      }
      if op.Close? {
        var before := if op.today == date then closes else [];
        CloseMirrors(ResetDay(r, op.today), l, before, op.closedId, op.pnlPercent, op.today);
      }
      hide Sum, LimitTouched, Without, Put;
    }
  }

  lemma NothingClosed(limit: real)
    ensures Sum([]) == 0.0 && !LimitTouched([], limit)
  {
  }

  lemma OneMore(xs: seq<real>, x: real)
    ensures Sum(xs + [x]) == Sum(xs) + x
  {
  }

  /** Positions opened under one configuration all commit the same risk. */
  ghost predicate Uniform(open: seq<OpenRisk>, risk: real) {
    forall i | 0 <= i < |open| :: open[i].riskPercent == risk
  }

  lemma {:induction false} HeatIsCount(open: seq<OpenRisk>, risk: real)
    requires Uniform(open, risk)
    ensures Heat(open) == |open| as real * risk
  {
    if open != [] {
      HeatIsCount(open[..|open| - 1], risk);
    }
  }

  /** With one configuration the check is a count: neither frozen nor paused, a free slot, and heat for one more. */
  lemma {:induction false} AllowedIffRoom(r: RiskState, l: Limits, btcPause: bool)
    requires Uniform(r.open, l.riskPerTrade)
    ensures Allowed(r, l, btcPause) <==>
              && !r.frozen && !btcPause
              && |r.open| + 1 <= l.maxOpen && (|r.open| + 1) as real * l.riskPerTrade <= l.maxHeat
  {
    HeatIsCount(r.open, l.riskPerTrade);
    hide Heat, Uniform;
    assert (|r.open| + 1) as real * l.riskPerTrade == |r.open| as real * l.riskPerTrade + l.riskPerTrade;
  }

  lemma {:induction false} ReasonsExplainBlock(r: RiskState, l: Limits, btcPause: bool)
    ensures Allowed(r, l, btcPause) <==> Reasons(r, l, btcPause) == []
    ensures var why := Reasons(r, l, btcPause);
            && (DailyLossFreeze in why <==> r.frozen)
            && (BtcPause in why <==> btcPause)
            && (MaxOpenPositions in why <==> |r.open| >= l.maxOpen)
            && (MaxHeat in why <==> Heat(r.open) + l.riskPerTrade > l.maxHeat)
  {
    hide Heat;
  }

  // ----- the mutable engine -----------------------------------------------------------------------

  class RiskEngine {
    const limits: Limits
    var openPositions: seq<OpenRisk>
    var dailyPnlPercent: real
    var dailyResetDate: int
    var frozenForToday: bool

    ghost function View(): RiskState
      reads this
    {
      RiskState(openPositions, dailyPnlPercent, dailyResetDate, frozenForToday)
    }

    constructor (limits: Limits, today: int)
      ensures View() == Initial(today) && this.limits == limits
    {
      this.limits := limits;
      openPositions, dailyPnlPercent, dailyResetDate, frozenForToday := [], 0.0, today, false;
    }

    method MaybeResetDay(today: int)
      modifies this
      ensures View() == ResetDay(old(View()), today)
    {
      if today != dailyResetDate {
        dailyResetDate := today;
        dailyPnlPercent := 0.0;
        frozenForToday := false;
      }
    }

    method PortfolioHeat() returns (heat: real)
      ensures heat == Heat(openPositions)
    {
      heat := 0.0;
      for i := 0 to |openPositions|
        invariant heat == Heat(openPositions[..i])
      {
        assert openPositions[..i + 1][..i] == openPositions[..i];
        heat := heat + openPositions[i].riskPercent;
      }
      assert openPositions[..|openPositions|] == openPositions;
    }

    method CheckTradeAllowed(btcPauseActive: bool, today: int) returns (allowed: bool, reasons: seq<BlockReason>)
      modifies this
      ensures View() == Step(old(View()), limits, Check(btcPauseActive, today))
      ensures reasons == Reasons(View(), limits, btcPauseActive)
      ensures allowed == Allowed(View(), limits, btcPauseActive)
    {
      hide Heat;
      MaybeResetDay(today);
      reasons := [];
      if frozenForToday {
        reasons := reasons + [DailyLossFreeze];
      }
      ghost var r1 := reasons;
      if btcPauseActive {
        reasons := reasons + [BtcPause];
      }
      assert reasons == r1 + (if btcPauseActive then [BtcPause] else []);
      ghost var r2 := reasons;
      if |openPositions| >= limits.maxOpen {
        reasons := reasons + [MaxOpenPositions];
      }
      assert reasons == r2 + (if |openPositions| >= limits.maxOpen then [MaxOpenPositions] else []);
      ghost var r3 := reasons;
      var heat := PortfolioHeat();
      if heat + limits.riskPerTrade > limits.maxHeat {
        reasons := reasons + [MaxHeat];
      }
      assert reasons == r3 + (if heat + limits.riskPerTrade > limits.maxHeat then [MaxHeat] else []);
      assert reasons == Reasons(View(), limits, btcPauseActive);
      hide Reasons, Allowed;
      ReasonsExplainBlock(View(), limits, btcPauseActive);
      allowed := reasons == [];
    }

    method RegisterOpenPosition(id: string, symbol: string)
      modifies this
      ensures View() == Opened(old(View()), limits, id, symbol)
    {
      var e := OpenRisk(id, symbol, limits.riskPerTrade);
      var k := Find(openPositions, id);
      openPositions := if k < |openPositions| then openPositions[k := e] else openPositions + [e];
    }

    method RegisterClosedPosition(id: string, pnlPercentOfEquity: real, today: int)
      modifies this
      ensures View() == Closed(old(View()), limits, id, pnlPercentOfEquity, today)
    {
      MaybeResetDay(today);
      var k := Find(openPositions, id);
      if k < |openPositions| {
        openPositions := openPositions[..k] + openPositions[k + 1..];
      }
      dailyPnlPercent := dailyPnlPercent + pnlPercentOfEquity;
      if dailyPnlPercent <= -Abs(limits.dailyLoss) {
        frozenForToday := true;
      }
    }
  }
}
