/**
  From an approved signal to a closed position: signal evaluation, the auditor's answer and ticker-driven exits
  interleave, because the pipeline awaits the auditor between the risk check and the open.
 */
module Lifecycle {
  import opened Prelude
  import Risk
  import Paper
  import PaperEngine

  datatype Signal = Signal(
    id: string, symbol: string, exchange: string, entry: Paper.EntryPrice, stop: real, target: real, size: real)

  datatype Config = Config(limits: Risk.Limits, equity: real) {
    predicate Valid() {
      equity > 0.0
    }
  }

  /** `pending` is the signal whose verdict is being awaited; the signal loop handles one at a time. */
  datatype Desk = Desk(risk: Risk.RiskState, book: Paper.Book, pending: Option<Signal>, entries: nat)

  datatype Op =
    | Evaluate(signal: Signal, btcPause: bool, today: int)
    | Verdict(approved: bool, now: int)
    | Ticker(tick: Paper.Tick, today: int)

  function PositionOf(s: Signal, now: int): Paper.Position {
    Paper.Position(s.id, s.symbol, s.exchange, s.entry, s.stop, s.target, s.size, now, Paper.PositionOpen, None)
  }

  /** A closed position's result in percent of the account. */
  function EquityPercent(p: Paper.Position, cfg: Config): real
    requires cfg.Valid()
  {
    if p.outcome.Some? then p.outcome.value.pnlUsd / cfg.equity * 100.0 else 0.0
  }

  function CloseAll(r: Risk.RiskState, ps: seq<Paper.Position>, cfg: Config, today: int): Risk.RiskState
    requires cfg.Valid()
  {
    if ps == [] then r
    else
      var p := ps[|ps| - 1];
      Risk.Closed(CloseAll(r, ps[..|ps| - 1], cfg, today), cfg.limits, p.id, EquityPercent(p, cfg), today)
  }

  /** A signal is evaluated only when no verdict is awaited, and a verdict comes only when one is. */
  predicate Enabled(d: Desk, op: Op) {
    match op
    case Evaluate(_, _, _) => d.pending.None?
    case Verdict(_, _) => d.pending.Some?
    case Ticker(_, _) => true
  }

  function Step(d: Desk, op: Op, cfg: Config): Desk
    requires cfg.Valid()
  {
    match op
    case Evaluate(s, btcPause, today) =>
      var r := Risk.ResetDay(d.risk, today);
      d.(risk := r, pending := if Risk.Allowed(r, cfg.limits, btcPause) then Some(s) else None)
    case Verdict(approved, now) =>
      if approved && d.pending.Some? then
        var s := d.pending.value;
        Desk(Risk.Opened(d.risk, cfg.limits, s.id, s.symbol), Paper.OnOpen(d.book, PositionOf(s, now)),
             None, d.entries + 1)
      else d.(pending := None)
    case Ticker(t, today) =>
      d.(risk := CloseAll(d.risk, Paper.Closings(d.book.open, t), cfg, today), book := Paper.OnTick(d.book, t))
  }

  function Start(date: int): Desk {
    Desk(Risk.Initial(date), Paper.Book([], []), None, 0)
  }

  /** A run from start-up; steps that cannot happen are skipped. */
  function Run(date: int, ops: seq<Op>, cfg: Config): Desk
    requires cfg.Valid()
  {
    if ops == [] then Start(date)
    else
      var d, op := Run(date, ops[..|ops| - 1], cfg), ops[|ops| - 1];
      if Enabled(d, op) then Step(d, op, cfg) else d
  }

  // ----- both engines hold the same positions -------------------------------------------------------

  function RiskIds(open: seq<Risk.OpenRisk>): (ids: seq<string>)
    ensures |ids| == |open|
  {
    seq(|open|, i requires 0 <= i < |open| => open[i].id)
  }

  function BookIds(ps: seq<Paper.Position>): (ids: seq<string>)
    ensures |ids| == |ps|
  {
    seq(|ps|, i requires 0 <= i < |ps| => ps[i].id)
  }

  ghost predicate Distinct(ids: seq<string>) {
    forall i, j | 0 <= i < j < |ids| :: ids[i] != ids[j]
  }

  /** The signals evaluated so far. */
  function Issued(ops: seq<Op>): set<string> {
    if ops == [] then {}
    else
      var op := ops[|ops| - 1];
      Issued(ops[..|ops| - 1]) + if op.Evaluate? then {op.signal.id} else {}
  }

  /** Every evaluation draws a new id. */
  ghost predicate FreshIds(ops: seq<Op>) {
    forall i | 0 <= i < |ops| && ops[i].Evaluate? :: ops[i].signal.id !in Issued(ops[..i])
  }

  /** Positions open or about to be. */
  function Committed(d: Desk): nat {
    |d.risk.open| + if d.pending.Some? then 1 else 0
  }

  ghost predicate Agree(d: Desk, issued: set<string>) {
    && RiskIds(d.risk.open) == BookIds(d.book.open)
    && Distinct(BookIds(d.book.open))
    && (forall id | id in BookIds(d.book.open) :: id in issued)
    && (d.pending.Some? ==> d.pending.value.id in issued && d.pending.value.id !in BookIds(d.book.open))
  }

  ghost predicate WithinLimits(d: Desk, l: Risk.Limits) {
    && Risk.Uniform(d.risk.open, l.riskPerTrade)
    && Committed(d) <= Max(0, l.maxOpen)
    && (Committed(d) > 0 ==> Committed(d) as real * l.riskPerTrade <= l.maxHeat)
  }

  lemma {:induction false} FindMiddle(open: seq<Risk.OpenRisk>, a: seq<string>, id: string, b: seq<string>)
    requires RiskIds(open) == a + ([id] + b) && Distinct(RiskIds(open))
    ensures Risk.Find(open, id) == |a| < |open|
  {
    var ids, k := RiskIds(open), Risk.Find(open, id);
    assert ids[|a|] == id && open[|a|].id == ids[|a|];
    assert k <= |a|;
    assert open[k].id == ids[k];
  }

  lemma {:induction false} DropId(a: seq<string>, id: string, b: seq<string>)
    requires Distinct(a + ([id] + b))
    ensures Distinct(a + b)
  {
    var ids, rest := a + ([id] + b), a + b;
    forall i, j | 0 <= i < j < |rest|
      ensures rest[i] != rest[j]
    {
      var i', j' := if i < |a| then i else i + 1, if j < |a| then j else j + 1;
      assert ids[i'] == rest[i] && ids[j'] == rest[j] && i' < j';
    }
  }

  lemma {:induction false} OneReported(open: seq<Risk.OpenRisk>, a: seq<string>, id: string, b: seq<string>, risk: real)
    requires RiskIds(open) == a + ([id] + b) && Distinct(RiskIds(open)) && Risk.Uniform(open, risk)
    ensures var rest := Risk.Without(open, id);
            && RiskIds(rest) == a + b && Distinct(RiskIds(rest))
            && Risk.Uniform(rest, risk) && |rest| == |open| - 1
  {
    FindMiddle(open, a, id, b);
    DropId(a, id, b);
    hide Distinct;
    var ids, rest := RiskIds(open), Risk.Without(open, id);
    assert rest == open[..|a|] + open[|a| + 1..];
    assert ids[..|a|] == a && ids[|a| + 1..] == b;
    assert forall i | 0 <= i < |rest| :: rest[i] == open[if i < |a| then i else i + 1];
    assert forall i | 0 <= i < |rest| :: RiskIds(rest)[i] == ids[if i < |a| then i else i + 1];
    assert RiskIds(rest) == ids[..|a|] + ids[|a| + 1..];
  }

  /** The two dictionaries after the closings of the first `i` of the positions `ps` were reported. */
  ghost predicate Reported(r: Risk.RiskState, r': Risk.RiskState, ps: seq<Paper.Position>, t: Paper.Tick, i: nat,
      risk: real)
    requires i <= |ps|
  {
    && RiskIds(r'.open) == BookIds(Paper.Survivors(ps[..i], t)) + BookIds(ps[i..])
    && Distinct(RiskIds(r'.open))
    && Risk.Uniform(r'.open, risk)
    && |r'.open| <= |r.open|
  }

  lemma {:induction false} ReportOne(r: Risk.RiskState, r': Risk.RiskState, ps: seq<Paper.Position>, t: Paper.Tick,
      i: nat, risk: real)
    requires i < |ps| && Reported(r, r', ps, t, i, risk)
    ensures Paper.Hits(ps[i], t) ==> Reported(r, r'.(open := Risk.Without(r'.open, ps[i].id)), ps, t, i + 1, risk)
    ensures !Paper.Hits(ps[i], t) ==> Reported(r, r', ps, t, i + 1, risk)
  {
    var p := ps[i];
    var kept, rest := Paper.Survivors(ps[..i], t), ps[i + 1..];
    Paper.OnePositionMore(ps, i, t);
    hide Paper.Hits, Paper.Survivors;
    assert BookIds(ps[i..]) == [p.id] + BookIds(rest);
    if Paper.Hits(p, t) {
      assert kept + [] == kept;
      OneReported(r'.open, BookIds(kept), p.id, BookIds(rest), risk);
    } else {
      assert BookIds(kept + [p]) == BookIds(kept) + [p.id];
      assert BookIds(kept) + ([p.id] + BookIds(rest)) == (BookIds(kept) + [p.id]) + BookIds(rest);
    }
  }

  lemma {:induction false} CloseAllStep(r: Risk.RiskState, ps: seq<Paper.Position>, p: Paper.Position, cfg: Config,
      today: int)
    requires cfg.Valid()
    ensures CloseAll(r, ps + [p], cfg, today)
            == Risk.Closed(CloseAll(r, ps, cfg, today), cfg.limits, p.id, EquityPercent(p, cfg), today)
  {
  }

  lemma {:induction false} NothingReported(r: Risk.RiskState, ps: seq<Paper.Position>, t: Paper.Tick, cfg: Config,
      today: int)
    requires cfg.Valid() && RiskIds(r.open) == BookIds(ps) && Distinct(BookIds(ps))
    requires Risk.Uniform(r.open, cfg.limits.riskPerTrade)
    ensures Reported(r, CloseAll(r, Paper.Closings(ps[..0], t), cfg, today), ps, t, 0, cfg.limits.riskPerTrade)
  {
    assert ps[0..] == ps && Paper.Survivors(ps[..0], t) == [];
    assert BookIds([]) + BookIds(ps) == BookIds(ps);
  }

  /** Reporting the closings of one tick leaves the risk engine with exactly the surviving positions. */
  lemma {:induction false} ClosingsReported(r: Risk.RiskState, ps: seq<Paper.Position>, t: Paper.Tick, i: nat,
      cfg: Config, today: int)
    requires cfg.Valid() && i <= |ps|
    requires RiskIds(r.open) == BookIds(ps) && Distinct(BookIds(ps))
    requires Risk.Uniform(r.open, cfg.limits.riskPerTrade)
    ensures Reported(r, CloseAll(r, Paper.Closings(ps[..i], t), cfg, today), ps, t, i, cfg.limits.riskPerTrade)
  {
    hide Reported, BookIds, RiskIds, Distinct, Risk.Uniform, Paper.Hits, Paper.Survivors, Paper.Closings;
    if i == 0 {
      NothingReported(r, ps, t, cfg, today);
    } else {
      ClosingsReported(r, ps, t, i - 1, cfg, today);
      Paper.OnePositionMore(ps, i - 1, t);
      var p, closings := ps[i - 1], Paper.Closings(ps[..i - 1], t);
      var before := CloseAll(r, closings, cfg, today);
      ReportOne(r, before, ps, t, i - 1, cfg.limits.riskPerTrade);
      if Paper.Hits(p, t) {
        CloseAllStep(r, closings, Paper.Hit(p, t), cfg, today);
        hide CloseAll, Risk.Without;
        var after := CloseAll(r, closings + [Paper.Hit(p, t)], cfg, today);
        OnlyOpenMatters(r, before.(open := Risk.Without(before.open, p.id)), after, ps, t, i, cfg.limits.riskPerTrade);
      } else {
        assert closings + [] == closings;
      }
    }
  }

  lemma {:induction false} OnlyOpenMatters(r: Risk.RiskState, a: Risk.RiskState, b: Risk.RiskState,
                                           ps: seq<Paper.Position>, t: Paper.Tick, i: nat, risk: real)
    requires i <= |ps| && a.open == b.open && Reported(r, a, ps, t, i, risk)
    ensures Reported(r, b, ps, t, i, risk)
  {
  }

  // ----- one step ---------------------------------------------------------------------------------

  ghost predicate Sound(d: Desk, issued: set<string>, l: Risk.Limits) {
    Agree(d, issued) && WithinLimits(d, l) && d.entries == |d.book.open| + |d.book.closed|
  }

  lemma {:induction false} EvaluateSound(d: Desk, op: Op, issued: set<string>, cfg: Config)
    requires cfg.Valid() && Sound(d, issued, cfg.limits) && op.Evaluate? && d.pending.None? && op.signal.id !in issued
    ensures Sound(Step(d, op, cfg), issued + {op.signal.id}, cfg.limits)
  {
    var n := |d.risk.open|;
    Risk.HeatIsCount(d.risk.open, cfg.limits.riskPerTrade);
    assert (n + 1) as real * cfg.limits.riskPerTrade == n as real * cfg.limits.riskPerTrade + cfg.limits.riskPerTrade;
    hide Risk.Heat, Risk.Uniform, RiskIds;
  }

  lemma {:induction false} ApprovedAgrees(d: Desk, op: Op, issued: set<string>, cfg: Config)
    requires cfg.Valid() && Agree(d, issued) && op.Verdict? && op.approved && d.pending.Some?
    ensures var d' := Step(d, op, cfg);
            && Agree(d', issued)
            && d'.risk.open == d.risk.open
                               + [Risk.OpenRisk(d.pending.value.id, d.pending.value.symbol, cfg.limits.riskPerTrade)]
            && d'.book == Paper.Book(d.book.open + [PositionOf(d.pending.value, op.now)], d.book.closed)
  {
    var s := d.pending.value;
    NotFound(d, s.id);
    hide Risk.Find, Paper.Find;
    assert RiskIds(d.risk.open + [Risk.OpenRisk(s.id, s.symbol, cfg.limits.riskPerTrade)])
        == RiskIds(d.risk.open) + [s.id];
    assert BookIds(d.book.open + [PositionOf(s, op.now)]) == BookIds(d.book.open) + [s.id];
    hide RiskIds, BookIds;
  }

  /** An open position with exactly what the signal asked for. */
  ghost predicate AsSignalled(p: Paper.Position, s: Signal, now: int) {
    && p.id == s.id && p.symbol == s.symbol && p.exchange == s.exchange
    && p.entry == s.entry && p.stop == s.stop && p.target == s.target && p.size == s.size
    && p.openedAt == now && p.state == Paper.PositionOpen && p.outcome == None
  }

  /** An approval under an id not in the books adds one entry to both, with the signal's levels, and nothing else. */
  lemma {:induction false} ApprovalOpensTheSignal(d: Desk, now: int, cfg: Config)
    requires cfg.Valid() && d.pending.Some? && Paper.Absent(d.book.open, d.pending.value.id)
    requires forall i | 0 <= i < |d.risk.open| :: d.risk.open[i].id != d.pending.value.id
    ensures var d', s, n := Step(d, Verdict(true, now), cfg), d.pending.value, |d.book.open|;
            && |d'.book.open| == n + 1 && d'.book.open[..n] == d.book.open && AsSignalled(d'.book.open[n], s, now)
            && d'.book.closed == d.book.closed
            && d'.risk.open == d.risk.open + [Risk.OpenRisk(s.id, s.symbol, cfg.limits.riskPerTrade)]
            && d'.risk == d.risk.(open := d'.risk.open)
            && d'.pending == None && d'.entries == d.entries + 1
  {
    var s := d.pending.value;
    var k := Paper.Find(d.book.open, s.id);
    assert k == |d.book.open|;
  }

  lemma {:induction false} VerdictSound(d: Desk, op: Op, issued: set<string>, cfg: Config)
    requires cfg.Valid() && Sound(d, issued, cfg.limits) && op.Verdict? && d.pending.Some?
    requires cfg.limits.riskPerTrade >= 0.0
    ensures Sound(Step(d, op, cfg), issued, cfg.limits)
  {
    if op.approved {
      ApprovedAgrees(d, op, issued, cfg);
      hide Agree, Risk.Put, Paper.Put;
    } else {
      FewerCommitted(|d.risk.open|, cfg.limits);
      hide Agree, Risk.Uniform;
    }
  }

  lemma {:induction false} FewerCommitted(n: nat, l: Risk.Limits)
    requires l.riskPerTrade >= 0.0 && (n + 1) as real * l.riskPerTrade <= l.maxHeat
    ensures n as real * l.riskPerTrade <= l.maxHeat
  {
  }

  lemma {:induction false} NotFound(d: Desk, id: string)
    requires RiskIds(d.risk.open) == BookIds(d.book.open) && id !in BookIds(d.book.open)
    ensures Risk.Find(d.risk.open, id) == |d.risk.open| && Paper.Find(d.book.open, id) == |d.book.open|
  {
    assert forall i | 0 <= i < |d.risk.open| :: RiskIds(d.risk.open)[i] == d.risk.open[i].id;
    assert forall i | 0 <= i < |d.book.open| :: BookIds(d.book.open)[i] == d.book.open[i].id;
  }

  lemma {:induction false} HeatShrinks(m: nat, n: nat, l: Risk.Limits)
    requires m <= n && l.riskPerTrade >= 0.0 && n as real * l.riskPerTrade <= l.maxHeat
    ensures m as real * l.riskPerTrade <= l.maxHeat
  {
  }

  lemma {:induction false} FewerWithinLimits(d: Desk, d': Desk, l: Risk.Limits)
    requires WithinLimits(d, l) && l.riskPerTrade >= 0.0
    requires Risk.Uniform(d'.risk.open, l.riskPerTrade) && |d'.risk.open| <= |d.risk.open| && d'.pending == d.pending
    ensures WithinLimits(d', l)
  {
  }

  lemma {:induction false} HeatWithinLimit(d: Desk, l: Risk.Limits)
    requires WithinLimits(d, l) && l.riskPerTrade >= 0.0
    ensures |d.risk.open| <= Max(0, l.maxOpen) && Risk.Heat(d.risk.open) <= MaxR(0.0, l.maxHeat)
  {
    Risk.HeatIsCount(d.risk.open, l.riskPerTrade);
    hide Risk.Heat, Risk.Uniform;
    if |d.risk.open| > 0 {
      HeatShrinks(|d.risk.open|, Committed(d), l);
    }
  }

  lemma {:induction false} SurvivorIds(ps: seq<Paper.Position>, t: Paper.Tick)
    ensures forall id | id in BookIds(Paper.Survivors(ps, t)) :: id in BookIds(ps)
  {
    var kept := Paper.Survivors(ps, t);
    forall i | 0 <= i < |kept|
      ensures BookIds(kept)[i] in BookIds(ps)
    {
      Paper.SurvivorsAre(ps, t, kept[i]);
      var j :| 0 <= j < |ps| && ps[j] == kept[i];
      assert BookIds(ps)[j] == BookIds(kept)[i];
    }
  }

  lemma {:induction false} TickReported(r: Risk.RiskState, ps: seq<Paper.Position>, t: Paper.Tick, cfg: Config,
      today: int)
    requires cfg.Valid() && RiskIds(r.open) == BookIds(ps) && Distinct(BookIds(ps))
    requires Risk.Uniform(r.open, cfg.limits.riskPerTrade)
    ensures var r', kept := CloseAll(r, Paper.Closings(ps, t), cfg, today), Paper.Survivors(ps, t);
            && RiskIds(r'.open) == BookIds(kept) && Distinct(BookIds(kept))
            && Risk.Uniform(r'.open, cfg.limits.riskPerTrade) && |r'.open| <= |r.open|
  {
    ClosingsReported(r, ps, t, |ps|, cfg, today);
    assert ps[..|ps|] == ps && BookIds(ps[|ps|..]) == [];
    hide CloseAll, Paper.Survivors, Paper.Closings;
    assert BookIds(Paper.Survivors(ps, t)) + [] == BookIds(Paper.Survivors(ps, t));
  }

  lemma {:induction false} TickerSound(d: Desk, op: Op, issued: set<string>, cfg: Config)
    requires cfg.Valid() && Sound(d, issued, cfg.limits) && op.Ticker? && cfg.limits.riskPerTrade >= 0.0
    ensures Sound(Step(d, op, cfg), issued, cfg.limits)
  {
    hide CloseAll, WithinLimits, Paper.Survivors, Paper.Closings, BookIds, RiskIds, Distinct, Risk.Uniform;
    assert Risk.Uniform(d.risk.open, cfg.limits.riskPerTrade) by {
      Uniformity(d, cfg.limits);
    }
    var ps := d.book.open;
    TickReported(d.risk, ps, op.tick, cfg, op.today);
    Paper.TickConserves(ps, op.tick, "");
    SurvivorIds(ps, op.tick);
    FewerWithinLimits(d, Step(d, op, cfg), cfg.limits);
  }

  lemma Uniformity(d: Desk, l: Risk.Limits)
    requires WithinLimits(d, l)
    ensures Risk.Uniform(d.risk.open, l.riskPerTrade)
  {
  }

  /**
    In every interleaving of evaluations, verdicts and tickers: the risk engine and the paper engine hold
    the same ids in the same order; the open positions together with the one awaiting its verdict
    stay within the position and heat limits; and every entry ever opened is open or closed.
   */
  lemma {:induction false} BooksAgree(date: int, ops: seq<Op>, cfg: Config)
    requires cfg.Valid() && cfg.limits.riskPerTrade >= 0.0 && FreshIds(ops)
    ensures Sound(Run(date, ops, cfg), Issued(ops), cfg.limits)
  {
    if ops != [] {
      var front, op := ops[..|ops| - 1], ops[|ops| - 1];
      assert forall i | 0 <= i < |front| :: front[..i] == ops[..i];
      BooksAgree(date, front, cfg);
      var d := Run(date, front, cfg);
      hide Run, Step, Sound;
      if Enabled(d, op) {
        match op
        case Evaluate(_, _, _) => EvaluateSound(d, op, Issued(front), cfg);
        case Verdict(_, _) => VerdictSound(d, op, Issued(front), cfg);
        case Ticker(_, _) => TickerSound(d, op, Issued(front), cfg);
      } else {
        IssuedMore(d, Issued(front), Issued(ops), cfg.limits);
      }
    }
  }

  lemma {:induction false} PendingNewStep(d: Desk, op: Op, issued: set<string>, cfg: Config)
    requires cfg.Valid() && Enabled(d, op) && Agree(d, issued)
    requires forall p | p in d.book.closed :: p.id in issued
    requires d.pending.Some? ==> Paper.Absent(d.book.closed, d.pending.value.id)
    requires op.Evaluate? ==> op.signal.id !in issued
    ensures var d' := Step(d, op, cfg);
            && (forall p | p in d'.book.closed :: p.id in issued)
            && (d'.pending.Some? ==> Paper.Absent(d'.book.closed, d'.pending.value.id))
  {
    hide Distinct, RiskIds;
    if op.Ticker? {
      ClosingsFromOpen(d.book.open, op.tick);
      hide Paper.Closings, CloseAll, Paper.Survivors;
      var closings := Paper.Closings(d.book.open, op.tick);
      assert forall p | p in closings :: p.id in BookIds(d.book.open);
    } else if op.Evaluate? {
      assert forall j | 0 <= j < |d.book.closed| :: d.book.closed[j] in d.book.closed;
      hide Risk.Allowed;
    } else {
      hide Paper.OnOpen, Risk.Opened;
    }
  }

  lemma {:induction false} ClosingsFromOpen(ps: seq<Paper.Position>, t: Paper.Tick)
    ensures forall p | p in Paper.Closings(ps, t) :: p.id in BookIds(ps)
  {
    if ps != [] {
      var n := |ps| - 1;
      ClosingsFromOpen(ps[..n], t);
      assert BookIds(ps) == BookIds(ps[..n]) + [ps[n].id];
    }
  }

  /** With fresh ids the awaited signal's id is in neither list of the paper engine. */
  lemma {:induction false} PendingIsNew(date: int, ops: seq<Op>, cfg: Config)
    requires cfg.Valid() && cfg.limits.riskPerTrade >= 0.0 && FreshIds(ops)
    ensures var d := Run(date, ops, cfg);
            && (forall p | p in d.book.closed :: p.id in Issued(ops))
            && (d.pending.Some? ==>
                  && d.pending.value.id in Issued(ops)
                  && Paper.Absent(d.book.open, d.pending.value.id) && Paper.Absent(d.book.closed, d.pending.value.id))
  {
    BooksAgree(date, ops, cfg);
    NotInBook(Run(date, ops, cfg));
    if ops != [] {
      var front, op := ops[..|ops| - 1], ops[|ops| - 1];
      FreshFront(ops);
      BooksAgree(date, front, cfg);
      PendingIsNew(date, front, cfg);
      var d := Run(date, front, cfg);
      hide Step, WithinLimits, BookIds, RiskIds, Distinct, Paper.Absent;
      if Enabled(d, op) {
        PendingNewStep(d, op, Issued(front), cfg);
      }
    }
  }

  lemma NotInBook(d: Desk)
    ensures d.pending.Some? && d.pending.value.id !in BookIds(d.book.open) ==>
              Paper.Absent(d.book.open, d.pending.value.id)
  {
    if d.pending.Some? {
      assert forall j | 0 <= j < |d.book.open| :: BookIds(d.book.open)[j] == d.book.open[j].id;
    }
  }

  lemma FreshFront(ops: seq<Op>)
    requires FreshIds(ops) && ops != []
    ensures var front, op := ops[..|ops| - 1], ops[|ops| - 1];
            FreshIds(front) && (op.Evaluate? ==> op.signal.id !in Issued(front))
  {
    var front := ops[..|ops| - 1];
    assert forall i | 0 <= i < |front| :: front[..i] == ops[..i];
  }

  lemma {:induction false} IssuedMore(d: Desk, a: set<string>, b: set<string>, l: Risk.Limits)
    requires Sound(d, a, l) && a <= b
    ensures Sound(d, b, l)
  {
  }

  /** So the heat the risk engine computes never passes the limit, although it was checked before the wait. */
  lemma {:induction false} HeatStaysWithinLimit(date: int, ops: seq<Op>, cfg: Config)
    requires cfg.Valid() && cfg.limits.riskPerTrade >= 0.0 && FreshIds(ops)
    ensures var open := Run(date, ops, cfg).risk.open;
            && |open| <= Max(0, cfg.limits.maxOpen)
            && Risk.Heat(open) <= MaxR(0.0, cfg.limits.maxHeat)
  {
    hide Run, WithinLimits, Agree;
    BooksAgree(date, ops, cfg);
    HeatWithinLimit(Run(date, ops, cfg), cfg.limits);
  }

  // ----- within one day -----------------------------------------------------------------------------

  ghost predicate SameDay(date: int, ops: seq<Op>) {
    forall i | 0 <= i < |ops| ::
      (ops[i].Evaluate? ==> ops[i].today == date) && (ops[i].Ticker? ==> ops[i].today == date)
  }

  function PercentSum(ps: seq<Paper.Position>, cfg: Config): real
    requires cfg.Valid()
  {
    if ps == [] then 0.0 else PercentSum(ps[..|ps| - 1], cfg) + EquityPercent(ps[|ps| - 1], cfg)
  }

  lemma {:induction false} PercentSumConcat(a: seq<Paper.Position>, b: seq<Paper.Position>, cfg: Config)
    requires cfg.Valid()
    ensures PercentSum(a + b, cfg) == PercentSum(a, cfg) + PercentSum(b, cfg)
  {
    hide EquityPercent;
    if b == [] {
      assert a + b == a;
    } else {
      PercentSumConcat(a, b[..|b| - 1], cfg);
      assert (a + b)[..|a + b| - 1] == a + b[..|b| - 1];
    }
  }

  lemma {:induction false} CloseAllToday(r: Risk.RiskState, ps: seq<Paper.Position>, cfg: Config)
    requires cfg.Valid()
    ensures var r' := CloseAll(r, ps, cfg, r.resetDate);
            && r'.resetDate == r.resetDate
            && r'.dailyPnl == r.dailyPnl + PercentSum(ps, cfg)
            && (r.frozen ==> r'.frozen)
  {
    hide EquityPercent, Risk.Without;
    if ps != [] {
      CloseAllToday(r, ps[..|ps| - 1], cfg);
    }
  }

  /** Within one day the figure the freeze acts on is the sum of all closed results, in percent of the account. */
  lemma {:induction false} ResultsAgree(date: int, ops: seq<Op>, cfg: Config)
    requires cfg.Valid() && SameDay(date, ops)
    ensures var d := Run(date, ops, cfg);
            d.risk.resetDate == date && d.risk.dailyPnl == PercentSum(d.book.closed, cfg)
  {
    if ops != [] {
      var front, op := ops[..|ops| - 1], ops[|ops| - 1];
      ResultsAgree(date, front, cfg);
      var d := Run(date, front, cfg);
      if op.Ticker? {
        var closings := Paper.Closings(d.book.open, op.tick);
        CloseAllToday(d.risk, closings, cfg);
        PercentSumConcat(d.book.closed, closings, cfg);
      }
      hide CloseAll, PercentSum, Paper.Closings, Paper.Survivors, Risk.Put, Paper.Put, Risk.Allowed;
    }
  }

  /** The dollars won and lost on the closed positions. */
  function Dollars(ps: seq<Paper.Position>): real {
    if ps == [] then 0.0
    else
      var p := ps[|ps| - 1];
      Dollars(ps[..|ps| - 1]) + if p.outcome.Some? then p.outcome.value.pnlUsd else 0.0
  }

  lemma {:induction false} ShareOfEquity(p: Paper.Position, cfg: Config)
    requires cfg.Valid()
    ensures EquityPercent(p, cfg) * cfg.equity == 100.0 * if p.outcome.Some? then p.outcome.value.pnlUsd else 0.0
  {
    if p.outcome.Some? {
      DivMul(p.outcome.value.pnlUsd, cfg.equity);
    }
  }

  lemma {:induction false} PercentIsDollars(ps: seq<Paper.Position>, cfg: Config)
    requires cfg.Valid()
    ensures PercentSum(ps, cfg) * cfg.equity == 100.0 * Dollars(ps)
  {
    if ps != [] {
      var front, p := ps[..|ps| - 1], ps[|ps| - 1];
      PercentIsDollars(front, cfg);
      ShareOfEquity(p, cfg);
      hide EquityPercent;
      Distribute(PercentSum(front, cfg), EquityPercent(p, cfg), cfg.equity);
    }
  }

  lemma {:induction false} Distribute(a: real, b: real, c: real)
    ensures (a + b) * c == a * c + b * c
  {
  }

  lemma {:induction false} ClosingsHaveOutcome(ps: seq<Paper.Position>, t: Paper.Tick)
    ensures forall p | p in Paper.Closings(ps, t) :: p.outcome.Some?
  {
    if ps != [] {
      ClosingsHaveOutcome(ps[..|ps| - 1], t);
    }
  }

  lemma {:induction false} ClosedHaveOutcome(date: int, ops: seq<Op>, cfg: Config)
    requires cfg.Valid()
    ensures forall p | p in Run(date, ops, cfg).book.closed :: p.outcome.Some?
  {
    if ops != [] {
      var front, op := ops[..|ops| - 1], ops[|ops| - 1];
      ClosedHaveOutcome(date, front, cfg);
      if op.Ticker? {
        ClosingsHaveOutcome(Run(date, front, cfg).book.open, op.tick);
      }
      hide CloseAll, Paper.Closings, Paper.Survivors, Risk.Put, Paper.Put, Risk.Allowed;
    }
  }

  /** In money: the day's percentage of the account is the dollars of all positions closed that day. */
  lemma {:induction false} DailyPnlInDollars(date: int, ops: seq<Op>, cfg: Config)
    requires cfg.Valid() && SameDay(date, ops)
    ensures var d := Run(date, ops, cfg);
            && d.risk.dailyPnl * cfg.equity == 100.0 * Dollars(d.book.closed)
            && forall p | p in d.book.closed :: p.outcome.Some?
  {
    ResultsAgree(date, ops, cfg);
    ClosedHaveOutcome(date, ops, cfg);
    hide Run, PercentSum, Dollars;
    PercentIsDollars(Run(date, ops, cfg).book.closed, cfg);
  }

  // ----- over any number of days ----------------------------------------------------------------------

  /** The reports one step makes to the risk engine: a check, an opened position, or each closing, with its date. */
  function Reports(d: Desk, op: Op, cfg: Config): seq<Risk.Op>
    requires cfg.Valid()
  {
    match op
    case Evaluate(_, btcPause, today) => [Risk.Check(btcPause, today)]
    case Verdict(approved, _) =>
      if approved && d.pending.Some? then [Risk.Open(d.pending.value.id, d.pending.value.symbol)] else []
    case Ticker(t, today) => Closes(Paper.Closings(d.book.open, t), cfg, today)
  }

  function Closes(ps: seq<Paper.Position>, cfg: Config, today: int): seq<Risk.Op>
    requires cfg.Valid()
  {
    if ps == [] then []
    else
      var n := |ps| - 1;
      Closes(ps[..n], cfg, today) + [Risk.Close(ps[n].id, EquityPercent(ps[n], cfg), today)]
  }

  function AllReports(date: int, ops: seq<Op>, cfg: Config): seq<Risk.Op>
    requires cfg.Valid()
  {
    if ops == [] then []
    else
      var front, op := ops[..|ops| - 1], ops[|ops| - 1];
      var d := Run(date, front, cfg);
      AllReports(date, front, cfg) + if Enabled(d, op) then Reports(d, op, cfg) else []
  }

  lemma RiskSnoc(date: int, l: Risk.Limits, a: seq<Risk.Op>, op: Risk.Op)
    ensures Risk.Run(date, l, a + [op]) == Risk.Step(Risk.Run(date, l, a), l, op)
  {
    hide Risk.Step;
    assert (a + [op])[..|a|] == a;
  }

  lemma {:induction false} ClosesAreCloseAll(date: int, a: seq<Risk.Op>, ps: seq<Paper.Position>, cfg: Config,
      today: int)
    requires cfg.Valid()
    ensures Risk.Run(date, cfg.limits, a + Closes(ps, cfg, today))
            == CloseAll(Risk.Run(date, cfg.limits, a), ps, cfg, today)
  {
    hide Risk.Run, Risk.Closed, EquityPercent;
    if ps == [] {
      assert a + [] == a;
    } else {
      var n := |ps| - 1;
      var before, last := Closes(ps[..n], cfg, today), Risk.Close(ps[n].id, EquityPercent(ps[n], cfg), today);
      ClosesAreCloseAll(date, a, ps[..n], cfg, today);
      RiskSnoc(date, cfg.limits, a + before, last);
      assert a + Closes(ps, cfg, today) == (a + before) + [last];
    }
  }

  lemma {:induction false} StepIsReports(date: int, a: seq<Risk.Op>, d: Desk, op: Op, cfg: Config)
    requires cfg.Valid() && d.risk == Risk.Run(date, cfg.limits, a)
    ensures Step(d, op, cfg).risk == Risk.Run(date, cfg.limits, a + Reports(d, op, cfg))
  {
    hide Risk.Run, Risk.Allowed, Risk.ResetDay, Risk.Opened, CloseAll, Paper.OnOpen, Paper.OnTick, Closes;
    match op
    case Evaluate(_, btcPause, today) => RiskSnoc(date, cfg.limits, a, Risk.Check(btcPause, today));
    case Verdict(approved, _) =>
      assert a + [] == a;
      if approved && d.pending.Some? {
        RiskSnoc(date, cfg.limits, a, Risk.Open(d.pending.value.id, d.pending.value.symbol));
      }
    case Ticker(t, today) => ClosesAreCloseAll(date, a, Paper.Closings(d.book.open, t), cfg, today);
  }

  lemma {:induction false} DeskIsRisk(date: int, ops: seq<Op>, cfg: Config)
    requires cfg.Valid()
    ensures Run(date, ops, cfg).risk == Risk.Run(date, cfg.limits, AllReports(date, ops, cfg))
  {
    if ops != [] {
      var front, op := ops[..|ops| - 1], ops[|ops| - 1];
      DeskIsRisk(date, front, cfg);
      var a := AllReports(date, front, cfg);
      hide Step, Enabled, Reports;
      StepIsReports(date, a, Run(date, front, cfg), op, cfg);
      assert a + [] == a;
    }
  }

  /**
    Over any number of days: the daily figure is the sum of the results reported since the date of the reports last
    changed, and trading is frozen iff some non-empty prefix of them summed to at most minus the limit.
   */
  lemma {:induction false} FreezeFollowsReports(date: int, ops: seq<Op>, cfg: Config)
    requires cfg.Valid()
    ensures var reports := AllReports(date, ops, cfg);
            Risk.Mirrors(Run(date, ops, cfg).risk, Risk.Today(date, reports), Risk.DayCloses(date, reports),
                         cfg.limits.dailyLoss)
  {
    DeskIsRisk(date, ops, cfg);
    hide Run, AllReports, Risk.Mirrors, Risk.Run, Risk.Today, Risk.DayCloses;
    Risk.FrozenIsHistory(date, cfg.limits, AllReports(date, ops, cfg));
  }

  /** How many positions were opened while trading was frozen. */
  function LateOpens(date: int, ops: seq<Op>, cfg: Config): nat
    requires cfg.Valid()
  {
    if ops == [] then 0
    else
      var front, op := ops[..|ops| - 1], ops[|ops| - 1];
      var d := Run(date, front, cfg);
      LateOpens(date, front, cfg)
      + if op.Verdict? && op.approved && d.pending.Some? && d.risk.frozen then 1 else 0
  }

  /** The freeze can come during the wait for a verdict, but within a day it lets at most that one entry through. */
  lemma {:induction false} AtMostOneLateOpen(date: int, ops: seq<Op>, cfg: Config)
    requires cfg.Valid() && SameDay(date, ops)
    ensures var d, late := Run(date, ops, cfg), LateOpens(date, ops, cfg);
            && (!d.risk.frozen ==> late == 0)
            && late <= 1
            && (d.risk.frozen ==> late + (if d.pending.Some? then 1 else 0) <= 1)
  {
    if ops != [] {
      var front, op := ops[..|ops| - 1], ops[|ops| - 1];
      AtMostOneLateOpen(date, front, cfg);
      ResultsAgree(date, front, cfg);
      var d := Run(date, front, cfg);
      if op.Ticker? {
        CloseAllToday(d.risk, Paper.Closings(d.book.open, op.tick), cfg);
      }
      hide CloseAll, PercentSum, Paper.Closings, Paper.Survivors, Risk.Put, Paper.Put, Risk.Heat;
    }
  }

  /** The first verdict among the steps, whatever it answers. */
  function FirstVerdict(ops: seq<Op>): Option<bool> {
    if ops == [] then None
    else
      var earlier, op := FirstVerdict(ops[..|ops| - 1]), ops[|ops| - 1];
      if earlier.Some? then earlier else if op.Verdict? then Some(op.approved) else None
  }

  /** While trading is frozen nothing new comes to be awaited, and only a verdict ends the wait. */
  lemma {:induction false} FrozenStep(d: Desk, op: Op, cfg: Config)
    requires cfg.Valid() && d.risk.frozen && Enabled(d, op)
    requires (op.Evaluate? ==> op.today == d.risk.resetDate) && (op.Ticker? ==> op.today == d.risk.resetDate)
    ensures var d' := Step(d, op, cfg);
            && d'.risk.frozen && d'.risk.resetDate == d.risk.resetDate
            && d'.pending == if op.Verdict? then None else d.pending
  {
    if op.Ticker? {
      CloseAllToday(d.risk, Paper.Closings(d.book.open, op.tick), cfg);
    }
    hide CloseAll, PercentSum, Paper.Closings, Paper.Survivors, Risk.Put, Paper.Put, Risk.Heat;
  }

  /** What the rest of the day of a freeze adds to the late opens. */
  ghost predicate RestOfDay(date: int, front: seq<Op>, rest: seq<Op>, cfg: Config)
    requires cfg.Valid()
  {
    var d, d' := Run(date, front, cfg), Run(date, front + rest, cfg);
    && d'.risk.frozen && d'.risk.resetDate == d.risk.resetDate
    && d'.pending == (if FirstVerdict(rest).None? then d.pending else None)
    && LateOpens(date, front + rest, cfg)
       == LateOpens(date, front, cfg) + if d.pending.Some? && FirstVerdict(rest) == Some(true) then 1 else 0
  }

  /**
    From any state with trading frozen, after any number of days: for the rest of that day exactly one more entry opens
    if a verdict was being awaited and the next one approves, and none otherwise.
   */
  lemma {:induction false} LateOpensAfterFreeze(date: int, front: seq<Op>, rest: seq<Op>, cfg: Config)
    requires cfg.Valid() && Run(date, front, cfg).risk.frozen && SameDay(Run(date, front, cfg).risk.resetDate, rest)
    ensures RestOfDay(date, front, rest, cfg)
  {
    if rest == [] {
      assert front + rest == front;
    } else {
      var n := |rest| - 1;
      LateOpensAfterFreeze(date, front, rest[..n], cfg);
      var mid, ops := front + rest[..n], front + rest;
      assert ops[..|ops| - 1] == mid && ops[|ops| - 1] == rest[n];
      var d := Run(date, mid, cfg);
      if Enabled(d, rest[n]) {
        FrozenStep(d, rest[n], cfg);
      }
      hide Step;
    }
  }

  /** Step `k` is the one that freezes trading. */
  ghost predicate FreezesAt(date: int, ops: seq<Op>, k: nat, cfg: Config)
    requires cfg.Valid() && 1 <= k <= |ops|
  {
    Run(date, ops[..k], cfg).risk.frozen && !Run(date, ops[..k - 1], cfg).risk.frozen
  }

  /** Trading is frozen after step `k`, after step `m` and all the time between. */
  ghost predicate FrozenOver(date: int, ops: seq<Op>, k: nat, m: nat, cfg: Config)
    requires cfg.Valid() && k <= m <= |ops|
  {
    forall i: nat | k <= i <= m :: Run(date, ops[..i], cfg).risk.frozen
  }

  ghost predicate Silent(ops: seq<Op>, k: nat, m: nat)
    requires k <= m <= |ops|
  {
    forall i: nat | k <= i < m :: !ops[i].Verdict?
  }

  lemma {:induction false} FreezeHasAStart(date: int, ops: seq<Op>, m: nat, cfg: Config) returns (k: nat)
    requires cfg.Valid() && m <= |ops| && Run(date, ops[..m], cfg).risk.frozen
    ensures 1 <= k <= m && FreezesAt(date, ops, k, cfg) && FrozenOver(date, ops, k, m, cfg)
  {
    hide Run;
    assert m > 0 by {
      NotFrozenAtStart(date, ops, cfg);
    }
    if Run(date, ops[..m - 1], cfg).risk.frozen {
      k := FreezeHasAStart(date, ops, m - 1, cfg);
    } else {
      k := m;
    }
  }

  lemma NotFrozenAtStart(date: int, ops: seq<Op>, cfg: Config)
    requires cfg.Valid()
    ensures !Run(date, ops[..0], cfg).risk.frozen
  {
  }

  /** While trading stays frozen nothing new comes to be awaited, and only a verdict ends the wait. */
  lemma {:induction false} WaitOver(date: int, ops: seq<Op>, k: nat, m: nat, cfg: Config)
    requires cfg.Valid() && k <= m <= |ops| && FrozenOver(date, ops, k, m, cfg)
    ensures Run(date, ops[..m], cfg).pending == if Silent(ops, k, m) then Run(date, ops[..k], cfg).pending else None
  {
    if k < m {
      WaitOver(date, ops, k, m - 1, cfg);
      var op := ops[m - 1];
      assert ops[..m][..m - 1] == ops[..m - 1];
      assert Silent(ops, k, m) <==> Silent(ops, k, m - 1) && !op.Verdict?;
      assert Run(date, ops[..m], cfg).risk.frozen;
      hide CloseAll, Silent, FrozenOver, Paper.Closings, Paper.Survivors, Risk.Put, Paper.Put, Risk.Heat;
    }
  }

  /** Step `j` opens a position while trading is frozen. */
  ghost predicate OpensLate(date: int, ops: seq<Op>, j: nat, cfg: Config)
    requires cfg.Valid() && j < |ops|
  {
    var d := Run(date, ops[..j], cfg);
    ops[j].Verdict? && ops[j].approved && d.pending.Some? && d.risk.frozen
  }

  lemma {:induction false} LateOpensCounts(date: int, ops: seq<Op>, cfg: Config)
    requires cfg.Valid()
    ensures LateOpens(date, ops, cfg) > 0 <==> exists j: nat | j < |ops| :: OpensLate(date, ops, j, cfg)
  {
    if ops != [] {
      var n := |ops| - 1;
      LateOpensCounts(date, ops[..n], cfg);
      hide Run;
      forall j: nat | j < n
        ensures OpensLate(date, ops, j, cfg) <==> OpensLate(date, ops[..n], j, cfg)
      {
        assert ops[..n][..j] == ops[..j];
      }
      assert OpensLate(date, ops, n, cfg) <==> LateOpens(date, ops, cfg) > LateOpens(date, ops[..n], cfg);
    }
  }

  /** The wait that a freeze at step `k` interrupts, if any, ends in an approval while trading is still frozen. */
  ghost predicate ApprovedAcross(date: int, ops: seq<Op>, k: nat, cfg: Config)
    requires cfg.Valid() && 1 <= k <= |ops|
  {
    && Run(date, ops[..k], cfg).pending.Some?
    && exists j: nat | k <= j < |ops| ::
         ops[j].Verdict? && ops[j].approved && Silent(ops, k, j) && FrozenOver(date, ops, k, j, cfg)
  }

  /**
    Exactly when "never opens while frozen" fails, over any number of days: a freeze comes while a verdict is awaited,
    and the first verdict after it approves while trading is still frozen.
   */
  lemma {:induction false} LateOpensExactly(date: int, ops: seq<Op>, cfg: Config)
    requires cfg.Valid()
    ensures LateOpens(date, ops, cfg) == 0 <==>
              forall k: nat | 1 <= k <= |ops| && FreezesAt(date, ops, k, cfg) :: !ApprovedAcross(date, ops, k, cfg)
  {
    LateOpensCounts(date, ops, cfg);
    hide Run, LateOpens, FreezesAt, FrozenOver;
    if j: nat :| j < |ops| && OpensLate(date, ops, j, cfg) {
      var k := FreezeHasAStart(date, ops, j, cfg);
      WaitOver(date, ops, k, j, cfg);
      assert ApprovedAcross(date, ops, k, cfg);
    }
    forall k: nat | 1 <= k <= |ops| && FreezesAt(date, ops, k, cfg) && ApprovedAcross(date, ops, k, cfg)
      ensures exists j: nat | j < |ops| :: OpensLate(date, ops, j, cfg)
    {
      var j: nat :| k <= j < |ops| && ops[j].Verdict? && ops[j].approved && Silent(ops, k, j)
        && FrozenOver(date, ops, k, j, cfg);
      WaitOver(date, ops, k, j, cfg);
      StillFrozen(date, ops, k, j, cfg);
      assert OpensLate(date, ops, j, cfg);
    }
  }

  lemma StillFrozen(date: int, ops: seq<Op>, k: nat, m: nat, cfg: Config)
    requires cfg.Valid() && k <= m <= |ops| && FrozenOver(date, ops, k, m, cfg)
    ensures Run(date, ops[..m], cfg).risk.frozen
  {
  }

  lemma {:induction false} Snoc(date: int, front: seq<Op>, op: Op, ops: seq<Op>, cfg: Config)
    requires cfg.Valid() && ops == front + [op] && Enabled(Run(date, front, cfg), op)
    ensures Run(date, ops, cfg) == Step(Run(date, front, cfg), op, cfg)
    ensures front == [] ==> Run(date, front, cfg) == Start(date)
  {
    assert ops[..|ops| - 1] == front;
  }

  const TIGHT := Config(Risk.Limits(1.0, 3, 10.0, 1.0), 1000.0)
  const FIRST := Signal("a", "S", "X", 100.0, 90.0, 120.0, 1000.0)
  const SECOND := Signal("b", "S", "X", 100.0, 90.0, 120.0, 1000.0)
  const FALL := Paper.Tick("S", "X", 90.0, 1)

  /** One position open, a second signal awaiting its verdict. */
  function Waiting(): Desk {
    Desk(Risk.Initial(0).(open := [Risk.OpenRisk("a", "S", 1.0)]),
         Paper.Book([PositionOf(FIRST, 0)], []), Some(SECOND), 1)
  }

  lemma ReachWaiting()
    ensures Run(0, [Evaluate(FIRST, false, 0), Verdict(true, 0), Evaluate(SECOND, false, 0)], TIGHT) == Waiting()
  {
    var (o1, o2, o3) := (Evaluate(FIRST, false, 0), Verdict(true, 0), Evaluate(SECOND, false, 0));
    FirstSteps();
    assert Run(0, [], TIGHT) == Start(0);
    hide Run, Step;
    Snoc(0, [], o1, [o1], TIGHT);
    Snoc(0, [o1], o2, [o1, o2], TIGHT);
    Snoc(0, [o1, o2], o3, [o1, o2, o3], TIGHT);
  }

  lemma FirstSteps()
    ensures var d1, d2 := Start(0).(pending := Some(FIRST)), Waiting().(pending := None);
            && Step(Start(0), Evaluate(FIRST, false, 0), TIGHT) == d1
            && Step(d1, Verdict(true, 0), TIGHT) == d2
            && Step(d2, Evaluate(SECOND, false, 0), TIGHT) == Waiting()
  {
    assert Waiting().risk.open[..0] == [];
    assert Risk.Heat(Waiting().risk.open) == 1.0;
  }

  lemma FallFreezes()
    ensures Step(Waiting(), Ticker(FALL, 0), TIGHT).risk.frozen
    ensures Step(Waiting(), Ticker(FALL, 0), TIGHT).pending == Some(SECOND)
  {
    var p := PositionOf(FIRST, 0);
    var q := Paper.Hit(p, FALL);
    assert [p][..0] == [] && [q][..0] == [];
    assert Paper.Closings([p], FALL) == [q];
    assert EquityPercent(q, TIGHT) == -10.0;
  }

  lemma TwoFreshIds(o2: Op, o4: Op, o5: Op)
    requires !o2.Evaluate? && !o4.Evaluate? && !o5.Evaluate?
    ensures FreshIds([Evaluate(FIRST, false, 0), o2, Evaluate(SECOND, false, 0), o4, o5])
  {
    var (o1, o3) := (Evaluate(FIRST, false, 0), Evaluate(SECOND, false, 0));
    var ops := [o1, o2, o3, o4, o5];
    assert ops[..0] == [] && ops[..2] == [o1, o2] && [o1, o2][..1] == [o1] && [o1][..0] == [];
    assert Issued([]) == {};
    assert Issued([o1]) == {"a"};
    assert Issued([o1, o2]) == {"a"};
  }

  /** And one can get through: a stop hit during the wait freezes trading, the approval then opens a position. */
  lemma {:induction false} FreezeDuringWait()
    ensures exists ops: seq<Op> :: SameDay(0, ops) && FreshIds(ops) && LateOpens(0, ops, TIGHT) == 1
  {
    var (o1, o2, o3) := (Evaluate(FIRST, false, 0), Verdict(true, 0), Evaluate(SECOND, false, 0));
    var (o4, o5) := (Ticker(FALL, 0), Verdict(true, 2));
    ReachWaiting();
    Snoc(0, [o1, o2, o3], o4, [o1, o2, o3, o4], TIGHT);
    FallFreezes();
    var ops := [o1, o2, o3, o4, o5];
    assert ops[..4] == [o1, o2, o3, o4];
    TwoFreshIds(o2, o4, o5);
    hide Run, Step, FreshIds;
    assert LateOpens(0, ops, TIGHT) >= 1;
    AtMostOneLateOpen(0, ops, TIGHT);
  }

  // ----- the pipeline object ----------------------------------------------------------------------------

  class SignalPipeline {
    const cfg: Config
    const riskEngine: Risk.RiskEngine
    const paperEngine: PaperEngine.PaperTradingEngine
    var pending: Option<Signal>
    var entriesOpenedTotal: nat

    ghost predicate Valid()
      reads this, paperEngine, paperEngine.open, paperEngine.closed
    {
      cfg.Valid() && riskEngine.limits == cfg.limits && paperEngine.Valid()
    }

    ghost function View(): Desk
      reads this, riskEngine, paperEngine, paperEngine.open, paperEngine.closed
    {
      Desk(riskEngine.View(), paperEngine.View(), pending, entriesOpenedTotal)
    }

    constructor (cfg: Config, today: int)
      requires cfg.Valid()
      ensures Valid() && View() == Start(today) && this.cfg == cfg
    {
      this.cfg := cfg;
      riskEngine := new Risk.RiskEngine(cfg.limits, today);
      paperEngine := new PaperEngine.PaperTradingEngine();
      pending, entriesOpenedTotal := None, 0;
    }

    /** The risk gate of one evaluation; a signal that passes is sent to the auditor. */
    method EvaluateSignal(s: Signal, btcPause: bool, today: int)
      requires Valid() && pending == None
      modifies this`pending, riskEngine
      ensures Valid() && View() == Step(old(View()), Evaluate(s, btcPause, today), cfg)
    {
      var allowed, _ := riskEngine.CheckTradeAllowed(btcPause, today);
      if allowed {
        pending := Some(s);
      }
    }

    method OpenPaper(p: Paper.Position)
      requires Valid() && p.state == Paper.PositionOpen && p.outcome == None
      modifies paperEngine
      ensures Valid() && paperEngine.View() == Paper.OnOpen(old(paperEngine.View()), p)
      ensures riskEngine.View() == old(riskEngine.View())
    {
      hide Paper.OnOpen, PaperEngine.PaperTradingEngine.View, PaperEngine.PaperTradingEngine.Valid;
      var _ := paperEngine.OpenPosition(p);
    }

    method OpenEntry(s: Signal, now: int)
      requires Valid()
      modifies this`entriesOpenedTotal, riskEngine, paperEngine
      ensures Valid() && entriesOpenedTotal == old(entriesOpenedTotal) + 1
      ensures riskEngine.View() == Risk.Opened(old(riskEngine.View()), cfg.limits, s.id, s.symbol)
      ensures paperEngine.View() == Paper.OnOpen(old(paperEngine.View()), PositionOf(s, now))
    {
      hide Paper.OnOpen, Risk.Opened, Risk.RiskEngine.View, PaperEngine.PaperTradingEngine.View,
          PaperEngine.PaperTradingEngine.Valid;
      OpenPaper(PositionOf(s, now));
      riskEngine.RegisterOpenPosition(s.id, s.symbol);
      entriesOpenedTotal := entriesOpenedTotal + 1;
    }

    /** What happens after the await: nothing unless approved, else the entry is opened in both engines. */
    method OnVerdict(approved: bool, now: int)
      requires Valid() && pending.Some?
      modifies this`pending, this`entriesOpenedTotal, riskEngine, paperEngine
      ensures Valid() && View() == Step(old(View()), Verdict(approved, now), cfg)
    {
      hide Risk.Opened, Paper.OnOpen, PositionOf;
      var s := pending.value;
      pending := None;
      if !approved {
        return;
      }
      OpenEntry(s, now);
    }

    method ReportClosings(closed: seq<PaperEngine.PaperPosition>, today: int)
      requires Valid()
      modifies riskEngine
      ensures riskEngine.View() == CloseAll(old(riskEngine.View()), PaperEngine.Views(closed), cfg, today)
    {
      hide Risk.Closed, PaperEngine.PaperTradingEngine.Valid;
      ghost var views, r := PaperEngine.Views(closed), riskEngine.View();
      for i := 0 to |closed|
        invariant PaperEngine.Views(closed) == views
        invariant riskEngine.View() == CloseAll(r, views[..i], cfg, today)
      {
        var p := closed[i].View();
        var pnlPercent := if p.outcome.Some? then p.outcome.value.pnlUsd / cfg.equity * 100.0 else 0.0;
        assert pnlPercent == EquityPercent(p, cfg);
        hide EquityPercent, CloseAll;
        riskEngine.RegisterClosedPosition(p.id, pnlPercent, today);
        CloseAllStep(r, views[..i], p, cfg, today);
        assert views[..i + 1] == views[..i] + [p];
      }
      assert views[..|closed|] == views;
    }

    /** Exits on a ticker: positions closed by the paper engine are reported to the risk engine one by one. */
    method CheckExits(t: Paper.Tick, today: int)
      requires Valid()
      modifies riskEngine, paperEngine, paperEngine.open
      ensures Valid() && View() == Step(old(View()), Ticker(t, today), cfg)
      ensures forall x | x in paperEngine.open :: x in old(paperEngine.open)
    {
      hide CloseAll, Paper.Survivors, Paper.Closings;
      var closed := paperEngine.OnPriceUpdate(t);
      ReportClosings(closed, today);
    }
  }
}
