/** The pressure state of the buffer, read off the history of its utilisation. */
module Hysteresis {
  import opened Prelude
  import opened Events
  import opened RingBufferModel

  /** Reaching either of the two upper watermarks puts the buffer in lossy mode. */
  function Level(cfg: Config): real {
    if cfg.high <= cfg.overload then cfg.high else cfg.overload
  }

  /** How many events of one class are in the buffer, by the books: accepted ones that have not left. */
  ghost function Held(cfg: Config, ops: seq<Op>, p: Priority): int
    requires cfg.Valid()
  {
    var l := LedgerOf(cfg, ops, p);
    |l.accepted| - |l.removed|
  }

  /** The share of the capacity held, over all four classes, right after the first `i` operations. */
  ghost function Load(cfg: Config, ops: seq<Op>, i: nat): real
    requires cfg.Valid() && i <= |ops|
  {
    var front := ops[..i];
    (Held(cfg, front, P0) + Held(cfg, front, P1) + Held(cfg, front, P2) + Held(cfg, front, P3)) as real
    / cfg.capacity as real
  }

  lemma {:induction false} HeldIsQueued(cfg: Config, ops: seq<Op>, p: Priority)
    requires cfg.Valid()
    ensures Held(cfg, ops, p) == |Run(cfg, ops).queues.At(p)|
  {
    Accounting(cfg, ops, p);
    hide Run, LedgerOf, Sound, Partitioned, Counted;
  }

  lemma {:induction false} HeldInAll(cfg: Config, ops: seq<Op>)
    requires cfg.Valid()
    ensures Held(cfg, ops, P0) + Held(cfg, ops, P1) + Held(cfg, ops, P2) + Held(cfg, ops, P3)
            == Size(Run(cfg, ops).queues)
  {
    HeldIsQueued(cfg, ops, P0);
    HeldIsQueued(cfg, ops, P1);
    HeldIsQueued(cfg, ops, P2);
    HeldIsQueued(cfg, ops, P3);
    hide Held, Run;
  }

  lemma {:induction false} LoadIsFill(cfg: Config, ops: seq<Op>)
    requires cfg.Valid()
    ensures Load(cfg, ops, |ops|) == Size(Run(cfg, ops).queues) as real / cfg.capacity as real
  {
    assert ops[..|ops|] == ops;
    HeldInAll(cfg, ops);
    hide Held, Run, Size;
  }

  /** The utilisation the buffer acts on is that share: all four queues count, each event once. */
  lemma {:induction false} UtilizationIsLoad(cfg: Config, ops: seq<Op>)
    requires cfg.Valid()
    ensures Utilization(cfg, Run(cfg, ops).queues) == Load(cfg, ops, |ops|)
    ensures var q := Run(cfg, ops).queues;
            Load(cfg, ops, |ops|) * cfg.capacity as real == (|q.p0| + |q.p1| + |q.p2| + |q.p3|) as real
  {
    hide *;
    LoadIsFill(cfg, ops);
    var u := Load(cfg, ops, |ops|);
    UtilizationIs(cfg, Run(cfg, ops).queues, u);
  }

  lemma {:induction false} UtilizationIs(cfg: Config, q: Queues, u: real)
    requires cfg.Valid() && u == Size(q) as real / cfg.capacity as real
    ensures Utilization(cfg, q) == u && u * cfg.capacity as real == (|q.p0| + |q.p1| + |q.p2| + |q.p3|) as real
  {
    var n, c := Size(q) as real, cfg.capacity as real;
    DivMul(n, c);
  }

  ghost predicate Latches(cfg: Config, ops: seq<Op>, i: nat)
    requires cfg.Valid() && 1 <= i <= |ops|
  {
    && ops[i - 1] != Acknowledge
    && Load(cfg, ops, i) >= Level(cfg)
    && forall j: nat | i <= j <= |ops| :: Load(cfg, ops, j) > cfg.recovery
  }

  /** Some push or drain left the utilisation high, and it has stayed above recovery ever since. */
  ghost predicate PressureLatched(cfg: Config, ops: seq<Op>)
    requires cfg.Valid()
  {
    exists i: nat | 1 <= i <= |ops| :: Latches(cfg, ops, i)
  }

  ghost predicate Overflows(cfg: Config, ops: seq<Op>, i: nat)
    requires cfg.Valid() && 1 <= i <= |ops|
  {
    && LastEffect(cfg, ops[..i]).OverloadRaised?
    && forall j: nat | i < j <= |ops| && ops[j - 1] == Acknowledge :: Load(cfg, ops, j) > cfg.recovery
  }

  /** Some push raised the overload exception and no acknowledgement at or below recovery came after it. */
  ghost predicate OverloadPending(cfg: Config, ops: seq<Op>)
    requires cfg.Valid()
  {
    exists i: nat | 1 <= i <= |ops| :: Overflows(cfg, ops, i)
  }

  function Fill(cfg: Config, k: nat): real
    requires cfg.Valid()
  {
    k as real / cfg.capacity as real
  }

  /** No fill level of the buffer counts as high and as recovered at once. */
  ghost predicate Separated(cfg: Config)
    requires cfg.Valid()
  {
    forall k: nat | k <= cfg.capacity :: !(Level(cfg) <= Fill(cfg, k) <= cfg.recovery)
  }

  ghost predicate StatusTellsHistory(cfg: Config, ops: seq<Op>)
    requires cfg.Valid()
  {
    var s := Run(cfg, ops).status;
    && (s == DataOverload <==> OverloadPending(cfg, ops))
    && (s != DataOverload ==> (s == Lossy <==> PressureLatched(cfg, ops)))
  }

  lemma {:induction false} LoadOfFront(cfg: Config, ops: seq<Op>, i: nat)
    requires cfg.Valid() && i < |ops|
    ensures Load(cfg, ops, i) == Load(cfg, ops[..|ops| - 1], i)
    ensures ops[..|ops| - 1][..i] == ops[..i]
  {
    assert ops[..|ops| - 1][..i] == ops[..i];
  }

  lemma {:induction false} LatchedStep(cfg: Config, ops: seq<Op>)
    requires cfg.Valid() && ops != []
    ensures var front, op, u := ops[..|ops| - 1], ops[|ops| - 1], Load(cfg, ops, |ops|);
            PressureLatched(cfg, ops) <==>
              u > cfg.recovery && ((op != Acknowledge && u >= Level(cfg)) || PressureLatched(cfg, front))
  {
    hide Load, Level;
    var n := |ops|;
    var front := ops[..n - 1];
    forall i: nat | i < n
      ensures Load(cfg, ops, i) == Load(cfg, front, i)
    {
      LoadOfFront(cfg, ops, i);
    }
    if Load(cfg, ops, n) > cfg.recovery {
      forall i: nat | 1 <= i < n
        ensures Latches(cfg, ops, i) <==> Latches(cfg, front, i)
      {
      }
      if ops[n - 1] != Acknowledge && Load(cfg, ops, n) >= Level(cfg) {
        assert Latches(cfg, ops, n);
      }
    }
  }

  lemma {:induction false} OverloadStep(cfg: Config, ops: seq<Op>)
    requires cfg.Valid() && ops != []
    ensures var front, op, u := ops[..|ops| - 1], ops[|ops| - 1], Load(cfg, ops, |ops|);
            OverloadPending(cfg, ops) <==>
              LastEffect(cfg, ops).OverloadRaised?
              || (OverloadPending(cfg, front) && (op == Acknowledge ==> u > cfg.recovery))
  {
    hide Load, LastEffect;
    var n := |ops|;
    var front := ops[..n - 1];
    assert ops[..n] == ops;
    forall i: nat | i < n
      ensures Load(cfg, ops, i) == Load(cfg, front, i) && front[..i] == ops[..i]
    {
      LoadOfFront(cfg, ops, i);
    }
    forall i: nat | 1 <= i < n
      ensures Overflows(cfg, ops, i) <==>
        Overflows(cfg, front, i) && (ops[n - 1] == Acknowledge ==> Load(cfg, ops, n) > cfg.recovery)
    {
    }
    if LastEffect(cfg, ops).OverloadRaised? {
      assert Overflows(cfg, ops, n);
    }
  }

  /** How one operation moves the pressure state, in terms of the utilisation it leaves behind. */
  lemma {:induction false} StatusStep(cfg: Config, b: Buffer, op: Op)
    requires cfg.Valid()
    ensures var (b', eff) := Step(cfg, b, op);
            var u := Utilization(cfg, b'.queues);
            b'.status ==
              if eff.OverloadRaised? then DataOverload
              else if op == Acknowledge then if u <= cfg.recovery then Normal else b.status
              else if b.status == DataOverload then DataOverload
              else if u >= Level(cfg) then Lossy
              else if u <= cfg.recovery then Normal
              else b.status
  {
    hide Utilization, Batch, Rest;
  }

  /**
    With the levels separated the state says exactly this about the past: DATA_OVERLOAD iff an overflow
    has not been acknowledged at or below recovery since; otherwise lossy iff the utilisation once
    reached a high watermark and has stayed above recovery after every operation since.
   */
  lemma {:induction false} StatusIsHistory(cfg: Config, ops: seq<Op>)
    requires cfg.Valid() && Separated(cfg)
    ensures StatusTellsHistory(cfg, ops)
  {
    if ops != [] {
      var front, op := ops[..|ops| - 1], ops[|ops| - 1];
      StatusIsHistory(cfg, front);
      RunSound(cfg, ops);
      UtilizationIsLoad(cfg, ops);
      assert Load(cfg, ops, |ops|) == Fill(cfg, Size(Run(cfg, ops).queues));
      LatchedStep(cfg, ops);
      OverloadStep(cfg, ops);
      StatusStep(cfg, Run(cfg, front), op);
      hide PressureLatched, OverloadPending, Step, Utilization, Level, Load;
    }
  }

  function Pushes(e: Event, k: nat): seq<Op> {
    if k == 0 then [] else Pushes(e, k - 1) + [Push(e)]
  }

  lemma {:induction false} PushFits(cfg: Config, b: Buffer, e: Event)
    requires cfg.Valid() && Size(b.queues) < cfg.capacity && e.priority == P3 && b.status != DataOverload
    ensures var b' := Step(cfg, b, Push(e)).0;
            && Size(b'.queues) == Size(b.queues) + 1 && |b'.queues.p3| == |b.queues.p3| + 1
            && b'.status != DataOverload
  {
    hide Utilization;
  }

  lemma {:induction false} PushesFill(cfg: Config, e: Event, k: nat)
    requires cfg.Valid() && k <= cfg.capacity && e.priority == P3
    ensures var b := Run(cfg, Pushes(e, k));
            Size(b.queues) == k == |b.queues.p3| && b.status != DataOverload
  {
    if k > 0 {
      PushesFill(cfg, e, k - 1);
      var ops, b := Pushes(e, k), Run(cfg, Pushes(e, k - 1));
      assert ops[..|ops| - 1] == Pushes(e, k - 1);
      hide Run;
      PushFits(cfg, b, e);
    }
  }

  /** A run that fills the buffer to a level both high and recovered and then drains nothing. */
  lemma {:induction false} LossyButRecovered(cfg: Config, k: nat) returns (ops: seq<Op>)
    requires cfg.Valid() && k <= cfg.capacity && Level(cfg) <= Fill(cfg, k) <= cfg.recovery
    ensures ops != [] && Run(cfg, ops).status == Lossy && Utilization(cfg, Run(cfg, ops).queues) <= cfg.recovery
  {
    var e := Event(Binance, "", P3, MarketTicker(0.0, None));
    var front := Pushes(e, k);
    PushesFill(cfg, e, k);
    ops := front + [PopBatch(0)];
    assert ops[..|ops| - 1] == front && ops[..|ops|] == ops;
    var b := Run(cfg, front);
    assert Rest(b.queues, 0) == b.queues;
    StatusStep(cfg, b, PopBatch(0));
  }

  /** Separated levels are exactly what it takes: otherwise some run ends lossy at a recovered utilisation. */
  lemma {:induction false} HistoryNeedsSeparation(cfg: Config)
    requires cfg.Valid()
    ensures Separated(cfg) <==> forall ops: seq<Op> :: StatusTellsHistory(cfg, ops)
  {
    if Separated(cfg) {
      forall ops: seq<Op>
        ensures StatusTellsHistory(cfg, ops)
      {
        StatusIsHistory(cfg, ops);
      }
    } else {
      var k: nat :| k <= cfg.capacity && Level(cfg) <= Fill(cfg, k) <= cfg.recovery;
      var ops := LossyButRecovered(cfg, k);
      UtilizationIsLoad(cfg, ops);
      hide Run, Utilization, Load;
      LatchedStep(cfg, ops);
      assert !StatusTellsHistory(cfg, ops);
    }
  }

  lemma {:induction false} DistinctWatermarksSeparate(cfg: Config)
    requires cfg.Valid() && cfg.recovery < cfg.high && cfg.recovery < cfg.overload
    ensures Separated(cfg)
  {
  }

  /** Acknowledging recovery is a way out of DATA_OVERLOAD and nothing else. */
  lemma {:induction false} AcknowledgeOnlyLeavesOverload(cfg: Config, ops: seq<Op>)
    requires cfg.Valid() && Separated(cfg) && Run(cfg, ops).status != DataOverload
    ensures Step(cfg, Run(cfg, ops), Acknowledge).0 == Run(cfg, ops)
  {
    StatusIsHistory(cfg, ops);
    UtilizationIsLoad(cfg, ops);
    if PressureLatched(cfg, ops) {
      assert Load(cfg, ops, |ops|) > cfg.recovery;
    }
  }
}
