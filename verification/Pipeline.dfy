/** The consumer loop: every drained event goes to the feature store, and every ticker also to the exit check. */
module Pipeline {
  import opened Prelude
  import opened Events
  import opened RingBufferModel
  import opened RingBuffer
  import opened FeatureStore
  import opened Lifecycle
  import Feed
  import Paper
  import Risk
  import opened PaperEngine

  const MAX_ITEMS := 500

  /** The clock as read while an event is processed. */
  datatype Time = Time(now: int, today: int)

  function ExchangeName(x: Exchange): string {
    match x case Binance => "binance" case Bybit => "bybit"
  }

  /** The price update an event amounts to for the paper engine, if it is a ticker. */
  function TickOf(e: Event, now: int): Option<Paper.Tick> {
    match e.payload
    case MarketTicker(price, _) => Some(Paper.Tick(e.symbol, ExchangeName(e.exchange), price, now))
    case _ => None
  }

  function ExitStep(d: Desk, e: Event, at: Time, cfg: Lifecycle.Config): Desk
    requires cfg.Valid()
  {
    var t := TickOf(e, at.now);
    if t.Some? then Lifecycle.Step(d, Ticker(t.value, at.today), cfg) else d
  }

  /** The desk after the exit checks of a sequence of events. */
  function Exits(d: Desk, es: seq<Event>, clock: nat -> Time, cfg: Lifecycle.Config): Desk
    requires cfg.Valid()
  {
    if es == [] then d
    else
      var n := |es| - 1;
      ExitStep(Exits(d, es[..n], clock, cfg), es[n], clock(n), cfg)
  }

  /** The price updates among the events. */
  function Ticks(es: seq<Event>, clock: nat -> Time): seq<Paper.Op> {
    if es == [] then []
    else
      var n := |es| - 1;
      var t := TickOf(es[n], clock(n).now);
      Ticks(es[..n], clock) + if t.Some? then [Paper.TickOp(t.value)] else []
  }

  lemma ExitStepIsTick(d: Desk, e: Event, at: Time, cfg: Lifecycle.Config)
    requires cfg.Valid()
    ensures var t, d' := TickOf(e, at.now), ExitStep(d, e, at, cfg);
            && d'.book == (if t.Some? then Paper.OnTick(d.book, t.value) else d.book)
            && d'.pending == d.pending && d'.entries == d.entries
  {
    hide CloseAll, Paper.OnTick;
  }

  lemma {:induction false} ExitsAreTicks(d: Desk, es: seq<Event>, clock: nat -> Time, cfg: Lifecycle.Config)
    requires cfg.Valid()
    ensures Exits(d, es, clock, cfg).book == Paper.Run(d.book, Ticks(es, clock))
    ensures Exits(d, es, clock, cfg).pending == d.pending && Exits(d, es, clock, cfg).entries == d.entries
  {
    if es != [] {
      var n := |es| - 1;
      ExitsAreTicks(d, es[..n], clock, cfg);
      var ticks := Ticks(es[..n], clock);
      ExitStepIsTick(Exits(d, es[..n], clock, cfg), es[n], clock(n), cfg);
      hide ExitStep, TickOf, Paper.OnTick;
      if TickOf(es[n], clock(n).now).Some? {
        assert Ticks(es, clock)[..|ticks|] == ticks;
      } else {
        assert Ticks(es, clock) == ticks;
      }
    }
  }

  ghost predicate Crosses(p: Paper.Position, e: Event) {
    var t := TickOf(e, 0);
    t.Some? && Paper.Hits(p, t.value)
  }

  lemma {:induction false} TicksOnly(es: seq<Event>, clock: nat -> Time, p: Paper.Position)
    ensures forall i | 0 <= i < |Ticks(es, clock)| :: Ticks(es, clock)[i].TickOp?
    ensures (exists i | 0 <= i < |Ticks(es, clock)| :: Paper.HitBy(p, Ticks(es, clock)[i]))
            <==> exists e | e in es :: Crosses(p, e)
  {
    if es != [] {
      var n := |es| - 1;
      var front, ticks := es[..n], Ticks(es[..n], clock);
      TicksOnly(front, clock, p);
      assert es == front + [es[n]];
      var all, t := Ticks(es, clock), TickOf(es[n], clock(n).now);
      if t.Some? {
        assert all == ticks + [Paper.TickOp(t.value)];
        assert Crosses(p, es[n]) <==> Paper.HitBy(p, all[|ticks|]);
        assert forall i | 0 <= i < |ticks| :: all[i] == ticks[i];
      } else {
        assert all == ticks && !Crosses(p, es[n]);
      }
      hide Crosses, Paper.HitBy, TickOf;
    }
  }

  /**
    Over any events the consumer sees, an open position stays open iff no ticker among them crosses its stop
    or target.
   */
  lemma {:induction false} OpenIffNothingCrossed(d: Desk, es: seq<Event>, clock: nat -> Time, cfg: Lifecycle.Config,
      p: Paper.Position)
    requires cfg.Valid() && Paper.StillOpen(d.book, p)
    ensures Paper.StillOpen(Exits(d, es, clock, cfg).book, p) <==> forall e | e in es :: !Crosses(p, e)
  {
    ExitsAreTicks(d, es, clock, cfg);
    TicksOnly(es, clock, p);
    hide Exits, Ticks, Paper.StillOpen, Crosses, Paper.HitBy;
    Paper.FirstCrossing(d.book, p, Ticks(es, clock));
  }

  lemma {:induction false} TickersAreNotUrgent(e: Event)
    requires Normalized(e) && e.payload.MarketTicker?
    ensures e.priority == P1 || e.priority == P3
  {
  }

  // ----- buffer, store and desk in one run -----------------------------------------------------------

  datatype JointConfig = JointConfig(
    buffer: RingBufferModel.Config, desk: Lifecycle.Config, window: nat, clock: nat -> Time)
  {
    // The clock is read once for every drained event.
    predicate Valid() {
      buffer.Valid() && desk.Valid()
    }
  }

  /** `drained` counts the events handed to the consumer so far. */
  datatype Joint = Joint(buffer: Buffer, store: StoreView, desk: Desk, drained: nat)

  /** Pushes and drains on one side, evaluations and verdicts on the other; a batch is processed without a pause. */
  datatype JointOp = OnBuffer(op: RingBufferModel.Op) | OnDesk(act: Lifecycle.Op)

  function Later(clock: nat -> Time, n: nat): nat -> Time {
    (i: nat) => clock(n + i)
  }

  function JointStep(c: JointConfig, s: Joint, op: JointOp): Joint
    requires c.Valid()
  {
    match op
    case OnBuffer(o) =>
      var (b, eff) := RingBufferModel.Step(c.buffer, s.buffer, o);
      if eff.Popped? then
        Joint(b, IngestedAll(s.store, eff.batch, c.window),
              Exits(s.desk, eff.batch, Later(c.clock, s.drained), c.desk), s.drained + |eff.batch|)
      else s.(buffer := b)
    case OnDesk(act) =>
      if !act.Ticker? && Lifecycle.Enabled(s.desk, act) then s.(desk := Lifecycle.Step(s.desk, act, c.desk)) else s
  }

  function JointFrom(c: JointConfig, s: Joint, ops: seq<JointOp>): Joint
    requires c.Valid()
  {
    if ops == [] then s else JointStep(c, JointFrom(c, s, ops[..|ops| - 1]), ops[|ops| - 1])
  }

  function Idle(date: int): Joint {
    Joint(Empty(), map[], Lifecycle.Start(date), 0)
  }

  /** The program from start-up: everything is empty, and no position is restored from anywhere. */
  function JointRun(c: JointConfig, date: int, ops: seq<JointOp>): Joint
    requires c.Valid()
  {
    JointFrom(c, Idle(date), ops)
  }

  lemma {:induction false} JointConcat(c: JointConfig, s: Joint, a: seq<JointOp>, b: seq<JointOp>)
    requires c.Valid()
    ensures JointFrom(c, s, a + b) == JointFrom(c, JointFrom(c, s, a), b)
  {
    if b == [] {
      assert a + b == a;
    } else {
      JointConcat(c, s, a, b[..|b| - 1]);
      assert (a + b)[..|a + b| - 1] == a + b[..|b| - 1];
      hide JointStep;
    }
  }

  function BufferOps(ops: seq<JointOp>): seq<RingBufferModel.Op> {
    if ops == [] then []
    else
      var op := ops[|ops| - 1];
      BufferOps(ops[..|ops| - 1]) + if op.OnBuffer? then [op.op] else []
  }

  /** The events one step hands to the consumer. */
  function Batched(c: JointConfig, s: Joint, op: JointOp): seq<Event>
    requires c.Valid()
  {
    if op.OnDesk? then []
    else
      var eff := RingBufferModel.Step(c.buffer, s.buffer, op.op).1;
      if eff.Popped? then eff.batch else []
  }

  function DeliveredFrom(c: JointConfig, s: Joint, ops: seq<JointOp>): seq<Event>
    requires c.Valid()
  {
    if ops == [] then []
    else
      var front := ops[..|ops| - 1];
      DeliveredFrom(c, s, front) + Batched(c, JointFrom(c, s, front), ops[|ops| - 1])
  }

  /** The joint run contains the run of buffer and store. */
  lemma {:induction false} JointIsSystem(c: JointConfig, date: int, ops: seq<JointOp>)
    requires c.Valid()
    ensures var s := JointRun(c, date, ops);
            && Feed.System(s.buffer, s.store) == Feed.SystemRun(c.buffer, BufferOps(ops), c.window)
            && DeliveredFrom(c, Idle(date), ops) == Delivered(c.buffer, BufferOps(ops))
            && s.drained == |Delivered(c.buffer, BufferOps(ops))|
  {
    if ops != [] {
      var front, op := ops[..|ops| - 1], ops[|ops| - 1];
      JointIsSystem(c, date, front);
      var before := BufferOps(front);
      Feed.SystemIsFeed(c.buffer, before, c.window);
      hide RingBufferModel.Step, Exits, IngestedAll, Lifecycle.Step;
      if op.OnBuffer? {
        assert BufferOps(ops) == before + [op.op];
        assert BufferOps(ops)[..|before|] == before;
      } else {
        assert BufferOps(ops) == before;
      }
    }
  }

  lemma DeliveredSnoc(c: JointConfig, s: Joint, front: seq<JointOp>, op: JointOp)
    requires c.Valid()
    ensures DeliveredFrom(c, s, front + [op]) == DeliveredFrom(c, s, front) + Batched(c, JointFrom(c, s, front), op)
    ensures DeliveredFrom(c, s, []) == []
  {
    hide Batched, JointFrom;
    assert (front + [op])[..|front|] == front;
  }

  lemma {:induction false} DeliveredConcat(c: JointConfig, s: Joint, a: seq<JointOp>, b: seq<JointOp>)
    requires c.Valid()
    ensures DeliveredFrom(c, s, a + b) == DeliveredFrom(c, s, a) + DeliveredFrom(c, JointFrom(c, s, a), b)
  {
    hide DeliveredFrom, Batched, JointFrom;
    var mid := JointFrom(c, s, a);
    if b == [] {
      assert a + b == a;
      DeliveredSnoc(c, mid, [], OnBuffer(Acknowledge));
    } else {
      var b', op := b[..|b| - 1], b[|b| - 1];
      DeliveredConcat(c, s, a, b');
      JointConcat(c, s, a, b');
      assert a + b == (a + b') + [op] && b == b' + [op];
      DeliveredSnoc(c, s, a + b', op);
      DeliveredSnoc(c, mid, b', op);
    }
  }

  // ----- the paper engine's share of the joint run ------------------------------------------------------

  function PaperStep(c: JointConfig, s: Joint, op: JointOp): seq<Paper.Op>
    requires c.Valid()
  {
    match op
    case OnBuffer(_) => Ticks(Batched(c, s, op), Later(c.clock, s.drained))
    case OnDesk(act) =>
      if act.Verdict? && act.approved && s.desk.pending.Some? then
        [Paper.OpenOp(PositionOf(s.desk.pending.value, act.now))]
      else []
  }

  lemma {:induction false} StepIsPaper(c: JointConfig, s: Joint, op: JointOp)
    requires c.Valid()
    ensures JointStep(c, s, op).desk.book == Paper.Run(s.desk.book, PaperStep(c, s, op))
  {
    hide RingBufferModel.Step, IngestedAll, Exits, CloseAll, Paper.OnOpen, PositionOf, Risk.Allowed, Risk.Opened;
    if op.OnBuffer? {
      ExitsAreTicks(s.desk, Batched(c, s, op), Later(c.clock, s.drained), c.desk);
    } else {
      var ps := PaperStep(c, s, op);
      assert ps != [] ==> ps[..0] == [];
    }
  }

  function PaperOps(c: JointConfig, s: Joint, ops: seq<JointOp>): seq<Paper.Op>
    requires c.Valid()
  {
    if ops == [] then []
    else
      var front := ops[..|ops| - 1];
      PaperOps(c, s, front) + PaperStep(c, JointFrom(c, s, front), ops[|ops| - 1])
  }

  lemma {:induction false} JointIsPaper(c: JointConfig, s: Joint, ops: seq<JointOp>)
    requires c.Valid()
    ensures JointFrom(c, s, ops).desk.book == Paper.Run(s.desk.book, PaperOps(c, s, ops))
  {
    if ops != [] {
      var front, op := ops[..|ops| - 1], ops[|ops| - 1];
      JointIsPaper(c, s, front);
      StepIsPaper(c, JointFrom(c, s, front), op);
      Paper.RunConcat(s.desk.book, PaperOps(c, s, front), PaperStep(c, JointFrom(c, s, front), op));
      hide JointStep, PaperStep, Paper.Run;
    }
  }

  /** From `s` on the id is neither awaited nor evaluated again. */
  ghost predicate NotReissued(s: Joint, ops: seq<JointOp>, id: string) {
    && (s.desk.pending.Some? ==> s.desk.pending.value.id != id)
    && forall i | 0 <= i < |ops| && ops[i].OnDesk? && ops[i].act.Evaluate? :: ops[i].act.signal.id != id
  }

  lemma {:induction false} PendingIsOther(c: JointConfig, s: Joint, ops: seq<JointOp>, id: string)
    requires c.Valid() && NotReissued(s, ops, id)
    ensures var d := JointFrom(c, s, ops).desk; d.pending.Some? ==> d.pending.value.id != id
  {
    if ops != [] {
      var front, op := ops[..|ops| - 1], ops[|ops| - 1];
      PendingIsOther(c, s, front, id);
      var mid := JointFrom(c, s, front);
      if op.OnBuffer? {
        ExitsAreTicks(mid.desk, Batched(c, mid, op), Later(c.clock, mid.drained), c.desk);
      }
      hide RingBufferModel.Step, IngestedAll, Exits, CloseAll, Risk.Allowed, Risk.Opened, Paper.OnOpen;
    }
  }

  lemma {:induction false} IdsStayFresh(c: JointConfig, s: Joint, ops: seq<JointOp>, id: string)
    requires c.Valid() && NotReissued(s, ops, id)
    ensures Paper.IdNotReused(PaperOps(c, s, ops), id)
  {
    if ops != [] {
      var front, op := ops[..|ops| - 1], ops[|ops| - 1];
      IdsStayFresh(c, s, front, id);
      PendingIsOther(c, s, front, id);
      var mid := JointFrom(c, s, front);
      hide Batched, JointFrom, Ticks;
      if op.OnBuffer? {
        TicksAreTicks(Batched(c, mid, op), Later(c.clock, mid.drained));
      }
    }
  }

  lemma {:induction false} TicksAreTicks(es: seq<Event>, clock: nat -> Time)
    ensures forall i | 0 <= i < |Ticks(es, clock)| :: Ticks(es, clock)[i].TickOp?
  {
    if es != [] {
      TicksAreTicks(es[..|es| - 1], clock);
    }
  }

  ghost predicate HitAmong(p: Paper.Position, ops: seq<Paper.Op>) {
    exists i | 0 <= i < |ops| :: Paper.HitBy(p, ops[i])
  }

  ghost predicate CrossedAmong(p: Paper.Position, es: seq<Event>) {
    exists e | e in es :: Crosses(p, e)
  }

  lemma {:induction false} HitConcat(p: Paper.Position, a: seq<Paper.Op>, b: seq<Paper.Op>)
    ensures HitAmong(p, a + b) <==> HitAmong(p, a) || HitAmong(p, b)
  {
    var all := a + b;
    if i :| 0 <= i < |a| && Paper.HitBy(p, a[i]) {
      assert all[i] == a[i];
    }
    if i :| 0 <= i < |b| && Paper.HitBy(p, b[i]) {
      assert all[|a| + i] == b[i];
    }
    hide Paper.HitBy;
  }

  lemma TicksHit(es: seq<Event>, clock: nat -> Time, p: Paper.Position)
    ensures HitAmong(p, Ticks(es, clock)) <==> CrossedAmong(p, es)
  {
    hide Crosses, Ticks, Paper.HitBy;
    TicksOnly(es, clock, p);
  }

  lemma OpensHitNothing(p: Paper.Position, q: Paper.Position)
    ensures !HitAmong(p, [Paper.OpenOp(q)]) && !HitAmong(p, []) && !CrossedAmong(p, [])
  {
  }

  lemma {:induction false} PaperStepHits(c: JointConfig, s: Joint, op: JointOp, p: Paper.Position)
    requires c.Valid()
    ensures HitAmong(p, PaperStep(c, s, op)) <==> CrossedAmong(p, Batched(c, s, op))
  {
    hide HitAmong, CrossedAmong, Ticks, RingBufferModel.Step, PositionOf;
    match op
    case OnBuffer(_) => TicksHit(Batched(c, s, op), Later(c.clock, s.drained), p);
    case OnDesk(act) =>
      OpensHitNothing(p, p);
      if act.Verdict? && act.approved && s.desk.pending.Some? {
        OpensHitNothing(p, PositionOf(s.desk.pending.value, act.now));
      }
  }

  lemma {:induction false} HitsAreCrossings(c: JointConfig, s: Joint, ops: seq<JointOp>, p: Paper.Position)
    requires c.Valid()
    ensures HitAmong(p, PaperOps(c, s, ops)) <==> CrossedAmong(p, DeliveredFrom(c, s, ops))
  {
    hide Crosses;
    if ops != [] {
      var front, op := ops[..|ops| - 1], ops[|ops| - 1];
      HitsAreCrossings(c, s, front, p);
      var mid := JointFrom(c, s, front);
      PaperStepHits(c, mid, op, p);
      HitConcat(p, PaperOps(c, s, front), PaperStep(c, mid, op));
      hide JointFrom, PaperStep, Batched, HitAmong;
    }
  }

  /**
    From any moment at which a position is open, through any interleaving of pushes, drains, evaluations and verdicts:
    it stays open iff no ticker delivered since crosses its levels.
   */
  lemma {:induction false} OpenIffNothingDeliveredCrosses(
      c: JointConfig, s: Joint, rest: seq<JointOp>, p: Paper.Position)
    requires c.Valid() && Paper.StillOpen(s.desk.book, p) && NotReissued(s, rest, p.id)
    ensures Paper.StillOpen(JointFrom(c, s, rest).desk.book, p) <==> !CrossedAmong(p, DeliveredFrom(c, s, rest))
  {
    JointIsPaper(c, s, rest);
    IdsStayFresh(c, s, rest, p.id);
    HitsAreCrossings(c, s, rest, p);
    hide JointFrom, PaperOps, DeliveredFrom, CrossedAmong, Paper.Run, Paper.StillOpen, Paper.HitBy, Paper.IdNotReused;
    Paper.FirstCrossing(s.desk.book, p, PaperOps(c, s, rest));
  }

  lemma {:induction false} DeliveredSince(c: JointConfig, date: int, front: seq<JointOp>, rest: seq<JointOp>, e: Event)
    requires c.Valid()
    ensures var since := DeliveredFrom(c, JointRun(c, date, front), rest);
            && Feed.Passed(c.buffer, BufferOps(front + rest), e) == Feed.Passed(c.buffer, BufferOps(front), e)
                                                                 + multiset(since)[e]
            && (e in since <==> multiset(since)[e] > 0)
  {
    JointIsSystem(c, date, front);
    JointIsSystem(c, date, front + rest);
    DeliveredConcat(c, Idle(date), front, rest);
    Feed.DeliveredAsOftenAsPassed(c.buffer, BufferOps(front), e);
    Feed.DeliveredAsOftenAsPassed(c.buffer, BufferOps(front + rest), e);
    hide Feed.Passed, DeliveredFrom, Delivered, JointFrom, BufferOps;
  }

  /**
    Tickers are never P0, so the buffer may drop the one that crosses a stop. Exactly: a position open after `front` is
    still open after `rest` iff no event through its levels passed the buffer any more often in between, however often
    one was offered.
   */
  lemma {:induction false} OpenIffNoCrossingPassed(
      c: JointConfig, date: int, front: seq<JointOp>, rest: seq<JointOp>, p: Paper.Position)
    requires c.Valid() && Paper.StillOpen(JointRun(c, date, front).desk.book, p)
    requires NotReissued(JointRun(c, date, front), rest, p.id)
    ensures Paper.StillOpen(JointRun(c, date, front + rest).desk.book, p) <==>
              forall e | Crosses(p, e) ::
                Feed.Passed(c.buffer, BufferOps(front + rest), e) == Feed.Passed(c.buffer, BufferOps(front), e)
  {
    var s := JointRun(c, date, front);
    JointConcat(c, Idle(date), front, rest);
    OpenIffNothingDeliveredCrosses(c, s, rest, p);
    hide JointFrom, DeliveredFrom, Feed.Passed, BufferOps, Crosses, Paper.StillOpen, NotReissued;
    forall e
      ensures e in DeliveredFrom(c, s, rest) <==>
                Feed.Passed(c.buffer, BufferOps(front + rest), e) != Feed.Passed(c.buffer, BufferOps(front), e)
    {
      DeliveredSince(c, date, front, rest, e);
    }
  }

  lemma {:induction false} BufferOpsConcat(a: seq<JointOp>, b: seq<JointOp>)
    ensures BufferOps(a + b) == BufferOps(a) + BufferOps(b)
  {
    if b == [] {
      assert a + b == a;
    } else {
      BufferOpsConcat(a, b[..|b| - 1]);
      assert (a + b)[..|a + b| - 1] == a + b[..|b| - 1];
    }
  }

  lemma CrossingIsTicker(p: Paper.Position, e: Event)
    requires Crosses(p, e)
    ensures e.payload.MarketTicker?
  {
  }

  lemma {:induction false} WaitingClass(cfg: RingBufferModel.Config, ops: seq<RingBufferModel.Op>, e: Event)
    requires cfg.Valid()
    ensures var q := RingBufferModel.Run(cfg, ops).queues;
            e.priority == P1 || e.priority == P3 ==> (e in q.p1 + q.p3 <==> e in q.At(e.priority))
    ensures var q := RingBufferModel.Run(cfg, ops).queues; e in q.p1 + q.p3 ==> e.priority == P1 || e.priority == P3
  {
    RunSound(cfg, ops);
    var q := RingBufferModel.Run(cfg, ops).queues;
    hide RingBufferModel.Run;
    assert e in q.p1 + q.p3 <==> e in q.p1 || e in q.p3;
  }

  /** Neither ticker class was dropped from during `b`, and nothing of it is waiting at the end. */
  ghost predicate TickersKept(cfg: RingBufferModel.Config, a: seq<RingBufferModel.Op>, b: seq<RingBufferModel.Op>)
    requires cfg.Valid()
  {
    var s, s' := RingBufferModel.Run(cfg, a), RingBufferModel.Run(cfg, a + b);
    && s'.dropped.p1 == s.dropped.p1 && s'.dropped.p3 == s.dropped.p3
    && s'.queues.p1 == [] && s'.queues.p3 == []
  }

  /** Then a crossing ticker passed iff one was waiting at the start or was offered since. */
  lemma {:induction false} TickerPassed(
      cfg: RingBufferModel.Config, a: seq<RingBufferModel.Op>, b: seq<RingBufferModel.Op>, e: Event)
    requires cfg.Valid() && Feed.NormalizedRun(a + b) && TickersKept(cfg, a, b) && e.payload.MarketTicker?
    ensures var q := RingBufferModel.Run(cfg, a).queues;
            Feed.Passed(cfg, a + b, e) != Feed.Passed(cfg, a, e) <==> e in q.p1 + q.p3 + Feed.Offered(b)
  {
    var q := RingBufferModel.Run(cfg, a).queues;
    WaitingClass(cfg, a, e);
    Feed.OfferedConcat(a, b);
    Feed.OfferedNormalized(a + b);
    hide RingBufferModel.Run, Feed.Offered, Feed.NormalizedRun;
    if e.priority == P1 || e.priority == P3 {
      Feed.PassedByCounters(cfg, a, b, e);
    } else {
      NotOffered(a, b, e);
      NeverPassed(cfg, a, e);
      NeverPassed(cfg, a + b, e);
    }
    hide Feed.Passed;
  }

  lemma {:induction false} NotOffered(a: seq<RingBufferModel.Op>, b: seq<RingBufferModel.Op>, e: Event)
    requires Feed.AllNormalized(Feed.Offered(a + b)) && e.payload.MarketTicker? && e.priority != P1 && e.priority != P3
    ensures e !in Feed.Offered(a) && e !in Feed.Offered(b) && e !in Feed.Offered(a + b)
  {
    Feed.OfferedConcat(a, b);
    hide Feed.Offered;
    if e in Feed.Offered(a + b) {
      TickersAreNotUrgent(e);
    }
  }

  lemma {:induction false} NeverPassed(cfg: RingBufferModel.Config, ops: seq<RingBufferModel.Op>, e: Event)
    requires cfg.Valid() && e !in Feed.Offered(ops)
    ensures Feed.Passed(cfg, ops, e) == 0
  {
    Feed.DeliveredAsOftenAsPassed(cfg, ops, e);
    hide Feed.Passed, Delivered, Feed.Offered;
    if e in Delivered(cfg, ops) {
      Feed.DeliveredWasOffered(cfg, ops, e);
    }
  }

  /**
    By the counters a monitor can read: if since the position was opened neither ticker class was dropped from, and
    nothing of it waits, the position is open iff no ticker waiting then or offered since crosses its levels.
   */
  lemma {:induction false} NoCrossingMissed(
      c: JointConfig, date: int, front: seq<JointOp>, rest: seq<JointOp>, p: Paper.Position)
    requires c.Valid() && Paper.StillOpen(JointRun(c, date, front).desk.book, p)
    requires NotReissued(JointRun(c, date, front), rest, p.id)
    requires Feed.NormalizedRun(BufferOps(front + rest)) && TickersKept(c.buffer, BufferOps(front), BufferOps(rest))
    ensures var q := RingBufferModel.Run(c.buffer, BufferOps(front)).queues;
            Paper.StillOpen(JointRun(c, date, front + rest).desk.book, p)
            <==> forall e | e in q.p1 + q.p3 + Feed.Offered(BufferOps(rest)) :: !Crosses(p, e)
  {
    OpenIffNoCrossingPassed(c, date, front, rest, p);
    BufferOpsConcat(front, rest);
    hide JointFrom, RingBufferModel.Run, BufferOps, Feed.Offered, Feed.Passed, Feed.NormalizedRun;
    hide TickersKept, NotReissued, Paper.StillOpen, Crosses;
    forall e | Crosses(p, e)
      ensures Feed.Passed(c.buffer, BufferOps(front + rest), e) != Feed.Passed(c.buffer, BufferOps(front), e)
              <==> e in RingBufferModel.Run(c.buffer, BufferOps(front)).queues.p1
                       + RingBufferModel.Run(c.buffer, BufferOps(front)).queues.p3 + Feed.Offered(BufferOps(rest))
    {
      CrossingIsTicker(p, e);
      TickerPassed(c.buffer, BufferOps(front), BufferOps(rest), e);
    }
  }

  // ----- a signal from its approval to its exit ---------------------------------------------------------

  /** A ticker of the signal's own market, at its stop or below or at its target or above. */
  predicate Reaches(e: Event, s: Lifecycle.Signal) {
    && e.payload.MarketTicker? && e.symbol == s.symbol
    && ((e.exchange == Binance && s.exchange == "binance") || (e.exchange == Bybit && s.exchange == "bybit"))
    && (e.payload.lastPrice <= s.stop || e.payload.lastPrice >= s.target)
  }

  lemma ReachesIsCrosses(e: Event, s: Lifecycle.Signal, p: Paper.Position, now: int)
    requires AsSignalled(p, s, now)
    ensures Reaches(e, s) <==> Crosses(p, e)
  {
  }

  /** Event `i` is the first of the sequence to reach a level of the signal. */
  ghost predicate FirstReach(es: seq<Event>, s: Lifecycle.Signal, i: nat) {
    i < |es| && Reaches(es[i], s) && forall j | 0 <= j < i :: !Reaches(es[j], s)
  }

  ghost predicate FirstCross(es: seq<Event>, p: Paper.Position, i: nat) {
    i < |es| && Crosses(p, es[i]) && !CrossedAmong(p, es[..i])
  }

  ghost predicate TickAt(op: Paper.Op, e: Event, now: int) {
    op.TickOp? && TickOf(e, now) == Some(op.tick)
  }

  /** A hit in the second part, with none in the first, is the first hit of both. */
  lemma {:induction false} FirstHitLater(p: Paper.Position, a: seq<Paper.Op>, b: seq<Paper.Op>, j: nat)
    requires !HitAmong(p, a) && Paper.FirstHit(p, b, j)
    ensures Paper.FirstHit(p, a + b, |a| + j) && (a + b)[|a| + j] == b[j]
  {
    hide Paper.HitBy;
    var all := a + b;
    assert all[|a| + j] == b[j];
    forall i | 0 <= i < |a| + j
      ensures !Paper.HitBy(p, all[i])
    {
      assert all[i] == if i < |a| then a[i] else b[i - |a|];
    }
  }

  lemma {:induction false} FirstHitEarlier(p: Paper.Position, a: seq<Paper.Op>, b: seq<Paper.Op>, j: nat)
    requires Paper.FirstHit(p, a, j)
    ensures Paper.FirstHit(p, a + b, j) && (a + b)[j] == a[j]
  {
    hide Paper.HitBy;
    assert forall i | 0 <= i < |a| :: (a + b)[i] == a[i];
  }

  lemma TickCrosses(p: Paper.Position, e: Event, now: int)
    requires Crosses(p, e)
    ensures var t := TickOf(e, now);
            t.Some? && Paper.FirstHit(p, [Paper.TickOp(t.value)], 0) && TickAt(Paper.TickOp(t.value), e, now)
  {
  }

  function OneTick(e: Event, now: int): seq<Paper.Op> {
    var t := TickOf(e, now);
    if t.Some? then [Paper.TickOp(t.value)] else []
  }

  lemma TicksSnoc(front: seq<Event>, e: Event, clock: nat -> Time)
    ensures Ticks(front + [e], clock) == Ticks(front, clock) + OneTick(e, clock(|front|).now)
  {
    assert (front + [e])[..|front|] == front;
  }

  /** The first crossing among the events of a batch is the first hit among its price updates. */
  lemma {:induction false} FirstTick(es: seq<Event>, clock: nat -> Time, p: Paper.Position, i: nat) returns (j: nat)
    requires FirstCross(es, p, i)
    ensures Paper.FirstHit(p, Ticks(es, clock), j) && TickAt(Ticks(es, clock)[j], es[i], clock(i).now)
  {
    hide Crosses, CrossedAmong, HitAmong, TickOf, Ticks, TickAt;
    var n := |es| - 1;
    var front, e := es[..n], es[n];
    assert es == front + [e];
    TicksSnoc(front, e, clock);
    if i < n {
      assert front[..i] == es[..i];
      j := FirstTick(front, clock, p, i);
      FirstHitEarlier(p, Ticks(front, clock), OneTick(e, clock(n).now), j);
    } else {
      TickCrosses(p, e, clock(n).now);
      TicksHit(front, clock, p);
      FirstHitLater(p, Ticks(front, clock), OneTick(e, clock(n).now), 0);
      j := |Ticks(front, clock)|;
    }
  }

  lemma {:induction false} DrainedCounts(c: JointConfig, s: Joint, ops: seq<JointOp>)
    requires c.Valid()
    ensures JointFrom(c, s, ops).drained == s.drained + |DeliveredFrom(c, s, ops)|
  {
    if ops != [] {
      DrainedCounts(c, s, ops[..|ops| - 1]);
      hide RingBufferModel.Step, Exits, IngestedAll, Lifecycle.Step;
    }
  }

  lemma BatchTicks(c: JointConfig, s: Joint, op: JointOp)
    requires c.Valid() && Batched(c, s, op) != []
    ensures PaperStep(c, s, op) == Ticks(Batched(c, s, op), Later(c.clock, s.drained))
  {
    hide RingBufferModel.Step, Ticks;
  }

  lemma PaperOpsSnoc(c: JointConfig, s: Joint, front: seq<JointOp>, op: JointOp)
    requires c.Valid()
    ensures PaperOps(c, s, front + [op]) == PaperOps(c, s, front) + PaperStep(c, JointFrom(c, s, front), op)
  {
    hide PaperStep, JointFrom;
    assert (front + [op])[..|front|] == front;
  }

  lemma FirstHitIsInside(p: Paper.Position, ops: seq<Paper.Op>, j: nat)
    requires Paper.FirstHit(p, ops, j)
    ensures j < |ops|
  {
  }

  lemma NothingCrosses(c: JointConfig, s: Joint, p: Paper.Position, i: nat)
    requires c.Valid()
    ensures !FirstCross(DeliveredFrom(c, s, []), p, i)
  {
  }

  lemma FirstInBatch(c: JointConfig, s: Joint, op: JointOp, p: Paper.Position, i: nat) returns (k: nat)
    requires c.Valid() && FirstCross(Batched(c, s, op), p, i)
    ensures Paper.FirstHit(p, PaperStep(c, s, op), k)
    ensures TickAt(PaperStep(c, s, op)[k], Batched(c, s, op)[i], c.clock(s.drained + i).now)
  {
    hide PaperStep, Batched, Paper.FirstHit, TickAt, Crosses, CrossedAmong, Ticks;
    BatchTicks(c, s, op);
    k := FirstTick(Batched(c, s, op), Later(c.clock, s.drained), p, i);
  }

  lemma FirstCrossSplits(a: seq<Event>, b: seq<Event>, p: Paper.Position, i: nat)
    requires FirstCross(a + b, p, i)
    ensures if i < |a| then FirstCross(a, p, i) && (a + b)[i] == a[i]
            else !CrossedAmong(p, a) && FirstCross(b, p, i - |a|) && (a + b)[i] == b[i - |a|]
  {
    hide Crosses;
    var es := a + b;
    if i < |a| {
      assert a[..i] == es[..i];
    } else {
      var k := i - |a|;
      assert es[..i] == a + b[..k];
      assert forall e | e in a || e in b[..k] :: e in es[..i];
    }
  }

  /** The first crossing delivered is the first hit the paper engine sees, at the time its event was processed. */
  lemma {:induction false} FirstDelivered(c: JointConfig, s: Joint, ops: seq<JointOp>, p: Paper.Position, i: nat)
    returns (j: nat)
    requires c.Valid() && FirstCross(DeliveredFrom(c, s, ops), p, i)
    ensures Paper.FirstHit(p, PaperOps(c, s, ops), j)
    ensures TickAt(PaperOps(c, s, ops)[j], DeliveredFrom(c, s, ops)[i], c.clock(s.drained + i).now)
  {
    hide *;
    NothingCrosses(c, s, p, i);
    var front, op := ops[..|ops| - 1], ops[|ops| - 1];
    assert ops == front + [op];
    var mid := JointFrom(c, s, front);
    var before, batch, a, b := DeliveredFrom(c, s, front), Batched(c, mid, op), PaperOps(c, s, front),
        PaperStep(c, mid, op);
    DeliveredSnoc(c, s, front, op);
    PaperOpsSnoc(c, s, front, op);
    FirstCrossSplits(before, batch, p, i);
    if i < |before| {
      j := FirstDelivered(c, s, front, p, i);
      FirstHitIsInside(p, a, j);
      FirstHitEarlier(p, a, b, j);
    } else {
      HitsAreCrossings(c, s, front, p);
      DrainedCounts(c, s, front);
      var k := FirstInBatch(c, mid, op, p, i - |before|);
      FirstHitIsInside(p, b, k);
      FirstHitLater(p, a, b, k);
      j := |a| + k;
    }
  }

  /** The one position under the signal's id is open, with the signal's levels. */
  ghost predicate OpenAs(b: Paper.Book, s: Lifecycle.Signal, now: int) {
    && (exists k: nat | k < |b.open| :: AsSignalled(b.open[k], s, now) && Paper.Only(b.open, k, s.id))
    && Paper.Absent(b.closed, s.id)
  }

  /** The one position under the signal's id is closed, settled at a price and time. */
  ghost predicate ClosedAt(b: Paper.Book, s: Lifecycle.Signal, since: int, price: real, now: int) {
    && Paper.Absent(b.open, s.id)
    && (exists p: Paper.Position, k: nat | k < |b.closed| ::
          AsSignalled(p, s, since) && Paper.SettledBy(p, b.closed[k], price, now) && Paper.Only(b.closed, k, s.id))
  }

  lemma StillOpenIsOpenAs(b: Paper.Book, p: Paper.Position, s: Lifecycle.Signal, now: int)
    requires AsSignalled(p, s, now)
    ensures Paper.StillOpen(b, p) ==> OpenAs(b, s, now)
  {
    if Paper.StillOpen(b, p) {
      Paper.OnlyIsOne(b.open, p);
      Paper.AbsentIsZero(b.closed, p.id);
    }
  }

  lemma ClosedAsIsClosedAt(b: Paper.Book, p: Paper.Position, t: Paper.Tick, s: Lifecycle.Signal, since: int)
    requires AsSignalled(p, s, since) && Paper.ClosedAs(b, Paper.Hit(p, t))
    ensures ClosedAt(b, s, since, t.price, t.now)
  {
    var q := Paper.Hit(p, t);
    Paper.HitSettles(p, t);
    Paper.OnlyIsOne(b.closed, q);
    Paper.AbsentIsZero(b.open, p.id);
    hide Paper.SettledBy, Paper.Only, Paper.Absent;
    var k: nat :| k < |b.closed| && b.closed[k] == q && Paper.Only(b.closed, k, q.id);
    assert q.id == s.id;
  }

  lemma {:induction false} ClosedByFirstDelivered(
      c: JointConfig, s: Joint, rest: seq<JointOp>, p: Paper.Position, i: nat, sig: Lifecycle.Signal, since: int)
    requires c.Valid() && Paper.StillOpen(s.desk.book, p) && NotReissued(s, rest, p.id) && AsSignalled(p, sig, since)
    requires FirstCross(DeliveredFrom(c, s, rest), p, i)
    ensures var e := DeliveredFrom(c, s, rest)[i];
            && e.payload.MarketTicker?
            && ClosedAt(JointFrom(c, s, rest).desk.book, sig, since, e.payload.lastPrice, c.clock(s.drained + i).now)
  {
    JointIsPaper(c, s, rest);
    IdsStayFresh(c, s, rest, p.id);
    hide JointFrom, PaperOps, DeliveredFrom, Paper.Run, Paper.StillOpen, Paper.HitBy, Paper.IdNotReused;
    hide ClosedAt, Paper.Hit, Paper.ClosedAs, AsSignalled, Paper.FirstHit, CrossedAmong, Crosses;
    var j := FirstDelivered(c, s, rest, p, i);
    var ops := PaperOps(c, s, rest);
    Paper.ClosedAtFirstHit(s.desk.book, p, ops, j);
    ClosedAsIsClosedAt(Paper.Run(s.desk.book, ops), p, ops[j].tick, sig, since);
  }

  // ----- the desk's share of the joint run ---------------------------------------------------------------

  function TickerOps(es: seq<Event>, clock: nat -> Time): seq<Lifecycle.Op> {
    if es == [] then []
    else
      var n := |es| - 1;
      var t := TickOf(es[n], clock(n).now);
      TickerOps(es[..n], clock) + if t.Some? then [Ticker(t.value, clock(n).today)] else []
  }

  function DeskStep(c: JointConfig, s: Joint, op: JointOp): seq<Lifecycle.Op>
    requires c.Valid()
  {
    match op
    case OnBuffer(_) => TickerOps(Batched(c, s, op), Later(c.clock, s.drained))
    case OnDesk(act) => if act.Ticker? then [] else [act]
  }

  function DeskOps(c: JointConfig, date: int, ops: seq<JointOp>): seq<Lifecycle.Op>
    requires c.Valid()
  {
    if ops == [] then []
    else
      var front := ops[..|ops| - 1];
      DeskOps(c, date, front) + DeskStep(c, JointRun(c, date, front), ops[|ops| - 1])
  }

  lemma TickerStep(date: int, ops: seq<Lifecycle.Op>, t: Paper.Tick, today: int, cfg: Lifecycle.Config)
    requires cfg.Valid()
    ensures Lifecycle.Run(date, ops + [Ticker(t, today)], cfg)
            == Lifecycle.Step(Lifecycle.Run(date, ops, cfg), Ticker(t, today), cfg)
  {
    hide Lifecycle.Step;
    assert (ops + [Ticker(t, today)])[..|ops|] == ops;
  }

  lemma {:induction false} ExitsAreTickerOps(
      date: int, a: seq<Lifecycle.Op>, es: seq<Event>, clock: nat -> Time, cfg: Lifecycle.Config)
    requires cfg.Valid()
    ensures Lifecycle.Run(date, a + TickerOps(es, clock), cfg) == Exits(Lifecycle.Run(date, a, cfg), es, clock, cfg)
  {
    hide Lifecycle.Run, Lifecycle.Step, TickOf;
    if es == [] {
      assert a + [] == a;
    } else {
      var n := |es| - 1;
      ExitsAreTickerOps(date, a, es[..n], clock, cfg);
      var ops, t := TickerOps(es[..n], clock), TickOf(es[n], clock(n).now);
      if t.Some? {
        TickerStep(date, a + ops, t.value, clock(n).today, cfg);
        assert a + TickerOps(es, clock) == (a + ops) + [Ticker(t.value, clock(n).today)];
      } else {
        assert TickerOps(es, clock) == ops;
      }
    }
  }

  lemma ActStep(date: int, ops: seq<Lifecycle.Op>, act: Lifecycle.Op, cfg: Lifecycle.Config)
    requires cfg.Valid()
    ensures var d := Lifecycle.Run(date, ops, cfg);
            Lifecycle.Run(date, ops + [act], cfg)
            == if Lifecycle.Enabled(d, act) then Lifecycle.Step(d, act, cfg) else d
  {
    hide Lifecycle.Step;
    assert (ops + [act])[..|ops|] == ops;
  }

  lemma {:induction false} StepIsDesk(c: JointConfig, date: int, s: Joint, ops: seq<Lifecycle.Op>, op: JointOp)
    requires c.Valid() && s.desk == Lifecycle.Run(date, ops, c.desk)
    ensures JointStep(c, s, op).desk == Lifecycle.Run(date, ops + DeskStep(c, s, op), c.desk)
  {
    hide RingBufferModel.Step, IngestedAll, Lifecycle.Step, Lifecycle.Run, ExitStep;
    assert ops + [] == ops;
    match op
    case OnBuffer(_) => ExitsAreTickerOps(date, ops, Batched(c, s, op), Later(c.clock, s.drained), c.desk);
    case OnDesk(act) => ActStep(date, ops, act, c.desk);
  }

  /** So the joint run contains a run of the desk, and everything proved of those holds of it. */
  lemma {:induction false} JointIsDesk(c: JointConfig, date: int, ops: seq<JointOp>)
    requires c.Valid()
    ensures JointRun(c, date, ops).desk == Lifecycle.Run(date, DeskOps(c, date, ops), c.desk)
  {
    if ops != [] {
      var front, op := ops[..|ops| - 1], ops[|ops| - 1];
      JointIsDesk(c, date, front);
      hide JointStep, DeskStep;
      StepIsDesk(c, date, JointRun(c, date, front), DeskOps(c, date, front), op);
    }
  }

  /** With fresh ids the books agree and the limits hold throughout the joint run. */
  lemma {:induction false} JointBooksAgree(c: JointConfig, date: int, ops: seq<JointOp>)
    requires c.Valid() && c.desk.limits.riskPerTrade >= 0.0 && FreshIds(DeskOps(c, date, ops))
    ensures Lifecycle.Sound(JointRun(c, date, ops).desk, Issued(DeskOps(c, date, ops)), c.desk.limits)
  {
    JointIsDesk(c, date, ops);
    hide JointFrom, Lifecycle.Run, DeskOps, Lifecycle.Sound, FreshIds;
    BooksAgree(date, DeskOps(c, date, ops), c.desk);
  }

  lemma {:induction false} DeskOpsGrow(c: JointConfig, date: int, a: seq<JointOp>, b: seq<JointOp>)
    requires c.Valid()
    ensures DeskOps(c, date, a) <= DeskOps(c, date, a + b)
  {
    if b == [] {
      assert a + b == a;
    } else {
      DeskOpsGrow(c, date, a, b[..|b| - 1]);
      assert (a + b)[..|a + b| - 1] == a + b[..|b| - 1];
      hide JointFrom, DeskStep;
    }
  }

  lemma {:induction false} IssuedGrows(a: seq<Lifecycle.Op>, b: seq<Lifecycle.Op>)
    requires a <= b
    ensures Issued(a) <= Issued(b)
  {
    if |a| < |b| {
      IssuedGrows(a, b[..|b| - 1]);
    } else {
      assert a == b;
    }
  }

  lemma DeskOpsSnoc(c: JointConfig, date: int, front: seq<JointOp>, act: Lifecycle.Op)
    requires c.Valid() && !act.Ticker?
    ensures DeskOps(c, date, front + [OnDesk(act)]) == DeskOps(c, date, front) + [act]
  {
    hide JointFrom;
    assert (front + [OnDesk(act)])[..|front|] == front;
  }

  lemma {:induction false} LaterSignalIsOther(
      c: JointConfig, date: int, front: seq<JointOp>, rest: seq<JointOp>, i: nat, id: string)
    requires c.Valid() && FreshIds(DeskOps(c, date, front + rest)) && id in Issued(DeskOps(c, date, front))
    requires i < |rest| && rest[i].OnDesk? && rest[i].act.Evaluate?
    ensures rest[i].act.signal.id != id
  {
    hide DeskOps, JointFrom;
    var mid, act := front + rest[..i], rest[i].act;
    var a, b := DeskOps(c, date, mid), DeskOps(c, date, front + rest);
    DeskOpsGrow(c, date, front, rest[..i]);
    DeskOpsSnoc(c, date, mid, act);
    DeskOpsGrow(c, date, mid + [OnDesk(act)], rest[i + 1..]);
    assert mid + [OnDesk(act)] + rest[i + 1..] == front + rest;
    IssuedGrows(DeskOps(c, date, front), a);
    hide Issued;
    assert a + [act] <= b;
    assert b[..|a|] == a && b[|a|] == act;
  }

  /** And the hypothesis about ids is what fresh ids give every open position. */
  lemma {:induction false} FreshMeansNotReissued(
      c: JointConfig, date: int, front: seq<JointOp>, rest: seq<JointOp>, p: Paper.Position)
    requires c.Valid() && c.desk.limits.riskPerTrade >= 0.0 && FreshIds(DeskOps(c, date, front + rest))
    requires p in JointRun(c, date, front).desk.book.open
    ensures NotReissued(JointRun(c, date, front), rest, p.id)
  {
    var d := JointRun(c, date, front).desk;
    DeskOpsGrow(c, date, front, rest);
    FreshPrefix(DeskOps(c, date, front), DeskOps(c, date, front + rest));
    JointBooksAgree(c, date, front);
    hide JointFrom, DeskOps, FreshIds, WithinLimits, Issued;
    var k :| 0 <= k < |d.book.open| && d.book.open[k] == p;
    assert BookIds(d.book.open)[k] == p.id;
    forall i | 0 <= i < |rest| && rest[i].OnDesk? && rest[i].act.Evaluate?
      ensures rest[i].act.signal.id != p.id
    {
      LaterSignalIsOther(c, date, front, rest, i, p.id);
    }
  }

  lemma FreshPrefix(a: seq<Lifecycle.Op>, b: seq<Lifecycle.Op>)
    requires a <= b && FreshIds(b)
    ensures FreshIds(a)
  {
    assert forall i | 0 <= i < |a| :: a[..i] == b[..i] && a[i] == b[i];
  }

  // ----- what becomes of an approved signal --------------------------------------------------------------

  lemma {:induction false} EarliestReach(es: seq<Event>, s: Lifecycle.Signal, k: nat) returns (i: nat)
    requires k < |es| && Reaches(es[k], s)
    ensures FirstReach(es, s, i)
  {
    hide Reaches;
    if j: nat :| j < k && Reaches(es[j], s) {
      i := EarliestReach(es, s, j);
    } else {
      i := k;
    }
  }

  lemma {:induction false} ReachesAreCrossings(
      es: seq<Event>, s: Lifecycle.Signal, p: Paper.Position, now: int)
    requires AsSignalled(p, s, now)
    ensures (forall e | e in es :: !Reaches(e, s)) <==> !CrossedAmong(p, es)
    ensures forall i: nat | FirstReach(es, s, i) :: i < |es| && FirstCross(es, p, i)
  {
    hide Reaches, Crosses, AsSignalled;
    forall e
      ensures Reaches(e, s) <==> Crosses(p, e)
    {
      ReachesIsCrosses(e, s, p, now);
    }
  }

  /** The position an approval opens, from any state of the program. */
  lemma ApprovalStep(c: JointConfig, s: Joint, now: int) returns (p: Paper.Position)
    requires c.Valid() && s.desk.pending.Some?
    requires Paper.Absent(s.desk.book.open, s.desk.pending.value.id)
    requires Paper.Absent(s.desk.book.closed, s.desk.pending.value.id)
    ensures AsSignalled(p, s.desk.pending.value, now)
    ensures var s' := JointStep(c, s, OnDesk(Verdict(true, now)));
            && s'.desk.pending == None && s'.drained == s.drained && Paper.StillOpen(s'.desk.book, p)
  {
    var sig, ps := s.desk.pending.value, s.desk.book.open;
    p := PositionOf(sig, now);
    assert Paper.Find(ps, sig.id) == |ps|;
    Paper.AbsentIsZero(ps, sig.id);
    Paper.AbsentIsZero(s.desk.book.closed, sig.id);
    Paper.CountConcat(ps, [p], sig.id);
    Paper.CountOne(p, sig.id);
    hide Paper.Find, Risk.Opened;
  }

  /** What becomes of the signal's entry over the events delivered since. */
  ghost predicate Follows(c: JointConfig, drained: nat, es: seq<Event>, b: Paper.Book, s: Lifecycle.Signal, now: int) {
    && (!Paper.Absent(b.open, s.id) <==> forall e | e in es :: !Reaches(e, s))
    && (!Paper.Absent(b.open, s.id) ==> OpenAs(b, s, now))
    && (forall i: nat | FirstReach(es, s, i) ::
          es[i].payload.MarketTicker? && ClosedAt(b, s, now, es[i].payload.lastPrice, c.clock(drained + i).now))
  }

  lemma OpenAsIsPresent(b: Paper.Book, s: Lifecycle.Signal, now: int)
    requires OpenAs(b, s, now)
    ensures !Paper.Absent(b.open, s.id)
  {
  }

  lemma ClosedIsAbsent(b: Paper.Book, s: Lifecycle.Signal, since: int, price: real, now: int)
    requires ClosedAt(b, s, since, price, now)
    ensures Paper.Absent(b.open, s.id)
  {
  }

  lemma {:induction false} OpenFollows(c: JointConfig, s: Joint, rest: seq<JointOp>, p: Paper.Position,
                                       sig: Lifecycle.Signal, now: int)
    requires c.Valid() && Paper.StillOpen(s.desk.book, p) && NotReissued(s, rest, p.id) && AsSignalled(p, sig, now)
    ensures Follows(c, s.drained, DeliveredFrom(c, s, rest), JointFrom(c, s, rest).desk.book, sig, now)
  {
    hide JointFrom, DeliveredFrom, Paper.StillOpen, NotReissued, CrossedAmong;
    hide FirstReach, FirstCross, OpenAs, Reaches, ClosedAt;
    assert p.id == sig.id;
    var es, b := DeliveredFrom(c, s, rest), JointFrom(c, s, rest).desk.book;
    ReachesAreCrossings(es, sig, p, now);
    OpenIffNothingDeliveredCrosses(c, s, rest, p);
    StillOpenIsOpenAs(b, p, sig, now);
    hide AsSignalled, Paper.Absent;
    forall i: nat | FirstReach(es, sig, i)
      ensures i < |es| && es[i].payload.MarketTicker?
              && ClosedAt(b, sig, now, es[i].payload.lastPrice, c.clock(s.drained + i).now)
    {
      ClosedByFirstDelivered(c, s, rest, p, i, sig, now);
    }
    if Paper.StillOpen(b, p) {
      OpenAsIsPresent(b, sig, now);
    } else {
      var k: nat :| k < |es| && Reaches(es[k], sig);
      var i := EarliestReach(es, sig, k);
      ClosedIsAbsent(b, sig, now, es[i].payload.lastPrice, c.clock(s.drained + i).now);
    }
  }

  /**
    From any state of the program with a verdict awaited, its id in neither book: after an approval the entry is open,
    with the signal's own levels, until a delivered ticker of its market is at or beyond one of them; the first one that
    is closes it, once, at its price and time.
   */
  lemma {:induction false} ApprovedUntilReached(c: JointConfig, s: Joint, now: int, rest: seq<JointOp>)
    requires c.Valid() && s.desk.pending.Some?
    requires var b, id := s.desk.book, s.desk.pending.value.id; Paper.Absent(b.open, id) && Paper.Absent(b.closed, id)
    requires forall i | 0 <= i < |rest| && rest[i].OnDesk? && rest[i].act.Evaluate? ::
               rest[i].act.signal.id != s.desk.pending.value.id
    ensures var s' := JointStep(c, s, OnDesk(Verdict(true, now)));
            Follows(c, s.drained, DeliveredFrom(c, s', rest), JointFrom(c, s', rest).desk.book,
                    s.desk.pending.value, now)
  {
    hide JointStep, JointFrom, DeliveredFrom, Follows, Paper.StillOpen, Paper.Absent;
    var p := ApprovalStep(c, s, now);
    assert p.id == s.desk.pending.value.id;
    OpenFollows(c, JointStep(c, s, OnDesk(Verdict(true, now))), rest, p, s.desk.pending.value, now);
  }

  lemma IssuedBefore(c: JointConfig, date: int, front: seq<JointOp>)
    requires c.Valid() && c.desk.limits.riskPerTrade >= 0.0 && FreshIds(DeskOps(c, date, front))
    requires JointRun(c, date, front).desk.pending.Some?
    ensures var d := JointRun(c, date, front).desk;
            && d.pending.value.id in Issued(DeskOps(c, date, front))
            && Paper.Absent(d.book.open, d.pending.value.id) && Paper.Absent(d.book.closed, d.pending.value.id)
  {
    JointIsDesk(c, date, front);
    hide JointFrom, DeskOps, FreshIds, Issued, Lifecycle.Run, Paper.Absent;
    PendingIsNew(date, DeskOps(c, date, front), c.desk);
  }

  /** And in a run with fresh ids, that is what becomes of every approved signal. */
  lemma {:induction false} SignalOpenUntilReached(
      c: JointConfig, date: int, front: seq<JointOp>, now: int, rest: seq<JointOp>)
    requires c.Valid() && c.desk.limits.riskPerTrade >= 0.0
    requires JointRun(c, date, front).desk.pending.Some?
    requires FreshIds(DeskOps(c, date, front + [OnDesk(Verdict(true, now))] + rest))
    ensures var s, ops := JointRun(c, date, front), [OnDesk(Verdict(true, now))] + rest;
            Follows(c, s.drained, DeliveredFrom(c, s, ops), JointRun(c, date, front + ops).desk.book,
                    s.desk.pending.value, now)
  {
    hide *;
    var verdict := OnDesk(Verdict(true, now));
    var s, ops := JointRun(c, date, front), [verdict] + rest;
    assert front + ops == front + [verdict] + rest;
    DeskOpsGrow(c, date, front, ops);
    FreshPrefix(DeskOps(c, date, front), DeskOps(c, date, front + ops));
    IssuedBefore(c, date, front);
    forall i | 0 <= i < |rest| && rest[i].OnDesk? && rest[i].act.Evaluate?
      ensures rest[i].act.signal.id != s.desk.pending.value.id
    {
      LaterSignalIsOther(c, date, front, ops, i + 1, s.desk.pending.value.id);
    }
    ApprovedUntilReached(c, s, now, rest);
    JointRunFrom(c, date, front, ops);
    AfterOne(c, s, verdict, rest);
  }

  lemma JointRunFrom(c: JointConfig, date: int, front: seq<JointOp>, ops: seq<JointOp>)
    requires c.Valid()
    ensures JointRun(c, date, front + ops) == JointFrom(c, JointRun(c, date, front), ops)
  {
    JointConcat(c, Idle(date), front, ops);
  }

  lemma AfterOne(c: JointConfig, s: Joint, op: JointOp, rest: seq<JointOp>)
    requires c.Valid() && op.OnDesk?
    ensures JointFrom(c, s, [op] + rest) == JointFrom(c, JointStep(c, s, op), rest)
    ensures DeliveredFrom(c, s, [op] + rest) == DeliveredFrom(c, JointStep(c, s, op), rest)
  {
    hide JointStep, Batched;
    JointConcat(c, s, [op], rest);
    DeliveredConcat(c, s, [op], rest);
    JointSnoc(c, s, [], op, [op]);
    NoBatch(c, s, op);
    hide JointFrom, DeliveredFrom;
    assert [] + DeliveredFrom(c, JointStep(c, s, op), rest) == DeliveredFrom(c, JointStep(c, s, op), rest);
  }

  lemma NoBatch(c: JointConfig, s: Joint, op: JointOp)
    requires c.Valid() && op.OnDesk?
    ensures Batched(c, s, op) == [] && DeliveredFrom(c, s, []) == []
  {
  }

  // ----- a crossing that is missed -----------------------------------------------------------------------

  const CRASH := Event(Binance, "S", P3, MarketTicker(80.0, None))

  const ENTRY := Lifecycle.Signal.Signal("a", "S", "binance", 100.0, 90.0, 120.0, 1000.0)

  /** A candle is offered and drained, then a signal is evaluated and approved. */
  const OPENING: seq<JointOp> :=
    [OnBuffer(Push(Feed.CANDLE)), OnBuffer(PopBatch(MAX_ITEMS)),
     OnDesk(Evaluate(ENTRY, false, 0)), OnDesk(Verdict(true, 1))]

  /** The ticker through the stop arrives, then the next closed candle, before the consumer drains again. */
  const AFTERWARDS: seq<JointOp> := [OnBuffer(Push(CRASH)), OnBuffer(Push(Feed.CANDLE)), OnBuffer(PopBatch(MAX_ITEMS))]

  function Tiny(clock: nat -> Time): JointConfig {
    JointConfig(TINY, Lifecycle.TIGHT, DEFAULT_KLINE_WINDOW, clock)
  }

  lemma JointSnoc(c: JointConfig, s: Joint, front: seq<JointOp>, op: JointOp, ops: seq<JointOp>)
    requires c.Valid() && ops == front + [op]
    ensures JointFrom(c, s, ops) == JointStep(c, JointFrom(c, s, front), op)
    ensures JointFrom(c, s, []) == s
    ensures DeliveredFrom(c, s, ops) == DeliveredFrom(c, s, front) + Batched(c, JointFrom(c, s, front), op)
  {
    hide JointStep;
    DeliveredSnoc(c, s, front, op);
  }

  /** A push into a buffer of one that is empty, or holds only the ticker; and a drain of the candle. */
  lemma TinySteps(c: JointConfig, s: Joint)
    requires c.Valid() && c.buffer == TINY
    ensures s.buffer.queues == PerClass([], [], [], []) ==>
              && (var s' := JointStep(c, s, OnBuffer(Push(Feed.CANDLE)));
                  s'.buffer.queues == PerClass([Feed.CANDLE], [], [], []) && s'.desk == s.desk)
              && (var s' := JointStep(c, s, OnBuffer(Push(CRASH)));
                  s'.buffer.queues == PerClass([], [], [], [CRASH]) && s'.desk == s.desk)
    ensures Batched(c, s, OnBuffer(Push(Feed.CANDLE))) == Batched(c, s, OnBuffer(Push(CRASH))) == []
    ensures s.buffer.queues == PerClass([], [], [], [CRASH]) ==>
              JointStep(c, s, OnBuffer(Push(Feed.CANDLE))).buffer.queues == PerClass([Feed.CANDLE], [], [], [])
  {
    hide Refresh, Exits, IngestedAll;
    assert [] + [Feed.CANDLE] == [Feed.CANDLE] && [] + [CRASH] == [CRASH] && [CRASH][1..] == [];
  }

  lemma TinyDrain(c: JointConfig, s: Joint)
    requires c.Valid() && s.buffer.queues == PerClass([Feed.CANDLE], [], [], [])
    ensures var s' := JointStep(c, s, OnBuffer(PopBatch(MAX_ITEMS)));
            && s'.buffer.queues == PerClass([], [], [], []) && s'.desk == s.desk
            && Batched(c, s, OnBuffer(PopBatch(MAX_ITEMS))) == [Feed.CANDLE]
  {
    hide Refresh, IngestedAll;
    var clock := Later(c.clock, s.drained);
    assert [Feed.CANDLE][..0] == [];
    assert Exits(s.desk, [], clock, c.desk) == s.desk;
    assert Exits(s.desk, [Feed.CANDLE], clock, c.desk) == s.desk;
    assert Batch(s.buffer.queues, MAX_ITEMS) == [Feed.CANDLE];
  }

  lemma OpeningOpens(clock: nat -> Time)
    ensures var s := JointRun(Tiny(clock), 0, OPENING);
            && s.buffer.queues == PerClass([], [], [], [])
            && s.desk.book == Paper.Book([PositionOf(ENTRY, 1)], []) && s.desk.pending == None
  {
    var c, s, o := Tiny(clock), Idle(0), OPENING;
    hide JointFrom, JointStep, DeliveredFrom, Batched;
    JointSnoc(c, s, [], o[0], o[..1]);
    JointSnoc(c, s, o[..1], o[1], o[..2]);
    JointSnoc(c, s, o[..2], o[2], o[..3]);
    JointSnoc(c, s, o[..3], o[3], o);
    TinySteps(c, s);
    TinyDrain(c, JointFrom(c, s, o[..1]));
    Approved(c, JointFrom(c, s, o[..2]));
  }

  lemma Approved(c: JointConfig, s: Joint)
    requires c.Valid() && c.desk == Lifecycle.TIGHT && s.desk == Lifecycle.Start(0)
    ensures var s' := JointStep(c, JointStep(c, s, OnDesk(Evaluate(ENTRY, false, 0))), OnDesk(Verdict(true, 1)));
            && s'.buffer == s.buffer
            && s'.desk.book == Paper.Book([PositionOf(ENTRY, 1)], []) && s'.desk.pending == None
  {
  }

  lemma {:induction false} AfterwardsDelivers(clock: nat -> Time, s: Joint)
    requires s.buffer.queues == PerClass([], [], [], [])
    ensures DeliveredFrom(Tiny(clock), s, AFTERWARDS) == [Feed.CANDLE]
  {
    hide JointFrom, JointStep, DeliveredFrom, Batched;
    var c, o := Tiny(clock), AFTERWARDS;
    JointSnoc(c, s, [], o[0], o[..1]);
    JointSnoc(c, s, o[..1], o[1], o[..2]);
    JointSnoc(c, s, o[..2], o[2], o);
    DeliveredSnoc(c, s, [], o[0]);
    TinySteps(c, s);
    TinySteps(c, JointFrom(c, s, o[..1]));
    TinyDrain(c, JointFrom(c, s, o[..2]));
  }

  lemma AfterwardsIssuesNothing(s: Joint, id: string)
    requires s.desk.pending == None
    ensures NotReissued(s, AFTERWARDS, id)
  {
  }

  /**
    And a crossing is missed: after a position was opened, a full buffer gives up the ticker through its stop for the
    next closed candle. It was offered, it was never seen, and the position is still open.
   */
  lemma {:induction false} CrossingCanBeMissed(clock: nat -> Time)
    ensures var c, p := Tiny(clock), PositionOf(ENTRY, 1);
            && Feed.NormalizedRun(BufferOps(OPENING + AFTERWARDS))
            && Paper.StillOpen(JointRun(c, 0, OPENING).desk.book, p)
            && CRASH in Feed.Offered(BufferOps(AFTERWARDS)) && Crosses(p, CRASH)
            && Paper.StillOpen(JointRun(c, 0, OPENING + AFTERWARDS).desk.book, p)
  {
    hide Crosses, CrossedAmong, Paper.StillOpen, NotReissued, JointFrom, DeliveredFrom;
    hide BufferOps, Feed.Offered, Feed.NormalizedRun;
    var c, p := Tiny(clock), PositionOf(ENTRY, 1);
    OpeningOpens(clock);
    var s := JointRun(c, 0, OPENING);
    OfferedAfterwards();
    OneOpen(s.desk.book, p);
    JointConcat(c, Idle(0), OPENING, AFTERWARDS);
    AfterwardsDelivers(clock, s);
    AfterwardsIssuesNothing(s, p.id);
    CandleCrossesNothing(p);
    OpenIffNothingDeliveredCrosses(c, s, AFTERWARDS, p);
  }

  lemma CandleCrossesNothing(p: Paper.Position)
    ensures !CrossedAmong(p, [Feed.CANDLE])
  {
  }

  lemma OneOpen(b: Paper.Book, p: Paper.Position)
    requires b == Paper.Book([p], [])
    ensures Paper.StillOpen(b, p)
  {
    assert [p][..0] == [];
  }

  lemma OfferedAfterwards()
    ensures Feed.NormalizedRun(BufferOps(OPENING + AFTERWARDS))
    ensures CRASH in Feed.Offered(BufferOps(AFTERWARDS)) && Crosses(PositionOf(ENTRY, 1), CRASH)
  {
    BufferOpsConcat(OPENING, AFTERWARDS);
    var o, r := OPENING, AFTERWARDS;
    BufferOpsOf(o[0], o[1], o[2]);
    BufferOpsSnoc(o[..3], o[3]);
    BufferOpsOf(r[0], r[1], r[2]);
    assert o == o[..3] + [o[3]] && o[..3] == [o[0], o[1], o[2]] && r == [r[0], r[1], r[2]];
    var b := BufferOps(AFTERWARDS);
    hide BufferOps;
    assert b == [Push(CRASH), Push(Feed.CANDLE), PopBatch(MAX_ITEMS)];
    assert b[..2][..1] == b[..1] && b[..1][..0] == [];
    assert Feed.Offered(b[..1]) == [] + [CRASH];
    assert Feed.Offered(b[..2]) == Feed.Offered(b[..1]) + [Feed.CANDLE];
    assert Feed.Offered(b) == Feed.Offered(b[..2]) + [];
    assert Feed.Offered(b)[0] == CRASH;
  }

  function Bare(op: JointOp): seq<RingBufferModel.Op> {
    if op.OnBuffer? then [op.op] else []
  }

  lemma BufferOpsSnoc(front: seq<JointOp>, op: JointOp)
    ensures BufferOps(front + [op]) == BufferOps(front) + Bare(op)
    ensures BufferOps([]) == []
  {
    assert (front + [op])[..|front|] == front;
  }

  lemma BufferOpsOf(a: JointOp, b: JointOp, c: JointOp)
    ensures BufferOps([a, b, c]) == Bare(a) + Bare(b) + Bare(c)
  {
    hide BufferOps, Bare;
    BufferOpsSnoc([], a);
    BufferOpsSnoc([a], b);
    BufferOpsSnoc([a, b], c);
    assert [] + [a] == [a] && [a] + [b] == [a, b] && [a, b] + [c] == [a, b, c];
    assert [] + Bare(a) == Bare(a);
  }

  method Store(e: Event, store: FeatureStore, pipeline: SignalPipeline, ghost ps: set<PaperPosition>)
    requires store.Valid() && pipeline.Valid() && Among(pipeline, ps)
    modifies store, store.states.Values
    ensures store.Valid() && store.View() == Ingested(old(store.View()), e, store.window)
    ensures fresh(store.states.Values - old(store.states.Values))
    ensures pipeline.Valid() && pipeline.View() == old(pipeline.View())
    ensures Among(pipeline, ps)
  {
    hide Ingested;
    store.Ingest(e);
  }

  /** The open positions of a pipeline are among `ps`. */
  ghost predicate Among(pipeline: SignalPipeline, ps: set<PaperPosition>)
    reads pipeline.paperEngine
  {
    forall x | x in pipeline.paperEngine.open :: x in ps
  }

  ghost function OpenSet(pipeline: SignalPipeline): (ps: set<PaperPosition>)
    reads pipeline, pipeline.paperEngine
    ensures Among(pipeline, ps) && forall x | x in ps :: x in pipeline.paperEngine.open
  {
    set x | x in pipeline.paperEngine.open
  }

  method CheckExits(e: Event, store: FeatureStore, pipeline: SignalPipeline, at: Time, ghost ps: set<PaperPosition>)
    requires store.Valid() && pipeline.Valid() && Among(pipeline, ps)
    modifies pipeline.riskEngine, pipeline.paperEngine, ps
    ensures store.Valid() && store.View() == old(store.View()) && store.states == old(store.states)
    ensures pipeline.Valid() && pipeline.View() == ExitStep(old(pipeline.View()), e, at, pipeline.cfg)
    ensures Among(pipeline, ps)
  {
    hide Lifecycle.Step;
    var t := TickOf(e, at.now);
    if t.Some? {
      pipeline.CheckExits(t.value, at.today);
    }
  }

  /** The events of a batch, one by one. */
  method ProcessAll(batch: seq<Event>, store: FeatureStore, pipeline: SignalPipeline, clock: nat -> Time,
      ghost ps: set<PaperPosition>)
    requires store.Valid() && pipeline.Valid() && Among(pipeline, ps)
    modifies store, store.states.Values
    modifies pipeline.riskEngine, pipeline.paperEngine, ps
    ensures store.Valid() && pipeline.Valid()
    ensures store.View() == IngestedAll(old(store.View()), batch, store.window)
    ensures pipeline.View() == Exits(old(pipeline.View()), batch, clock, pipeline.cfg)
  {
    assert pipeline.cfg.Valid();
    hide ExitStep, Ingested, Among, FeatureStore.Valid, FeatureStore.View, SignalPipeline.Valid, SignalPipeline.View;
    for i := 0 to |batch|
      invariant store.Valid() && pipeline.Valid() && Among(pipeline, ps)
      invariant fresh(store.states.Values - old(store.states.Values))
      invariant store.View() == IngestedAll(old(store.View()), batch[..i], store.window)
      invariant pipeline.View() == Exits(old(pipeline.View()), batch[..i], clock, pipeline.cfg)
    {
      assert batch[..i + 1][..i] == batch[..i];
      Store(batch[i], store, pipeline, ps);
      CheckExits(batch[i], store, pipeline, clock(i), ps);
    }
    assert batch[..|batch|] == batch;
  }

  method Drain(buffer: PriorityRingBuffer, store: FeatureStore, pipeline: SignalPipeline, ghost ps: set<PaperPosition>)
    returns (batch: seq<Event>)
    requires buffer.Valid() && store.Valid() && pipeline.Valid() && Among(pipeline, ps)
    modifies buffer
    ensures buffer.Valid()
    ensures RingBufferModel.Step(buffer.cfg, old(buffer.View()), PopBatch(MAX_ITEMS)) == (buffer.View(), Popped(batch))
    ensures store.Valid() && store.View() == old(store.View())
    ensures pipeline.Valid() && pipeline.View() == old(pipeline.View()) && Among(pipeline, ps)
    ensures |batch| == Min(500, Size(old(buffer.View()).queues))
  {
    BatchLength(buffer.cfg, buffer.View());
    hide RingBufferModel.Step, PriorityRingBuffer.Valid, PriorityRingBuffer.View, Size;
    batch := buffer.PopBatch(MAX_ITEMS);
  }

  lemma BatchStep(c: JointConfig, s: Joint, b: Buffer, batch: seq<Event>)
    requires c.Valid() && RingBufferModel.Step(c.buffer, s.buffer, PopBatch(MAX_ITEMS)) == (b, Popped(batch))
    ensures Batched(c, s, OnBuffer(PopBatch(MAX_ITEMS))) == batch
    ensures JointStep(c, s, OnBuffer(PopBatch(MAX_ITEMS)))
            == Joint(b, IngestedAll(s.store, batch, c.window), Exits(s.desk, batch, Later(c.clock, s.drained), c.desk),
                     s.drained + |batch|)
  {
    hide RingBufferModel.Step, IngestedAll, Exits;
  }

  lemma BatchLength(cfg: RingBufferModel.Config, b: Buffer)
    requires cfg.Valid()
    ensures var eff := RingBufferModel.Step(cfg, b, PopBatch(MAX_ITEMS)).1;
            eff.Popped? && |eff.batch| == Min(500, Size(b.queues))
  {
    BatchIsPrefix(b.queues, MAX_ITEMS);
    FlatSize(b.queues);
    hide Refresh, Batch, Rest, Flat, Size;
  }

  /** One turn of the consumer loop: drain a batch, then store each event and check exits on each ticker. */
  method ConsumeBatch(buffer: PriorityRingBuffer, store: FeatureStore, pipeline: SignalPipeline,
      clock: nat -> Time, drained: nat)
    returns (batch: seq<Event>)
    requires buffer.Valid() && store.Valid() && pipeline.Valid()
    modifies buffer, store, store.states.Values
    modifies pipeline.riskEngine, pipeline.paperEngine, pipeline.paperEngine.open
    ensures buffer.Valid() && store.Valid() && pipeline.Valid()
    ensures var c := JointConfig(buffer.cfg, pipeline.cfg, store.window, clock);
            var before := Joint(old(buffer.View()), old(store.View()), old(pipeline.View()), drained);
            && batch == Batched(c, before, OnBuffer(PopBatch(MAX_ITEMS)))
            && Joint(buffer.View(), store.View(), pipeline.View(), drained + |batch|)
               == JointStep(c, before, OnBuffer(PopBatch(MAX_ITEMS)))
    ensures |batch| == Min(500, Size(old(buffer.View()).queues))
  {
    assert pipeline.cfg.Valid() && buffer.cfg.Valid();
    hide RingBufferModel.Step, Exits, IngestedAll, FeatureStore.Valid, FeatureStore.View;
    hide SignalPipeline.Valid, SignalPipeline.View, PriorityRingBuffer.Valid, PriorityRingBuffer.View;
    hide JointStep, Batched, Size, Later, Among;
    ghost var c := JointConfig(buffer.cfg, pipeline.cfg, store.window, clock);
    ghost var before := Joint(buffer.View(), store.View(), pipeline.View(), drained);
    ghost var ps := OpenSet(pipeline);
    batch := Drain(buffer, store, pipeline, ps);
    BatchStep(c, before, buffer.View(), batch);
    ProcessAll(batch, store, pipeline, Later(clock, drained), ps);
  }
}
