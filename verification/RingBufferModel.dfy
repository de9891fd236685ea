/**
  The lossy priority buffer as a state machine over values, and what holds of every run of it.
  The mutable class in RingBuffer.dfy is proved to take exactly these steps.
*/
module RingBufferModel {
  import opened Prelude
  import opened Events

  datatype Config = Config(capacity: nat, high: real, overload: real, recovery: real) {
    // The constructor raises ValueError for any other capacity.
    predicate Valid() {
      capacity > 0
    }
  }

  datatype Status = Normal | Lossy | DataOverload

  type Queues = PerClass<seq<Event>>

  type Counts = PerClass<nat>

  datatype Buffer = Buffer(queues: Queues, status: Status, droppedTotal: nat, dropped: Counts, overflows: nat)

  datatype Op = Push(event: Event) | PopBatch(maxItems: int) | Acknowledge

  /** What the caller of one operation observes, together with the event it displaced. */
  datatype Effect =
    | Admitted(evicted: Option<Event>)
    | Refused
    | OverloadRaised
    | Popped(batch: seq<Event>)
    | Acknowledged

  function Empty(): Buffer {
    Buffer(PerClass([], [], [], []), Normal, 0, PerClass(0, 0, 0, 0), 0)
  }

  function Flat(q: Queues): seq<Event> {
    q.p0 + q.p1 + q.p2 + q.p3
  }

  function Size(q: Queues): nat {
    |q.p0| + |q.p1| + |q.p2| + |q.p3|
  }

  function Utilization(cfg: Config, q: Queues): real
    requires cfg.Valid()
  {
    Size(q) as real / cfg.capacity as real
  }

  function Refresh(cfg: Config, status: Status, q: Queues): Status
    requires cfg.Valid()
  {
    var u := Utilization(cfg, q);
    if status == DataOverload then status
    else if u >= cfg.overload then Lossy
    else if u >= cfg.high then Lossy
    else if u <= cfg.recovery then Normal
    else status
  }

  /** The class whose oldest event makes room for an incoming event of class `p`. */
  function Victim(q: Queues, p: Priority): Option<Priority> {
    if q.p3 != [] then Some(P3)
    else if q.p2 != [] then Some(P2)
    else if p == P0 && q.p1 != [] then Some(P1)
    else None
  }

  function Enqueue(cfg: Config, b: Buffer, e: Event): Buffer
    requires cfg.Valid()
  {
    var q := b.queues.With(e.priority, b.queues.At(e.priority) + [e]);
    b.(queues := q, status := Refresh(cfg, b.status, q))
  }

  function CountDrop(b: Buffer, p: Priority): Buffer {
    b.(droppedTotal := b.droppedTotal + 1, dropped := b.dropped.With(p, b.dropped.At(p) + 1))
  }

  /** The number of events served before class `p` gets its turn. */
  function Above(q: Queues, p: Priority): nat {
    match p
    case P0 => 0
    case P1 => |q.p0|
    case P2 => |q.p0| + |q.p1|
    case P3 => |q.p0| + |q.p1| + |q.p2|
  }

  function Clip(n: int, size: nat): nat {
    Max(0, Min(n, size))
  }

  /** How many events of class `p` a batch of at most `n` takes. */
  function Take(q: Queues, n: int, p: Priority): (k: nat)
    ensures k <= |q.At(p)|
  {
    Clip(n - Above(q, p), |q.At(p)|)
  }

  function Batch(q: Queues, n: int): seq<Event> {
    q.p0[..Take(q, n, P0)] + q.p1[..Take(q, n, P1)] + q.p2[..Take(q, n, P2)] + q.p3[..Take(q, n, P3)]
  }

  function Rest(q: Queues, n: int): Queues {
    PerClass(q.p0[Take(q, n, P0)..], q.p1[Take(q, n, P1)..],
             q.p2[Take(q, n, P2)..], q.p3[Take(q, n, P3)..])
  }

  function Step(cfg: Config, b: Buffer, op: Op): (Buffer, Effect)
    requires cfg.Valid()
  {
    match op
    case Push(e) =>
      if Size(b.queues) < cfg.capacity then (Enqueue(cfg, b, e), Admitted(None))
      else (
        match Victim(b.queues, e.priority)
        case Some(v) =>
          var freed := CountDrop(b, v).(queues := b.queues.With(v, b.queues.At(v)[1..]));
          (Enqueue(cfg, freed, e), Admitted(Some(b.queues.At(v)[0])))
        case None =>
          if e.priority == P0 then (b.(overflows := b.overflows + 1, status := DataOverload), OverloadRaised)
          else (CountDrop(b, e.priority).(status := Refresh(cfg, b.status, b.queues)), Refused)
      )
    case PopBatch(n) =>
      var rest := Rest(b.queues, n);
      (b.(queues := rest, status := Refresh(cfg, b.status, rest)), Popped(Batch(b.queues, n)))
    case Acknowledge =>
      (if Utilization(cfg, b.queues) <= cfg.recovery then b.(status := Normal) else b, Acknowledged)
  }

  /** The buffer after a whole run. */
  function Run(cfg: Config, ops: seq<Op>): Buffer
    requires cfg.Valid()
  {
    if ops == [] then Empty() else Step(cfg, Run(cfg, ops[..|ops| - 1]), ops[|ops| - 1]).0
  }

  /** The effect of the last operation of a non-empty run. */
  function LastEffect(cfg: Config, ops: seq<Op>): Effect
    requires cfg.Valid() && ops != []
  {
    Step(cfg, Run(cfg, ops[..|ops| - 1]), ops[|ops| - 1]).1
  }

  // ----- the books kept by an observer of the run, per class ---------------------------------

  /** `removed` lists what left the queue in the order it left, whether popped or evicted. */
  datatype Ledger = Ledger(
    pushed: seq<Event>, accepted: seq<Event>, removed: seq<Event>,
    popped: seq<Event>, evicted: seq<Event>, refused: seq<Event>, overflowed: seq<Event>)

  function One(e: Event, p: Priority): seq<Event> {
    if e.priority == p then [e] else []
  }

  function Evicted(eff: Effect): seq<Event> {
    if eff.Admitted? && eff.evicted.Some? then [eff.evicted.value] else []
  }

  /** The event `e` (or nothing) arrives and meets its effect. */
  function Arrive(l: Ledger, e: seq<Event>, eff: Effect): Ledger {
    l.(pushed := l.pushed + e,
       accepted := l.accepted + (if eff.Admitted? then e else []),
       refused := l.refused + (if eff.Refused? then e else []),
       overflowed := l.overflowed + (if eff.OverloadRaised? then e else []))
  }

  /** The events `gone` leave the queue. */
  function Leave(l: Ledger, gone: seq<Event>, evicted: bool): Ledger {
    l.(removed := l.removed + gone,
       popped := l.popped + (if evicted then [] else gone),
       evicted := l.evicted + (if evicted then gone else []))
  }

  function Record(l: Ledger, op: Op, eff: Effect, p: Priority): Ledger {
    match op
    case Push(e) => Leave(Arrive(l, One(e, p), eff), OfClass(Evicted(eff), p), true)
    case PopBatch(_) => Leave(l, if eff.Popped? then OfClass(eff.batch, p) else [], false)
    case Acknowledge => l
  }

  function LedgerOf(cfg: Config, ops: seq<Op>, p: Priority): Ledger
    requires cfg.Valid()
  {
    if ops == [] then Ledger([], [], [], [], [], [], [])
    else Record(LedgerOf(cfg, ops[..|ops| - 1], p), ops[|ops| - 1], LastEffect(cfg, ops), p)
  }

  /** Everything handed to the consumer, batch after batch. */
  function Delivered(cfg: Config, ops: seq<Op>): seq<Event>
    requires cfg.Valid()
  {
    if ops == [] then []
    else
      var eff := LastEffect(cfg, ops);
      Delivered(cfg, ops[..|ops| - 1]) + if eff.Popped? then eff.batch else []
  }

  // ----- reachable states -------------------------------------------------------------------

  ghost predicate Uniform(es: seq<Event>, p: Priority) {
    forall i | 0 <= i < |es| :: es[i].priority == p
  }

  /** Every queue holds events of its own class only. */
  ghost predicate WellFiled(q: Queues) {
    Uniform(q.p0, P0) && Uniform(q.p1, P1) && Uniform(q.p2, P2) && Uniform(q.p3, P3)
  }

  ghost predicate Sound(cfg: Config, b: Buffer) {
    && Size(b.queues) <= cfg.capacity
    && WellFiled(b.queues)
    && b.droppedTotal == b.dropped.p0 + b.dropped.p1 + b.dropped.p2 + b.dropped.p3
    && b.dropped.p0 == 0
  }

  lemma {:induction false} EnqueueSound(cfg: Config, b: Buffer, e: Event)
    requires cfg.Valid() && Sound(cfg, b) && Size(b.queues) < cfg.capacity
    ensures Sound(cfg, Enqueue(cfg, b, e))
  {
    hide Utilization;
  }

  lemma {:induction false} EvictSound(cfg: Config, b: Buffer, v: Priority)
    requires Sound(cfg, b) && b.queues.At(v) != [] && v != P0
    ensures var freed := CountDrop(b, v).(queues := b.queues.With(v, b.queues.At(v)[1..]));
            Sound(cfg, freed) && Size(freed.queues) == Size(b.queues) - 1
  {
  }

  lemma {:induction false} RestSound(cfg: Config, b: Buffer, n: int)
    requires Sound(cfg, b)
    ensures Sound(cfg, b.(queues := Rest(b.queues, n)))
  {
  }

  lemma {:induction false} StepSound(cfg: Config, b: Buffer, op: Op)
    requires cfg.Valid() && Sound(cfg, b)
    ensures Sound(cfg, Step(cfg, b, op).0)
  {
    hide Utilization, WellFiled;
    match op
    case Push(e) =>
      var v := Victim(b.queues, e.priority);
      if Size(b.queues) < cfg.capacity {
        EnqueueSound(cfg, b, e);
      } else if v.Some? {
        EvictSound(cfg, b, v.value);
        EnqueueSound(cfg, CountDrop(b, v.value).(queues := b.queues.With(v.value, b.queues.At(v.value)[1..])), e);
      }
    case PopBatch(n) => RestSound(cfg, b, n);
    case Acknowledge =>
  }

  lemma {:induction false} RunSound(cfg: Config, ops: seq<Op>)
    requires cfg.Valid()
    ensures Sound(cfg, Run(cfg, ops))
  {
    if ops != [] {
      RunSound(cfg, ops[..|ops| - 1]);
      StepSound(cfg, Run(cfg, ops[..|ops| - 1]), ops[|ops| - 1]);
    }
  }

  // ----- batches ----------------------------------------------------------------------------

  lemma {:induction false} SplitConcat<T>(x: seq<T>, y: seq<T>, k: nat)
    requires k <= |x| + |y|
    ensures (x + y)[..k] == x[..Min(k, |x|)] + y[..Max(0, k - |x|)]
    ensures (x + y)[k..] == x[Min(k, |x|)..] + y[Max(0, k - |x|)..]
  {
  }

  lemma {:induction false} TakeCounts(q: Queues, n: int)
    ensures var k := Clip(n, Size(q));
            var k2 := Min(k, Above(q, P3));
            var k1 := Min(k2, Above(q, P2));
            && Take(q, n, P3) == Max(0, k - Above(q, P3)) && Take(q, n, P2) == Max(0, k2 - Above(q, P2))
            && Take(q, n, P1) == Max(0, k1 - Above(q, P1)) && Take(q, n, P0) == Min(k1, Above(q, P1))
  {
  }

  /** A batch is the front of the four queues laid end to end, most urgent first. */
  lemma {:induction false} BatchIsPrefix(q: Queues, n: int)
    ensures Batch(q, n) == Flat(q)[..Clip(n, Size(q))]
    ensures Flat(Rest(q, n)) == Flat(q)[Clip(n, Size(q))..]
  {
    TakeCounts(q, n);
    hide Take;
    var k := Clip(n, Size(q));
    var k2 := Min(k, Above(q, P3));
    var k1 := Min(k2, Above(q, P2));
    var f := q.p0 + q.p1;
    var g := f + q.p2;
    SplitConcat(g, q.p3, k);
    SplitConcat(f, q.p2, k2);
    SplitConcat(q.p0, q.p1, k1);
    hide Clip, Max, Min;
    assert Flat(q)[..k] == g[..k2] + q.p3[..Take(q, n, P3)];
    assert Flat(q)[k..] == g[k2..] + q.p3[Take(q, n, P3)..];
  }

  lemma {:induction false} AboveRest(q: Queues, m: nat, p: Priority)
    ensures Above(Rest(q, m), p) == Above(q, p) - Clip(m, Above(q, p))
  {
  }

  lemma {:induction false} TakesAdd(q: Queues, m: nat, n: nat, p: Priority)
    ensures Rest(Rest(q, m), n).At(p) == Rest(q, m + n).At(p)
  {
    AboveRest(q, m, p);
    RestAt(q, m, p);
    RestAt(q, m + n, p);
    RestAt(Rest(q, m), n, p);
    hide Above, Rest;
    var s, i, j := q.At(p), Take(q, m, p), Take(Rest(q, m), n, p);
    assert s[i..][j..] == s[i + j..];
  }

  lemma {:induction false} RestAt(q: Queues, n: int, p: Priority)
    ensures Rest(q, n).At(p) == q.At(p)[Take(q, n, p)..]
  {
  }

  /** Two batches in a row are one batch of the combined size. */
  lemma {:induction false} PopsCompose(cfg: Config, b: Buffer, m: nat, n: nat)
    requires cfg.Valid()
    ensures var (b1, e1) := Step(cfg, b, PopBatch(m));
            var (b2, e2) := Step(cfg, b1, PopBatch(n));
            var (both, e) := Step(cfg, b, PopBatch(m + n));
            e1.batch + e2.batch == e.batch && b2.queues == both.queues
  {
    hide Batch, Rest, Refresh;
    BatchesAdd(b.queues, m, n);
  }

  lemma {:induction false} BatchesAdd(q: Queues, m: nat, n: nat)
    ensures Batch(q, m) + Batch(Rest(q, m), n) == Batch(q, m + n)
    ensures Rest(Rest(q, m), n) == Rest(q, m + n)
  {
    hide Batch, Rest, Flat, Take, Size;
    TakesAdd(q, m, n, P0);
    TakesAdd(q, m, n, P1);
    TakesAdd(q, m, n, P2);
    TakesAdd(q, m, n, P3);
    BatchIsPrefix(q, m);
    BatchIsPrefix(q, m + n);
    BatchIsPrefix(Rest(q, m), n);
    FlatSize(q);
    FlatSize(Rest(q, m));
    var k := Clip(m, Size(q));
    var j := Clip(n, Size(q) - k);
    assert Flat(q)[k..][..j] == Flat(q)[k..k + j];
  }

  lemma {:induction false} FlatSize(q: Queues)
    ensures |Flat(q)| == Size(q)
  {
  }

  lemma {:induction false} OfClassUniform(es: seq<Event>, p: Priority, c: Priority)
    requires Uniform(es, c)
    ensures OfClass(es, p) == if p == c then es else []
  {
    if es != [] {
      OfClassUniform(es[..|es| - 1], p, c);
      assert es == es[..|es| - 1] + [es[|es| - 1]];
    }
  }

  lemma {:induction false} OfClassOfFour(a: seq<Event>, b: seq<Event>, c: seq<Event>, d: seq<Event>, p: Priority)
    requires Uniform(a, P0) && Uniform(b, P1) && Uniform(c, P2) && Uniform(d, P3)
    ensures OfClass(a + b + c + d, p) == PerClass(a, b, c, d).At(p)
  {
    hide Uniform;
    OfClassUniform(a, p, P0);
    OfClassUniform(b, p, P1);
    OfClassUniform(c, p, P2);
    OfClassUniform(d, p, P3);
    OfClassConcat(a, b, p);
    OfClassConcat(a + b, c, p);
    OfClassConcat(a + b + c, d, p);
  }

  lemma {:induction false} BatchOfClass(q: Queues, n: int, p: Priority)
    requires WellFiled(q)
    ensures OfClass(Batch(q, n), p) + Rest(q, n).At(p) == q.At(p)
  {
    hide OfClass, Take, Rest;
    RestAt(q, n, p);
    OfClassOfFour(q.p0[..Take(q, n, P0)], q.p1[..Take(q, n, P1)], q.p2[..Take(q, n, P2)], q.p3[..Take(q, n, P3)], p);
  }

  // ----- exact accounting over whole runs ----------------------------------------------------

  /** Per class, what was accepted is what left, in the order it left, followed by what is queued. */
  ghost predicate InOrder(queue: seq<Event>, l: Ledger) {
    && l.accepted == l.removed + queue
    && (l.evicted == [] ==> l.removed == l.popped)
    && (l.overflowed == [] && l.refused == [] ==> l.accepted == l.pushed)
  }

  /** Every pushed event has exactly one fate. */
  ghost predicate Partitioned(l: Ledger) {
    && multiset(l.removed) == multiset(l.popped) + multiset(l.evicted)
    && multiset(l.pushed) == multiset(l.accepted) + multiset(l.refused) + multiset(l.overflowed)
  }

  ghost predicate Counted(b: Buffer, l: Ledger, p: Priority) {
    && b.dropped.At(p) == |l.evicted| + |l.refused|
    && (p == P0 ==> b.overflows == |l.overflowed| && l.evicted == [] && l.refused == [])
    && (p != P0 ==> l.overflowed == [])
  }

  ghost predicate Balanced(b: Buffer, l: Ledger, p: Priority) {
    InOrder(b.queues.At(p), l) && Partitioned(l) && Counted(b, l, p)
  }

  /** What one push does to the books of one class. */
  ghost predicate MovesOne(b: Buffer, b': Buffer, e: Event, eff: Effect, p: Priority) {
    var gone := OfClass(Evicted(eff), p);
    && (eff.Admitted? || eff.Refused? || eff.OverloadRaised?)
    && b.queues.At(p) + (if eff.Admitted? then One(e, p) else []) == gone + b'.queues.At(p)
    && b'.dropped.At(p) == b.dropped.At(p) + |gone| + (if eff.Refused? then |One(e, p)| else 0)
    && b'.overflows == b.overflows + (if eff.OverloadRaised? then 1 else 0)
    && (eff.OverloadRaised? ==> e.priority == P0)
    && (eff.Refused? ==> e.priority != P0)
    && (p == P0 ==> gone == [])
  }

  lemma {:induction false} OneEvent(e: Event, p: Priority)
    ensures OfClass([e], p) == One(e, p)
  {
  }

  lemma {:induction false} FiledAt(q: Queues, p: Priority)
    requires WellFiled(q)
    ensures Uniform(q.At(p), p)
  {
  }

  lemma {:induction false} WithAt<T>(q: PerClass<T>, c: Priority, v: T, p: Priority)
    ensures q.With(c, v).At(p) == if p == c then v else q.At(p)
  {
  }

  lemma {:induction false} EvictionMovesOne(cfg: Config, b: Buffer, v: Priority, e: Event, p: Priority)
    requires cfg.Valid() && WellFiled(b.queues) && b.queues.At(v) != [] && v != P0
    ensures var freed := CountDrop(b, v).(queues := b.queues.With(v, b.queues.At(v)[1..]));
            MovesOne(b, Enqueue(cfg, freed, e), e, Admitted(Some(b.queues.At(v)[0])), p)
  {
    var s := b.queues.At(v);
    var q := b.queues.With(v, s[1..]);
    FiledAt(b.queues, v);
    OneEvent(s[0], p);
    WithAt(b.queues, v, s[1..], p);
    WithAt(q, e.priority, q.At(e.priority) + [e], p);
    WithAt(b.dropped, v, b.dropped.At(v) + 1, p);
    hide Refresh, WellFiled, OfClass, PerClass.With, PerClass.At;
    assert s == [s[0]] + s[1..];
    assert b.queues.At(p) == One(s[0], p) + q.At(p);
  }

  lemma {:induction false} PushMovesOne(cfg: Config, b: Buffer, e: Event, p: Priority)
    requires cfg.Valid() && Sound(cfg, b)
    ensures var (b', eff) := Step(cfg, b, Push(e)); MovesOne(b, b', e, eff, p)
  {
    hide Refresh;
    var v := Victim(b.queues, e.priority);
    if Size(b.queues) == cfg.capacity && v.Some? {
      hide Size, MovesOne, Enqueue;
      EvictionMovesOne(cfg, b, v.value, e, p);
    }
  }

  lemma {:induction false} LeavePartitioned(l: Ledger, gone: seq<Event>, evicted: bool)
    requires Partitioned(l)
    ensures Partitioned(Leave(l, gone, evicted))
  {
  }

  lemma {:induction false} ArrivePartitioned(l: Ledger, e: seq<Event>, eff: Effect)
    requires Partitioned(l) && (eff.Admitted? || eff.Refused? || eff.OverloadRaised?)
    ensures Partitioned(Arrive(l, e, eff))
  {
  }

  lemma {:induction false} LeaveInOrder(queue: seq<Event>, queue': seq<Event>, l: Ledger, gone: seq<Event>,
      evicted: bool)
    requires InOrder(queue, l) && queue == gone + queue'
    ensures InOrder(queue', Leave(l, gone, evicted))
  {
  }

  lemma {:induction false} ArriveInOrder(queue: seq<Event>, l: Ledger, e: seq<Event>, eff: Effect)
    requires InOrder(queue, l) && (eff.Admitted? || eff.Refused? || eff.OverloadRaised?)
    ensures InOrder(queue + (if eff.Admitted? then e else []), Arrive(l, e, eff))
  {
  }

  lemma {:induction false} PushCounted(b: Buffer, b': Buffer, e: Event, eff: Effect, l: Ledger, p: Priority)
    requires Counted(b, l, p) && MovesOne(b, b', e, eff, p)
    ensures Counted(b', Record(l, Push(e), eff, p), p)
  {
    hide OfClass, Evicted;
  }

  lemma {:induction false} PushBalanced(cfg: Config, b: Buffer, e: Event, l: Ledger, p: Priority)
    requires cfg.Valid() && Sound(cfg, b) && Balanced(b, l, p)
    ensures var (b', eff) := Step(cfg, b, Push(e)); Balanced(b', Record(l, Push(e), eff, p), p)
  {
    PushMovesOne(cfg, b, e, p);
    hide Step, Sound, OfClass, Evicted, InOrder, Partitioned, Counted, Arrive, Leave;
    var (b', eff) := Step(cfg, b, Push(e));
    var l1 := Arrive(l, One(e, p), eff);
    PushCounted(b, b', e, eff, l, p);
    ArriveInOrder(b.queues.At(p), l, One(e, p), eff);
    ArrivePartitioned(l, One(e, p), eff);
    LeaveInOrder(b.queues.At(p) + (if eff.Admitted? then One(e, p) else []), b'.queues.At(p),
                 l1, OfClass(Evicted(eff), p), true);
    LeavePartitioned(l1, OfClass(Evicted(eff), p), true);
  }

  lemma {:induction false} PopBalanced(cfg: Config, b: Buffer, n: int, l: Ledger, p: Priority)
    requires cfg.Valid() && Sound(cfg, b) && Balanced(b, l, p)
    ensures var (b', eff) := Step(cfg, b, PopBatch(n)); Balanced(b', Record(l, PopBatch(n), eff, p), p)
  {
    BatchOfClass(b.queues, n, p);
    hide Refresh, Batch, Rest, OfClass, InOrder, Partitioned, Sound;
    var gone := OfClass(Batch(b.queues, n), p);
    LeaveInOrder(b.queues.At(p), Rest(b.queues, n).At(p), l, gone, false);
    LeavePartitioned(l, gone, false);
  }

  lemma {:induction false} AckBalanced(cfg: Config, b: Buffer, l: Ledger, p: Priority)
    requires cfg.Valid() && Balanced(b, l, p)
    ensures var (b', eff) := Step(cfg, b, Acknowledge); Balanced(b', Record(l, Acknowledge, eff, p), p)
  {
  }

  /**
    In every run: the buffer never outgrows its capacity; per class, what was accepted is what left, in
    order, followed by what is queued; every pushed event is queued, popped, evicted, refused or
    was answered by the overload exception, and the counters count exactly those; P0 is never
    evicted or refused.
   */
  lemma {:induction false} Accounting(cfg: Config, ops: seq<Op>, p: Priority)
    requires cfg.Valid()
    ensures var b, l := Run(cfg, ops), LedgerOf(cfg, ops, p);
            && Sound(cfg, b)
            && Balanced(b, l, p)
  {
    RunSound(cfg, ops);
    if ops != [] {
      hide Step, Balanced, Sound, Record;
      var front, op := ops[..|ops| - 1], ops[|ops| - 1];
      RunSound(cfg, front);
      Accounting(cfg, front, p);
      match op
      case Push(e) => PushBalanced(cfg, Run(cfg, front), e, LedgerOf(cfg, front, p), p);
      case PopBatch(n) => PopBalanced(cfg, Run(cfg, front), n, LedgerOf(cfg, front, p), p);
      case Acknowledge => AckBalanced(cfg, Run(cfg, front), LedgerOf(cfg, front, p), p);
    }
  }

  lemma {:induction false} DeliveredOfClass(cfg: Config, ops: seq<Op>, p: Priority)
    requires cfg.Valid()
    ensures OfClass(Delivered(cfg, ops), p) == LedgerOf(cfg, ops, p).popped
  {
    if ops != [] {
      var front, eff := ops[..|ops| - 1], LastEffect(cfg, ops);
      DeliveredOfClass(cfg, front, p);
      assert OfClass([], p) == [];
      OfClassConcat(Delivered(cfg, front), if eff.Popped? then eff.batch else [], p);
      PoppedOnlyByPops(cfg, front, ops[|ops| - 1], p);
      assert LedgerOf(cfg, ops, p) == Record(LedgerOf(cfg, front, p), ops[|ops| - 1], eff, p);
      hide OfClass, Step, LedgerOf;
    }
  }

  lemma {:induction false} PoppedOnlyByPops(cfg: Config, front: seq<Op>, op: Op, p: Priority)
    requires cfg.Valid()
    ensures var l, eff := LedgerOf(cfg, front, p), Step(cfg, Run(cfg, front), op).1;
            && Record(l, op, eff, p).popped == l.popped + OfClass(if eff.Popped? then eff.batch else [], p)
            && (eff.Popped? <==> op.PopBatch?)
  {
    hide Run, LedgerOf, Batch, Refresh;
    assert OfClass([], p) == [];
  }

  // ----- what a full buffer does -------------------------------------------------------------

  /**
    The drop order in any reachable state: an eviction takes the oldest event of its class, only when
    the buffer is full and every lower class is empty; P0 is never the victim and P1 only for a P0.
    The overload exception is raised iff a P0 arrives while P0 alone fills the buffer.
   */
  lemma {:induction false} DropOrder(cfg: Config, ops: seq<Op>, e: Event)
    requires cfg.Valid()
    ensures var b := Run(cfg, ops);
            var q, eff := b.queues, Step(cfg, b, Push(e)).1;
            && (eff.OverloadRaised? <==> e.priority == P0 && |q.p0| == cfg.capacity)
            && (eff.Refused? <==> e.priority != P0 && |q.p0| + |q.p1| == cfg.capacity)
            && (eff.Admitted? && eff.evicted.Some? ==>
                  var v := eff.evicted.value;
                  && Size(q) == cfg.capacity
                  && q.At(v.priority) != [] && v == q.At(v.priority)[0]
                  && v.priority != P0
                  && (v.priority == P1 ==> e.priority == P0)
                  && (v.priority != P3 ==> q.p3 == [])
                  && (v.priority == P1 ==> q.p2 == []))
            && (eff == Admitted(None) <==> Size(q) < cfg.capacity)
  {
    RunSound(cfg, ops);
    var q := Run(cfg, ops).queues;
    var v := Victim(q, e.priority);
    if v.Some? {
      assert q.At(v.value)[0] in q.At(v.value);
    }
  }

  predicate Higher(a: Priority, b: Priority) {
    match a
    case P0 => b != P0
    case P1 => b == P2 || b == P3
    case P2 => b == P3
    case P3 => false
  }

  /**
    The eviction loop never looks at the incoming class, so it can displace a more urgent event. It does
    so exactly when a P3 arrives at a full buffer that holds no P3 but some P2.
   */
  lemma {:induction false} PriorityInversion(cfg: Config, ops: seq<Op>, e: Event)
    requires cfg.Valid()
    ensures var b := Run(cfg, ops);
            var q, eff := b.queues, Step(cfg, b, Push(e)).1;
            (eff.Admitted? && eff.evicted.Some? && Higher(eff.evicted.value.priority, e.priority))
            <==> (e.priority == P3 && Size(q) == cfg.capacity && q.p3 == [] && q.p2 != [])
  {
    RunSound(cfg, ops);
    var q := Run(cfg, ops).queues;
    var v := Victim(q, e.priority);
    if v.Some? {
      assert q.At(v.value)[0] in q.At(v.value);
    }
  }

  const TINY := Config(1, 1.0, 1.0, 0.5)

  /** The smallest inversion: in a buffer of one, a low-value ticker displaces an intermediate candle. */
  lemma {:induction false} InversionHappens(mid: Event, low: Event)
    requires mid.priority == P2 && low.priority == P3
    ensures LastEffect(TINY, [Push(mid), Push(low)]) == Admitted(Some(mid))
  {
    var ops := [Push(mid), Push(low)];
    assert ops[..1] == [Push(mid)] && [Push(mid)][..0] == [];
    assert Run(TINY, []) == Empty();
    assert Run(TINY, [Push(mid)]).queues.p2 == [mid];
    hide Run;
  }
}
