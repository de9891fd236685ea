/** Paper execution: positions, the ticks that close them, and when each one closes. */
module Paper {
  import opened Prelude

  datatype State = PositionOpen | TakeProfit | StopLoss | Invalidated | Expired

  // The result of a position is a fraction of its entry price; the signal engine never enters at zero.
  type EntryPrice = x: real | x != 0.0 witness 1.0

  datatype Outcome = Outcome(closedAt: int, exitPrice: real, pnlUsd: real, pnlFraction: real)

  datatype Position = Position(
    id: string, symbol: string, exchange: string,
    entry: EntryPrice, stop: real, target: real, size: real, openedAt: int,
    state: State, outcome: Option<Outcome>)

  datatype Tick = Tick(symbol: string, exchange: string, price: real, now: int)

  /** `open` is a dictionary by id in insertion order. */
  datatype Book = Book(open: seq<Position>, closed: seq<Position>)

  predicate Matches(p: Position, t: Tick) {
    p.symbol == t.symbol && p.exchange == t.exchange
  }

  predicate Hits(p: Position, t: Tick) {
    Matches(p, t) && (t.price >= p.target || t.price <= p.stop)
  }

  function ExitState(p: Position, price: real): State {
    if price >= p.target then TakeProfit else StopLoss
  }

  /** The result of leaving a position at a price: a fraction of the entry price, and its value in dollars. */
  function Realized(entry: EntryPrice, size: real, price: real, now: int): Outcome
  {
    var fraction := (price - entry) / entry;
    Outcome(now, price, size * fraction, fraction)
  }

  function CloseAt(p: Position, price: real, state: State, now: int): Position
  {
    p.(state := state, outcome := Some(Realized(p.entry, p.size, price, now)))
  }

  function Hit(p: Position, t: Tick): Position
  {
    CloseAt(p, t.price, ExitState(p, t.price), t.now)
  }

  function Survivors(ps: seq<Position>, t: Tick): seq<Position> {
    if ps == [] then []
    else
      var front, p := ps[..|ps| - 1], ps[|ps| - 1];
      Survivors(front, t) + if Hits(p, t) then [] else [p]
  }

  function Closings(ps: seq<Position>, t: Tick): seq<Position>
  {
    if ps == [] then []
    else
      var front, p := ps[..|ps| - 1], ps[|ps| - 1];
      Closings(front, t) + if Hits(p, t) then [Hit(p, t)] else []
  }

  function OnTick(b: Book, t: Tick): Book
  {
    Book(Survivors(b.open, t), b.closed + Closings(b.open, t))
  }

  function Find(ps: seq<Position>, id: string): (k: nat)
    ensures k <= |ps|
    ensures k < |ps| ==> ps[k].id == id
    ensures forall j | 0 <= j < k :: ps[j].id != id
  {
    if ps == [] then 0
    else
      var k := Find(ps[..|ps| - 1], id);
      if k < |ps| - 1 || ps[k].id == id then k else |ps|
  }

  function Put(ps: seq<Position>, p: Position): seq<Position> {
    var k := Find(ps, p.id);
    if k < |ps| then ps[k := p] else ps + [p]
  }

  function Without(ps: seq<Position>, id: string): seq<Position> {
    var k := Find(ps, id);
    if k < |ps| then ps[..k] + ps[k + 1..] else ps
  }

  function OnOpen(b: Book, p: Position): Book {
    b.(open := Put(b.open, p))
  }

  lemma {:induction false} OnePositionMore(ps: seq<Position>, i: nat, t: Tick)
    requires i < |ps|
    ensures Survivors(ps[..i + 1], t) == Survivors(ps[..i], t) + if Hits(ps[i], t) then [] else [ps[i]]
    ensures Closings(ps[..i + 1], t) == Closings(ps[..i], t) + if Hits(ps[i], t) then [Hit(ps[i], t)] else []
  {
    assert ps[..i + 1][..i] == ps[..i];
  }

  // ----- when a position closes -------------------------------------------------------------------

  lemma {:induction false} SurvivorsAre(ps: seq<Position>, t: Tick, p: Position)
    ensures p in Survivors(ps, t) <==> p in ps && !Hits(p, t)
    ensures |Survivors(ps, t)| <= |ps|
  {
    if ps != [] {
      SurvivorsAre(ps[..|ps| - 1], t, p);
      assert ps == ps[..|ps| - 1] + [ps[|ps| - 1]];
    }
  }

  function CountId(ps: seq<Position>, id: string): nat {
    if ps == [] then 0 else CountId(ps[..|ps| - 1], id) + if ps[|ps| - 1].id == id then 1 else 0
  }

  lemma {:induction false} CountConcat(a: seq<Position>, b: seq<Position>, id: string)
    ensures CountId(a + b, id) == CountId(a, id) + CountId(b, id)
  {
    if b == [] {
      assert a + b == a;
    } else {
      CountConcat(a, b[..|b| - 1], id);
      assert (a + b)[..|a + b| - 1] == a + b[..|b| - 1];
    }
  }

  /** A tick moves each position it hits from the open book to the closed list, one for one. */
  lemma {:induction false} TickConserves(ps: seq<Position>, t: Tick, id: string)
    ensures |Survivors(ps, t)| + |Closings(ps, t)| == |ps|
    ensures CountId(Survivors(ps, t), id) + CountId(Closings(ps, t), id) == CountId(ps, id)
  {
    if ps != [] {
      var front, p := ps[..|ps| - 1], ps[|ps| - 1];
      TickConserves(front, t, id);
      CountConcat(Survivors(front, t), [p], id);
      CountOne(p, id);
      if Hits(p, t) {
        CountConcat(Closings(front, t), [Hit(p, t)], id);
        CountOne(Hit(p, t), id);
        assert Survivors(ps, t) == Survivors(front, t);
      } else {
        assert Closings(ps, t) == Closings(front, t);
      }
    }
  }

  lemma {:induction false} CountOne(p: Position, id: string)
    ensures CountId([p], id) == if p.id == id then 1 else 0
  {
  }

  /** A price that was just processed closes nothing more. */
  lemma {:induction false} RepeatedTickClosesNothing(b: Book, t: Tick)
    ensures OnTick(OnTick(b, t), t) == OnTick(b, t)
  {
    QuietTick(b.open, t);
    var once := OnTick(b, t);
    assert once.closed + [] == once.closed;
  }

  lemma {:induction false} QuietTick(ps: seq<Position>, t: Tick)
    ensures Survivors(Survivors(ps, t), t) == Survivors(ps, t)
    ensures Closings(Survivors(ps, t), t) == []
  {
    if ps != [] {
      var front, p := ps[..|ps| - 1], ps[|ps| - 1];
      if Hits(p, t) {
        assert Survivors(ps, t) == Survivors(front, t);
        QuietTick(front, t);
      } else {
        var s := Survivors(front, t);
        assert (s + [p])[..|s|] == s;
        QuietTick(front, t);
      }
    }
  }

  datatype Op = OpenOp(position: Position) | TickOp(tick: Tick)

  function Step(b: Book, op: Op): Book
  {
    match op
    case OpenOp(p) => OnOpen(b, p)
    case TickOp(t) => OnTick(b, t)
  }

  function Run(b: Book, ops: seq<Op>): Book {
    if ops == [] then b else Step(Run(b, ops[..|ops| - 1]), ops[|ops| - 1])
  }

  lemma {:induction false} RunConcat(b: Book, xs: seq<Op>, ys: seq<Op>)
    ensures Run(b, xs + ys) == Run(Run(b, xs), ys)
  {
    if ys == [] {
      assert xs + ys == xs;
    } else {
      RunConcat(b, xs, ys[..|ys| - 1]);
      hide Step;
      assert (xs + ys)[..|xs + ys| - 1] == xs + ys[..|ys| - 1];
    }
  }

  /** The ops after a position was opened do not open another one under its id. */
  ghost predicate IdNotReused(ops: seq<Op>, id: string) {
    forall i | 0 <= i < |ops| && ops[i].OpenOp? :: ops[i].position.id != id
  }

  predicate HitBy(p: Position, op: Op) {
    op.TickOp? && Hits(p, op.tick)
  }

  ghost predicate StillOpen(b: Book, p: Position) {
    p in b.open && CountId(b.open, p.id) == 1 && CountId(b.closed, p.id) == 0
  }

  ghost predicate ClosedAs(b: Book, p: Position) {
    p in b.closed && CountId(b.open, p.id) == 0 && CountId(b.closed, p.id) == 1
  }

  ghost predicate FirstHit(p: Position, ops: seq<Op>, j: nat) {
    j < |ops| && HitBy(p, ops[j]) && forall i | 0 <= i < j :: !HitBy(p, ops[i])
  }

  lemma {:induction false} CountPut(ps: seq<Position>, q: Position, id: string)
    requires q.id != id
    ensures CountId(Put(ps, q), id) == CountId(ps, id)
    ensures forall p: Position | p.id == id :: p in Put(ps, q) <==> p in ps
  {
    var k := Find(ps, q.id);
    if k < |ps| {
      assert ps[k := q] == ps[..k] + [q] + ps[k + 1..] && ps == ps[..k] + [ps[k]] + ps[k + 1..];
      CountConcat(ps[..k] + [q], ps[k + 1..], id);
      CountConcat(ps[..k] + [ps[k]], ps[k + 1..], id);
      CountConcat(ps[..k], [q], id);
      CountConcat(ps[..k], [ps[k]], id);
      CountOne(q, id);
      CountOne(ps[k], id);
    } else {
      CountConcat(ps, [q], id);
      CountOne(q, id);
    }
  }

  lemma {:induction false} ClosingsContain(ps: seq<Position>, t: Tick, p: Position)
    requires p in ps && Hits(p, t)
    ensures Hit(p, t) in Closings(ps, t)
  {
    var front, last := ps[..|ps| - 1], ps[|ps| - 1];
    assert ps == front + [last];
    if p in front {
      ClosingsContain(front, t, p);
    }
  }

  lemma {:induction false} CountMember(ps: seq<Position>, p: Position)
    requires p in ps
    ensures CountId(ps, p.id) >= 1
  {
    var front, last := ps[..|ps| - 1], ps[|ps| - 1];
    assert ps == front + [last];
    if p in front {
      CountMember(front, p);
    }
  }

  /** One position of the list has the id, and no other does. */
  ghost predicate Only(ps: seq<Position>, k: nat, id: string) {
    k < |ps| && ps[k].id == id && forall j | 0 <= j < |ps| && j != k :: ps[j].id != id
  }

  ghost predicate Absent(ps: seq<Position>, id: string) {
    forall j | 0 <= j < |ps| :: ps[j].id != id
  }

  lemma {:induction false} AbsentIsZero(ps: seq<Position>, id: string)
    ensures Absent(ps, id) <==> CountId(ps, id) == 0
  {
    if ps != [] {
      AbsentIsZero(ps[..|ps| - 1], id);
    }
  }

  lemma {:induction false} OnlyIsOne(ps: seq<Position>, p: Position)
    requires p in ps && CountId(ps, p.id) == 1
    ensures exists k: nat | k < |ps| :: ps[k] == p && Only(ps, k, p.id)
  {
    var k: nat :| k < |ps| && ps[k] == p;
    assert ps == ps[..k] + [ps[k]] + ps[k + 1..];
    CountConcat(ps[..k] + [p], ps[k + 1..], p.id);
    CountConcat(ps[..k], [p], p.id);
    CountOne(p, p.id);
    AbsentIsZero(ps[..k], p.id);
    AbsentIsZero(ps[k + 1..], p.id);
    hide CountId;
    forall j | 0 <= j < |ps| && j != k
      ensures ps[j].id != p.id
    {
      assert j < k ==> ps[..k][j] == ps[j];
      assert j > k ==> ps[k + 1..][j - k - 1] == ps[j];
    }
  }

  lemma {:induction false} OpenUntilHit(b: Book, p: Position, ops: seq<Op>)
    requires StillOpen(b, p) && IdNotReused(ops, p.id)
    requires forall i | 0 <= i < |ops| :: !HitBy(p, ops[i])
    ensures StillOpen(Run(b, ops), p)
  {
    if ops != [] {
      var front, op := ops[..|ops| - 1], ops[|ops| - 1];
      OpenUntilHit(b, p, front);
      hide StillOpen, ClosedAs;
      StepWhileOpen(Run(b, front), p, op);
    }
  }

  lemma {:induction false} ClosedAtFirstHit(b: Book, p: Position, ops: seq<Op>, j: nat)
    requires StillOpen(b, p) && IdNotReused(ops, p.id)
    requires FirstHit(p, ops, j)
    ensures ops[j].TickOp? && ClosedAs(Run(b, ops), Hit(p, ops[j].tick))
  {
    var n := |ops| - 1;
    var front := ops[..n];
    if j == n {
      OpenUntilHit(b, p, front);
      hide StillOpen, ClosedAs;
      StepWhileOpen(Run(b, front), p, ops[n]);
    } else {
      ClosedAtFirstHit(b, p, front, j);
      hide StillOpen, ClosedAs;
      StepAfterClose(Run(b, front), Hit(p, ops[j].tick), ops[n]);
    }
  }

  /**
    First crossing: from the moment a position is open, over any sequence of ticks and other openings, it is
    open and unchanged iff no tick of its symbol and exchange reached stop or target; otherwise it is
    closed, once, with the price, state and result of the first tick that did.
   */
  lemma {:induction false} FirstCrossing(b: Book, p: Position, ops: seq<Op>)
    requires StillOpen(b, p) && IdNotReused(ops, p.id)
    ensures StillOpen(Run(b, ops), p) <==> forall i | 0 <= i < |ops| :: !HitBy(p, ops[i])
    ensures !StillOpen(Run(b, ops), p) ==>
              exists j: nat | FirstHit(p, ops, j) ::
                ops[j].TickOp? && ClosedAs(Run(b, ops), Hit(p, ops[j].tick))
  {
    hide Run;
    if i :| 0 <= i < |ops| && HitBy(p, ops[i]) {
      var j := EarliestHit(p, ops, i);
      ClosedAtFirstHit(b, p, ops, j);
    } else {
      OpenUntilHit(b, p, ops);
    }
  }

  lemma {:induction false} EarliestHit(p: Position, ops: seq<Op>, i: nat) returns (j: nat)
    requires i < |ops| && HitBy(p, ops[i])
    ensures j <= i && FirstHit(p, ops, j) && ops[j].TickOp?
  {
    if k :| 0 <= k < i && HitBy(p, ops[k]) {
      j := EarliestHit(p, ops, k);
    } else {
      j := i;
    }
  }

  lemma {:induction false} StepWhileOpen(b: Book, p: Position, op: Op)
    requires StillOpen(b, p) && (op.OpenOp? ==> op.position.id != p.id)
    ensures if HitBy(p, op) then op.TickOp? && ClosedAs(Step(b, op), Hit(p, op.tick)) else StillOpen(Step(b, op), p)
  {
    match op
    case OpenOp(q) => CountPut(b.open, q, p.id);
    case TickOp(t) =>
      TickConserves(b.open, t, p.id);
      SurvivorsAre(b.open, t, p);
      CountConcat(b.closed, Closings(b.open, t), p.id);
      if Hits(p, t) {
        ClosingsContain(b.open, t, p);
        CountMember(Closings(b.open, t), Hit(p, t));
      } else {
        CountMember(Survivors(b.open, t), p);
      }
  }

  lemma {:induction false} StepAfterClose(b: Book, p: Position, op: Op)
    requires ClosedAs(b, p) && (op.OpenOp? ==> op.position.id != p.id)
    ensures ClosedAs(Step(b, op), p)
  {
    match op
    case OpenOp(q) => CountPut(b.open, q, p.id);
    case TickOp(t) =>
      TickConserves(b.open, t, p.id);
      CountConcat(b.closed, Closings(b.open, t), p.id);
  }

  /** Closed by a tick: at its price and time, with what the price moved since the entry, in dollars and as a share. */
  ghost predicate SettledBy(p: Position, q: Position, price: real, now: int) {
    && q.outcome.Some? && q.outcome.value.exitPrice == price && q.outcome.value.closedAt == now
    && q.outcome.value.pnlFraction * p.entry == price - p.entry
    && q.outcome.value.pnlUsd * p.entry == p.size * (price - p.entry)
    && q.state == (if price >= p.target then TakeProfit else StopLoss)
    && q.(state := p.state, outcome := p.outcome) == p
  }

  lemma {:induction false} HitSettles(p: Position, t: Tick)
    ensures SettledBy(p, Hit(p, t), t.price, t.now)
  {
    var fraction := (t.price - p.entry) / p.entry;
    DivMul(t.price - p.entry, p.entry);
    assert p.size * fraction * p.entry == p.size * (fraction * p.entry);
  }

  /** The sign of the result follows the kind of exit. */
  lemma {:induction false} ExitSign(p: Position, t: Tick)
    requires 0.0 < p.entry && p.stop < p.entry < p.target && 0.0 < p.size
    requires p.symbol == t.symbol && p.exchange == t.exchange && (t.price <= p.stop || t.price >= p.target)
    ensures var q := Hit(p, t);
            && SettledBy(p, q, t.price, t.now) && q.outcome.Some?
            && (q.state == TakeProfit <==> q.outcome.value.pnlUsd > 0.0)
            && (q.state == StopLoss <==> q.outcome.value.pnlUsd < 0.0)
  {
    HitSettles(p, t);
  }
}
