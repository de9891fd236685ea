/** The paper engine as an object holding mutable position records. */
module PaperEngine {
  import opened Prelude
  import opened Paper

  class PaperPosition {
    const id: string
    const symbol: string
    const exchange: string
    const entry: EntryPrice
    const stop: real
    const target: real
    const size: real
    const openedAt: int
    var state: State
    // closed_at_ms, exit_price and the two realized results are written together.
    var outcome: Option<Outcome>

    constructor (p: Position)
      ensures View() == p.(state := PositionOpen, outcome := None)
    {
      id, symbol, exchange := p.id, p.symbol, p.exchange;
      entry, stop, target, size, openedAt := p.entry, p.stop, p.target, p.size, p.openedAt;
      state, outcome := PositionOpen, None;
    }

    method Settle(price: real, state: State, now: int)
      modifies this
      ensures View() == CloseAt(old(View()), price, state, now)
    {
      this.state := state;
      outcome := Some(Realized(entry, size, price, now));
    }

    function View(): Position
      reads this
    {
      Position(id, symbol, exchange, entry, stop, target, size, openedAt, state, outcome)
    }
  }

  ghost function Views(ps: seq<PaperPosition>): (vs: seq<Position>)
    reads ps
    ensures |vs| == |ps| && forall i | 0 <= i < |ps| :: vs[i] == ps[i].View()
  {
    seq(|ps|, i requires 0 <= i < |ps| reads ps => ps[i].View())
  }

  ghost predicate DistinctIds(ps: seq<PaperPosition>) {
    forall i, j | 0 <= i < j < |ps| :: ps[i].id != ps[j].id
  }

  ghost predicate Apart(ps: seq<PaperPosition>, qs: seq<PaperPosition>) {
    forall i, j | 0 <= i < |ps| && 0 <= j < |qs| :: ps[i] != qs[j]
  }

  function Stored<T>(s: seq<T>, k: nat, x: T): seq<T>
    requires k <= |s|
  {
    if k < |s| then s[k := x] else s + [x]
  }

  lemma StoredKeepsIds(ps: seq<PaperPosition>, k: nat, p: PaperPosition)
    requires DistinctIds(ps) && k <= |ps| && forall j | 0 <= j < |ps| && j != k :: ps[j].id != p.id
    ensures DistinctIds(Stored(ps, k, p))
  {
  }

  class PaperTradingEngine {
    var open: seq<PaperPosition>
    var closed: seq<PaperPosition>

    ghost predicate Valid()
      reads this, open, closed
    {
      DistinctIds(open) && Apart(open, closed)
    }

    ghost function View(): Book
      reads this, open, closed
    {
      Book(Views(open), Views(closed))
    }

    constructor ()
      ensures Valid() && View() == Book([], []) && open == [] && closed == []
    {
      open, closed := [], [];
    }

    /** The index of an id in the open dictionary, or its size. */
    method IndexOf(id: string) returns (k: nat)
      ensures k == Find(Views(open), id) && k <= |open|
    {
      k := 0;
      ghost var vs := Views(open);
      while k < |open| && open[k].id != id
        invariant k <= |open| && forall j | 0 <= j < k :: vs[j].id != id
      {
        k := k + 1;
      }
      FindIs(vs, id, k);
    }

    method OpenPosition(p: Position) returns (position: PaperPosition)
      requires Valid() && p.state == PositionOpen && p.outcome == None
      modifies this`open
      ensures Valid() && fresh(position) && position.View() == p
      ensures View() == OnOpen(old(View()), p)
      ensures forall x | x in open :: x in old(open) || x == position
    {
      hide Find;
      ghost var before := Views(open);
      position := new PaperPosition(p);
      var k := IndexOf(p.id);
      FindSkips(before, p.id, k);
      assert forall j | 0 <= j < |open| && j != k :: open[j].id == before[j].id != p.id;
      StoredKeepsIds(open, k, position);
      open := Stored(open, k, position);
      assert Put(before, p) == Stored(before, k, p);
      hide DistinctIds, Put;
      assert Views(open) == Stored(before, k, p);
    }

    method SettleOne(position: PaperPosition, ghost k: nat, price: real, state: State, now: int)
      requires Valid() && k < |open| && open[k] == position
      modifies position
      ensures Valid() && position.View() == CloseAt(old(position.View()), price, state, now)
      ensures Views(open) == old(Views(open))[k := position.View()] && Views(closed) == old(Views(closed))
    {
      hide CloseAt;
      position.Settle(price, state, now);
    }

    method Retire(i: nat)
      requires Valid() && i < |open|
      modifies this
      ensures Valid()
      ensures open == old(open)[..i] + old(open)[i + 1..] && closed == old(closed) + [old(open)[i]]
      ensures Views(open) == old(Views(open))[..i] + old(Views(open))[i + 1..]
      ensures Views(closed) == old(Views(closed)) + [old(open)[i].View()]
    {
      var position := open[i];
      open := open[..i] + open[i + 1..];
      closed := closed + [position];
    }

    method Close(position: PaperPosition, ghost k: nat, price: real, state: State, now: int)
      requires Valid() && k < |open| && open[k] == position
      modifies this, position
      ensures Valid()
      ensures position.View() == CloseAt(old(position.View()), price, state, now)
      ensures open == old(open)[..k] + old(open)[k + 1..] && closed == old(closed) + [position]
      ensures Views(open) == old(Views(open))[..k] + old(Views(open))[k + 1..]
      ensures Views(closed) == old(Views(closed)) + [CloseAt(old(position.View()), price, state, now)]
    {
      hide CloseAt, Find, Views;
      SettleOne(position, k, price, state, now);
      var i := IndexOf(position.id);
      SameIndex(i, k);
      hide PaperTradingEngine.Valid;
      Retire(i);
    }

    lemma SameIndex(i: nat, k: nat)
      requires Valid() && k < |open| && i == Find(Views(open), open[k].id)
      ensures i == k
    {
      hide Find;
      assert Views(open)[k].id == open[k].id;
    }

    /** One turn of the loop over the open positions. */
    method CheckOne(position: PaperPosition, ghost k: nat, t: Tick) returns (hit: bool)
      requires Valid() && k < |open| && open[k] == position
      modifies this, position
      ensures Valid() && hit == Hits(old(position.View()), t)
      ensures open == if hit then old(open)[..k] + old(open)[k + 1..] else old(open)
      ensures closed == if hit then old(closed) + [position] else old(closed)
      ensures Views(open) == if hit then old(Views(open))[..k] + old(Views(open))[k + 1..] else old(Views(open))
      ensures Views(closed) == if hit then old(Views(closed)) + [Hit(old(position.View()), t)] else old(Views(closed))
    {
      hide CloseAt, Views, PaperTradingEngine.Valid;
      hit := false;
      if position.symbol != t.symbol || position.exchange != t.exchange {
        return;
      }
      if t.price >= position.target {
        Close(position, k, t.price, TakeProfit, t.now);
        hit := true;
      } else if t.price <= position.stop {
        Close(position, k, t.price, StopLoss, t.now);
        hit := true;
      }
    }

    /** Where the loop stands after `i` positions: `k` of them stayed, and `closedNow` lists the others. */
    ghost predicate Progress(snapshot: seq<PaperPosition>, closedNow: seq<PaperPosition>, before: Book,
                             done: seq<PaperPosition>, k: nat, i: nat, t: Tick)
      reads this, open, closed
    {
      && Valid() && i <= |snapshot| == |before.open|
      && k == |Survivors(before.open[..i], t)| <= |open| && open[k..] == snapshot[i..]
      && Views(open) == Survivors(before.open[..i], t) + before.open[i..]
      && Views(closed) == before.closed + Closings(before.open[..i], t)
      && closed == done + closedNow
      && (forall x | x in open :: x in snapshot)
      && (forall x | x in closedNow :: x in snapshot)
    }

    method Turn(snapshot: seq<PaperPosition>, closed0: seq<PaperPosition>, ghost before: Book,
                ghost done: seq<PaperPosition>, ghost k: nat, i: nat, t: Tick)
      returns (closedNow: seq<PaperPosition>, ghost k': nat)
      requires i < |snapshot| && Progress(snapshot, closed0, before, done, k, i, t)
      modifies this, snapshot[i]
      ensures Progress(snapshot, closedNow, before, done, k', i + 1, t)
    {
      hide Hits, Hit, Survivors, Closings;
      OnePositionMore(before.open, i, t);
      ghost var kept, closings := Survivors(before.open[..i], t), Closings(before.open[..i], t);
      ghost var one := before.open[i];
      DropMiddle(Views(open), kept, before.open[i..], k);
      DropMiddle(open, open[..k], snapshot[i..], k);
      assert open[k].View() == Views(open)[k] == one;
      var hit := CheckOne(snapshot[i], k, t);
      assert before.open[i..][1..] == before.open[i + 1..] && snapshot[i..][1..] == snapshot[i + 1..];
      hide Views;
      if hit {
        closedNow, k' := closed0 + [snapshot[i]], k;
        assert before.closed + (closings + [Hit(one, t)]) == before.closed + closings + [Hit(one, t)];
        assert kept + [] == kept;
      } else {
        closedNow, k' := closed0, k + 1;
        assert closings + [] == closings;
      }
    }

    /** Every open position of the symbol and exchange is checked against one price. */
    method OnPriceUpdate(t: Tick) returns (closedNow: seq<PaperPosition>)
      requires Valid()
      modifies this, open
      ensures Valid()
      ensures View() == OnTick(old(View()), t)
      ensures Views(closedNow) == Closings(old(Views(open)), t)
      ensures forall x | x in open :: x in old(open)
      ensures forall x | x in closedNow :: x in old(open)
    {
      hide Hits, Hit, Survivors, Closings;
      closedNow := [];
      var snapshot := open;
      ghost var before, k, done := View(), 0, closed;
      NoPositions(t);
      for i := 0 to |snapshot|
        invariant Progress(snapshot, closedNow, before, done, k, i, t)
      {
        hide Valid, Progress;
        closedNow, k := Turn(snapshot, closedNow, before, done, k, i, t);
      }
      assert before.open[..|snapshot|] == before.open;
      assert Views(closed)[|done|..] == Views(closedNow);
    }

    /** Closes one position by id whatever the price; unknown ids are ignored. */
    method ForceClose(id: string, price: real, state: State, now: int) returns (position: PaperPosition?)
      requires Valid()
      modifies this, open
      ensures Valid()
      ensures var k := Find(old(Views(open)), id);
              if k < |old(open)| then
                && position == old(open)[k]
                && View() == Book(Without(old(Views(open)), id),
                                  old(Views(closed)) + [CloseAt(old(Views(open))[k], price, state, now)])
              else position == null && View() == old(View())
    {
      var k := IndexOf(id);
      if k == |open| {
        return null;
      }
      hide CloseAt, Find;
      position := open[k];
      hide Views;
      Close(position, k, price, state, now);
    }
  }

  lemma {:induction false} DropMiddle<T>(s: seq<T>, a: seq<T>, b: seq<T>, k: nat)
    requires s == a + b && |a| == k && b != []
    ensures s[k] == b[0]
    ensures s[..k] + s[k + 1..] == a + b[1..] && (s[..k] + s[k + 1..])[k..] == b[1..]
    ensures s == (a + [b[0]]) + b[1..] && s[k + 1..] == b[1..]
  {
  }

  lemma NoPositions(t: Tick)
    ensures Survivors([], t) == [] && Closings([], t) == []
  {
  }

  lemma {:induction false} FindIs(ps: seq<Position>, id: string, k: nat)
    requires k <= |ps| && (forall j | 0 <= j < k :: ps[j].id != id) && (k < |ps| ==> ps[k].id == id)
    ensures Find(ps, id) == k
  {
  }

  lemma {:induction false} FindSkips(ps: seq<Position>, id: string, k: nat)
    requires k == Find(ps, id) && forall i, j | 0 <= i < j < |ps| :: ps[i].id != ps[j].id
    ensures forall j | 0 <= j < |ps| && j != k :: ps[j].id != id
  {
  }
}
