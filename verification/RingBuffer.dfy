/** The lossy priority buffer as the mutable object it is; one method call is one critical section of its lock. */
module RingBuffer {
  import opened Prelude
  import opened Events
  import opened RingBufferModel

  /** True, False and the BufferOverloadError exception. */
  datatype PushResult = Accepted | Dropped | BufferOverloadError

  const EVICTION_ORDER: seq<Priority> := [P3, P2]
  const SERVICE_ORDER: seq<Priority> := [P0, P1, P2, P3]

  class PriorityRingBuffer {
    const cfg: Config
    var queues: map<Priority, seq<Event>>
    var status: Status
    var droppedTotal: nat
    var droppedByPriority: map<Priority, nat>
    var overflows: nat

    ghost predicate Valid()
      reads this
    {
      && cfg.Valid()
      && (forall p: Priority :: p in queues)
      && (forall p: Priority :: p in droppedByPriority)
    }

    ghost function Queued(): Queues
      requires Valid()
      reads this
    {
      PerClass(queues[P0], queues[P1], queues[P2], queues[P3])
    }

    ghost function Counters(): Counts
      requires Valid()
      reads this
    {
      PerClass(droppedByPriority[P0], droppedByPriority[P1], droppedByPriority[P2], droppedByPriority[P3])
    }

    ghost function View(): Buffer
      requires Valid()
      reads this
    {
      Buffer(Queued(), status, droppedTotal, Counters(), overflows)
    }

    constructor (cfg: Config)
      requires cfg.Valid()
      ensures Valid() && this.cfg == cfg && View() == Empty()
    {
      this.cfg := cfg;
      queues := map[P0 := [], P1 := [], P2 := [], P3 := []];
      droppedByPriority := map[P0 := 0, P1 := 0, P2 := 0, P3 := 0];
      status, droppedTotal, overflows := Normal, 0, 0;
      new;
      forall p: Priority
        ensures p in queues && p in droppedByPriority
      {
        match p case P0 => case P1 => case P2 => case P3 =>
      }
    }

    method CurrentSize() returns (n: nat)
      requires Valid()
      ensures n == Size(Queued())
    {
      n := |queues[P0]| + |queues[P1]| + |queues[P2]| + |queues[P3]|;
    }

    method Append(e: Event)
      requires Valid()
      modifies this`queues
      ensures Valid()
      ensures View() == old(View()).(queues := old(Queued()).With(e.priority, old(Queued()).At(e.priority) + [e]))
    {
      queues := queues[e.priority := queues[e.priority] + [e]];
    }

    method CountOneDrop(p: Priority)
      requires Valid()
      modifies this`droppedTotal, this`droppedByPriority
      ensures Valid() && View() == CountDrop(old(View()), p)
    {
      droppedTotal := droppedTotal + 1;
      droppedByPriority := droppedByPriority[p := droppedByPriority[p] + 1];
    }

    method UpdateState()
      requires Valid()
      modifies this`status
      ensures Valid() && View() == old(View()).(status := Refresh(cfg, old(status), old(Queued())))
    {
      var size := CurrentSize();
      var utilization := size as real / cfg.capacity as real;
      if status == DataOverload {
        return;
      }
      if utilization >= cfg.overload {
        status := Lossy;
      } else if utilization >= cfg.high {
        status := Lossy;
      } else if utilization <= cfg.recovery {
        status := Normal;
      }
    }

    method PopLeft(p: Priority) returns (e: Event)
      requires Valid() && Queued().At(p) != []
      modifies this`queues
      ensures Valid() && e == old(Queued()).At(p)[0]
      ensures View() == old(View()).(queues := old(Queued()).With(p, old(Queued()).At(p)[1..]))
    {
      assert queues[p] == Queued().At(p);
      e := queues[p][0];
      queues := queues[p := queues[p][1..]];
    }

    method DropLowerPriority(incoming: Priority) returns (freed: bool, ghost gone: Option<Event>)
      requires Valid()
      modifies this`queues, this`droppedTotal, this`droppedByPriority
      ensures Valid()
      ensures var v := Victim(old(Queued()), incoming);
              && freed == v.Some?
              && (v.None? ==> gone == None && View() == old(View()))
              && (v.Some? ==>
                    && old(Queued()).At(v.value) != []
                    && gone == Some(old(Queued()).At(v.value)[0])
                    && View() == CountDrop(old(View()), v.value)
                                 .(queues := old(Queued()).With(v.value, old(Queued()).At(v.value)[1..])))
    {
      for i := 0 to |EVICTION_ORDER|
        invariant Valid() && View() == old(View())
        invariant forall j :: 0 <= j < i ==> Queued().At(EVICTION_ORDER[j]) == []
      {
        var p := EVICTION_ORDER[i];
        assert queues[p] == Queued().At(p);
        if queues[p] != [] {
          assert i == 1 ==> Queued().At(EVICTION_ORDER[0]) == [];
          var e := PopLeft(p);
          CountOneDrop(p);
          return true, Some(e);
        }
      }
      assert Queued().At(EVICTION_ORDER[0]) == [] && Queued().At(EVICTION_ORDER[1]) == [];
      if incoming == P0 && queues[P1] != [] {
        var e := PopLeft(P1);
        CountOneDrop(P1);
        return true, Some(e);
      }
      return false, None;
    }

    method Push(e: Event) returns (r: PushResult, ghost gone: Option<Event>)
      requires Valid()
      modifies this
      ensures Valid()
      ensures var (b, eff) := Step(cfg, old(View()), RingBufferModel.Push(e));
              && View() == b
              && eff == (match r
                         case Accepted => Admitted(gone)
                         case Dropped => Refused
                         case BufferOverloadError => OverloadRaised)
    {
      gone := None;
      var currentSize := CurrentSize();
      if currentSize < cfg.capacity {
        Append(e);
        UpdateState();
        return Accepted, None;
      }
      var freed;
      freed, gone := DropLowerPriority(e.priority);
      if freed {
        Append(e);
        UpdateState();
        return Accepted, gone;
      }
      if e.priority == P0 {
        overflows := overflows + 1;
        status := DataOverload;
        return BufferOverloadError, None;
      }
      CountOneDrop(e.priority);
      UpdateState();
      return Dropped, None;
    }

    /** The inner loop of the drain: serve one class until it is empty or the batch is full. */
    method ServeClass(p: Priority, batch: seq<Event>, maxItems: int) returns (out: seq<Event>)
      requires Valid()
      modifies this`queues
      ensures Valid()
      ensures var k := Clip(maxItems - |batch|, |old(Queued()).At(p)|);
              && out == batch + old(Queued()).At(p)[..k]
              && View() == old(View()).(queues := old(Queued()).With(p, old(Queued()).At(p)[k..]))
    {
      out := batch;
      ghost var s := Queued().At(p);
      ghost var k := 0;
      while queues[p] != [] && |out| < maxItems
        invariant Valid() && k <= |s|
        invariant out == batch + s[..k]
        invariant View() == old(View()).(queues := old(Queued()).With(p, s[k..]))
        invariant k == 0 || |out| <= maxItems
        decreases |s| - k
      {
        assert queues[p] == Queued().At(p) == s[k..];
        var e := PopLeft(p);
        out := out + [e];
        assert s[..k] + [s[k]] == s[..k + 1];
        assert s[k..][1..] == s[k + 1..];
        k := k + 1;
      }
      assert queues[p] == Queued().At(p) == s[k..];
    }

    /** One turn of the outer loop of the drain: serve class `i` after the more urgent ones. */
    method ServeNext(i: nat, batch: seq<Event>, maxItems: int, ghost q: Queues) returns (out: seq<Event>)
      requires Valid() && i < 4
      requires Queued() == Served(q, maxItems, i) && batch == BatchOf(q, maxItems, i)
      requires |batch| == Clip(maxItems, Above(q, SERVICE_ORDER[i]))
      modifies this`queues
      ensures Valid() && Queued() == Served(q, maxItems, i + 1) && out == BatchOf(q, maxItems, i + 1)
      ensures i < 3 ==> |out| == Clip(maxItems, Above(q, SERVICE_ORDER[i + 1]))
    {
      hide Rest, Take, Clip, Above, Served, BatchOf, PerClass.With, PerClass.At;
      ServeOne(q, maxItems, i);
      out := ServeClass(SERVICE_ORDER[i], batch, maxItems);
    }

    /** The outer loop of the drain, most urgent class first. */
    method ServeAll(maxItems: int) returns (out: seq<Event>)
      requires Valid()
      modifies this`queues
      ensures Valid() && out == Batch(old(Queued()), maxItems)
      ensures View() == old(View()).(queues := Rest(old(Queued()), maxItems))
    {
      out := [];
      ghost var q := Queued();
      hide Rest, Batch, Take, Clip, Above, Served, BatchOf;
      ServedNone(q, maxItems);
      for i := 0 to |SERVICE_ORDER|
        invariant Valid()
        invariant Queued() == Served(q, maxItems, i) && out == BatchOf(q, maxItems, i)
        invariant i < 4 ==> |out| == Clip(maxItems, Above(q, SERVICE_ORDER[i]))
      {
        out := ServeNext(i, out, maxItems, q);
      }
      ServedAll(q, maxItems);
    }

    method PopBatch(maxItems: int) returns (out: seq<Event>)
      requires Valid()
      modifies this
      ensures Valid()
      ensures Step(cfg, old(View()), RingBufferModel.PopBatch(maxItems)) == (View(), Popped(out))
    {
      hide Rest, Batch, Refresh;
      out := ServeAll(maxItems);
      UpdateState();
    }

    method AcknowledgeRecovery()
      requires Valid()
      modifies this`status
      ensures Valid() && View() == Step(cfg, old(View()), Acknowledge).0
    {
      var size := CurrentSize();
      if size as real / cfg.capacity as real <= cfg.recovery {
        status := Normal;
      }
    }
  }

  /** The batch after `i` classes were served. */
  ghost function BatchOf(q: Queues, n: int, i: nat): seq<Event>
    requires i <= 4
  {
    if i == 0 then [] else var p := SERVICE_ORDER[i - 1]; BatchOf(q, n, i - 1) + q.At(p)[..Take(q, n, p)]
  }

  /** The queues after `i` classes were served. */
  ghost function Served(q: Queues, n: int, i: nat): Queues
    requires i <= 4
  {
    var r := Rest(q, n);
    PerClass(if i > 0 then r.p0 else q.p0, if i > 1 then r.p1 else q.p1,
             if i > 2 then r.p2 else q.p2, if i > 3 then r.p3 else q.p3)
  }

  lemma {:induction false} ServedNone(q: Queues, n: int)
    ensures Served(q, n, 0) == q && BatchOf(q, n, 0) == [] && Clip(n, Above(q, SERVICE_ORDER[0])) == 0
  {
  }

  lemma {:induction false} BatchGrows(q: Queues, n: int, i: nat)
    requires i < 4
    ensures BatchOf(q, n, i + 1) == BatchOf(q, n, i) + q.At(SERVICE_ORDER[i])[..Take(q, n, SERVICE_ORDER[i])]
  {
  }

  lemma {:induction false} ServedGrows(q: Queues, n: int, i: nat)
    requires i < 4
    ensures var p := SERVICE_ORDER[i];
            && Served(q, n, i).At(p) == q.At(p)
            && Served(q, n, i + 1) == Served(q, n, i).With(p, q.At(p)[Take(q, n, p)..])
  {
  }

  lemma {:induction false} TakeAfter(q: Queues, n: int, i: nat)
    requires i < 4
    ensures var p := SERVICE_ORDER[i];
            && Take(q, n, p) == Clip(n - Clip(n, Above(q, p)), |q.At(p)|)
            && (i < 3 ==> Clip(n, Above(q, p)) + Take(q, n, p) == Clip(n, Above(q, SERVICE_ORDER[i + 1])))
  {
  }

  /** Serving class `i` from where the previous classes left the batch. */
  lemma {:induction false} ServeOne(q: Queues, n: int, i: nat)
    requires i < 4
    ensures var p := SERVICE_ORDER[i];
            var batch, before := BatchOf(q, n, i), Served(q, n, i);
            |batch| == Clip(n, Above(q, p)) ==>
              var k := Clip(n - |batch|, |before.At(p)|);
              && k <= |before.At(p)|
              && BatchOf(q, n, i + 1) == batch + before.At(p)[..k]
              && Served(q, n, i + 1) == before.With(p, before.At(p)[k..])
              && (i < 3 ==> |BatchOf(q, n, i + 1)| == Clip(n, Above(q, SERVICE_ORDER[i + 1])))
  {
    BatchGrows(q, n, i);
    ServedGrows(q, n, i);
    TakeAfter(q, n, i);
    hide Rest, Take, Clip, Above, Served, BatchOf, PerClass.With, PerClass.At;
  }

  lemma {:induction false} ServedAll(q: Queues, n: int)
    ensures Served(q, n, 4) == Rest(q, n) && BatchOf(q, n, 4) == Batch(q, n)
  {
    assert BatchOf(q, n, 1) == q.p0[..Take(q, n, P0)];
    assert BatchOf(q, n, 2) == BatchOf(q, n, 1) + q.p1[..Take(q, n, P1)];
    assert BatchOf(q, n, 3) == BatchOf(q, n, 2) + q.p2[..Take(q, n, P2)];
  }
}
