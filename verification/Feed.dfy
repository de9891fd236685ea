/** From the buffer through the store to the features: what the consumer sees of the candle history. */
module Feed {
  import opened Prelude
  import opened Events
  import opened RingBufferModel
  import opened FeatureStore
  import opened FeatureEngine

  /** Everything offered to the buffer, accepted or not. */
  function Offered(ops: seq<Op>): seq<Event> {
    if ops == [] then []
    else
      var op := ops[|ops| - 1];
      Offered(ops[..|ops| - 1]) + if op.Push? then [op.event] else []
  }

  /** All offered events carry the class the normalizer assigns. */
  ghost predicate NormalizedRun(ops: seq<Op>) {
    forall i | 0 <= i < |ops| && ops[i].Push? :: Normalized(ops[i].event)
  }

  ghost predicate AllNormalized(es: seq<Event>) {
    forall i | 0 <= i < |es| :: Normalized(es[i])
  }

  lemma {:induction false} OfferedNormalized(ops: seq<Op>)
    requires NormalizedRun(ops)
    ensures AllNormalized(Offered(ops))
  {
    if ops != [] {
      OfferedNormalized(ops[..|ops| - 1]);
    }
  }

  lemma {:induction false} OfferedOfClass(cfg: Config, ops: seq<Op>, p: Priority)
    requires cfg.Valid()
    ensures LedgerOf(cfg, ops, p).pushed == OfClass(Offered(ops), p)
  {
    if ops != [] {
      var front, op := ops[..|ops| - 1], ops[|ops| - 1];
      OfferedOfClass(cfg, front, p);
      if op.Push? {
        OneEvent(op.event, p);
        OfClassConcat(Offered(front), [op.event], p);
      } else {
        assert Offered(ops) == Offered(front);
      }
      hide OfClass, Step;
    }
  }

  lemma {:induction false} OfClassMembers(es: seq<Event>, e: Event)
    ensures e in es <==> e in OfClass(es, e.priority)
  {
    if es != [] {
      OfClassMembers(es[..|es| - 1], e);
      assert es == es[..|es| - 1] + [es[|es| - 1]];
    }
  }

  /** Nothing reaches the consumer that was not offered. */
  lemma {:induction false} DeliveredWasOffered(cfg: Config, ops: seq<Op>, e: Event)
    requires cfg.Valid() && e in Delivered(cfg, ops)
    ensures e in Offered(ops)
  {
    var p := e.priority;
    var l := LedgerOf(cfg, ops, p);
    OfClassMembers(Delivered(cfg, ops), e);
    DeliveredOfClass(cfg, ops, p);
    OfferedOfClass(cfg, ops, p);
    Accounting(cfg, ops, p);
    hide Delivered, Offered, OfClass, LedgerOf, Run, Sound, InOrder, Counted;
    assert e in multiset(l.popped);
    assert e in multiset(l.removed);
    AcceptedContainsRemoved(cfg, ops, p, e);
    assert e in multiset(l.pushed);
    OfClassMembers(Offered(ops), e);
  }

  lemma {:induction false} AcceptedContainsRemoved(cfg: Config, ops: seq<Op>, p: Priority, e: Event)
    requires cfg.Valid() && e in multiset(LedgerOf(cfg, ops, p).removed)
    ensures e in multiset(LedgerOf(cfg, ops, p).accepted)
  {
    Accounting(cfg, ops, p);
    hide LedgerOf, Run, Sound, Counted, Partitioned;
    var l := LedgerOf(cfg, ops, p);
    assert e in l.removed;
    assert e in l.removed + Run(cfg, ops).queues.At(p);
  }

  ghost predicate CandlesAddUp(l: Ledger, key: Key) {
    && |ClosedOf(l.pushed, key)| == |ClosedOf(l.accepted, key)| + |ClosedOf(l.overflowed, key)|
    && (ClosedOf(l.overflowed, key) == [] ==> ClosedOf(l.pushed, key) == ClosedOf(l.accepted, key))
  }

  lemma {:induction false} ArrivalAddsUp(l: Ledger, e: seq<Event>, eff: Effect, key: Key)
    requires CandlesAddUp(l, key) && (eff.Admitted? || eff.OverloadRaised? || (eff.Refused? && e == []))
    ensures CandlesAddUp(Arrive(l, e, eff), key)
  {
    hide ClosedOf;
    ClosedOfConcat(l.pushed, e, key);
    ClosedOfConcat(l.accepted, e, key);
    ClosedOfConcat(l.overflowed, e, key);
    assert l.accepted + [] == l.accepted && l.overflowed + [] == l.overflowed && l.pushed + [] == l.pushed;
  }

  /** Closed candles offered, accepted and turned away by the overload exception add up. */
  lemma {:induction false} OverflowAccounts(cfg: Config, ops: seq<Op>, key: Key)
    requires cfg.Valid()
    ensures CandlesAddUp(LedgerOf(cfg, ops, P0), key)
  {
    if ops != [] {
      var front, op := ops[..|ops| - 1], ops[|ops| - 1];
      OverflowAccounts(cfg, front, key);
      if op.Push? {
        RunSound(cfg, front);
        PushMovesOne(cfg, Run(cfg, front), op.event, P0);
        hide Step, Run, Sound, ClosedOf, OfClass;
        ArrivalAddsUp(LedgerOf(cfg, front, P0), One(op.event, P0), LastEffect(cfg, ops), key);
      }
    }
  }

  /**
    In every run, whatever the batch sizes and the evictions below P0: the closed candles of a key that
    were accepted are, in order, those delivered followed by those still queued as P0; and the
    same holds of all the candles offered iff none of that key met the overload exception.
   */
  lemma {:induction false} NoClosedKlineLost(cfg: Config, ops: seq<Op>, key: Key)
    requires cfg.Valid() && NormalizedRun(ops)
    ensures var l, b := LedgerOf(cfg, ops, P0), Run(cfg, ops);
            var kept := ClosedOf(Delivered(cfg, ops), key) + ClosedOf(b.queues.p0, key);
            && ClosedOf(l.accepted, key) == kept
            && (ClosedOf(Offered(ops), key) == kept <==> ClosedOf(l.overflowed, key) == [])
            && (b.overflows == 0 ==> ClosedOf(l.overflowed, key) == [])
  {
    var l, b, out := LedgerOf(cfg, ops, P0), Run(cfg, ops), Delivered(cfg, ops);
    Accounting(cfg, ops, P0);
    OfferedNormalized(ops);
    forall e | e in out
      ensures Normalized(e)
    {
      DeliveredWasOffered(cfg, ops, e);
    }
    ClosedKlinesAreP0(out, key);
    ClosedKlinesAreP0(Offered(ops), key);
    DeliveredOfClass(cfg, ops, P0);
    OfferedOfClass(cfg, ops, P0);
    OverflowAccounts(cfg, ops, key);
    hide Delivered, Offered, OfClass, LedgerOf, Run, Sound, Partitioned, ClosedOf;
    ClosedOfConcat(l.removed, b.queues.p0, key);
    EmptyHasNone(l.overflowed, key);
  }

  lemma {:induction false} EmptyHasNone(es: seq<Event>, key: Key)
    ensures es == [] ==> ClosedOf(es, key) == []
  {
  }

  // ----- buffer and store in one run ------------------------------------------------------------

  /** The buffer and the store it is drained into. */
  datatype System = System(buffer: Buffer, store: StoreView)

  function SystemStep(cfg: Config, s: System, op: Op, window: nat): System
    requires cfg.Valid()
  {
    var (b, eff) := Step(cfg, s.buffer, op);
    System(b, if eff.Popped? then IngestedAll(s.store, eff.batch, window) else s.store)
  }

  function SystemRun(cfg: Config, ops: seq<Op>, window: nat): System
    requires cfg.Valid()
  {
    if ops == [] then System(Empty(), map[])
    else SystemStep(cfg, SystemRun(cfg, ops[..|ops| - 1], window), ops[|ops| - 1], window)
  }

  /** However the run is cut into batches, the store holds what one ingestion of all delivered events makes of them. */
  lemma {:induction false} SystemIsFeed(cfg: Config, ops: seq<Op>, window: nat)
    requires cfg.Valid()
    ensures SystemRun(cfg, ops, window) == System(Run(cfg, ops), IngestedAll(map[], Delivered(cfg, ops), window))
  {
    if ops != [] {
      var front, eff := ops[..|ops| - 1], LastEffect(cfg, ops);
      SystemIsFeed(cfg, front, window);
      var before := Delivered(cfg, front);
      hide Step, IngestedAll;
      if eff.Popped? {
        IngestedConcat(map[], before, eff.batch, window);
      } else {
        assert before + [] == before;
      }
    }
  }

  /** The candle window the store holds for `key`; empty for a symbol it does not know. */
  function Window(v: StoreView, key: Key): seq<Kline> {
    if key in v then v[key].klines else []
  }

  /**
    End to end: at any moment the window of a key is the last `w` closed candles of that key among
    everything accepted so far, short of those still waiting in the P0 queue.
   */
  lemma {:induction false} WindowIsHistory(cfg: Config, ops: seq<Op>, key: Key, w: nat)
    requires cfg.Valid() && NormalizedRun(ops)
    ensures var window := Window(SystemRun(cfg, ops, w).store, key);
            var accepted := ClosedOf(LedgerOf(cfg, ops, P0).accepted, key);
            var waiting := ClosedOf(Run(cfg, ops).queues.p0, key);
            && |waiting| <= |accepted|
            && window == Last(accepted[..|accepted| - |waiting|], w)
            && accepted[|accepted| - |waiting|..] == waiting
  {
    SystemIsFeed(cfg, ops, w);
    NoClosedKlineLost(cfg, ops, key);
    StoreIsHistory(Delivered(cfg, ops), key, w);
    hide SystemRun, Delivered, LedgerOf, Run, IngestedAll, ClosedOf, Mentions, IsNewest;
  }

  /**
    So once no candle of the key is waiting, and none met the overload exception, every feature read from
    the bounded window is the feature of the complete candle history offered to the buffer.
   */
  lemma {:induction false} FeaturesSeeFullHistory(
      cfg: Config, ops: seq<Op>, key: Key, w: nat, p: Periods, price: real, multiplier: real)
    requires cfg.Valid() && NormalizedRun(ops) && p.Valid() && w >= p.Reach()
    requires ClosedOf(Run(cfg, ops).queues.p0, key) == []
    requires ClosedOf(LedgerOf(cfg, ops, P0).overflowed, key) == []
    ensures Read(Window(SystemRun(cfg, ops, w).store, key), p, price, multiplier)
            == Read(ClosedOf(Offered(ops), key), p, price, multiplier)
  {
    hide Read, SystemRun, Delivered, LedgerOf, Run, ClosedOf, Window, Last, Offered;
    NoClosedKlineLost(cfg, ops, key);
    WindowIsHistory(cfg, ops, key, w);
    var history := ClosedOf(Offered(ops), key);
    assert history[..|history|] == history;
    WindowSuffices(history, w, p, price, multiplier);
  }

  lemma {:induction false} DefaultWindowSuffices()
    ensures DEFAULT_PERIODS.Valid() && DEFAULT_PERIODS.Reach() == 23 <= DEFAULT_KLINE_WINDOW == 60
  {
  }

  /**
    Nothing of a class was missed by the consumer iff its drop counter is zero and nothing of it is queued; for P0, iff
    besides no overflow was ever raised.
   */
  lemma {:induction false} DeliveredInFull(cfg: Config, ops: seq<Op>, p: Priority)
    requires cfg.Valid()
    ensures var b := Run(cfg, ops);
            OfClass(Delivered(cfg, ops), p) == OfClass(Offered(ops), p)
            <==> b.dropped.At(p) == 0 && b.queues.At(p) == [] && (p == P0 ==> b.overflows == 0)
  {
    var b, l := Run(cfg, ops), LedgerOf(cfg, ops, p);
    DeliveredOfClass(cfg, ops, p);
    OfferedOfClass(cfg, ops, p);
    Accounting(cfg, ops, p);
    hide Delivered, Offered, OfClass, LedgerOf, Run, Sound;
    Lengths(l);
  }

  lemma {:induction false} Lengths(l: Ledger)
    requires Partitioned(l)
    ensures |l.removed| == |l.popped| + |l.evicted| && |l.pushed| == |l.accepted| + |l.refused| + |l.overflowed|
  {
    assert |multiset(l.removed)| == |multiset(l.popped)| + |multiset(l.evicted)|;
    assert |multiset(l.pushed)| == |multiset(l.accepted)| + |multiset(l.refused)| + |multiset(l.overflowed)|;
  }

  /** How often `e` was offered and neither evicted, refused, turned away by the overload exception, nor is queued. */
  ghost function Passed(cfg: Config, ops: seq<Op>, e: Event): int
    requires cfg.Valid()
  {
    var l, queue := LedgerOf(cfg, ops, e.priority), Run(cfg, ops).queues.At(e.priority);
    (multiset(l.pushed)[e] as int)
    - multiset(l.evicted)[e] - multiset(l.refused)[e] - multiset(l.overflowed)[e] - multiset(queue)[e]
  }

  lemma {:induction false} OfClassCounts(es: seq<Event>, e: Event)
    ensures multiset(OfClass(es, e.priority))[e] == multiset(es)[e]
  {
    if es != [] {
      OfClassCounts(es[..|es| - 1], e);
      assert es == es[..|es| - 1] + [es[|es| - 1]];
    }
  }

  /** The exact fate of one event: it reaches the consumer as often as it passed. */
  lemma {:induction false} DeliveredAsOftenAsPassed(cfg: Config, ops: seq<Op>, e: Event)
    requires cfg.Valid()
    ensures multiset(Delivered(cfg, ops))[e] == Passed(cfg, ops, e)
  {
    var p := e.priority;
    var l, queue := LedgerOf(cfg, ops, p), Run(cfg, ops).queues.At(p);
    OfClassCounts(Delivered(cfg, ops), e);
    DeliveredOfClass(cfg, ops, p);
    Accounting(cfg, ops, p);
    hide Delivered, OfClass, LedgerOf, Run, Sound, Counted;
    assert multiset(l.accepted) == multiset(l.removed) + multiset(queue);
  }

  lemma {:induction false} OfferedConcat(a: seq<Op>, b: seq<Op>)
    ensures Offered(a + b) == Offered(a) + Offered(b)
  {
    if b == [] {
      assert a + b == a;
    } else {
      OfferedConcat(a, b[..|b| - 1]);
      assert (a + b)[..|a + b| - 1] == a + b[..|b| - 1];
    }
  }

  /** Nothing is ever struck from the books. */
  lemma {:induction false} LedgerGrows(cfg: Config, a: seq<Op>, b: seq<Op>, p: Priority)
    requires cfg.Valid()
    ensures var l, l' := LedgerOf(cfg, a, p), LedgerOf(cfg, a + b, p);
            l.evicted <= l'.evicted && l.refused <= l'.refused
  {
    if b == [] {
      assert a + b == a;
    } else {
      LedgerGrows(cfg, a, b[..|b| - 1], p);
      assert (a + b)[..|a + b| - 1] == a + b[..|b| - 1];
      hide Step, OfClass, LastEffect;
    }
  }

  /** By the counters: when nothing of a class was dropped during `b` and none of it waits, all of it passed. */
  lemma {:induction false} PassedByCounters(cfg: Config, a: seq<Op>, b: seq<Op>, e: Event)
    requires cfg.Valid() && e.priority != P0
    requires var s, s', p := Run(cfg, a), Run(cfg, a + b), e.priority;
             s'.dropped.At(p) == s.dropped.At(p) && s'.queues.At(p) == []
    ensures Passed(cfg, a + b, e)
            == Passed(cfg, a, e) + multiset(Offered(b))[e] + multiset(Run(cfg, a).queues.At(e.priority))[e]
  {
    var p := e.priority;
    var l, l' := LedgerOf(cfg, a, p), LedgerOf(cfg, a + b, p);
    LedgerGrows(cfg, a, b, p);
    Accounting(cfg, a, p);
    Accounting(cfg, a + b, p);
    OfferedOfClass(cfg, a, p);
    OfferedOfClass(cfg, a + b, p);
    OfferedConcat(a, b);
    OfClassCounts(Offered(a), e);
    OfClassCounts(Offered(a + b), e);
    hide Offered, OfClass, LedgerOf, Run, Sound, InOrder, Partitioned;
    assert l'.evicted == l.evicted && l'.refused == l.refused;
    assert multiset(Offered(a) + Offered(b)) == multiset(Offered(a)) + multiset(Offered(b));
  }

  const FLAT := Kline(1.0, 1.0, 1.0, 1.0, 1.0, 1.0, 0.0, 0, true)
  const CANDLE := Event(Binance, "S", P0, KlineData(FLAT))

  /** A closed candle can be lost to a buffer that is full of them: the sink answers the exception with False. */
  lemma {:induction false} CandleCanBeLost()
    ensures var ops := [Push(CANDLE), Push(CANDLE)];
            && NormalizedRun(ops)
            && LastEffect(TINY, ops) == OverloadRaised
            && |ClosedOf(Offered(ops), CANDLE.Key())| == 2
            && |ClosedOf(LedgerOf(TINY, ops, P0).accepted, CANDLE.Key())| == 1
  {
    var op := Push(CANDLE);
    var r1, r2 := [op], [op, op];
    assert r1[..0] == [] && r2[..1] == r1;
    assert Run(TINY, []) == Empty() && [] + [CANDLE] == [CANDLE];
    assert Run(TINY, r1).queues == PerClass([CANDLE], [], [], []);
    hide Run, Refresh;
    assert Offered([]) == [] && Offered(r1) == [CANDLE];
    assert Offered(r2) == [CANDLE] + [CANDLE];
    ClosedOfConcat([CANDLE], [CANDLE], CANDLE.Key());
    assert [CANDLE][..0] == [];
    assert ClosedOf([CANDLE], CANDLE.Key()) == [FLAT];
    assert LastEffect(TINY, r2) == OverloadRaised;
    assert LastEffect(TINY, r1) == Admitted(None);
    assert LedgerOf(TINY, r1, P0).accepted == [CANDLE];
    assert LedgerOf(TINY, r2, P0).accepted == [CANDLE];
  }
}
