/** Rolling per-symbol market state: a bounded window of closed candles and the latest snapshots. */
module FeatureStore {
  import opened Prelude
  import opened Events

  const DEFAULT_KLINE_WINDOW: nat := 60

  /** What a reader sees of one symbol. */
  datatype Snapshot = Snapshot(klines: seq<Kline>, ticker: Option<Event>, bookTicker: Option<Event>, oi: Option<Event>)

  type StoreView = map<Key, Snapshot>

  predicate Tracked(p: Payload) {
    p.KlineData? || p.MarketTicker? || p.BookTicker? || p.OpenInterest?
  }

  function Absorb(s: Snapshot, e: Event, window: nat): Snapshot {
    match e.payload
    case KlineData(k) => if k.isClosed then s.(klines := Last(s.klines + [k], window)) else s
    case MarketTicker(_, _) => s.(ticker := Some(e))
    case BookTicker(_, _) => s.(bookTicker := Some(e))
    case OpenInterest(_) => s.(oi := Some(e))
    case _ => s
  }

  const FRESH := Snapshot([], None, None, None)

  function Ingested(v: StoreView, e: Event, window: nat): StoreView {
    if Tracked(e.payload) then
      v[e.Key() := Absorb(if e.Key() in v then v[e.Key()] else FRESH, e, window)]
    else v
  }

  function IngestedAll(v: StoreView, es: seq<Event>, window: nat): StoreView {
    if es == [] then v else Ingested(IngestedAll(v, es[..|es| - 1], window), es[|es| - 1], window)
  }

  /** Ingesting in two portions is ingesting in one. */
  lemma {:induction false} IngestedConcat(v: StoreView, a: seq<Event>, b: seq<Event>, window: nat)
    ensures IngestedAll(v, a + b, window) == IngestedAll(IngestedAll(v, a, window), b, window)
  {
    if b == [] {
      assert a + b == a;
    } else {
      IngestedConcat(v, a, b[..|b| - 1], window);
      assert (a + b)[..|a + b| - 1] == a + b[..|b| - 1];
    }
  }

  // ----- the store as a function of the whole event history ----------------------------------

  datatype Feed = TickerFeed | BookFeed | OiFeed

  predicate Carries(e: Event, f: Feed) {
    match f
    case TickerFeed => e.payload.MarketTicker?
    case BookFeed => e.payload.BookTicker?
    case OiFeed => e.payload.OpenInterest?
  }

  function Latest(s: Snapshot, f: Feed): Option<Event> {
    match f
    case TickerFeed => s.ticker
    case BookFeed => s.bookTicker
    case OiFeed => s.oi
  }

  /** `e` is the newest event of its kind for `key`. */
  ghost predicate IsNewest(es: seq<Event>, key: Key, f: Feed, r: Option<Event>) {
    match r
    case None => forall i | 0 <= i < |es| :: !(es[i].Key() == key && Carries(es[i], f))
    case Some(e) =>
      exists i | 0 <= i < |es| ::
        && es[i] == e && e.Key() == key && Carries(e, f)
        && forall j | i < j < |es| :: !(es[j].Key() == key && Carries(es[j], f))
  }

  ghost predicate Mentions(es: seq<Event>, key: Key) {
    exists i | 0 <= i < |es| :: es[i].Key() == key && Tracked(es[i].payload)
  }

  ghost predicate TellsHistory(v: StoreView, es: seq<Event>, key: Key, window: nat) {
    var s := if key in v then v[key] else FRESH;
    && (key in v <==> Mentions(es, key))
    && s.klines == Last(ClosedOf(es, key), window)
    && (forall f: Feed :: IsNewest(es, key, f, Latest(s, f)))
    && (key !in v ==> ClosedOf(es, key) == [])
  }

  /**
    After any sequence of events, a symbol is known iff some candle, ticker, book or open-interest
    event named it, and then its window is the last `window` closed candles of that key and each
    snapshot is the newest event of its kind.
   */
  lemma {:induction false} StoreIsHistory(es: seq<Event>, key: Key, window: nat)
    ensures TellsHistory(IngestedAll(map[], es, window), es, key, window)
  {
    if es != [] {
      var front, e := es[..|es| - 1], es[|es| - 1];
      var before := IngestedAll(map[], front, window);
      StoreIsHistory(front, key, window);
      IngestStep(before, front, e, key, window);
      assert es == front + [e];
    }
  }

  lemma {:induction false} IngestStep(v: StoreView, front: seq<Event>, e: Event, key: Key, window: nat)
    requires TellsHistory(v, front, key, window)
    ensures TellsHistory(Ingested(v, e, window), front + [e], key, window)
  {
    MentionsStep(front, e, key);
    SnapshotStep(front, e, key, window, if key in v then v[key] else FRESH);
    if e.Key() != key || !Tracked(e.payload) {
      assert (front + [e])[..|front|] == front;
      assert ClosedOf(front + [e], key) == ClosedOf(front, key);
    }
    hide IsNewest, Mentions, Last, ClosedOf;
  }

  lemma {:induction false} KlinesStep(front: seq<Event>, e: Event, key: Key, window: nat, s: Snapshot)
    requires s.klines == Last(ClosedOf(front, key), window)
    ensures var s' := if e.Key() == key then Absorb(s, e, window) else s;
            s'.klines == Last(ClosedOf(front + [e], key), window)
  {
    assert (front + [e])[..|front|] == front;
    hide Last;
    if e.Key() == key && e.IsClosedKline() {
      LastAppend(ClosedOf(front, key), e.payload.kline, window);
    } else {
      assert ClosedOf(front + [e], key) == ClosedOf(front, key);
    }
  }

  lemma {:induction false} SnapshotStep(front: seq<Event>, e: Event, key: Key, window: nat, s: Snapshot)
    requires s.klines == Last(ClosedOf(front, key), window)
    requires forall f: Feed :: IsNewest(front, key, f, Latest(s, f))
    ensures var es, s' := front + [e], if e.Key() == key then Absorb(s, e, window) else s;
            && s'.klines == Last(ClosedOf(es, key), window)
            && forall f: Feed :: IsNewest(es, key, f, Latest(s', f))
  {
    var es, s' := front + [e], if e.Key() == key then Absorb(s, e, window) else s;
    KlinesStep(front, e, key, window, s);
    hide IsNewest, ClosedOf, Last;
    forall f: Feed
      ensures IsNewest(es, key, f, Latest(s', f))
    {
      NewestStep(front, e, key, f, Latest(s, f));
    }
  }

  lemma {:induction false} MentionsStep(front: seq<Event>, e: Event, key: Key)
    ensures Mentions(front + [e], key) <==> Mentions(front, key) || (e.Key() == key && Tracked(e.payload))
  {
    var es := front + [e];
    if Mentions(front, key) {
      var i :| 0 <= i < |front| && front[i].Key() == key && Tracked(front[i].payload);
      assert es[i] == front[i];
    }
    if e.Key() == key && Tracked(e.payload) {
      assert es[|front|] == e;
    }
  }

  lemma {:induction false} NewestStep(front: seq<Event>, e: Event, key: Key, f: Feed, r: Option<Event>)
    requires IsNewest(front, key, f, r)
    ensures IsNewest(front + [e], key, f, if e.Key() == key && Carries(e, f) then Some(e) else r)
  {
    var es := front + [e];
    if e.Key() == key && Carries(e, f) {
      assert es[|front|] == e;
    } else if r.Some? {
      var i :| 0 <= i < |front| && front[i] == r.value && r.value.Key() == key && Carries(r.value, f)
        && forall j | i < j < |front| :: !(front[j].Key() == key && Carries(front[j], f));
      assert es[i] == r.value;
    }
  }

  // ----- the mutable store ---------------------------------------------------------------------

  class SymbolFeatureState {
    const exchange: Exchange
    const symbol: string
    const window: nat
    var closedKlines: seq<Kline>
    var latestTicker: Option<Event>
    var latestBookTicker: Option<Event>
    var latestOi: Option<Event>

    constructor (exchange: Exchange, symbol: string, window: nat)
      ensures this.exchange == exchange && this.symbol == symbol && this.window == window
      ensures View() == FRESH
    {
      this.exchange, this.symbol, this.window := exchange, symbol, window;
      closedKlines, latestTicker, latestBookTicker, latestOi := [], None, None, None;
    }

    function View(): Snapshot
      reads this
    {
      Snapshot(closedKlines, latestTicker, latestBookTicker, latestOi)
    }

    /** A deque of bounded length forgets its oldest candle when a new one does not fit. */
    method AppendKline(k: Kline)
      modifies this`closedKlines
      ensures View() == old(View()).(klines := Last(old(closedKlines) + [k], window))
    {
      closedKlines := closedKlines + [k];
      if |closedKlines| > window {
        closedKlines := closedKlines[|closedKlines| - window..];
      }
    }

    method Update(e: Event)
      requires Tracked(e.payload)
      modifies this
      ensures View() == Absorb(old(View()), e, window)
    {
      match e.payload {
        case KlineData(k) =>
          if k.isClosed {
            AppendKline(k);
          }
        case MarketTicker(_, _) => latestTicker := Some(e);
        case BookTicker(_, _) => latestBookTicker := Some(e);
        case OpenInterest(_) => latestOi := Some(e);
      }
    }
  }

  class FeatureStore {
    const window: nat
    var states: map<Key, SymbolFeatureState>

    ghost predicate Valid()
      reads this, states.Values
    {
      && (forall k | k in states :: states[k].window == window && states[k].exchange == k.0 && states[k].symbol == k.1)
      && (forall j, k | j in states && k in states && j != k :: states[j] != states[k])
    }

    ghost function View(): StoreView
      reads this, states.Values
    {
      map k | k in states :: states[k].View()
    }

    constructor (window: nat)
      ensures Valid() && this.window == window && View() == map[] && states == map[]
    {
      this.window := window;
      states := map[];
    }

    method GetOrCreate(key: Key) returns (s: SymbolFeatureState)
      requires Valid()
      modifies this
      ensures Valid() && key in states && states[key] == s
      ensures key in old(states) ==> states == old(states)
      ensures key !in old(states) ==> fresh(s) && states == old(states)[key := s]
      ensures View() == if key in old(View()) then old(View()) else old(View())[key := FRESH]
    {
      if key in states {
        s := states[key];
      } else {
        s := new SymbolFeatureState(key.0, key.1, window);
        ghost var known := View();
        assert known == old(View());
        states := states[key := s];
        assert View() == known[key := s.View()];
      }
    }

    method UpdateState(s: SymbolFeatureState, e: Event)
      requires Valid() && e.Key() in states && states[e.Key()] == s && Tracked(e.payload)
      modifies s
      ensures Valid() && View() == old(View())[e.Key() := Absorb(old(View())[e.Key()], e, window)]
    {
      hide Absorb;
      s.Update(e);
    }

    method Ingest(e: Event)
      requires Valid()
      modifies this, states.Values
      ensures Valid()
      ensures View() == Ingested(old(View()), e, window)
      ensures fresh(states.Values - old(states.Values))
    {
      hide Absorb;
      if Tracked(e.payload) {
        var s := GetOrCreate(e.Key());
        UpdateState(s, e);
      }
    }

    method Get(key: Key) returns (s: SymbolFeatureState?)
      requires Valid()
      ensures if key in states then s == states[key] && s.View() == View()[key] else s == null
    {
      s := if key in states then states[key] else null;
    }
  }
}
