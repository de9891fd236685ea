/** The adapter object: creates shards over round-robin buckets and routes subscription changes to them. */
module Adapter {
  import opened Prelude
  import opened ShardModel
  import opened Shard
  import opened AdapterModel

  method Deal(symbols: seq<string>, shardCount: nat) returns (buckets: seq<seq<string>>)
    requires shardCount > 0
    ensures buckets == Buckets(symbols, shardCount)
  {
    hide Buckets;
    buckets := seq(shardCount, _ => []);
    NothingDealt(shardCount);
    for i := 0 to |symbols|
      invariant buckets == Buckets(symbols[..i], shardCount)
    {
      var j := Lane(i, shardCount);
      assert symbols[..i + 1] == symbols[..i] + [symbols[i]];
      BucketsStep(symbols[..i], symbols[i], shardCount);
      BucketCount(symbols[..i], shardCount);
      buckets := buckets[j := buckets[j] + [symbols[i]]];
    }
    assert symbols[..|symbols|] == symbols;
  }

  lemma NothingDealt(k: nat)
    requires k > 0
    ensures Buckets<string>([], k) == seq(k, _ => [])
  {
  }

  lemma BucketCount(symbols: seq<string>, k: nat)
    requires k > 0
    ensures |Buckets(symbols, k)| == k
  {
  }

  method ShardSymbols(symbols: seq<string>, shardCount: nat) returns (buckets: seq<seq<string>>)
    requires shardCount > 0
    ensures buckets == Buckets(symbols, shardCount)[..Min(shardCount, |symbols|)]
  {
    var dealt := Deal(symbols, shardCount);
    buckets := [];
    for i := 0 to |dealt|
      invariant buckets == NonEmpty(dealt[..i])
    {
      assert dealt[..i + 1][..i] == dealt[..i];
      if dealt[i] != [] {
        buckets := buckets + [dealt[i]];
      }
    }
    assert dealt[..|dealt|] == dealt;
    EmptyBucketsAreLast(symbols, shardCount, shardCount);
    hide NonEmpty, Dealt;
  }

  function Members(bucket: seq<string>): set<string> {
    set x | x in bucket
  }

  class BinanceAdapter {
    const maxStreams: int
    const maxConnections: int
    const streamTypes: seq<string>
    var shards: seq<BinanceShard>

    ghost predicate Valid()
      reads this, shards
    {
      && (forall i, j | 0 <= i < j < |shards| :: shards[i] != shards[j])
      && (forall i | 0 <= i < |shards| ::
            shards[i].Valid() && shards[i].streamTypes == streamTypes)
    }

    /** What each shard owns. */
    ghost function Owners(): Loads
      reads this, shards
    {
      seq(|shards|, i requires 0 <= i < |shards| reads this, shards => shards[i].symbols)
    }

    /** How many symbols one connection takes, at least one; another would not fit into its streams. */
    ghost function Capacity(): (cap: nat)
      ensures cap >= 1
      ensures cap > 1 ==> cap * Max(1, |streamTypes|) <= maxStreams
      ensures (cap + 1) * Max(1, |streamTypes|) > maxStreams
    {
      Max(1, maxStreams / Max(1, |streamTypes|))
    }

    constructor (maxStreams: int, maxConnections: int, streamTypes: seq<string>)
      ensures Valid() && shards == []
      ensures this.maxStreams == maxStreams && this.maxConnections == maxConnections && this.streamTypes == streamTypes
    {
      this.maxStreams, this.maxConnections, this.streamTypes := maxStreams, maxConnections, streamTypes;
      shards := [];
    }

    method Start(symbols: seq<string>)
      requires Valid() && shards == []
      modifies this
      ensures Valid() && (forall s | s in shards :: fresh(s))
      ensures var k := ShardCount(|symbols|, |streamTypes|, maxStreams, maxConnections);
              && |shards| == Min(k, |symbols|)
              && forall j | 0 <= j < |shards| :: shards[j].View() == Started(Members(Buckets(symbols, k)[j]))
    {
      var needed := ShardCount(|symbols|, |streamTypes|, maxStreams, maxConnections);
      var buckets := ShardSymbols(symbols, needed);
      hide Buckets, ShardCount, Members;
      for i := 0 to |buckets|
        invariant Valid() && |shards| == i && (forall s | s in shards :: fresh(s))
        invariant forall j | 0 <= j < i :: shards[j].View() == Started(Members(buckets[j]))
      {
        var shard := new BinanceShard(streamTypes);
        shard.Start(Members(buckets[i]));
        shards := shards + [shard];
      }
    }

    method FindLeastLoaded(cap: nat) returns (best: int)
      requires Valid()
      ensures best == match LeastLoaded(Owners(), cap) case None => -1 case Some(i) => i
    {
      best := -1;
      ghost var loads := Owners();
      hide LeastLoaded;
      NoneOf(cap);
      for i := 0 to |shards|
        invariant -1 <= best < i
        invariant best == match LeastLoaded(loads[..i], cap) case None => -1 case Some(b) => b
      {
        assert loads[i] == shards[i].symbols;
        assert best >= 0 ==> loads[..i][best] == shards[best].symbols;
        assert loads[..i + 1] == loads[..i] + [shards[i].symbols];
        OneMore(loads[..i], shards[i].symbols, cap);
        if |shards[i].symbols| < cap && (best < 0 || |shards[i].symbols| < |shards[best].symbols|) {
          best := i;
        }
      }
      assert loads[..|shards|] == loads;
    }

    /** One request to one shard; the others are not touched. */
    method UpdateShard(i: nat, add: set<string>, remove: set<string>)
      requires Valid() && i < |shards|
      modifies shards[i]
      ensures Valid() && shards[i].View() == Step(old(shards[i].View()), Update(add, remove), streamTypes)
      ensures Owners() == old(Owners())[i := old(Owners())[i] + (add - old(Owners())[i]) - (remove * old(Owners())[i])]
    {
      hide Params;
      var shard := shards[i];
      shard.UpdateSubscriptions(add, remove);
      assert shard.symbols == shard.View().symbols;
    }

    /** Removals go to whichever shard owns the symbol; a shard that owns none of them is left alone. */
    method RouteRemovals(gone: set<string>)
      requires Valid()
      modifies shards
      ensures Valid() && Owners() == RemoveAll(old(Owners()), gone)
      ensures forall i | 0 <= i < |shards| && old(Owners())[i] !! gone :: unchanged(shards[i])
    {
      hide Params, Step;
      ghost var before := Owners();
      for i := 0 to |shards|
        invariant Valid()
        invariant forall j | 0 <= j < |shards| :: shards[j].symbols == if j < i then before[j] - gone else before[j]
        invariant forall j | 0 <= j < |shards| && (j >= i || before[j] !! gone) :: unchanged(shards[j])
      {
        var owned := shards[i].symbols * gone;
        assert before[i] - gone == shards[i].symbols - owned;
        if owned != {} {
          RemoveFrom(i, owned);
        }
      }
      assert Owners() == RemoveAll(before, gone);
    }

    method RemoveFrom(i: nat, owned: set<string>)
      requires Valid() && i < |shards|
      modifies shards[i]
      ensures Valid() && shards[i].symbols == old(shards[i].symbols) - owned
    {
      hide Params;
      ghost var before := Owners();
      UpdateShard(i, {}, owned);
      assert Owners()[i] == before[i] - owned;
    }

    method AddTo(i: nat, symbol: string)
      requires Valid() && i < |shards|
      modifies shards[i]
      ensures Valid() && Owners() == old(Owners())[i := old(Owners())[i] + {symbol}]
    {
      hide Step;
      ghost var load := Owners()[i];
      UpdateShard(i, {symbol}, {});
      assert load + ({symbol} - load) - ({} * load) == load + {symbol};
    }

    method PlaceSymbol(symbol: string, cap: nat)
      requires Valid() && cap == Capacity()
      modifies shards
      ensures Valid() && Owners() == Place(old(Owners()), symbol, cap)
      ensures forall i | 0 <= i < |shards| && LeastLoaded(old(Owners()), cap) != Some(i) :: unchanged(shards[i])
    {
      hide Step, LeastLoaded;
      ghost var loads := Owners();
      var target := FindLeastLoaded(cap);
      if target >= 0 {
        AddTo(target, symbol);
      }
    }

    /** Places a set of symbols one by one, in whatever order the set is traversed. */
    method PlaceEach(symbols: set<string>, cap: nat) returns (ghost order: seq<string>)
      requires Valid() && cap == Capacity()
      modifies shards
      ensures Valid() && Distinct(order) && Members(order) == symbols
      ensures Owners() == PlaceAll(old(Owners()), order, cap)
    {
      hide Place;
      ghost var loads := Owners();
      var rest := symbols;
      order := [];
      while rest != {}
        invariant Valid() && rest <= symbols
        invariant Distinct(order) && Members(order) == symbols - rest
        invariant Owners() == PlaceAll(loads, order, cap)
        decreases rest
      {
        var symbol :| symbol in rest;
        PlaceSymbol(symbol, cap);
        hide BinanceAdapter.Valid, BinanceAdapter.Owners;
        Appended(order, symbol);
        PlacedLast(loads, order, symbol, cap);
        order := order + [symbol];
        rest := rest - {symbol};
      }
    }

    /**
      Removals first, then the additions in the traversal order of a set, each to the least-loaded shard that
      still has room.
     */
    method UpdateSubscriptions(add: seq<string>, remove: seq<string>) returns (ghost order: seq<string>)
      requires Valid()
      modifies shards
      ensures Valid()
      ensures Distinct(order) && Members(order) == Members(add)
      ensures Owners() == PlaceAll(RemoveAll(old(Owners()), Members(remove)), order, Capacity())
    {
      RouteRemovals(Members(remove));
      var cap := Max(1, maxStreams / Max(1, |streamTypes|));
      order := PlaceEach(Members(add), cap);
    }
  }

  lemma Appended(order: seq<string>, symbol: string)
    requires Distinct(order) && symbol !in Members(order)
    ensures Distinct(order + [symbol]) && Members(order + [symbol]) == Members(order) + {symbol}
  {
  }

  lemma PlacedLast(loads: Loads, order: seq<string>, symbol: string, cap: nat)
    ensures PlaceAll(loads, order + [symbol], cap) == Place(PlaceAll(loads, order, cap), symbol, cap)
  {
  }

  lemma NoneOf(cap: nat)
    ensures LeastLoaded([], cap) == None
  {
  }

  lemma OneMore(loads: Loads, load: set<string>, cap: nat)
    ensures var best := LeastLoaded(loads, cap);
            LeastLoaded(loads + [load], cap) ==
              if |load| < cap && (best.None? || |load| < |loads[best.value]|) then Some(|loads|) else best
  {
  }
}
