/** How an adapter spreads symbols over connections, as functions of the symbol sets the shards own. */
module AdapterModel {
  import opened Prelude

  // ----- initial sharding -----------------------------------------------------------------------

  /** math.ceil(a / b) */
  function CeilDiv(a: nat, b: nat): (q: nat)
    requires b > 0
    ensures q * b >= a
    ensures q > 0 ==> (q - 1) * b < a
  {
    (a + b - 1) / b
  }

  lemma {:induction false} CeilDivIsLeast(a: nat, b: nat, k: nat)
    requires b > 0
    ensures k * b >= a <==> k >= CeilDiv(a, b)
  {
    var q := CeilDiv(a, b);
    if k < q {
      MulMono(k, q - 1, b);
    } else {
      MulMono(q, k, b);
    }
  }

  lemma {:induction false} MulMono(x: int, y: int, b: nat)
    requires x <= y
    ensures x * b <= y * b
  {
  }

  function ShardCount(symbols: nat, types: nat, maxStreams: int, maxConnections: int): nat {
    var needed := Max(1, CeilDiv(symbols * types, Max(1, maxStreams)));
    if maxConnections > 0 then Min(needed, maxConnections) else needed
  }

  /** The connection that position `i` is dealt to, and the place it takes there. */
  function Lane(i: nat, k: nat): (j: nat)
    requires k > 0
    ensures j < k
  {
    i % k
  }

  function Turn(i: nat, k: nat): nat
    requires k > 0
  {
    i / k
  }

  /** The symbols dealt to connection `j` of `k`, in order. */
  function Dealt<T>(symbols: seq<T>, k: nat, j: nat): seq<T>
    requires k > 0
  {
    if symbols == [] then []
    else
      var n := |symbols| - 1;
      Dealt(symbols[..n], k, j) + if Lane(n, k) == j then [symbols[n]] else []
  }

  function Buckets<T>(symbols: seq<T>, k: nat): seq<seq<T>>
    requires k > 0
  {
    seq(k, j requires 0 <= j < k => Dealt(symbols, k, j))
  }

  /** The bucket list after empty buckets were dropped. */
  function NonEmpty<T(==)>(buckets: seq<seq<T>>): seq<seq<T>> {
    if buckets == [] then []
    else
      var front, b := buckets[..|buckets| - 1], buckets[|buckets| - 1];
      NonEmpty(front) + if b != [] then [b] else []
  }

  /** Dealing one more symbol touches one bucket. */
  lemma {:induction false} BucketsStep<T>(front: seq<T>, symbol: T, k: nat)
    requires k > 0
    ensures var j, before := Lane(|front|, k), Buckets(front, k);
            Buckets(front + [symbol], k) == before[j := before[j] + [symbol]]
  {
    hide Lane;
    var j, before, after := Lane(|front|, k), Buckets(front, k), Buckets(front + [symbol], k);
    assert (front + [symbol])[..|front|] == front;
    forall i | 0 <= i < k
      ensures after[i] == before[j := before[j] + [symbol]][i]
    {
    }
  }

  /** How many of the first `n` positions fall to connection `j`. */
  function Share(n: nat, k: nat, j: nat): nat
    requires j < k
  {
    (n + k - 1 - j) / k
  }

  lemma {:induction false} MulNext(q: int, k: int)
    ensures (q + 1) * k == q * k + k
  {
  }

  lemma {:induction false} DivModLaw(a: nat, k: nat)
    requires k > 0
    ensures a == a / k * k + a % k && a % k < k
  {
  }

  /** Quotient and remainder are unique. */
  lemma {:induction false} DivModIs(a: nat, k: nat, q: nat, r: nat)
    requires r < k && a == q * k + r
    ensures a / k == q && a % k == r
  {
    DivModLaw(a, k);
    QuotientUnique(a / k, a % k, q, r, k);
  }

  lemma {:induction false} QuotientUnique(d: nat, m: nat, q: nat, r: nat, k: nat)
    requires d * k + m == q * k + r && m < k && r < k
    ensures d == q && m == r
  {
    if d < q {
      MulMono(d + 1, q, k);
      MulNext(d, k);
    } else if d > q {
      MulMono(q + 1, d, k);
      MulNext(q, k);
    }
  }

  lemma {:induction false} ShareIs(n: nat, k: nat, j: nat)
    requires j < k
    ensures Share(n, k, j) == Turn(n, k) + if j < Lane(n, k) then 1 else 0
  {
    var q, r := n / k, n % k;
    DivModLaw(n, k);
    MulNext(q, k);
    if j < r {
      DivModIs(n + k - 1 - j, k, q + 1, r - 1 - j);
    } else {
      DivModIs(n + k - 1 - j, k, q, r + k - 1 - j);
    }
  }

  lemma {:induction false} NextLane(n: nat, k: nat)
    requires k > 0
    ensures Lane(n + 1, k) == if Lane(n, k) + 1 < k then Lane(n, k) + 1 else 0
    ensures Turn(n + 1, k) == if Lane(n, k) + 1 < k then Turn(n, k) else Turn(n, k) + 1
  {
    var q, r := n / k, n % k;
    DivModLaw(n, k);
    MulNext(q, k);
    if r + 1 < k {
      DivModIs(n + 1, k, q, r + 1);
    } else {
      DivModIs(n + 1, k, q + 1, 0);
    }
  }

  lemma {:induction false} ShareStep(n: nat, k: nat, j: nat)
    requires j < k
    ensures Share(n + 1, k, j) == Share(n, k, j) + if Lane(n, k) == j then 1 else 0
    ensures Lane(n, k) == j ==> Share(n, k, j) == Turn(n, k)
  {
    hide Share, Lane, Turn;
    ShareIs(n, k, j);
    ShareIs(n + 1, k, j);
    NextLane(n, k);
  }

  /**
    Round robin is a partition: symbol `i` sits at place i / k of bucket i mod k, and the bucket
    lengths leave room for nothing else.
   */
  lemma {:induction false} DealtIsPartition<T>(symbols: seq<T>, k: nat, j: nat)
    requires j < k
    ensures |Dealt(symbols, k, j)| == Share(|symbols|, k, j)
    ensures forall i | 0 <= i < |symbols| && Lane(i, k) == j ::
              Turn(i, k) < |Dealt(symbols, k, j)| && Dealt(symbols, k, j)[Turn(i, k)] == symbols[i]
  {
    if symbols == [] {
      DivModIs(k - 1 - j, k, 0, k - 1 - j);
    } else {
      var n := |symbols| - 1;
      DealtIsPartition(symbols[..n], k, j);
      ShareStep(n, k, j);
      hide Lane, Turn, Share;
      forall i | 0 <= i < n && Lane(i, k) == j
        ensures Turn(i, k) < |Dealt(symbols, k, j)| && Dealt(symbols, k, j)[Turn(i, k)] == symbols[i]
      {
        assert symbols[..n][i] == symbols[i];
      }
    }
  }

  lemma {:induction false} CeilDivIs(n: nat, k: nat)
    requires k > 0
    ensures CeilDiv(n, k) == n / k + if n % k > 0 then 1 else 0
  {
    ShareIs(n, k, 0);
  }

  lemma {:induction false} ZeroShare(n: nat, k: nat, j: nat, q: nat, r: nat)
    requires j < k && n == q * k + r && r < k
    ensures q + (if j < r then 1 else 0) == 0 <==> n <= j
  {
  }

  lemma {:induction false} ShareBounds(n: nat, k: nat, j: nat)
    requires j < k
    ensures n / k <= Share(n, k, j) <= CeilDiv(n, k) <= n / k + 1
    ensures Share(n, k, j) == 0 <==> n <= j
    ensures Share(n, k, 0) == CeilDiv(n, k)
  {
    ShareIs(n, k, j);
    ShareIs(n, k, 0);
    CeilDivIs(n, k);
    hide Share, CeilDiv;
    ZeroShare(n, k, j, n / k, n % k);
  }

  /** Bucket sizes differ by at most one, and the fullest one is the first. */
  lemma {:induction false} BucketsAreBalanced<T>(symbols: seq<T>, k: nat, i: nat, j: nat)
    requires i < k && j < k
    ensures var b := Buckets(symbols, k);
            && |b[i]| <= |b[j]| + 1
            && |b[i]| <= |b[0]| == CeilDiv(|symbols|, k)
  {
    DealtIsPartition(symbols, k, i);
    DealtIsPartition(symbols, k, j);
    DealtIsPartition(symbols, k, 0);
    ShareBounds(|symbols|, k, i);
    ShareBounds(|symbols|, k, j);
  }

  /** Dropping empty buckets drops exactly those beyond the number of symbols. */
  lemma {:induction false} EmptyBucketsAreLast<T>(symbols: seq<T>, k: nat, m: nat)
    requires 0 < k && m <= k
    ensures NonEmpty(Buckets(symbols, k)[..m]) == Buckets(symbols, k)[..Min(m, |symbols|)]
  {
    var b := Buckets(symbols, k);
    if m > 0 {
      EmptyBucketsAreLast(symbols, k, m - 1);
      DealtIsPartition(symbols, k, m - 1);
      ShareBounds(|symbols|, k, m - 1);
      assert b[..m][..m - 1] == b[..m - 1];
    }
  }

  /**
    Initial sharding: never more than the allowed connections; and when that cap does not bind, no
    connection carries more than types * ceil(M / types) streams, which is M when types divides M.
   */
  lemma {:induction false} ShardsFitTheirConnection<T>(symbols: seq<T>, types: nat, maxStreams: int,
      maxConnections: int, j: nat)
    requires types > 0
    requires j < ShardCount(|symbols|, types, maxStreams, maxConnections)
    ensures var k, limit := ShardCount(|symbols|, types, maxStreams, maxConnections), Max(1, maxStreams);
            var load := |Buckets(symbols, k)[j]| * types;
            && (maxConnections > 0 ==> k <= maxConnections)
            && (k * limit >= |symbols| * types ==> load <= types * CeilDiv(limit, types))
            && (k * limit >= |symbols| * types && limit % types == 0 ==> load <= limit)
            && (maxConnections <= 0 || k < maxConnections ==> k * limit >= |symbols| * types)
            && (k > 1 ==> (k - 1) * limit < |symbols| * types)
  {
    var n, k, limit := |symbols|, ShardCount(|symbols|, types, maxStreams, maxConnections), Max(1, maxStreams);
    BucketsAreBalanced(symbols, k, j, j);
    UncappedSuffices(n, types, limit);
    FewerWouldNotDo(n, types, limit, k);
    if k * limit >= n * types {
      SharesFit(n, k, types, limit);
      MulMono(|Buckets(symbols, k)[j]|, CeilDiv(n, k), types);
      if limit % types == 0 {
        ExactCeil(limit, types);
      }
    }
    hide CeilDiv, Buckets;
  }

  lemma {:induction false} UncappedSuffices(n: nat, types: nat, limit: nat)
    requires limit > 0
    ensures Max(1, CeilDiv(n * types, limit)) * limit >= n * types
  {
  }

  lemma {:induction false} FewerWouldNotDo(n: nat, types: nat, limit: nat, k: nat)
    requires limit > 0 && k <= Max(1, CeilDiv(n * types, limit))
    ensures k > 1 ==> (k - 1) * limit < n * types
  {
  }

  lemma {:induction false} SharesFit(n: nat, k: nat, types: nat, limit: nat)
    requires types > 0 && k > 0 && k * limit >= n * types
    ensures CeilDiv(n, k) * types <= types * CeilDiv(limit, types)
  {
    var c := CeilDiv(limit, types);
    hide CeilDiv;
    MulMono(limit, c * types, k);
    Reorder(c, types, k);
    CancelFactor(n, c * k, types);
    CeilDivIsLeast(n, k, c);
    MulMono(CeilDiv(n, k), c, types);
  }

  lemma {:induction false} Reorder(c: nat, types: nat, k: nat)
    ensures c * types * k == (c * k) * types
  {
  }

  lemma {:induction false} ExactCeil(a: nat, b: nat)
    requires b > 0 && a % b == 0
    ensures b * CeilDiv(a, b) == a
  {
    DivModLaw(a, b);
    DivModIs(a + b - 1, b, a / b, b - 1);
  }

  lemma {:induction false} CancelFactor(x: int, y: int, b: nat)
    requires b > 0 && x * b <= y * b
    ensures x <= y
  {
    if y < x {
      MulMono(y + 1, x, b);
    }
  }

  // ----- incremental placement --------------------------------------------------------------------

  type Loads = seq<set<string>>

  /** The first shard with the fewest symbols among those with room. */
  function LeastLoaded(loads: Loads, cap: nat): (r: Option<nat>)
    ensures r.None? <==> forall j | 0 <= j < |loads| :: |loads[j]| >= cap
    ensures r.Some? ==>
              && r.value < |loads|
              && |loads[r.value]| < cap
              && (forall j | 0 <= j < |loads| :: |loads[r.value]| <= |loads[j]|)
              && (forall j | 0 <= j < r.value :: |loads[r.value]| < |loads[j]|)
  {
    if loads == [] then None
    else
      var n := |loads| - 1;
      var best := LeastLoaded(loads[..n], cap);
      if |loads[n]| < cap && (best.None? || |loads[n]| < |loads[best.value]|) then Some(n) else best
  }

  function Place(loads: Loads, symbol: string, cap: nat): Loads {
    match LeastLoaded(loads, cap)
    case None => loads
    case Some(i) => loads[i := loads[i] + {symbol}]
  }

  function PlaceAll(loads: Loads, order: seq<string>, cap: nat): Loads {
    if order == [] then loads
    else Place(PlaceAll(loads, order[..|order| - 1], cap), order[|order| - 1], cap)
  }

  function RemoveAll(loads: Loads, gone: set<string>): Loads {
    seq(|loads|, i requires 0 <= i < |loads| => loads[i] - gone)
  }

  function Owned(loads: Loads): set<string> {
    set i, x | 0 <= i < |loads| && x in loads[i] :: x
  }

  ghost predicate Disjoint(loads: Loads) {
    forall i, j | 0 <= i < j < |loads| :: loads[i] !! loads[j]
  }

  ghost predicate SpreadAtMost(loads: Loads, d: nat) {
    forall i, j | 0 <= i < |loads| && 0 <= j < |loads| :: |loads[i]| <= |loads[j]| + d
  }

  function Free(load: set<string>, cap: nat): nat {
    Max(0, cap - |load|)
  }

  function FreeSlots(loads: Loads, cap: nat): nat {
    if loads == [] then 0 else FreeSlots(loads[..|loads| - 1], cap) + Free(loads[|loads| - 1], cap)
  }

  ghost predicate Distinct(order: seq<string>) {
    forall i, j | 0 <= i < j < |order| :: order[i] != order[j]
  }

  lemma {:induction false} FreeSlotsUpdate(loads: Loads, cap: nat, i: nat, load: set<string>)
    requires i < |loads|
    ensures FreeSlots(loads[i := load], cap) == FreeSlots(loads, cap) - Free(loads[i], cap) + Free(load, cap)
  {
    var n := |loads| - 1;
    if i < n {
      FreeSlotsUpdate(loads[..n], cap, i, load);
      assert loads[i := load][..n] == loads[..n][i := load];
    } else {
      assert loads[i := load][..n] == loads[..n];
    }
  }

  lemma {:induction false} FullMeansNoSlots(loads: Loads, cap: nat)
    ensures FreeSlots(loads, cap) == 0 <==> LeastLoaded(loads, cap).None?
  {
    if loads != [] {
      FullMeansNoSlots(loads[..|loads| - 1], cap);
    }
  }

  /** Placing a symbol keeps ownership disjoint exactly if no shard other than its target has it already. */
  lemma {:induction false} DisjointNeedsUnowned(loads: Loads, symbol: string, cap: nat)
    requires Disjoint(loads)
    ensures var target := LeastLoaded(loads, cap);
            Disjoint(Place(loads, symbol, cap)) <==>
              target.None? || forall j | 0 <= j < |loads| && j != target.value :: symbol !in loads[j]
  {
    var target := LeastLoaded(loads, cap);
    if target.Some? {
      var i, after := target.value, Place(loads, symbol, cap);
      assert symbol in after[i];
      if j :| 0 <= j < |loads| && j != i && symbol in loads[j] {
        assert symbol in after[j];
        assert !(after[i] !! after[j]);
      }
    }
  }

  /** Two shards as dealt at start, and an added symbol that one of them owns: afterwards both own it. */
  lemma {:induction false} OwnedTwice(cap: nat)
    requires cap >= 2
    ensures var loads := Sets(Buckets(["A", "B"], 2));
            && Disjoint(loads)
            && "B" in Place(loads, "B", cap)[0] && "B" in Place(loads, "B", cap)[1]
  {
    DealtToTwo();
    hide Buckets, LeastLoaded;
    var loads := Sets(Buckets(["A", "B"], 2));
    assert loads[0] == {"A"} && loads[1] == {"B"};
    assert |loads[0]| == 1 && |loads[1]| == 1;
    assert LeastLoaded(loads, cap) == Some(0);
  }

  lemma DealtToTwo()
    ensures Buckets(["A", "B"], 2) == [["A"], ["B"]]
  {
    assert ["A", "B"][..1] == ["A"] && ["A"][..0] == [];
    assert Dealt(["A"], 2, 0) == ["A"] && Dealt(["A"], 2, 1) == [];
    assert Dealt(["A", "B"], 2, 0) == ["A"] && Dealt(["A", "B"], 2, 1) == ["B"];
  }

  function FirstOf(order: seq<string>, k: nat): set<string>
    requires k <= |order|
  {
    set i | 0 <= i < k :: order[i]
  }

  lemma {:induction false} FirstOfStep(order: seq<string>, k: nat)
    requires k < |order|
    ensures FirstOf(order[..|order| - 1], k) == FirstOf(order, k)
    ensures FirstOf(order, k + 1) == FirstOf(order, k) + {order[k]}
    ensures Distinct(order) ==> order[k] !in FirstOf(order, k)
  {
  }

  /** No shard lost a symbol or was pushed past `cap`. */
  ghost predicate Grew(before: Loads, after: Loads, cap: nat) {
    && |after| == |before|
    && forall i | 0 <= i < |before| :: before[i] <= after[i] && |after[i]| <= Max(|before[i]|, cap)
  }

  /** What placing `order` did: exactly the first `k` symbols went in. */
  ghost predicate Placed(before: Loads, after: Loads, order: seq<string>, k: nat, cap: nat) {
    && k <= |order|
    && Owned(after) == Owned(before) + FirstOf(order, k)
    && Grew(before, after, cap)
  }

  lemma {:induction false} PlaceOne(loads: Loads, symbol: string, cap: nat)
    requires symbol !in Owned(loads)
    ensures var after, target := Place(loads, symbol, cap), LeastLoaded(loads, cap);
            && Grew(loads, after, cap)
            && (target.None? ==> after == loads && FreeSlots(loads, cap) == 0)
            && (target.Some? ==>
                  Owned(after) == Owned(loads) + {symbol} && FreeSlots(after, cap) == FreeSlots(loads, cap) - 1)
  {
    var target := LeastLoaded(loads, cap);
    FullMeansNoSlots(loads, cap);
    if target.Some? {
      var i := target.value;
      assert symbol !in loads[i];
      var after := loads[i := loads[i] + {symbol}];
      FreeSlotsUpdate(loads, cap, i, loads[i] + {symbol});
      forall x
        ensures x in Owned(after) <==> x in Owned(loads) + {symbol}
      {
        assert x == symbol ==> x in after[i];
        if x in Owned(loads) {
          var j :| 0 <= j < |loads| && x in loads[j];
          assert x in after[j];
        }
      }
    }
  }

  /**
    Incremental placement for any order of adding unowned symbols: they go in until the free slots run out,
    and exactly the rest is refused; ownership stays disjoint, and an uneven spread above one
    never grows.
   */
  lemma {:induction false} PlacementIsExact(loads: Loads, order: seq<string>, cap: nat)
    requires Distinct(order) && forall x | x in order :: x !in Owned(loads)
    ensures var k := Min(|order|, FreeSlots(loads, cap));
            && Placed(loads, PlaceAll(loads, order, cap), order, k, cap)
            && FreeSlots(PlaceAll(loads, order, cap), cap) == FreeSlots(loads, cap) - k
  {
    if order != [] {
      var n := |order| - 1;
      var front, x := order[..n], order[n];
      PlacementIsExact(loads, front, cap);
      PlacedOneMore(loads, PlaceAll(loads, front, cap), order, cap);
    }
  }

  lemma {:induction false} PlacedOneMore(loads: Loads, mid: Loads, order: seq<string>, cap: nat)
    requires order != [] && Distinct(order) && forall x | x in order :: x !in Owned(loads)
    requires var n := |order| - 1;
             var k := Min(n, FreeSlots(loads, cap));
             Placed(loads, mid, order[..n], k, cap) && FreeSlots(mid, cap) == FreeSlots(loads, cap) - k
    ensures var after, k := Place(mid, order[|order| - 1], cap), Min(|order|, FreeSlots(loads, cap));
            Placed(loads, after, order, k, cap) && FreeSlots(after, cap) == FreeSlots(loads, cap) - k
  {
    var n := |order| - 1;
    var x, k := order[n], Min(n, FreeSlots(loads, cap));
    FirstOfStep(order, k);
    FirstOfStep(order, n);
    hide FreeSlots, Owned, Grew;
    assert x !in Owned(mid);
    PlaceOne(mid, x, cap);
    GrewFurther(loads, mid, Place(mid, x, cap), cap);
    hide Place, FirstOf, Distinct;
    hide LeastLoaded;
    FullMeansNoSlots(mid, cap);
  }

  lemma {:induction false} GrewFurther(a: Loads, b: Loads, c: Loads, cap: nat)
    requires Grew(a, b, cap) && Grew(b, c, cap)
    ensures Grew(a, c, cap)
  {
  }

  lemma {:induction false} PlacementKeepsDisjoint(loads: Loads, order: seq<string>, cap: nat)
    requires Disjoint(loads) && Distinct(order) && forall x | x in order :: x !in Owned(loads)
    ensures Disjoint(PlaceAll(loads, order, cap))
  {
    if order != [] {
      var n := |order| - 1;
      var front, x := order[..n], order[n];
      PlacementKeepsDisjoint(loads, front, cap);
      PlacementIsExact(loads, front, cap);
      var mid := PlaceAll(loads, front, cap);
      assert x !in Owned(mid);
      DisjointNeedsUnowned(mid, x, cap);
    }
  }

  lemma {:induction false} PlaceWhere(loads: Loads, order: seq<string>, cap: nat, j: nat)
    requires j < |loads|
    ensures |PlaceAll(loads, order, cap)| == |loads|
    ensures forall x | x !in order :: x in PlaceAll(loads, order, cap)[j] <==> x in loads[j]
  {
    if order != [] {
      var n := |order| - 1;
      PlaceWhere(loads, order[..n], cap, j);
      assert order == order[..n] + [order[n]];
      hide LeastLoaded;
    }
  }

  /** At its turn the `k`-th addition goes to no shard, or to one such that no other had it before. */
  ghost predicate GoesHome(loads: Loads, order: seq<string>, k: nat, cap: nat)
    requires k < |order|
  {
    var target := LeastLoaded(PlaceAll(loads, order[..k], cap), cap);
    target.None? || forall j | 0 <= j < |loads| && j != target.value :: order[k] !in loads[j]
  }

  lemma {:induction false} LastGoesHome(loads: Loads, order: seq<string>, cap: nat)
    requires order != [] && Distinct(order)
    ensures var n := |order| - 1;
            var mid := PlaceAll(loads, order[..n], cap);
            Disjoint(mid) ==>
              (Disjoint(Place(mid, order[n], cap)) <==> GoesHome(loads, order, n, cap))
  {
    var n := |order| - 1;
    var x, mid := order[n], PlaceAll(loads, order[..n], cap);
    SameCount(loads, order[..n], cap);
    forall j | 0 <= j < |loads|
      ensures x in mid[j] <==> x in loads[j]
    {
      PlaceWhere(loads, order[..n], cap, j);
    }
    hide PlaceAll, Distinct;
    if Disjoint(mid) {
      DisjointNeedsUnowned(mid, x, cap);
    }
    hide LeastLoaded, Disjoint, Place;
  }

  /**
    A whole series of distinct additions keeps ownership disjoint iff each one that is placed goes to a shard such that
    no other shard owned it at the start.
   */
  lemma {:induction false} PlacementKeepsDisjointIff(loads: Loads, order: seq<string>, cap: nat)
    requires Disjoint(loads) && Distinct(order)
    ensures Disjoint(PlaceAll(loads, order, cap)) <==> forall k: nat | k < |order| :: GoesHome(loads, order, k, cap)
  {
    hide LeastLoaded, Disjoint;
    if order != [] {
      var n := |order| - 1;
      var front := order[..n];
      PlacementKeepsDisjointIff(loads, front, cap);
      LastGoesHome(loads, order, cap);
      forall k: nat | k < n
        ensures GoesHome(loads, order, k, cap) <==> GoesHome(loads, front, k, cap)
      {
        assert front[..k] == order[..k] && front[k] == order[k];
      }
      if !Disjoint(PlaceAll(loads, front, cap)) {
        OnceShared(PlaceAll(loads, front, cap), order[n], cap);
      }
      hide GoesHome, Place;
    }
  }

  lemma {:induction false} SameCount(loads: Loads, order: seq<string>, cap: nat)
    ensures |PlaceAll(loads, order, cap)| == |loads|
  {
    if order != [] {
      SameCount(loads, order[..|order| - 1], cap);
      hide LeastLoaded;
    }
  }

  lemma {:induction false} OnceShared(loads: Loads, x: string, cap: nat)
    requires !Disjoint(loads)
    ensures !Disjoint(Place(loads, x, cap))
  {
    hide LeastLoaded;
    var i, j :| 0 <= i < j < |loads| && !(loads[i] !! loads[j]);
    var y :| y in loads[i] && y in loads[j];
    var after := Place(loads, x, cap);
    assert y in after[i] && y in after[j];
  }

  lemma {:induction false} GrowsByOne(load: set<string>, x: string)
    ensures |load| <= |load + {x}| <= |load| + 1
  {
    if x in load {
      assert load + {x} == load;
    }
  }

  lemma {:induction false} PlacementKeepsSpread(loads: Loads, order: seq<string>, cap: nat, d: nat)
    requires SpreadAtMost(loads, d) && d >= 1
    ensures SpreadAtMost(PlaceAll(loads, order, cap), d)
  {
    if order != [] {
      var mid := PlaceAll(loads, order[..|order| - 1], cap);
      PlacementKeepsSpread(loads, order[..|order| - 1], cap, d);
      var target := LeastLoaded(mid, cap);
      if target.Some? {
        GrowsByOne(mid[target.value], order[|order| - 1]);
      }
    }
  }

  function Sets(buckets: seq<seq<string>>): Loads {
    seq(|buckets|, j requires 0 <= j < |buckets| => set x | x in buckets[j])
  }

  /** A bucket holds what was dealt to its lane and nothing else. */
  lemma {:induction false} DealtMembers(symbols: seq<string>, k: nat, j: nat, x: string)
    requires j < k
    ensures x in Dealt(symbols, k, j) <==> exists i | 0 <= i < |symbols| :: symbols[i] == x && Lane(i, k) == j
  {
    hide Lane;
    if symbols != [] {
      var n := |symbols| - 1;
      DealtMembers(symbols[..n], k, j, x);
      if i :| 0 <= i < n && symbols[i] == x && Lane(i, k) == j {
        assert symbols[..n][i] == x;
      }
      assert Lane(n, k) == j && symbols[n] == x ==> x in Dealt(symbols, k, j);
    }
  }

  /** Initial sharding owns every symbol, and each one once if the symbol list has no duplicates. */
  lemma {:induction false} StartOwnership(symbols: seq<string>, k: nat)
    requires k > 0
    ensures var loads := Sets(Buckets(symbols, k));
            && Owned(loads) == (set x | x in symbols)
            && (Distinct(symbols) ==> Disjoint(loads))
  {
    var loads := Sets(Buckets(symbols, k));
    forall j, x | 0 <= j < k
      ensures x in loads[j] <==> exists i | 0 <= i < |symbols| :: symbols[i] == x && Lane(i, k) == j
    {
      DealtMembers(symbols, k, j, x);
    }
    hide Lane, Buckets, Sets;
    forall x
      ensures x in Owned(loads) <==> x in symbols
    {
      if x in symbols {
        var i :| 0 <= i < |symbols| && symbols[i] == x;
        assert x in loads[Lane(i, k)];
      }
    }
  }

  lemma {:induction false} RemovalIsExact(loads: Loads, gone: set<string>)
    ensures Owned(RemoveAll(loads, gone)) == Owned(loads) - gone
    ensures Disjoint(loads) ==> Disjoint(RemoveAll(loads, gone))
  {
    var after := RemoveAll(loads, gone);
    forall x
      ensures x in Owned(after) <==> x in Owned(loads) - gone
    {
      if x in Owned(loads) && x !in gone {
        var i :| 0 <= i < |loads| && x in loads[i];
        assert x in after[i];
      }
    }
  }

  /** One adapter update: removals, then additions in some order. */
  function Updated(loads: Loads, gone: set<string>, order: seq<string>, cap: nat): Loads {
    PlaceAll(RemoveAll(loads, gone), order, cap)
  }

  /**
    One update whose additions nobody keeps owning: the owned set becomes the old one without the removals plus as many
    additions as there are free slots, no shard is pushed past capacity, and ownership stays disjoint.
   */
  lemma {:induction false} UpdateIsExact(loads: Loads, gone: set<string>, order: seq<string>, cap: nat)
    requires Disjoint(loads) && Distinct(order) && forall x | x in order :: x !in Owned(loads) - gone
    ensures var left, after := RemoveAll(loads, gone), Updated(loads, gone, order, cap);
            var k := Min(|order|, FreeSlots(left, cap));
            && Owned(after) == Owned(loads) - gone + FirstOf(order, k)
            && Disjoint(after)
            && Grew(left, after, cap)
            && (k < |order| ==> forall i | 0 <= i < |after| :: |after[i]| >= cap)
  {
    var left := RemoveAll(loads, gone);
    RemovalIsExact(loads, gone);
    PlacementIsExact(left, order, cap);
    PlacementKeepsDisjoint(left, order, cap);
    FullMeansNoSlots(PlaceAll(left, order, cap), cap);
    hide Disjoint, Owned, FirstOf, Grew, FreeSlots;
  }

  /** A whole update keeps ownership disjoint iff its additions do so once the removals are out. */
  lemma {:induction false} UpdateKeepsDisjointIff(loads: Loads, gone: set<string>, order: seq<string>, cap: nat)
    requires Disjoint(loads) && Distinct(order)
    ensures Disjoint(Updated(loads, gone, order, cap))
            <==> forall k: nat | k < |order| :: GoesHome(RemoveAll(loads, gone), order, k, cap)
  {
    RemovalIsExact(loads, gone);
    hide Disjoint, GoesHome;
    PlacementKeepsDisjointIff(RemoveAll(loads, gone), order, cap);
  }
}
