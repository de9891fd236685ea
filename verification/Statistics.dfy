/** The statistical median and why it is a robust volume baseline. */
module Statistics {
  function Insert(x: real, t: seq<real>): seq<real> {
    if t == [] then [x]
    else if x <= t[0] then [x] + t
    else [t[0]] + Insert(x, t[1..])
  }

  function Sort(s: seq<real>): seq<real> {
    if s == [] then [] else Insert(s[0], Sort(s[1..]))
  }

  ghost predicate Ascending(t: seq<real>) {
    forall i, j | 0 <= i <= j < |t| :: t[i] <= t[j]
  }

  lemma {:induction false} InsertMultiset(x: real, t: seq<real>)
    ensures multiset(Insert(x, t)) == multiset(t) + multiset{x}
  {
    if t != [] {
      assert t == [t[0]] + t[1..];
      if x > t[0] {
        InsertMultiset(x, t[1..]);
      }
    }
  }

  lemma {:induction false} InsertBound(x: real, t: seq<real>, lo: real)
    requires lo <= x && forall i | 0 <= i < |t| :: lo <= t[i]
    ensures forall i | 0 <= i < |Insert(x, t)| :: lo <= Insert(x, t)[i]
  {
    if t != [] && x > t[0] {
      InsertBound(x, t[1..], lo);
    }
  }

  lemma {:induction false} InsertAscending(x: real, t: seq<real>)
    requires Ascending(t)
    ensures Ascending(Insert(x, t))
  {
    if t != [] && x > t[0] {
      InsertAscending(x, t[1..]);
      InsertBound(x, t[1..], t[0]);
    }
  }

  lemma {:induction false} SortSorts(s: seq<real>)
    ensures Ascending(Sort(s)) && multiset(Sort(s)) == multiset(s) && |Sort(s)| == |s|
  {
    if s != [] {
      SortSorts(s[1..]);
      InsertAscending(s[0], Sort(s[1..]));
      InsertMultiset(s[0], Sort(s[1..]));
      assert s == [s[0]] + s[1..];
      assert |multiset(Sort(s))| == |multiset(s)|;
    }
  }

  lemma {:induction false} HeadIsLeast(a: seq<real>, x: real)
    requires Ascending(a) && x in multiset(a)
    ensures a != [] && a[0] <= x
  {
  }

  lemma {:induction false} SameLength(a: seq<real>, b: seq<real>)
    requires multiset(a) == multiset(b)
    ensures |a| == |b|
  {
    assert |a| == |multiset(a)| && |multiset(b)| == |b|;
  }

  lemma {:induction false} SameHead(a: seq<real>, b: seq<real>)
    requires a != [] && b != []
    requires Ascending(a) && Ascending(b) && multiset(a) == multiset(b)
    ensures a[0] == b[0] && multiset(a[1..]) == multiset(b[1..])
  {
    assert a == [a[0]] + a[1..] && b == [b[0]] + b[1..];
    assert a[0] in multiset(a) && b[0] in multiset(b);
    HeadIsLeast(a, b[0]);
    HeadIsLeast(b, a[0]);
    assert multiset(a[1..]) == multiset(a) - multiset{a[0]};
    assert multiset(b[1..]) == multiset(b) - multiset{b[0]};
  }

  lemma {:induction false} AscendingUnique(a: seq<real>, b: seq<real>)
    requires Ascending(a) && Ascending(b) && multiset(a) == multiset(b)
    ensures a == b
  {
    SameLength(a, b);
    if a != [] {
      SameHead(a, b);
      AscendingUnique(a[1..], b[1..]);
      hide Ascending;
      assert forall i | 1 <= i < |a| :: a[i] == a[1..][i - 1] && b[i] == b[1..][i - 1];
    }
  }

  /** statistics.median: the middle value, or the mean of the two middle values. */
  function Median(s: seq<real>): real
    requires s != []
  {
    SortSorts(s);
    var t, n := Sort(s), |s|;
    if n % 2 == 1 then t[n / 2] else (t[n / 2 - 1] + t[n / 2]) / 2.0
  }

  /** The order in which candles arrive does not matter to the baseline. */
  lemma {:induction false} MedianOfPermutation(s: seq<real>, t: seq<real>)
    requires s != [] && multiset(s) == multiset(t)
    ensures t != [] && Median(s) == Median(t)
  {
    SameLength(s, t);
    SortSorts(s);
    SortSorts(t);
    AscendingUnique(Sort(s), Sort(t));
  }

  /** The median is half-way between the two middle values of any ascending rearrangement. */
  lemma {:induction false} MedianIsMiddle(s: seq<real>, t: seq<real>)
    requires s != [] && multiset(t) == multiset(s) && forall i, j | 0 <= i <= j < |t| :: t[i] <= t[j]
    ensures |t| == |s| && 2.0 * Median(s) == t[(|s| - 1) / 2] + t[|s| / 2]
  {
    SameLength(s, t);
    SortSorts(s);
    AscendingUnique(Sort(s), t);
    hide Sort;
  }

  function Negated(s: seq<real>): (r: seq<real>)
    ensures |r| == |s|
  {
    seq(|s|, i requires 0 <= i < |s| => -s[i])
  }

  function Backwards(s: seq<real>): (r: seq<real>)
    ensures |r| == |s|
  {
    seq(|s|, i requires 0 <= i < |s| => s[|s| - 1 - i])
  }

  lemma {:induction false} NegatedMultiset(a: seq<real>, b: seq<real>)
    requires multiset(a) == multiset(b)
    ensures multiset(Negated(a)) == multiset(Negated(b))
  {
    forall x: real
      ensures multiset(Negated(a))[x] == multiset(Negated(b))[x]
    {
      NegatedCount(a, x);
      NegatedCount(b, x);
    }
  }

  lemma {:induction false} NegatedCount(a: seq<real>, x: real)
    ensures multiset(Negated(a))[x] == multiset(a)[-x]
  {
    if a != [] {
      var n := |a| - 1;
      NegatedCount(a[..n], x);
      assert Negated(a) == Negated(a[..n]) + [-a[n]] && a == a[..n] + [a[n]];
    }
  }

  lemma {:induction false} BackwardsMultiset(s: seq<real>)
    ensures multiset(Backwards(s)) == multiset(s)
  {
    if s != [] {
      var n := |s| - 1;
      BackwardsMultiset(s[..n]);
      assert Backwards(s) == [s[n]] + Backwards(s[..n]) && s == s[..n] + [s[n]];
    }
  }

  lemma NegatedMiddles(t: seq<real>, u: seq<real>)
    requires t != [] && u == Backwards(Negated(t))
    ensures u[(|t| - 1) / 2] + u[|t| / 2] == -(t[(|t| - 1) / 2] + t[|t| / 2])
  {
    var n := |t|;
    assert u[(n - 1) / 2] == -t[n - 1 - (n - 1) / 2] && u[n / 2] == -t[n - 1 - n / 2];
  }

  /** It favours neither side: the median of the negated values is minus the median. */
  lemma {:induction false} MedianOfNegated(s: seq<real>)
    requires s != []
    ensures Median(Negated(s)) == -Median(s)
  {
    SortSorts(s);
    var t := Sort(s);
    var u := Backwards(Negated(t));
    NegatedMultiset(s, t);
    BackwardsMultiset(Negated(t));
    NegatedMiddles(t, u);
    hide Median, Sort;
    MedianIsMiddle(s, t);
    MedianIsMiddle(Negated(s), u);
  }

  function CountIn(s: seq<real>, lo: real, hi: real): nat {
    if s == [] then 0 else (if lo <= s[0] <= hi then 1 else 0) + CountIn(s[1..], lo, hi)
  }

  lemma {:induction false} CountConcat(a: seq<real>, b: seq<real>, lo: real, hi: real)
    ensures CountIn(a + b, lo, hi) == CountIn(a, lo, hi) + CountIn(b, lo, hi)
  {
    if a == [] {
      assert a + b == b;
    } else {
      CountConcat(a[1..], b, lo, hi);
      assert (a + b)[1..] == a[1..] + b;
    }
  }

  lemma {:induction false} CountBounds(s: seq<real>, lo: real, hi: real)
    ensures CountIn(s, lo, hi) <= |s|
    ensures (forall i | 0 <= i < |s| :: s[i] < lo || s[i] > hi) ==> CountIn(s, lo, hi) == 0
  {
    if s != [] {
      CountBounds(s[1..], lo, hi);
    }
  }

  lemma {:induction false} CountInsert(x: real, t: seq<real>, lo: real, hi: real)
    ensures CountIn(Insert(x, t), lo, hi) == CountIn([x] + t, lo, hi)
  {
    if t != [] && x > t[0] {
      CountInsert(x, t[1..], lo, hi);
      assert ([t[0]] + Insert(x, t[1..]))[1..] == Insert(x, t[1..]);
      assert ([x] + t)[1..] == t && ([x] + t[1..])[1..] == t[1..];
    }
  }

  lemma {:induction false} CountSort(s: seq<real>, lo: real, hi: real)
    ensures CountIn(Sort(s), lo, hi) == CountIn(s, lo, hi)
  {
    if s != [] {
      CountSort(s[1..], lo, hi);
      CountInsert(s[0], Sort(s[1..]), lo, hi);
      assert ([s[0]] + Sort(s[1..]))[1..] == Sort(s[1..]);
    }
  }

  lemma {:induction false} MiddleInRange(t: seq<real>, k: nat, lo: real, hi: real)
    requires Ascending(t) && k < |t|
    ensures CountIn(t, lo, hi) > |t| - (k + 1) ==> t[k] >= lo
    ensures CountIn(t, lo, hi) > k ==> t[k] <= hi
  {
    assert t == t[..k + 1] + t[k + 1..] && t == t[..k] + t[k..];
    CountConcat(t[..k + 1], t[k + 1..], lo, hi);
    CountConcat(t[..k], t[k..], lo, hi);
    CountBounds(t[..k + 1], lo, hi);
    CountBounds(t[k + 1..], lo, hi);
    CountBounds(t[..k], lo, hi);
    CountBounds(t[k..], lo, hi);
  }

  /** If more than half of the values lie in a range, so does the median, whatever the others are. */
  lemma {:induction false} MajorityBoundsMedian(s: seq<real>, lo: real, hi: real)
    requires s != [] && 2 * CountIn(s, lo, hi) > |s|
    ensures lo <= Median(s) <= hi
  {
    SortSorts(s);
    CountSort(s, lo, hi);
    var t, n := Sort(s), |s|;
    MiddleInRange(t, n / 2, lo, hi);
    if n % 2 == 0 {
      MiddleInRange(t, n / 2 - 1, lo, hi);
    }
  }
}
