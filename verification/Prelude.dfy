/** Small shared vocabulary: optional values and the bounded deque. */
module Prelude {

  datatype Option<+T> = None | Some(value: T)

  /** Denominators at or below this count as zero. */
  const EPSILON: real := 0.000000001

  function Min(a: int, b: int): int {
    if a <= b then a else b
  }

  function Max(a: int, b: int): int {
    if a >= b then a else b
  }

  function MaxR(a: real, b: real): real {
    if a >= b then a else b
  }

  function Abs(a: real): real {
    if a >= 0.0 then a else -a
  }

  /** What a deque of maximal length `n` holds after `s` was appended to it item by item. */
  function Last<T>(s: seq<T>, n: nat): seq<T> {
    if |s| <= n then s else s[|s| - n..]
  }

  /** At most `n` items, and they are the end of the sequence. */
  lemma LastIs<T>(s: seq<T>, n: nat)
    ensures var r := Last(s, n);
            && |r| == Min(|s|, n)
            && forall i | 0 <= i < |r| :: r[i] == s[|s| - |r| + i]
  {
  }

  lemma LastAppend<T>(s: seq<T>, x: T, n: nat)
    ensures Last(Last(s, n) + [x], n) == Last(s + [x], n)
  {
  }

  lemma LastOfLast<T>(s: seq<T>, n: nat, m: nat)
    requires m <= n
    ensures Last(Last(s, n), m) == Last(s, m)
  {
  }

  function Sum(xs: seq<real>): real {
    if xs == [] then 0.0 else Sum(xs[..|xs| - 1]) + xs[|xs| - 1]
  }

  lemma {:induction false} SumConcat(xs: seq<real>, ys: seq<real>)
    ensures Sum(xs + ys) == Sum(xs) + Sum(ys)
  {
    if ys == [] {
      assert xs + ys == xs;
    } else {
      SumConcat(xs, ys[..|ys| - 1]);
      assert (xs + ys)[..|xs + ys| - 1] == xs + ys[..|ys| - 1];
    }
  }

  lemma {:induction false} Scale(a: real, b: real, c: real)
    requires a <= b && 0.0 <= c
    ensures a * c <= b * c
  {
  }

  lemma {:induction false} Unscale(a: real, b: real, c: real)
    requires a * c <= b * c && 0.0 < c
    ensures a <= b
  {
  }

  lemma {:induction false} DivMul(a: real, b: real)
    requires b != 0.0
    ensures a / b * b == a
  {
  }

  lemma {:induction false} ScaleStrict(a: real, b: real, c: real)
    requires a < b && 0.0 < c
    ensures a * c < b * c
  {
  }

  lemma {:induction false} UnscaleStrict(a: real, b: real, c: real)
    requires a * c < b * c && 0.0 < c
    ensures a < b
  {
  }

  lemma {:induction false} Compare(a: real, b: real, c: real)
    requires c > 0.0
    ensures a * c >= b * c <==> a >= b
    ensures a * c == b * c <==> a == b
  {
    if a > b {
      ScaleStrict(b, a, c);
    } else if a < b {
      ScaleStrict(a, b, c);
    }
  }
}
