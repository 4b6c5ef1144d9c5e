/** Vocabulary shared by every module of the project. */
module Basics {

  datatype Option<+T> = None | Some(value: T)

  /** The larger of two integers, JavaScript's `Math.max`. */
  function Max(x: int, y: int): int {
    if x < y then y else x
  }

  /** `Math.round(a / b)` for a positive divisor: to the nearest integer, halves upward. */
  function RoundRatio(a: int, b: int): int
    requires b > 0
  {
    (2 * a + b) / (2 * b)
  }

  /** The rounded value is within half a unit of the exact ratio, and a half goes up. */
  lemma RoundRatioIsNearest(a: int, b: int)
    requires b > 0
    ensures 2 * b * RoundRatio(a, b) - b <= 2 * a < 2 * b * RoundRatio(a, b) + b
  {
    var q := RoundRatio(a, b);
    assert (2 * a + b) == q * (2 * b) + (2 * a + b) % (2 * b);
    assert q * (2 * b) == 2 * b * q;
  }

  // ---------- Sums over lists ----------

  function Sum<T>(s: seq<T>, f: T -> int): int {
    if s == [] then 0 else Sum(s[..|s| - 1], f) + f(s[|s| - 1])
  }

  lemma {:induction false} SumMiddle<T>(before: seq<T>, x: T, after: seq<T>, f: T -> int)
    ensures Sum(before + [x] + after, f) == Sum(before + after, f) + f(x)
  {
    var s := before + [x] + after;
    if after == [] {
      assert s[..|s| - 1] == before && before + after == before;
    } else {
      var front := after[..|after| - 1];
      assert s[..|s| - 1] == before + [x] + front;
      assert (before + after)[..|before + after| - 1] == before + front;
      SumMiddle(before, x, front, f);
    }
  }

  /** A sum does not depend on the order of its terms. */
  lemma {:induction false} SumIgnoresOrder<T>(a: seq<T>, b: seq<T>, f: T -> int)
    requires multiset(a) == multiset(b)
    ensures Sum(a, f) == Sum(b, f) && |a| == |b|
    decreases |a|
  {
    assert |a| == |multiset(a)| == |multiset(b)| == |b|;
    if a != [] {
      var front, last := a[..|a| - 1], a[|a| - 1];
      assert a == front + [last];
      assert last in multiset(b);
      var i :| 0 <= i < |b| && b[i] == last;
      var before, after := b[..i], b[i + 1..];
      assert b == before + [last] + after;
      assert multiset(before + after) == multiset(b) - multiset{last};
      assert multiset(front) == multiset(a) - multiset{last};
      SumIgnoresOrder(front, before + after, f);
      SumMiddle(before, last, after, f);
    }
  }
}
