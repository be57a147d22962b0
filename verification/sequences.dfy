/** The list operations the source takes from Python's list type and `itertools`. */
module Sequences {

  /** `itertools.repeat(x, k)`, materialised: k copies of x. */
  function Repeat<T>(x: T, k: nat): (r: seq<T>)
    ensures |r| == k
    ensures forall i :: 0 <= i < k ==> r[i] == x
  {
    if k == 0 then [] else [x] + Repeat(x, k - 1)
  }

  /** k copies of x hold x exactly k times and nothing else. */
  lemma {:induction false} RepeatCount<T>(x: T, k: nat)
    ensures multiset(Repeat(x, k)) == multiset{}[x := k]
  {
    if k > 0 {
      RepeatCount(x, k - 1);
      assert Repeat(x, k) == [x] + Repeat(x, k - 1);
    }
  }

  /** The contents `list.reverse()` leaves behind. */
  function Reverse<T>(s: seq<T>): (r: seq<T>)
    ensures |r| == |s|
    ensures forall i :: 0 <= i < |s| ==> r[i] == s[|s| - 1 - i]
  {
    if |s| == 0 then [] else [s[|s| - 1]] + Reverse(s[..|s| - 1])
  }

  /** Taking one more divisor off a non-negative dividend lowers the quotient by one. */
  lemma DivStep(i: int, k: int)
    requires 0 < k <= i
    ensures (i - k) / k == i / k - 1
    ensures (i - k) % k == i % k
  {
    var q, r := (i - k) / k, (i - k) % k;
    assert i == (q + 1) * k + r;
    DivUnique(i, k, q + 1, r);
  }

  /** Euclidean division is determined by any quotient/remainder pair. */
  lemma DivUnique(i: int, k: int, q: int, r: int)
    requires 0 < k && 0 <= r < k && i == q * k + r
    ensures i / k == q && i % k == r
  {
    var q', r' := i / k, i % k;
    assert q' * k < (q + 1) * k && q * k < (q' + 1) * k;
    ScaleCancels(q', q + 1, k);
    ScaleCancels(q, q' + 1, k);
  }

  /** A positive factor can be cancelled from a strict inequality. */
  lemma ScaleCancels(a: int, b: int, k: int)
    requires k > 0
    ensures a * k < b * k ==> a < b
  {
    if a >= b {
      assert (a - b) * k >= 0;
    }
  }

  /** One factor fewer: m copies of n are m - 1 copies and one more. */
  lemma MulStep(m: int, n: int)
    ensures m * n == (m - 1) * n + n
  {
  }

  /** Adding one modulus leaves a remainder unchanged. */
  lemma ModShift(j: int, n: int)
    requires n > 0
    ensures (j + n) % n == j % n
  {
    DivUnique(j + n, n, j / n + 1, j % n);
  }
}
