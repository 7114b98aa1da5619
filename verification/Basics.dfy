/** Small notions that several modules share. */
module Basics {
  const TWO32: nat := 0x1_0000_0000

  function One(c: bool): (n: nat) {
    if c then 1 else 0
  }

  ghost predicate Distinct(q: seq<int>) {
    forall i, j :: 0 <= i < j < |q| ==> q[i] != q[j]
  }

  /** q without its element k. */
  function Without(q: seq<int>, k: int): (r: seq<int>)
    requires 0 <= k < |q|
  {
    q[..k] + q[k + 1..]
  }

  // ---------- counters that wrap around ----------

  lemma AtLeastOneTurn(m: int, d: int)
    requires m > 0
    ensures d >= 1 ==> m * d >= m
    ensures d <= -1 ==> m * d <= -m
  {
    assert d >= 1 ==> m * (d - 1) >= 0;
    assert d <= -1 ==> m * (d + 1) <= 0;
  }

  lemma RemainderUnique(n: int, q: int, r: int, size: int)
    requires size > 0 && 0 <= r < size && n == size * q + r
    ensures n % size == r
  {
    var d := n / size - q;
    AtLeastOneTurn(size, d);
    assert size * d == size * (n / size) - size * q;
  }

  lemma AddMultiple(x: int, c: int, size: int)
    requires size > 0
    ensures (size * c + x) % size == x % size
  {
    var q, r := x / size, x % size;
    assert size * (c + q) == size * c + size * q;
    RemainderUnique(size * c + x, c + q, r, size);
  }

  lemma SameRemainder(n: int, x: int, c: int, size: int)
    requires size > 0 && n == size * c + x
    ensures n % size == x % size
  {
    AddMultiple(x, c, size);
  }

  lemma Turns(n: int, size: int, c: int, m: int)
    requires m == size * c && m > 0
    ensures n == size * (c * (n / m)) + n % m
  {
    var q := n / m;
    assert (size * c) * q == size * (c * q);
  }

  lemma NextWraps(n: int, m: int)
    requires m > 0
    ensures (n % m + 1) % m == (n + 1) % m
  {
    SameRemainder(n + 1, n % m + 1, n / m, m);
  }

  /** A counter that wraps at a multiple of a ring's size selects the slots that an unbounded one would. */
  lemma WrapAgrees(n: int, size: int, c: int, m: int)
    requires 0 <= n && size > 0 && m == size * c && m > 0
    ensures n % m % size == n % size && (n % m + 1) % m == (n + 1) % m
  {
    Turns(n, size, c, m);
    SameRemainder(n, n % m, c * (n / m), size);
    NextWraps(n, m);
  }

  /** Wrapped counters less than a full turn apart are equal exactly when the unbounded ones are. */
  lemma WrapDistinguishes(lo: int, hi: int, m: int)
    requires 0 <= lo <= hi < lo + m
    ensures lo % m == hi % m <==> lo == hi
  {
    var d := hi / m - lo / m;
    AtLeastOneTurn(m, d);
    assert m * d == m * (hi / m) - m * (lo / m);
  }
}
