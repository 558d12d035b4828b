/** Bit extraction `(x >> k) & 1`, the address width `ceil(log2(n))`, and rail-voltage encoding. */
module Bits {

  function Pow2(k: nat): (r: nat)
    ensures r >= 1
  {
    if k == 0 then 1 else 2 * Pow2(k - 1)
  }

  /** Multiples of `m` at least one step apart are at least `m` apart. */
  lemma MulGap(m: nat, a: nat, b: nat)
    requires a < b
    ensures m * a + m <= m * b
  {
    var d: nat := b - a - 1;
    assert m * b == m * a + m + m * d;
  }

  /** `a == m*q + rem` with `rem` below `m` pins down the quotient. */
  lemma DivUnique(a: nat, m: nat, q: nat, rem: nat)
    requires m > 0 && rem < m && a == m * q + rem
    ensures a / m == q
  {
    var q', rem' := a / m, a % m;
    assert m * q' + rem' == m * q + rem;
    if q' < q {
      MulGap(m, q', q);
      assert false;
    } else if q' > q {
      MulGap(m, q, q');
      assert false;
    }

  }

  /** Halving and then dividing by `m` is dividing by `2 * m`. */
  lemma HalveThenDivide(x: nat, m: nat)
    requires m >= 1
    ensures (x / 2) / m == x / (2 * m)
  {
    var q, rem := x / (2 * m), x % (2 * m);
    assert x == 2 * (m * q + rem / 2) + rem % 2;
    DivUnique(x, 2, m * q + rem / 2, rem % 2);
    DivUnique(x / 2, m, q, rem / 2);
  }

  /** `x >> k` on a non-negative integer: `k` halvings rounding down. */
  function Shr(x: nat, k: nat): (r: nat)
    ensures r == x / Pow2(k)
  {
    if k == 0 then x
    else
      HalveThenDivide(x, Pow2(k - 1));
      Shr(x / 2, k - 1)
  }

  /** `(x >> k) & 1`. */
  function Bit(x: nat, k: nat): (b: nat)
    ensures b == 0 || b == 1
  {
    Shr(x, k) % 2
  }

  /** `int(ceil(log2(n)))`: the least width whose `Pow2` reaches `n`. */
  function CeilLog2(n: nat): (r: nat)
    requires n >= 1
    ensures Pow2(r) >= n
    ensures r > 0 ==> Pow2(r - 1) < n
    ensures r == 0 <==> n == 1
    decreases n
  {
    if n == 1 then 0 else 1 + CeilLog2((n + 1) / 2)
  }

  /** The rail voltage of each of the low `n` bits of `x`: `vdd*((x>>k)&1)` for `k` in `range(n)`. */
  function Levels(vdd: real, x: nat, n: nat): (r: seq<real>)
    ensures |r| == n
    ensures forall k :: 0 <= k < n ==> (r[k] == vdd <==> Bit(x, k) == 1 || vdd == 0.0)
    ensures forall k :: 0 <= k < n ==> (r[k] == 0.0 <==> Bit(x, k) == 0 || vdd == 0.0)
  {
    seq(n, k requires 0 <= k < n => vdd * (Bit(x, k) as real))
  }

  /** Reads a word back off rail voltages: a line at `vdd` is a one, anything else a zero. */
  function DecodeLevels(ls: seq<real>, vdd: real): (r: nat)
    ensures r < Pow2(|ls|)
  {
    if |ls| == 0 then 0 else (if ls[0] == vdd then 1 else 0) + 2 * DecodeLevels(ls[1..], vdd)
  }

  lemma LevelsTail(vdd: real, x: nat, n: nat)
    requires n >= 1
    ensures Levels(vdd, x, n)[1..] == Levels(vdd, x / 2, n - 1)
  {
    var a := Levels(vdd, x, n)[1..];
    var b := Levels(vdd, x / 2, n - 1);
    forall k | 0 <= k < n - 1 ensures a[k] == b[k] {
      assert Bit(x, k + 1) == Bit(x / 2, k);
    }
  }

  /** Encoding a value that fits in `n` bits onto rails and reading it back yields the value. */
  lemma {:induction false} DecodeLevelsRoundTrip(vdd: real, x: nat, n: nat)
    requires vdd != 0.0
    requires x < Pow2(n)
    ensures DecodeLevels(Levels(vdd, x, n), vdd) == x
    decreases n
  {
    if n > 0 {
      var ls := Levels(vdd, x, n);
      LevelsTail(vdd, x, n);
      DecodeLevelsRoundTrip(vdd, x / 2, n - 1);
      assert Bit(x, 0) == x % 2;
      assert (ls[0] == vdd) == (x % 2 == 1);
    }
  }

  /** Two values below `Pow2(n)` drive the same rail voltages only if they are equal. */
  lemma LevelsInjective(vdd: real, x: nat, y: nat, n: nat)
    requires vdd != 0.0
    requires x < Pow2(n) && y < Pow2(n)
    ensures Levels(vdd, x, n) == Levels(vdd, y, n) <==> x == y
  {
    DecodeLevelsRoundTrip(vdd, x, n);
    DecodeLevelsRoundTrip(vdd, y, n);
  }
}
