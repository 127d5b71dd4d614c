/** Facts about integers that the solver needs spelled out. */
module Arith {

  const W32: int := 0x100000000
  const W64: int := 0x1_0000000000000000
  const W128: int := 0x1_00000000000000000000000000000000
  const W255: int := 0x8000000000000000000000000000000000000000000000000000000000000000

  type u64 = x: int | 0 <= x < 0x10000000000000000
  type u128 = x: int | 0 <= x < 0x100000000000000000000000000000000

  lemma MulLe(x: int, y: int, r: int)
    requires x <= y && 0 <= r
    ensures x * r <= y * r
  {
    assert 0 <= (y - x) * r;
  }

  lemma MulNat(x: int, y: int)
    requires 0 <= x && 0 <= y
    ensures 0 <= x * y
  {
  }

  lemma MulLt(x: int, y: int, r: int)
    requires x < y && 0 < r
    ensures x * r + r <= y * r
  {
    MulLe(x + 1, y, r);
    assert (x + 1) * r == x * r + r;
  }

  /** Quotient and remainder are determined by q * m + r. */
  lemma DivModUnique(x: int, m: int, q: int, r: int)
    requires 0 < m && 0 <= r < m && x == q * m + r
    ensures x / m == q && x % m == r
  {
    var q2, r2 := x / m, x % m;
    assert x == m * q2 + r2;
    assert m * q2 == q2 * m;
    if q < q2 {
      MulLt(q, q2, m);
      assert false;
    } else if q2 < q {
      MulLt(q2, q, m);
      assert false;
    }
  }

  /** Adding a multiple does not change the remainder. */
  lemma ModShift(x: int, k: int, m: int)
    requires 0 < m
    ensures (x + k * m) % m == x % m
  {
    var q, r := x / m, x % m;
    assert x == m * q + r && m * q == q * m;
    assert x + k * m == (q + k) * m + r;
    DivModUnique(x + k * m, m, q + k, r);
  }

  lemma ModSmall(x: int, m: int)
    requires 0 <= x < m
    ensures x % m == x
  {
    DivModUnique(x, m, 0, x);
  }

  lemma MulDistrib(x: int, y: int, r: int)
    ensures (x + y) * r == x * r + y * r
    ensures (x - y) * r == x * r - y * r
  {
  }

  lemma FourProducts(a: int, b: int, c: int, d: int)
    ensures (a + b) * (c + d) == a * c + a * d + b * c + b * d
  {
  }

  ghost predicate Prime(l: nat) {
    1 < l && forall d {:trigger l % d} :: 1 < d < l ==> l % d != 0
  }

  function Exp2(n: nat): (r: nat)
    ensures r > 0
  {
    if n == 0 then 1 else 2 * Exp2(n - 1)
  }

  lemma {:induction false} Exp2Add(m: nat, n: nat)
    ensures Exp2(m + n) == Exp2(m) * Exp2(n)
  {
    if m > 0 {
      Exp2Add(m - 1, n);
      assert Exp2(m + n) == 2 * (Exp2(m - 1) * Exp2(n));
    }
  }

  /** 2^(m + n) from the values of 2^m and 2^n. */
  lemma Exp2Step(m: nat, n: nat, a: int, b: int)
    requires Exp2(m) == a && Exp2(n) == b
    ensures Exp2(m + n) == a * b
  {
    Exp2Add(m, n);
  }

  function Pow(z: int, n: nat): int {
    if n == 0 then 1 else z * Pow(z, n - 1)
  }

  lemma {:induction false} PowAdd(z: int, m: nat, n: nat)
    ensures Pow(z, m + n) == Pow(z, m) * Pow(z, n)
  {
    if m > 0 {
      PowAdd(z, m - 1, n);
      assert Pow(z, m + n) == z * (Pow(z, m - 1) * Pow(z, n));
    }
  }

  /** z^(m + n) from the values of z^m and z^n. */
  lemma PowStep(z: int, m: nat, n: nat, a: int, b: int)
    requires Pow(z, m) == a && Pow(z, n) == b
    ensures Pow(z, m + n) == a * b
  {
    PowAdd(z, m, n);
  }

  lemma {:induction false} PowMul(z: int, m: nat, n: nat)
    ensures 0 <= m * n && Pow(Pow(z, m), n) == Pow(z, m * n)
  {
    MulNat(m, n);
    if n > 0 {
      PowMul(z, m, n - 1);
      PowAdd(z, m, m * (n - 1));
      assert m + m * (n - 1) == m * n;
    } else {
      assert m * n == 0;
    }
  }
}
