/** Congruence modulo p = 2^255 - 19. */
module ModP {
  import opened Arith

  const P: int := 0x7fffffffffffffffffffffffffffffffffffffffffffffffffffffffffffffed

  // Products, congruence and reducedness are reached through a few levels of
  // recursion. The verifier unfolds a recursive definition only so far, which
  // keeps these three out of its nonlinear arithmetic until a lemma (ProdIs,
  // CongMod, ReducedIs) brings them in.
  const LEVEL: nat := 3

  function ProdAt(level: nat, a: int, b: int): int {
    if level == 0 then a * b else ProdAt(level - 1, a, b)
  }

  /** a * b */
  function Prod(a: int, b: int): int {
    ProdAt(LEVEL, a, b)
  }

  lemma ProdIs(a: int, b: int)
    ensures Prod(a, b) == a * b
  {
    assert ProdAt(1, a, b) == ProdAt(0, a, b) == a * b;
    assert ProdAt(3, a, b) == ProdAt(2, a, b) == ProdAt(1, a, b);
  }

  predicate CongAt(level: nat, a: int, b: int) {
    if level == 0 then a % P == b % P else CongAt(level - 1, a, b)
  }

  /** a and b are equal modulo p. */
  predicate Cong(a: int, b: int) {
    CongAt(LEVEL, a, b)
  }

  lemma CongMod(a: int, b: int)
    ensures Cong(a, b) <==> a % P == b % P
  {
    assert CongAt(1, a, b) == CongAt(0, a, b) == (a % P == b % P);
    assert CongAt(3, a, b) == CongAt(2, a, b) == CongAt(1, a, b);
  }

  lemma CongBy(a: int, b: int, k: int)
    requires a - b == k * P
    ensures Cong(a, b)
  {
    ModShift(b, k, P);
    CongMod(a, b);
  }

  /** The multiple of p that separates congruent numbers. */
  ghost function Gap(a: int, b: int): (k: int)
    requires Cong(a, b)
    ensures a - b == k * P
  {
    CongMod(a, b);
    a / P - b / P
  }

  lemma CongRefl(a: int)
    ensures Cong(a, a)
  {
    CongBy(a, a, 0);
  }

  lemma CongSym(a: int, b: int)
    requires Cong(a, b)
    ensures Cong(b, a)
  {
    CongBy(b, a, -Gap(a, b));
  }

  lemma CongTrans(a: int, b: int, c: int)
    requires Cong(a, b) && Cong(b, c)
    ensures Cong(a, c)
  {
    CongBy(a, c, Gap(a, b) + Gap(b, c));
  }

  lemma CongAdd(a: int, b: int, c: int, d: int)
    requires Cong(a, b) && Cong(c, d)
    ensures Cong(a + c, b + d) && Cong(a - c, b - d)
  {
    CongBy(a + c, b + d, Gap(a, b) + Gap(c, d));
    CongBy(a - c, b - d, Gap(a, b) - Gap(c, d));
  }

  lemma CongMul(a: int, b: int, c: int, d: int)
    requires Cong(a, b) && Cong(c, d)
    ensures Cong(a * c, b * d)
  {
    var j, k := Gap(a, b), Gap(c, d);
    assert a * c - b * d == (a - b) * c + b * (c - d);
    assert (j * P) * c == (j * c) * P;
    assert b * (k * P) == (b * k) * P;
    CongBy(a * c, b * d, j * c + b * k);
  }

  lemma CongScale(k: int, a: int, b: int)
    requires Cong(a, b)
    ensures Cong(k * a, k * b)
  {
    CongRefl(k);
    CongMul(k, k, a, b);
  }

  lemma {:induction false} CongPow(a: int, b: int, n: nat)
    requires Cong(a, b)
    ensures Cong(Pow(a, n), Pow(b, n))
  {
    if n == 0 {
      CongBy(1, 1, 0);
    } else {
      CongPow(a, b, n - 1);
      CongMul(a, b, Pow(a, n - 1), Pow(b, n - 1));
    }
  }

  lemma CongOfMod(a: int)
    ensures Cong(a % P, a)
  {
    CongBy(a % P, a, -(a / P));
  }

  predicate ReducedAt(level: nat, a: int) {
    if level == 0 then 0 <= a < P else ReducedAt(level - 1, a)
  }

  /** a is a least residue: 0 <= a < p. */
  predicate Reduced(a: int) {
    ReducedAt(LEVEL, a)
  }

  lemma ReducedIs(a: int)
    ensures Reduced(a) <==> 0 <= a < P
  {
    assert ReducedAt(1, a) == ReducedAt(0, a) == (0 <= a < P);
    assert ReducedAt(3, a) == ReducedAt(2, a) == ReducedAt(1, a);
  }

  lemma ReducedMod(a: int)
    ensures Reduced(a % P) && Cong(a % P, a)
  {
    ReducedIs(a % P);
    CongOfMod(a);
  }

  lemma ReducedUnique(a: int, b: int)
    requires Cong(a, b) && Reduced(a) && Reduced(b)
    ensures a == b
  {
    CongMod(a, b);
    ReducedIs(a);
    ReducedIs(b);
    ModSmall(a, P);
    ModSmall(b, P);
  }
}
