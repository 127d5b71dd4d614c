/**
 Scalar arithmetic modulo the group order m = 2^252 + 27742317777372353535851937790883648493
 (modm-donna-64bit.h): conditional subtraction, Barrett reduction with the low
 columns left out, addition, multiplication and the byte conversions.
 */
module ModM {
  import opened Arith
  import opened Bits
  import opened Scalars

  const M: int := 0x1000000000000000000000000000000014def9dea2f79cd65812631a5cf5d3ed
  const MU: int := 0xfffffffffffffffffffffffffffffffeb2106215d086329a7ed9ce5a30a2c131b
  const M0: int := 0x12631a5cf5d3ed
  const M1: int := 0xf9dea2f79cd658
  const M2: int := 0x14de
  const M4: int := 0x10000000
  const MU0: int := 0x9ce5a30a2c131b
  const MU1: int := 0x215d086329a7ed
  const MU2: int := 0xffffffffeb2106
  const MU3: int := 0xffffffffffffff
  const MU4: int := 0xfffffffff

  const MODULUS: Scalar := [M0, M1, M2, 0, M4]

  const W40: int := 0x10000000000
  const W248: int := 0x1_00000000000000000000000000000000000000000000000000000000000000
  const W264: int := 0x1_000000000000000000000000000000000000000000000000000000000000000000
  const W512: int := 0x1_00000000000000000000000000000000000000000000000000000000000000000000000000000000000000000000000000000000000000000000000000000000

  /** The limbs of the two constants, and what makes mu the Barrett constant of m. */
  lemma Constants()
    ensures Five(M0, M1, M2, 0, M4) == M && Five(MU0, MU1, MU2, MU3, MU4) == MU
    ensures MU * M <= W512 < (MU + 1) * M
    ensures M == W252 + 27742317777372353535851937790883648493
  {
  }

  /** 2^252 */
  const W252: int := 0x1000000000000000000000000000000000000000000000000000000000000000

  /** lt_modm: the sign bit of the wrapped difference. */
  function Lt(a: u64, b: u64): (r: u64)
    ensures a < 0x8000000000000000 && b < 0x8000000000000000 ==> r == if a < b then 1 else 0
  {
    ((a - b) % W64) / 0x8000000000000000
  }

  /** One word of a borrow chain: the difference, and 2^56 back if it went below zero. */
  method SubWord(r: u64, pb: u64) returns (t: u64, b: u64)
    requires r < W56 && pb <= W56
    ensures b == (if r < pb then 1 else 0) && t == r - pb + b * W56 && t < W56
  {
    b := Lt(r, pb);
    t := (r - pb + b * W56) % W64;
  }

  /** The limbs of a number below 2^264. */
  predicate Short(r: Scalar) {
    r[0] < W56 && r[1] < W56 && r[2] < W56 && r[3] < W56 && r[4] < W40
  }

  /** Four borrows in a row: what is left for the top word decides the comparison. */
  lemma BorrowChain(r: Scalar, s: Scalar, t: Scalar, b0: int, b1: int, b2: int, b3: int)
    requires t[0] == r[0] - s[0] + b0 * W56 && t[1] == r[1] - s[1] - b0 + b1 * W56
    requires t[2] == r[2] - s[2] - b1 + b2 * W56 && t[3] == r[3] - s[3] - b2 + b3 * W56
    requires t[0] < W56 && t[1] < W56 && t[2] < W56 && t[3] < W56
    ensures Val(r) < Val(s) <==> r[4] < s[4] + b3
    ensures Val(t) == Val(r) - Val(s) + (t[4] - (r[4] - s[4] - b3)) * W224
  {
    ValLimbs(r);
    ValLimbs(s);
    ValLimbs(t);
    hide Val;
  }

  ghost predicate AreWords(s: Scalar) {
    forall i :: 0 <= i < |s| ==> s[i] < W64
  }

  /** The borrow chain of reduce256_modm and barrett_reduce256_modm; a borrow out of the top gives back `top`. */
  method SubLimbs(r: Scalar, s: Scalar, top: u64) returns (t: Scalar, b: u64)
    requires Short(r) && Short(s) && top <= W40
    ensures b == (if Val(r) < Val(s) then 1 else 0) && AreWords(t)
    ensures b == 0 || top == W40 ==> Short(t) && Val(t) == Val(r) - Val(s) + b * top * W224
  {
    hide Val;
    var pb: u64, t0: u64, t1: u64, t2: u64, t3: u64, t4: u64;
    pb := s[0]; t0, b := SubWord(r[0], pb); pb := b;
    ghost var b0: int := b;
    pb := pb + s[1]; t1, b := SubWord(r[1], pb); pb := b;
    ghost var b1: int := b;
    pb := pb + s[2]; t2, b := SubWord(r[2], pb); pb := b;
    ghost var b2: int := b;
    pb := pb + s[3]; t3, b := SubWord(r[3], pb); pb := b;
    ghost var b3: int := b;
    pb := pb + s[4]; t4, b := SubTop(r[4], pb, top);
    t := [t0, t1, t2, t3, t4];
    BorrowChain(r, s, t, b0, b1, b2, b3);
  }

  /** The top word: a borrow gives back `top`. */
  method SubTop(r: u64, pb: u64, top: u64) returns (t: u64, b: u64)
    requires r < W40 && pb <= W40 && top <= W40
    ensures b == if r < pb then 1 else 0
    ensures b == 0 || top == W40 ==> t == r - pb + b * top && t < W40
  {
    b := Lt(r, pb);
    t := (r - pb + b * top) % W64;
  }

  /** reduce256_modm: m is taken away once, if it fits. */
  method Reduce(r: Scalar) returns (r': Scalar)
    requires Short(r)
    ensures Short(r') && Val(r') == if Val(r) < M then Val(r) else Val(r) - M
  {
    Constants();
    ValLimbs(MODULUS);
    hide Val;
    var t, b := SubLimbs(r, MODULUS, 0x100000000);
    r' := Replace(b, r, t);
  }

  /** r ^= mask & (r ^ t) with mask = b - 1, limb by limb. */
  method Replace(b: u64, r: Scalar, t: Scalar) returns (r': Scalar)
    requires b <= 1 && AreWords(r) && AreWords(t)
    ensures r' == if b == 0 then t else r
  {
    MaskOf(b);
    var mask: u64 := (b - 1) % W64;
    Copied(b, mask, r[0], t[0]);
    Copied(b, mask, r[1], t[1]);
    Copied(b, mask, r[2], t[2]);
    Copied(b, mask, r[3], t[3]);
    Copied(b, mask, r[4], t[4]);
    hide And, Xor;
    r' := [Xor(r[0], And(mask, Xor(r[0], t[0]))),
           Xor(r[1], And(mask, Xor(r[1], t[1]))),
           Xor(r[2], And(mask, Xor(r[2], t[2]))),
           Xor(r[3], And(mask, Xor(r[3], t[3]))),
           Xor(r[4], And(mask, Xor(r[4], t[4])))];
  }

  /** add256_modm */
  method Add(x: Scalar, y: Scalar) returns (r: Scalar)
    requires Canonical(x) && Canonical(y) && Val(x) + Val(y) < 2 * M
    ensures Short(r) && Val(r) == (Val(x) + Val(y)) % M
  {
    hide Val;
    var c: u64, r0: u64, r1: u64, r2: u64, r3: u64;
    c := x[0] + y[0]; r0 := c % W56; c := c / W56;
    ghost var c0: int := c;
    c := c + x[1] + y[1]; r1 := c % W56; c := c / W56;
    ghost var c1: int := c;
    c := c + x[2] + y[2]; r2 := c % W56; c := c / W56;
    ghost var c2: int := c;
    c := c + x[3] + y[3]; r3 := c % W56; c := c / W56;
    ghost var c3: int := c;
    c := c + x[4] + y[4];
    r := [r0, r1, r2, r3, c];
    CarryChain(x, y, r, c0, c1, c2, c3);
    SumMod(Val(r));
    r := Reduce(r);
  }

  /** Limb-wise addition with carries is addition. */
  lemma CarryChain(x: Scalar, y: Scalar, r: Scalar, c0: int, c1: int, c2: int, c3: int)
    requires r[0] == x[0] + y[0] - c0 * W56 && r[1] == c0 + x[1] + y[1] - c1 * W56
    requires r[2] == c1 + x[2] + y[2] - c2 * W56 && r[3] == c2 + x[3] + y[3] - c3 * W56 && r[4] == c3 + x[4] + y[4]
    ensures Val(r) == Val(x) + Val(y) && r[4] * W224 <= Val(r)
  {
    ValLimbs(x);
    ValLimbs(y);
    ValLimbs(r);
    hide Val;
  }

  /** Below 2m, one subtraction reduces. */
  lemma SumMod(v: int)
    requires 0 <= v < 2 * M
    ensures v % M == if v < M then v else v - M
  {
  }

  const W16: int := 0x10000
  const W96: int := 0x1_000000000000000000000000
  const W280: int := 0x1_0000000000000000000000000000000000000000000000000000000000000000000000

  /** The columns of mu * q1 that the code keeps, from weight 2^168 on. */
  function Kept(a: Scalar): int {
    Weigh(Column3(a), Column4(a), Column5(a), Column6(a), Column7(a), Column8(a))
  }

  function Weigh(k3: int, k4: int, k5: int, k6: int, k7: int, k8: int): int {
    k3 + k4 * W56 + k5 * W112 + k6 * W168 + k7 * W224 + k8 * W280
  }

  function Column3(a: Scalar): nat { MU0 * a[3] + MU3 * a[0] + MU1 * a[2] + MU2 * a[1] }
  function Column4(a: Scalar): nat { MU0 * a[4] + MU4 * a[0] + MU3 * a[1] + MU1 * a[3] + MU2 * a[2] }
  function Column5(a: Scalar): nat { MU4 * a[1] + MU1 * a[4] + MU2 * a[3] + MU3 * a[2] }
  function Column6(a: Scalar): nat { MU4 * a[2] + MU2 * a[4] + MU3 * a[3] }
  function Column7(a: Scalar): nat { MU4 * a[3] + MU3 * a[4] }
  function Column8(a: Scalar): nat { MU4 * a[4] }

  /** The three columns left out weigh less than 2^226. */
  lemma Dropped(a: Scalar)
    requires Short(a)
    ensures Kept(a) * W168 <= MU * Val(a) < Kept(a) * W168 + 4 * W224
  {
    ValLimbs(a);
    hide Val;
    assert MU * Val(a) - Kept(a) * W168
        == MU0 * a[0] + (MU0 * a[1] + MU1 * a[0]) * W56 + (MU0 * a[2] + MU1 * a[1] + MU2 * a[0]) * W112;
  }

  /** The word arithmetic on a column c == lo + hi 2^40 + f 2^56. */
  lemma CutWord(c: int, lo: int, hi: int, f: int)
    requires c == lo + hi * W40 + f * W56 && 0 <= lo < W40 && 0 <= hi < W16 && 0 <= f
    ensures c % W64 / W40 % W16 == hi && (c % W64 * W16) % W64 % W56 == lo * W16
  {
    var g, h := f % 256, hi % 256;
    assert c == (f / 256) * W64 + (lo + hi * W40 + g * W56);
    DivModUnique(c, W64, f / 256, lo + hi * W40 + g * W56);
    var w := c % W64;
    DivModUnique(w, W40, hi + g * W16, lo);
    DivModUnique(hi + g * W16, W16, g, hi);
    assert w * W16 == (hi / 256 + g * 256) * W64 + (lo * W16 + h * W56);
    DivModUnique(w * W16, W64, hi / 256 + g * 256, lo * W16 + h * W56);
    DivModUnique(lo * W16 + h * W56, W56, h, lo * W16);
  }

  /** A column as its low 40 bits shifted up by 16, the next 16 bits and the carry out of 56. */
  method Cut(c: u128) returns (low: u64, hi: u64, f: u64, ghost lo: int)
    requires c < 0x1_00000000000000000000000000000
    ensures c == lo + hi * W40 + f * W56 && 0 <= lo < W40 && hi < W16 && low == lo * W16
  {
    lo := c % W40;
    ghost var d := c / W40;
    assert c == lo + d * W40 && d == d % W16 + (d / W16) * W16;
    CutWord(c, lo, d % W16, d / W16);
    DivModUnique(c, W56, d / W16, lo + (d % W16) * W40);
    f := c % W64;
    hi := f / W40 % W16;
    low := (f * W16) % W64 % W56;
    f := c / W56;
  }

  lemma ColumnBounds(a: Scalar)
    requires Short(a)
    ensures Column3(a) < 5 * W112 && Column4(a) < 5 * W112 && Column5(a) < 5 * W112
    ensures Column6(a) < 5 * W112 && Column7(a) < 5 * W112 && Column8(a) < 0x1_0000000000000000000
  {
  }

  /** The digits put together are the kept columns without their low 96 bits. */
  lemma Assemble(t: int, k3: int, k4: int, k5: int, k6: int, k7: int, k8: int, r3: int, f3: int,
                 l4: int, h4: int, f4: int, l5: int, h5: int, f5: int, l6: int, h6: int, f6: int,
                 l7: int, h7: int, f7: int, l8: int, h8: int, f8: int)
    requires t == Weigh(k3, k4, k5, k6, k7, k8)
    requires k3 == r3 + f3 * W56 && k4 + f3 == l4 + h4 * W40 + f4 * W56 && k5 + f4 == l5 + h5 * W40 + f5 * W56
    requires k6 + f5 == l6 + h6 * W40 + f6 * W56 && k7 + f6 == l7 + h7 * W40 + f7 * W56
    requires k8 + f7 == l8 + h8 * W40 + f8 * W56
    ensures t == Five(l5 * W16 + h4, l6 * W16 + h5, l7 * W16 + h6, l8 * W16 + h7, f8 * W16 + h8) * W96 + l4 * W56 + r3
  {
  }

  /** Carries the kept columns and puts the digits from bit 96 on together. */
  method Digits(k3: u128, k4: u128, k5: u128, k6: u128, k7: u128, k8: u128) returns (q: Scalar, ghost rest: int)
    requires k3 < 5 * W112 && k4 < 5 * W112 && k5 < 5 * W112 && k6 < 5 * W112 && k7 < 5 * W112
    requires k8 < 0x1_0000000000000000000
    ensures Weigh(k3, k4, k5, k6, k7, k8) == Val(q) * W96 + rest && 0 <= rest < W96
    ensures Short(q)
  {
    hide Five, Weigh;
    var f: u64, low: u64;
    var a0: u64, a1: u64, a2: u64, a3: u64, a4: u64;
    ghost var l4, l5, l6, l7, l8: int;
    f := k3 / W56;
    ghost var r3: int, f3: int := k3 % W56, f;
    low, a0, f, l4 := Cut(k4 + f);
    ghost var h4: int, f4: int := a0, f;
    low, a1, f, l5 := Cut(k5 + f); a0 := a0 + low;
    ghost var h5: int, f5: int := a1, f;
    low, a2, f, l6 := Cut(k6 + f); a1 := a1 + low;
    ghost var h6: int, f6: int := a2, f;
    low, a3, f, l7 := Cut(k7 + f); a2 := a2 + low;
    ghost var h7: int, f7: int := a3, f;
    low, a4, f, l8 := Cut(k8 + f); a3 := a3 + low;
    ghost var h8: int, f8: int := a4, f;
    a4 := a4 + f * W16;
    q := [a0, a1, a2, a3, a4];
    rest := l4 * W56 + r3;
    ValLimbs(q);
    hide Val;
    Assemble(Weigh(k3, k4, k5, k6, k7, k8), k3, k4, k5, k6, k7, k8, r3, f3,
             l4, h4, f4, l5, h5, f5, l6, h6, f6, l7, h7, f7, l8, h8, f8);
  }

  /** The quotient estimate: mu * q1 / 2^264, computed without the low columns. */
  method Estimate(q1: Scalar) returns (q3: Scalar)
    requires Short(q1)
    ensures Short(q3) && Val(q3) * W264 <= MU * Val(q1) < Val(q3) * W264 + W264 + 4 * W224
  {
    Dropped(q1);
    ColumnBounds(q1);
    hide Val, Short, Column3, Column4, Column5, Column6, Column7, Column8, Weigh;
    ghost var rest;
    q3, rest := Digits(Column3(q1), Column4(q1), Column5(q1), Column6(q1), Column7(q1), Column8(q1));
  }

  /** The estimate is never too large and at most two too small. */
  lemma QuotientRange(x: int, q1: int, q3: int)
    requires 0 <= x < W512 && q1 == x / W248
    requires q3 * W264 <= MU * q1 < q3 * W264 + W264 + 4 * W224
    ensures 0 <= x - q3 * M < 3 * M && x / M - 2 <= q3 <= x / M
  {
    assert q1 * W248 <= x < q1 * W248 + W248;
    assert 0 <= x - q3 * M < 3 * M;
  }

  /** The columns of q * m below weight 2^280, carried, are the product modulo 2^264. */
  lemma LowProduct(a: Scalar, r: Scalar, f0: int, f1: int, f2: int, f3: int, f4: int)
    requires r[0] + f0 * W56 == M0 * a[0] && r[1] + f1 * W56 == M0 * a[1] + f0 + M1 * a[0]
    requires r[2] + f2 * W56 == M0 * a[2] + f1 + M2 * a[0] + M1 * a[1]
    requires r[3] + f3 * W56 == M0 * a[3] + f2 + M1 * a[2] + M2 * a[1]
    requires r[4] + f4 * W40 == M0 * a[4] + f3 + M4 * a[0] + M1 * a[3] + M2 * a[2]
    requires Short(r)
    ensures Val(r) == (Val(a) * M) % W264
  {
    ValLimbs(a);
    ValLimbs(r);
    hide Val;
    var high := (M4 * a[1] + M1 * a[4] + M2 * a[3]) + (M4 * a[2] + M2 * a[4]) * W56 + M4 * a[3] * W112 + M4 * a[4] * W168;
    assert Val(a) * M == (f4 + high * W16) * W264 + Val(r);
    DivModUnique(Val(a) * M, W264, f4 + high * W16, Val(r));
  }

  lemma LowBits(c: int, w: int)
    requires 0 <= c && (w == W56 || w == W40)
    ensures c % W64 % w == c % w
  {
    var k := if w == W56 then 256 else 0x1000000;
    assert c == c / W64 * W64 + c % W64;
    assert c % W64 == c + (-(c / W64) * k) * w;
    ModShift(c, -(c / W64) * k, w);
  }

  /** The low 56 bits of a column and its carry. */
  method Limb(c: u128) returns (r: u64, f: u64)
    requires c < 0x1_000000000000000000000000000000
    ensures c == r + f * W56 && r < W56
  {
    LowBits(c, W56);
    r := c % W64 % W56;
    f := c / W56;
  }

  /** The low 40 bits of the last column. */
  method LimbTop(c: u128) returns (r: u64, ghost f: int)
    ensures c == r + f * W40 && r < W40
  {
    LowBits(c, W40);
    r := c % W64 % W40;
    f := c / W40;
  }

  /** q3 * m modulo 2^264. */
  method TimesModulus(q3: Scalar) returns (r2: Scalar)
    requires Short(q3)
    ensures Short(r2) && Val(r2) == (Val(q3) * M) % W264
  {
    hide Val;
    var f: u64, r0: u64, r1: u64, r2': u64, r3: u64, r4: u64;
    r0, f := Limb(M0 * q3[0]);
    ghost var f0: int := f;
    r1, f := Limb(M0 * q3[1] + f + M1 * q3[0]);
    ghost var f1: int := f;
    r2', f := Limb(M0 * q3[2] + f + M2 * q3[0] + M1 * q3[1]);
    ghost var f2: int := f;
    r3, f := Limb(M0 * q3[3] + f + 0 * q3[0] + M1 * q3[2] + M2 * q3[1]);
    ghost var f3: int := f;
    ghost var f4;
    r4, f4 := LimbTop(M0 * q3[4] + f + M4 * q3[0] + 0 * q3[1] + M1 * q3[3] + M2 * q3[2]);
    r2 := [r0, r1, r2', r3, r4];
    LowProduct(q3, r2, f0, f1, f2, f3, f4);
  }

  /** The difference of remainders, with one wrap-around, is the remainder of the difference. */
  lemma WrappedDifference(x: int, y: int, w: int, b: int)
    requires 0 <= x - y < w && b == if x % w < y % w then 1 else 0
    ensures x % w - y % w + b * w == x - y
  {
    var d := x / w - y / w;
    assert x == x / w * w + x % w && y == y / w * w + y % w;
    MulDistrib(x / w, y / w, w);
    if d < -1 {
      MulLt(d, -1, w);
    } else if d > 1 {
      MulLt(1, d, w);
    }
  }

  /** barrett_reduce256_modm: exactly x mod m, for every x below 2^512. */
  method Barrett(q1: Scalar, r1: Scalar, ghost x: int) returns (r: Scalar)
    requires 0 <= x < W512 && Short(q1) && Short(r1) && Val(q1) == x / W248 && Val(r1) == x % W264
    ensures Short(r) && Val(r) == x % M
  {
    hide Val, Short;
    var q3 := Estimate(q1);
    QuotientRange(x, Val(q1), Val(q3));
    var r2 := TimesModulus(q3);
    var b;
    r, b := SubLimbs(r1, r2, W40);
    WrappedDifference(x, Val(q3) * M, W264, b);
    ThreeMod(x, Val(q3));
    r := Reduce(r);
    r := Reduce(r);
  }

  lemma ThreeMod(x: int, q: int)
    requires 0 <= x - q * M < 3 * M
    ensures var v := x - q * M; x % M == if v < M then v else if v < 2 * M then v - M else v - 2 * M
  {
    var v := x - q * M;
    var k := if v < M then 0 else if v < 2 * M then 1 else 2;
    DivModUnique(x, M, q + k, v - k * M);
  }

  const W24: int := 0x1000000

  /** The columns of a product of two scalars, as the code adds them up. */
  function Column(x: Scalar, y: Scalar, k: nat): int
    requires k < 9
  {
    if k == 0 then x[0] * y[0]
    else if k == 1 then x[0] * y[1] + x[1] * y[0]
    else if k == 2 then x[0] * y[2] + x[2] * y[0] + x[1] * y[1]
    else if k == 3 then x[0] * y[3] + x[3] * y[0] + x[1] * y[2] + x[2] * y[1]
    else if k == 4 then x[0] * y[4] + x[4] * y[0] + x[3] * y[1] + x[1] * y[3] + x[2] * y[2]
    else if k == 5 then x[4] * y[1] + x[1] * y[4] + x[2] * y[3] + x[3] * y[2]
    else if k == 6 then x[4] * y[2] + x[2] * y[4] + x[3] * y[3]
    else if k == 7 then x[4] * y[3] + x[3] * y[4]
    else x[4] * y[4]
  }

  function Weigh9(k0: int, k1: int, k2: int, k3: int, k4: int, k5: int, k6: int, k7: int, k8: int): int {
    Five(k0, k1, k2, k3, k4) + W280 * Five(k5, k6, k7, k8, 0)
  }

  /** A limb times a scalar, limb by limb. */
  lemma Row(x: int, y: Scalar)
    ensures x * Val(y) == Five(x * y[0], x * y[1], x * y[2], x * y[3], x * y[4])
  {
    ValLimbs(y);
    hide Val;
  }

  lemma Rows(x: Scalar, v: int)
    ensures Val(x) * v == Five(x[0] * v, x[1] * v, x[2] * v, x[3] * v, x[4] * v)
  {
    ValLimbs(x);
    hide Val;
  }

  lemma ColumnsExact(x: Scalar, y: Scalar)
    ensures Val(x) * Val(y) == Weigh9(Column(x, y, 0), Column(x, y, 1), Column(x, y, 2), Column(x, y, 3), Column(x, y, 4),
                                      Column(x, y, 5), Column(x, y, 6), Column(x, y, 7), Column(x, y, 8))
  {
    hide Val;
    Rows(x, Val(y));
    Row(x[0], y);
    Row(x[1], y);
    Row(x[2], y);
    Row(x[3], y);
    Row(x[4], y);
  }

  lemma LimbProduct(x: int, y: int)
    requires 0 <= x < W56 && 0 <= y < W56
    ensures 0 <= x * y < W112
  {
    MulNat(x, y);
    MulLe(x, W56, y);
  }

  lemma LimbProducts(x: Scalar, y: int)
    requires Canonical(x) && 0 <= y < W56
    ensures 0 <= x[0] * y < W112 && 0 <= x[1] * y < W112 && 0 <= x[2] * y < W112
    ensures 0 <= x[3] * y < W112 && 0 <= x[4] * y < W112
  {
    LimbProduct(x[0], y);
    LimbProduct(x[1], y);
    LimbProduct(x[2], y);
    LimbProduct(x[3], y);
    LimbProduct(x[4], y);
  }

  lemma ColumnBound(x: Scalar, y: Scalar, k: nat)
    requires Canonical(x) && Canonical(y) && k < 9
    ensures 0 <= Column(x, y, k) < 5 * W112
  {
    LimbProducts(x, y[0]);
    LimbProducts(x, y[1]);
    LimbProducts(x, y[2]);
    LimbProducts(x, y[3]);
    LimbProducts(x, y[4]);
  }

  /** The word arithmetic on a column c == lo + hi 2^24 + f 2^56. */
  lemma CutWord24(c: int, lo: int, hi: int, f: int)
    requires c == lo + hi * W24 + f * W56 && 0 <= lo < W24 && 0 <= hi < W32 && 0 <= f
    ensures c % W64 / W24 % W32 == hi && (c % W64 * W32) % W64 % W56 == lo * W32
  {
    var g, h := f % 256, hi % 256;
    assert c == (f / 256) * W64 + (lo + hi * W24 + g * W56);
    DivModUnique(c, W64, f / 256, lo + hi * W24 + g * W56);
    var w := c % W64;
    DivModUnique(w, W24, hi + g * W32, lo);
    DivModUnique(hi + g * W32, W32, g, hi);
    assert w * W32 == (hi / 256 + g * W24) * W64 + (lo * W32 + h * W56);
    DivModUnique(w * W32, W64, hi / 256 + g * W24, lo * W32 + h * W56);
    DivModUnique(lo * W32 + h * W56, W56, h, lo * W32);
  }

  /** A column as its low 24 bits shifted up by 32, the next 32 bits and the carry out of 56. */
  method Cut24(c: u128) returns (low: u64, hi: u64, f: u64, ghost lo: int)
    requires c < 0x1_00000000000000000000000000000
    ensures c == lo + hi * W24 + f * W56 && 0 <= lo < W24 && hi < W32 && low == lo * W32
  {
    lo := c % W24;
    ghost var d := c / W24;
    assert c == lo + d * W24 && d == d % W32 + (d / W32) * W32;
    CutWord24(c, lo, d % W32, d / W32);
    DivModUnique(c, W56, d / W32, lo + (d % W32) * W24);
    f := c % W64;
    hi := f / W24 % W32;
    low := (f * W32) % W64 % W56;
    f := c / W56;
  }

  /** The digits from bit 248 on, and below. */
  lemma AssembleHigh(x: int, k4: int, k5: int, k6: int, k7: int, k8: int, low: int,
                     l4: int, h4: int, f4: int, l5: int, h5: int, f5: int, l6: int, h6: int, f6: int,
                     l7: int, h7: int, f7: int, l8: int, h8: int, f8: int)
    requires x == low + k4 * W224 + W280 * Five(k5, k6, k7, k8, 0)
    requires k4 == l4 + h4 * W24 + f4 * W56 && k5 + f4 == l5 + h5 * W24 + f5 * W56
    requires k6 + f5 == l6 + h6 * W24 + f6 * W56 && k7 + f6 == l7 + h7 * W24 + f7 * W56
    requires k8 + f7 == l8 + h8 * W24 + f8 * W56
    ensures x == Five(l5 * W32 + h4, l6 * W32 + h5, l7 * W32 + h6, l8 * W32 + h7, f8 * W32 + h8) * W248 + l4 * W224 + low
  {
  }

  /** x >> 248 from the columns of weight 2^224 and more. */
  method HighPart(k4: u128, k5: u128, k6: u128, k7: u128, k8: u128, ghost low: int, ghost x: int) returns (q: Scalar)
    requires k4 < 6 * W112 && k5 < 5 * W112 && k6 < 5 * W112 && k7 < 5 * W112 && k8 < 5 * W112
    requires x == low + k4 * W224 + W280 * Five(k5, k6, k7, k8, 0) && 0 <= low < W224 && 0 <= x < W512
    ensures Short(q) && Val(q) == x / W248
  {
    hide Five;
    var f: u64, low32: u64;
    var a0: u64, a1: u64, a2: u64, a3: u64, a4: u64;
    ghost var l4, l5, l6, l7, l8: int;
    low32, a0, f, l4 := Cut24(k4);
    ghost var h4: int, f4: int := a0, f;
    low32, a1, f, l5 := Cut24(k5 + f); a0 := a0 + low32;
    ghost var h5: int, f5: int := a1, f;
    low32, a2, f, l6 := Cut24(k6 + f); a1 := a1 + low32;
    ghost var h6: int, f6: int := a2, f;
    low32, a3, f, l7 := Cut24(k7 + f); a2 := a2 + low32;
    ghost var h7: int, f7: int := a3, f;
    low32, a4, f, l8 := Cut24(k8 + f); a3 := a3 + low32;
    ghost var h8: int, f8: int := a4, f;
    AssembleHigh(x, k4, k5, k6, k7, k8, low, l4, h4, f4, l5, h5, f5, l6, h6, f6, l7, h7, f7, l8, h8, f8);
    HighLimb(x, Five(a0, a1, a2, a3, f8 * W32 + h8), l4 * W224 + low, a0, a1, a2, a3, f8 * W32 + h8);
    a4 := a4 + f * W32;
    q := [a0, a1, a2, a3, a4];
    ValLimbs(q);
  }

  /** A number below 2^512 has a top part below 2^264. */
  lemma HighLimb(x: int, q: int, rest: int, a0: int, a1: int, a2: int, a3: int, a4: int)
    requires 0 <= x < W512 && x == q * W248 + rest && 0 <= rest < W248 && q == Five(a0, a1, a2, a3, a4)
    requires 0 <= a0 && 0 <= a1 && 0 <= a2 && 0 <= a3
    ensures q == x / W248 && a4 < W40
  {
    DivModUnique(x, W248, q, rest);
  }

  /** x mod 2^264 from the four low columns, carried, and the fifth with their carry in it. */
  lemma LowPart(x: int, k0: int, k1: int, k2: int, k3: int, c4: int, high: int, r: Scalar,
                f0: int, f1: int, f2: int, f3: int, f4: int)
    requires k0 == r[0] + f0 * W56 && k1 + f0 == r[1] + f1 * W56 && k2 + f1 == r[2] + f2 * W56 && k3 + f2 == r[3] + f3 * W56
    requires c4 == r[4] + f4 * W40 && Short(r)
    requires x == Five(k0, k1, k2, k3, c4 - f3) + W280 * high
    ensures Val(r) == x % W264 && x == Five(r[0], r[1], r[2], r[3], 0) + c4 * W224 + W280 * high
  {
    ValLimbs(r);
    hide Val;
    assert x == (f4 + high * W16) * W264 + Val(r);
    DivModUnique(x, W264, f4 + high * W16, Val(r));
  }

  /** mul256_modm: xy mod m, whenever the product is below 2^512. */
  method Mul(x: Scalar, y: Scalar) returns (r: Scalar)
    requires Canonical(x) && Canonical(y) && Val(x) * Val(y) < W512
    ensures Short(r) && Val(r) == (Val(x) * Val(y)) % M
  {
    MulNat(Val(x), Val(y));
    ColumnsExact(x, y);
    ghost var xy := Val(x) * Val(y);
    forall k: nat | k < 9
      ensures 0 <= Column(x, y, k) < 5 * W112
    {
      ColumnBound(x, y, k);
    }
    hide Val, Canonical, Column;
    var f: u64, r0: u64, r1: u64, r2: u64, r3: u64, r4: u64;
    r0, f := Limb(Column(x, y, 0));
    ghost var f0: int := f;
    r1, f := Limb(Column(x, y, 1) + f);
    ghost var f1: int := f;
    r2, f := Limb(Column(x, y, 2) + f);
    ghost var f2: int := f;
    r3, f := Limb(Column(x, y, 3) + f);
    ghost var f3: int := f;
    var c4: u128 := Column(x, y, 4) + f;
    ghost var f4;
    r4, f4 := LimbTop(c4);
    var low := [r0, r1, r2, r3, r4];
    ghost var high := Five(Column(x, y, 5), Column(x, y, 6), Column(x, y, 7), Column(x, y, 8), 0);
    hide Five;
    LowPart(xy, Column(x, y, 0), Column(x, y, 1), Column(x, y, 2), Column(x, y, 3), c4, high, low, f0, f1, f2, f3, f4);
    FourBound(low);
    var q1 := HighPart(c4, Column(x, y, 5), Column(x, y, 6), Column(x, y, 7), Column(x, y, 8), Five(r0, r1, r2, r3, 0), xy);
    r := Barrett(q1, low, xy);
  }

  lemma FourBound(r: Scalar)
    requires Short(r)
    ensures 0 <= Five(r[0], r[1], r[2], r[3], 0) < W224
  {
  }
}
