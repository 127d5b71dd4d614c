/**
 Scalars as five 56-bit limbs held in 64-bit words, and the limb-wise helpers of
 batch verification that look only at the low limbs (modm-donna-64bit.h).
 */
module Scalars {
  import opened Arith

  const W63: int := 0x8000000000000000
  const W56: int := 0x100000000000000
  const W112: int := 0x1_0000000000000000000000000000
  const W168: int := 0x1_000000000000000000000000000000000000000000
  const W224: int := 0x1_00000000000000000000000000000000000000000000000000000000
  const LIMBS: nat := 5

  /** bignum256modm: little-endian limbs, least significant first. */
  type Scalar = s: seq<nat> | |s| == LIMBS witness [0, 0, 0, 0, 0]

  predicate Canonical(s: Scalar) {
    forall i :: 0 <= i < |s| ==> s[i] < W56
  }

  /** 2^(56 n) */
  function Radix(n: nat): (r: nat)
    ensures r > 0
  {
    if n == 0 then 1 else W56 * Radix(n - 1)
  }

  /** Value of the n low limbs. */
  function Low(s: Scalar, n: nat): nat
    requires n <= |s|
  {
    if n == 0 then 0 else Low(s, n - 1) + s[n - 1] * Radix(n - 1)
  }

  function Val(s: Scalar): nat {
    Low(s, |s|)
  }

  /** All limbs above index `top` are zero. */
  predicate Fits(s: Scalar, top: nat) {
    forall i :: top < i < |s| ==> s[i] == 0
  }

  /** The word (a[i] - b[i]) - carry with 64-bit wrap-around. */
  function Difference(a: Scalar, b: Scalar, i: nat): nat
    requires i < LIMBS
    decreases 2 * i + 1
  {
    (a[i] - b[i] - Borrow(a, b, i)) % W64
  }

  /** Sign bit carried into limb i. */
  function Borrow(a: Scalar, b: Scalar, i: nat): nat
    requires i <= LIMBS
    decreases 2 * i
  {
    if i == 0 then 0 else Difference(a, b, i - 1) / W63
  }

  /** lt256_modm_batch: is a < b, looking at limbs 0..limbsize */
  predicate LtBatch(a: Scalar, b: Scalar, limbsize: nat) {
    limbsize < LIMBS && Borrow(a, b, limbsize + 1) == 1
  }

  /** lte256_modm_batch: is a <= b, looking at limbs 0..limbsize */
  predicate LteBatch(a: Scalar, b: Scalar, limbsize: nat) {
    limbsize >= LIMBS || Borrow(b, a, limbsize + 1) == 0
  }

  /** Limb i after sub256_modm_batch(out, a, b, limbsize): the top word is not masked. */
  function SubLimb(out: Scalar, a: Scalar, b: Scalar, limbsize: nat, i: nat): nat
    requires i < LIMBS
  {
    if limbsize >= LIMBS then (if i == 0 then Difference(a, b, 0) else out[i])
    else if i < limbsize then Difference(a, b, i) % W56
    else if i == limbsize then Difference(a, b, i)
    else out[i]
  }

  /** sub256_modm_batch: the low limbs of `out` become those of a - b, the others stay. */
  function SubBatch(out: Scalar, a: Scalar, b: Scalar, limbsize: nat): Scalar {
    seq(LIMBS, i requires 0 <= i < LIMBS => SubLimb(out, a, b, limbsize, i))
  }

  /** iszero256_modm_batch */
  predicate IsZero(a: Scalar) { forall i :: 0 <= i < |a| ==> a[i] == 0 }

  /** isone256_modm_batch */
  predicate IsOne(a: Scalar) { forall i :: 0 <= i < |a| ==> a[i] == if i == 0 then 1 else 0 }

  /** isatmost128bits256_modm_batch: limb 2 holds bits 112..167 and is masked above bit 127. */
  predicate IsAtMost128Bits(a: Scalar) {
    a[4] == 0 && a[3] == 0 && (a[2] % W56) / 0x10000 == 0
  }

  /** One word of the borrow chain: wrap-around puts the sign in bit 63. */
  lemma WrapStep(t: int)
    requires -W56 <= t < W56
    ensures t >= 0 ==> t % W64 == t && (t % W64) / W63 == 0 && (t % W64) % W56 == t
    ensures t < 0 ==> t % W64 == t + W64 && (t % W64) / W63 == 1 && (t % W64) % W56 == t + W56
  {
    if t < 0 {
      assert t + W64 == 255 * W56 + (t + W56);
    }
  }

  lemma {:induction false} LowBound(a: Scalar, n: nat)
    requires n <= |a| && Canonical(a)
    ensures Low(a, n) < Radix(n)
  {
    if n > 0 {
      LowBound(a, n - 1);
      MulLt(a[n - 1], W56, Radix(n - 1));
    }
  }

  /** Digit-by-digit comparison: the top digit decides, then the rest. */
  lemma TopDecides(la: nat, lb: nat, x: int, y: int, r: nat)
    requires la < r && lb < r
    ensures la + x * r < lb + y * r <==> x < y || (x == y && la < lb)
  {
    if x == y {
    } else if x < y {
      MulLt(x, y, r);
    } else {
      MulLt(y, x, r);
    }
  }

  /** The borrow chain is exact: it equals one just when the low part of a is below that of b. */
  lemma {:induction false} BorrowExact(a: Scalar, b: Scalar, n: nat)
    requires n <= LIMBS && Canonical(a) && Canonical(b)
    ensures Borrow(a, b, n) == if Low(a, n) < Low(b, n) then 1 else 0
  {
    if n > 0 {
      BorrowExact(a, b, n - 1);
      WrapStep(a[n - 1] - b[n - 1] - Borrow(a, b, n - 1));
      LowBound(a, n - 1);
      LowBound(b, n - 1);
      TopDecides(Low(a, n - 1), Low(b, n - 1), a[n - 1], b[n - 1], Radix(n - 1));
    }
  }

  /** A scalar with no limb above `top` is determined by its low limbs. */
  lemma {:induction false} FitsLow(a: Scalar, top: nat, n: nat)
    requires top < n <= |a| && Fits(a, top)
    ensures Low(a, n) == Low(a, top + 1)
  {
    if top + 1 < n {
      FitsLow(a, top, n - 1);
    }
  }

  /** On scalars that fit, the truncated comparisons are the full ones. */
  lemma CompareExact(a: Scalar, b: Scalar, limbsize: nat)
    requires limbsize < LIMBS && Canonical(a) && Canonical(b) && Fits(a, limbsize) && Fits(b, limbsize)
    ensures LtBatch(a, b, limbsize) <==> Val(a) < Val(b)
    ensures LteBatch(a, b, limbsize) <==> Val(a) <= Val(b)
  {
    BorrowExact(a, b, limbsize + 1);
    BorrowExact(b, a, limbsize + 1);
    FitsLow(a, limbsize, |a|);
    FitsLow(b, limbsize, |b|);
  }

  /** The masked differences of the low n limbs are a - b with the final borrow added back. */
  lemma {:induction false} SubLow(a: Scalar, b: Scalar, d: Scalar, n: nat)
    requires n <= LIMBS && Canonical(a) && Canonical(b)
    requires forall i :: 0 <= i < n ==> d[i] == Difference(a, b, i) % W56
    ensures Low(d, n) == Low(a, n) - Low(b, n) + Borrow(a, b, n) * Radix(n)
  {
    if n > 0 {
      SubLow(a, b, d, n - 1);
      BorrowExact(a, b, n - 1);
      var c: int := Borrow(a, b, n - 1);
      WrapStep(a[n - 1] - b[n - 1] - c);
      BorrowWeights(a[n - 1], b[n - 1], c, Borrow(a, b, n), Radix(n - 1));
    }
  }

  lemma BorrowWeights(a: int, b: int, c: int, e: int, r: int)
    ensures (a - b - c + e * W56) * r == a * r - b * r - c * r + e * (W56 * r)
  {
  }

  /** On scalars that fit, in-place truncated subtraction is full subtraction. */
  lemma SubExact(a: Scalar, b: Scalar, limbsize: nat)
    requires limbsize < LIMBS && Canonical(a) && Canonical(b) && Fits(a, limbsize) && Fits(b, limbsize)
    requires Val(b) <= Val(a)
    ensures var d := SubBatch(a, a, b, limbsize);
      Canonical(d) && Fits(d, limbsize) && Val(d) == Val(a) - Val(b)
  {
    var d := SubBatch(a, a, b, limbsize);
    FitsLow(a, limbsize, |a|);
    FitsLow(b, limbsize, |b|);
    BorrowExact(a, b, limbsize);
    BorrowExact(a, b, limbsize + 1);
    // the unmasked top word did not wrap
    WrapStep(a[limbsize] - b[limbsize] - Borrow(a, b, limbsize));
    SubLow(a, b, d, limbsize + 1);
    FitsLow(d, limbsize, |d|);
  }

  /** The value of five limbs written out. */
  function Five(a0: int, a1: int, a2: int, a3: int, a4: int): int {
    a0 + a1 * W56 + a2 * W112 + a3 * W168 + a4 * W224
  }

  lemma ValLimbs(a: Scalar)
    ensures Val(a) == Five(a[0], a[1], a[2], a[3], a[4])
  {
    RadixValues();
    assert Low(a, 1) == a[0] * Radix(0);
    assert Low(a, 2) == Low(a, 1) + a[1] * Radix(1);
    assert Low(a, 3) == Low(a, 2) + a[2] * Radix(2);
    assert Low(a, 4) == Low(a, 3) + a[3] * Radix(3);
    assert Low(a, 5) == Low(a, 4) + a[4] * Radix(4);
  }

  lemma RadixValues()
    ensures Radix(0) == 1 && Radix(1) == W56 && Radix(2) == W112 && Radix(3) == W168 && Radix(4) == W224
  {
  }

  /** What the three limb tests say about the value. */
  lemma Classify(a: Scalar)
    requires Canonical(a)
    ensures IsZero(a) <==> Val(a) == 0
    ensures IsOne(a) <==> Val(a) == 1
    ensures IsAtMost128Bits(a) <==> Val(a) < W128
  {
    ValLimbs(a);
  }

  lemma FitsBound(a: Scalar, top: nat)
    requires Canonical(a) && top < LIMBS
    ensures Fits(a, top) <==> Val(a) < Radix(top + 1)
  {
    if Fits(a, top) {
      FitsLow(a, top, |a|);
      LowBound(a, top + 1);
    } else {
      var i :| top < i < |a| && a[i] != 0;
      LimbBelow(a, i, |a|);
      MulLe(1, a[i], Radix(i));
      RadixGrows(top + 1, i);
    }
  }

  lemma {:induction false} LimbBelow(a: Scalar, i: nat, n: nat)
    requires i < n <= |a|
    ensures a[i] * Radix(i) <= Low(a, n)
  {
    if i + 1 < n {
      LimbBelow(a, i, n - 1);
    }
  }

  lemma {:induction false} RadixGrows(m: nat, n: nat)
    requires m <= n
    ensures Radix(m) <= Radix(n)
  {
    if m < n {
      RadixGrows(m, n - 1);
    }
  }
}
