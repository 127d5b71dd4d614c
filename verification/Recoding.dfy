/** Signed-digit forms of scalars (contract256_window4_modm and contract256_slidingwindow_modm). */
module Recoding {
  import opened Arith
  import opened Scalars

  /** The number that the digits from index i on stand for, in base b. */
  function Digits(d: seq<int>, b: int, i: nat): int
    requires i <= |d|
    decreases |d| - i
  {
    if i == |d| then 0 else d[i] + b * Digits(d, b, i + 1)
  }

  /** Changing one digit. */
  lemma {:induction false} DigitsUpdate(d: seq<int>, b: int, i: nat, k: nat, x: int)
    requires i <= k < |d|
    ensures Digits(d[k := x], b, i) == Digits(d, b, i) + (x - d[k]) * Pow(b, k - i)
    decreases k - i
  {
    if i == k {
      DigitsSame(d, d[k := x], b, k + 1);
    } else {
      DigitsUpdate(d, b, i + 1, k, x);
      assert b * ((x - d[k]) * Pow(b, k - i - 1)) == (x - d[k]) * Pow(b, k - i);
      MulDistribute(b, Digits(d, b, i + 1), (x - d[k]) * Pow(b, k - i - 1));
    }
  }

  lemma MulDistribute(b: int, x: int, y: int)
    ensures b * (x + y) == b * x + b * y
  {
  }

  lemma {:induction false} DigitsSame(d: seq<int>, e: seq<int>, b: int, i: nat)
    requires |d| == |e| && i <= |d| && (forall k :: i <= k < |d| ==> d[k] == e[k])
    ensures Digits(d, b, i) == Digits(e, b, i)
    decreases |d| - i
  {
    if i < |d| {
      DigitsSame(d, e, b, i + 1);
    }
  }

  /** One more digit at the top. */
  lemma {:induction false} DigitsAppend(d: seq<int>, b: int, x: int, i: nat)
    requires i <= |d|
    ensures Digits(d + [x], b, i) == Digits(d, b, i) + x * Pow(b, |d| - i)
    decreases |d| - i
  {
    if i < |d| {
      DigitsAppend(d, b, x, i + 1);
      assert b * (x * Pow(b, |d| - i - 1)) == x * Pow(b, |d| - i);
      MulDistribute(b, Digits(d, b, i + 1), x * Pow(b, |d| - i - 1));
    } else {
      assert Digits(d + [x], b, i + 1) == 0;
    }
  }

  /**
   Writes the n low base-b digits of v to r[at..at + n]: the inner loops that take a limb apart.
   */
  method Fill(r: array<int>, at: nat, v: nat, b: nat, n: nat)
    requires at + n <= r.Length && 2 <= b && v < Pow(b, n)
    modifies r
    ensures forall k :: 0 <= k < at ==> r[k] == old(r[k])
    ensures forall k :: at <= k < at + n ==> 0 <= r[k] < b
    ensures Digits(r[..at + n], b, 0) == Digits(old(r[..at]), b, 0) + v * Pow(b, at)
  {
    var v' := v;
    var j := 0;
    ghost var d0 := r[..at];
    while j < n
      invariant 0 <= j <= n && 0 <= v' < Pow(b, n - j)
      invariant forall k :: 0 <= k < at ==> r[k] == old(r[k])
      invariant forall k :: at <= k < at + j ==> 0 <= r[k] < b
      invariant Digits(r[..at + j], b, 0) + v' * Pow(b, at + j) == Digits(d0, b, 0) + v * Pow(b, at)
    {
      ghost var d := r[..at + j];
      r[at + j] := v' % b;
      assert r[..at + j + 1] == d + [v' % b];
      DigitsAppend(d, b, v' % b, 0);
      NextDigit(v', b, Pow(b, at + j), Pow(b, n - j - 1));
      v' := v' / b;
      j := j + 1;
    }
    assert d0 == old(r[..at]);
  }

  lemma NextDigit(v: nat, b: nat, w: int, e: int)
    requires 2 <= b && v < b * e
    ensures v * w == (v % b) * w + (v / b) * (b * w) && v / b < e && 0 <= v % b < b
  {
    assert v == (v / b) * b + v % b;
    assert ((v / b) * b + v % b) * w == (v / b) * (b * w) + (v % b) * w;
    if v / b >= e {
      MulLe(e, v / b, b);
    }
  }


  /** All digits of a scalar below 2^256: n to a limb, and `last` in the top one. */
  method Spread(r: array<int>, s: Scalar, b: nat, n: nat, last: nat)
    requires 2 <= b && Pow(b, n) == W56 && Pow(b, last) == W32 && r.Length == 4 * n + last
    requires Canonical(s) && s[4] < W32
    modifies r
    ensures forall k :: 0 <= k < r.Length ==> 0 <= r[k] < b
    ensures Digits(r[..], b, 0) == Val(s)
  {
    var i := 0;
    assert r[..0] == [];
    while i < 4
      invariant 0 <= i <= 4
      invariant n * i + n * (4 - i) == 4 * n && 0 <= n * i
      invariant forall k :: 0 <= k < n * i ==> 0 <= r[k] < b
      invariant Digits(r[..n * i], b, 0) == Low(s, i) && Pow(b, n * i) == Radix(i)
    {
      assert n * (i + 1) == n * i + n && n * (4 - i) == n * (4 - (i + 1)) + n;
      MulNat(n, 4 - (i + 1));
      Fill(r, n * i, s[i], b, n);
      PowAdd(b, n, n * i);
      i := i + 1;
    }
    Fill(r, n * 4, s[4], b, last);
    assert r[..n * 4 + last] == r[..];
  }

  // contract256_window4_modm

  lemma PowSixteen()
    ensures Pow(16, 14) == W56 && Pow(16, 8) == W32
  {
    assert Pow(16, 4) == 0x10000;
    PowAdd(16, 4, 4);
    assert Pow(16, 2) == 0x100;
    PowAdd(16, 8, 4);
    PowAdd(16, 12, 2);
  }

  /** The digits before i are signed, digit i may have taken a carry, the others are plain. */
  ghost predicate HalfSigned(d: seq<int>, i: nat, carry: int, top: int) {
    && |d| == 64 && i < 64 && 0 <= carry <= 1
    && (forall k :: 0 <= k < i ==> -8 <= d[k] <= 7)
    && 0 <= d[i] && d[i] + carry <= (if i == 63 then top else 15) + 1
    && (forall k :: i < k < 63 ==> 0 <= d[k] <= 15)
    && (i < 63 ==> 0 <= d[63] <= top)
  }

  /** One step of the signing loop on the sequence of digits. */
  function SignStep(d: seq<int>, i: nat, carry: int): (seq<int>, int)
    requires |d| == 64 && i < 63
  {
    var x := d[i] + carry;
    var y := x % 16;
    (d[i := y - (y / 8) * 16][i + 1 := d[i + 1] + x / 16], y / 8)
  }

  lemma SignStepKeeps(d: seq<int>, i: nat, carry: int, top: int)
    requires HalfSigned(d, i, carry, top) && i < 63
    ensures var (e, c) := SignStep(d, i, carry);
      && HalfSigned(e, i + 1, c, top)
      && Digits(e, 16, 0) + c * Pow(16, i + 1) == Digits(d, 16, 0) + carry * Pow(16, i)
  {
    var x := d[i] + carry;
    var y := x % 16;
    var e := d[i := y - (y / 8) * 16];
    DigitsUpdate(d, 16, 0, i, y - (y / 8) * 16);
    DigitsUpdate(e, 16, 0, i + 1, d[i + 1] + x / 16);
    assert Pow(16, i + 1) == 16 * Pow(16, i);
    hide Digits, Pow;
    SignWeights(d[i], carry, Pow(16, i));
  }

  lemma SignWeights(a: int, carry: int, w: int)
    ensures var x := a + carry; var y := x % 16;
      (y - (y / 8) * 16 - a) * w + (x / 16) * (16 * w) + (y / 8) * (16 * w) == carry * w
  {
    var x := a + carry;
    var y, z := x % 16, x / 16;
    var c := y / 8;
    assert x == z * 16 + y;
    assert (y - c * 16 - a) * w + z * (16 * w) + c * (16 * w) == (y - a + z * 16) * w;
  }


  /** A digit weighs no more than the number, if none is negative. */
  lemma {:induction false} DigitBelow(d: seq<int>, b: nat, i: nat, k: nat)
    requires i <= k < |d| && (forall l :: 0 <= l < |d| ==> 0 <= d[l])
    ensures d[k] * Pow(b, k - i) <= Digits(d, b, i) && 0 <= Digits(d, b, i)
    decreases |d| - i
  {
    if i + 1 < |d| {
      DigitBelow(d, b, i + 1, if i < k then k else k + 1);
      MulNat(b, Digits(d, b, i + 1));
      if i < k {
        MulLe(d[k] * Pow(b, k - i - 1), Digits(d, b, i + 1), b);
        assert d[k] * Pow(b, k - i) == (d[k] * Pow(b, k - i - 1)) * b;
      }
    }
  }

  lemma PowSixteen63()
    ensures Pow(16, 63) * 8 == W255
  {
    PowSixteen();
    PowAdd(16, 14, 14);
    PowAdd(16, 28, 28);
    assert Pow(16, 4) == 0x10000 && Pow(16, 3) == 0x1000;
    PowAdd(16, 56, 4);
    PowAdd(16, 60, 3);
  }

  /** The top digit of a number below 2^255 is at most 7. */
  lemma TopDigit(d: seq<int>)
    requires |d| == 64 && (forall k :: 0 <= k < 64 ==> 0 <= d[k]) && Digits(d, 16, 0) < W255
    ensures d[63] <= 7
  {
    DigitBelow(d, 16, 0, 63);
    PowSixteen63();
    if d[63] >= 8 {
      MulLe(8, d[63], Pow(16, 63));
    }
  }

  /** The signing loop, in place. */
  method MakeSigned(r: array<int>, ghost top: int) returns (carry: int)
    requires r.Length == 64 && HalfSigned(r[..], 0, 0, top)
    modifies r
    ensures HalfSigned(r[..], 63, carry, top)
    ensures Digits(r[..], 16, 0) + carry * Pow(16, 63) == Digits(old(r[..]), 16, 0)
  {
    carry := 0;
    for i := 0 to 63
      invariant HalfSigned(r[..], i, carry, top)
      invariant Digits(r[..], 16, 0) + carry * Pow(16, i) == Digits(old(r[..]), 16, 0)
    {
      ghost var d, c := r[..], carry;
      SignStepKeeps(d, i, c, top);
      r[i] := r[i] + carry;
      r[i + 1] := r[i + 1] + r[i] / 16;
      r[i] := r[i] % 16;
      carry := r[i] / 8;
      r[i] := r[i] - carry * 16;
      assert r[..] == SignStep(d, i, c).0;
    }
  }

  /**
   contract256_window4_modm: 64 signed digits in base 16 that add up to the scalar. All
   but the last are at least -8 and below 8; below 2^255 the last is at most 8.
   */
  method Window4(r: array<int>, s: Scalar)
    requires r.Length == 64 && Canonical(s) && s[4] < W32
    modifies r
    ensures Digits(r[..], 16, 0) == Val(s)
    ensures forall k :: 0 <= k < 63 ==> -8 <= r[k] <= 7
    ensures 0 <= r[63] <= if Val(s) < W255 then 8 else 16
  {
    PowSixteen();
    Spread(r, s, 16, 14, 8);
    ghost var top := if Val(s) < W255 then 7 else 15;
    if Val(s) < W255 {
      TopDigit(r[..]);
    }
    var carry := MakeSigned(r, top);
    ghost var d := r[..];
    DigitsUpdate(d, 16, 0, 63, d[63] + carry);
    r[63] := r[63] + carry;
    assert r[..] == d[63 := d[63] + carry];
  }

  lemma TopLimb(s: Scalar)
    requires Canonical(s) && Val(s) < W255
    ensures s[4] < W32
  {
    ValLimbs(s);
  }
}
