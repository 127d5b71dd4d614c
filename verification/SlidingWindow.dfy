/** Sliding-window digits of a scalar (contract256_slidingwindow_modm), for windows of 5 and 7 bits. */
module SlidingWindow {
  import opened Arith
  import opened Scalars
  import opened Recoding

  /** The largest digit: 2^(w - 1) - 1. */
  function Largest(w: int): int { if w == 5 then 15 else 63 }

  /** Zero, or odd and within the window. */
  predicate IsDigit(x: int, w: int) {
    x == 0 || (x % 2 == 1 && -Largest(w) <= x <= Largest(w))
  }

  predicate Window(w: int) { w == 5 || w == 7 }

  /** No other nonzero digit within w of a nonzero digit before j. */
  ghost predicate Spaced(d: seq<int>, j: nat, w: int) {
    forall k, l :: 0 <= k < j && k < l < k + w && l < |d| && d[k] != 0 ==> d[l] == 0
  }

  ghost predicate Bits(d: seq<int>, j: nat) {
    forall k :: j <= k < |d| ==> 0 <= d[k] <= 1
  }

  /** Bit 255 is set only once all bits from j on below it are used up, so it never carries. */
  ghost predicate TopFree(d: seq<int>, j: nat) {
    |d| == 256 && (j <= 255 && d[255] != 0 ==> forall k :: j <= k < 255 ==> d[k] == 0)
  }

  /** The digits before j are final, the others are still bits. */
  ghost predicate Slid(d: seq<int>, j: nat, w: int) {
    && |d| == 256 && j <= 256 && Window(w)
    && (forall k :: 0 <= k < j ==> IsDigit(d[k], w))
    && Bits(d, j) && Spaced(d, j, w) && TopFree(d, j)
  }

  /** The carry loop: adds 2^at to the bits. */
  method Propagate(r: array<int>, at: nat) returns (ghost k1: nat)
    requires r.Length == 256 && at < 256 && Bits(r[..], at) && r[255] == 0
    modifies r
    ensures at <= k1 < 256 && r[k1] == 1 && (forall k :: at <= k < k1 ==> r[k] == 0)
    ensures forall k :: 0 <= k < at || k1 < k < 256 ==> r[k] == old(r[k])
    ensures Digits(r[..], 2, 0) == Digits(old(r[..]), 2, 0) + Pow(2, at)
    ensures old(r[at]) == 1 ==> at < k1
  {
    var k := at;
    ghost var sum := Digits(r[..], 2, 0);
    while k < 256 && r[k] != 0
      invariant at <= k < 256
      invariant forall l :: at <= l < k ==> r[l] == 0
      invariant forall l :: 0 <= l < at || k <= l < 256 ==> r[l] == old(r[l])
      invariant Digits(r[..], 2, 0) + Pow(2, k) == sum + Pow(2, at)
      invariant old(r[at]) == 1 ==> r[at] == 1 || at < k
    {
      ghost var d := r[..];
      assert d[k] == old(r[..])[k] == 1;
      DigitsUpdate(d, 2, 0, k, 0);
      r[k] := 0;
      assert r[..] == d[k := 0];
      k := k + 1;
    }
    ghost var d := r[..];
    DigitsUpdate(d, 2, 0, k, 1);
    r[k] := 1;
    assert r[..] == d[k := 1];
    k1 := k;
  }

  /** Where a window opened at j stands after b - 1 further bits of d0. */
  ghost predicate Open(d: seq<int>, d0: seq<int>, j: nat, b: nat, w: int) {
    && |d| == 256 && |d0| == 256 && j < 256 && 1 <= b <= 256 - j
    && (forall k :: 0 <= k < j ==> d[k] == d0[k])
    && d[j] % 2 == 1 && Digits(d, 2, 0) == Digits(d0, 2, 0)
    && if b < w then
         && 1 <= d[j] < Pow(2, b) && (forall k :: j < k < j + b ==> d[k] == 0)
         && (forall k :: j + b <= k < 256 ==> d[k] == d0[k])
       else
         && -Largest(w) <= d[j] <= Largest(w) && (forall k :: j < k < j + w ==> d[k] == 0)
         && Bits(d, j + 1) && TopFree(d, j + 1)
  }

  lemma Powers(b: nat, w: int)
    requires Window(w) && b <= 7
    ensures b + 2 <= w ==> 2 * Pow(2, b) <= Largest(w) + 1
    ensures b == w - 1 ==> Pow(2, b) == Largest(w) + 1
    ensures b >= w ==> Pow(2, b) >= 2 * (Largest(w) + 1)
    ensures 1 <= b ==> Pow(2, b) % 2 == 0
    ensures Pow(2, b) > 0 && Pow(2, b + 1) == 2 * Pow(2, b)
  {
    assert Pow(2, 2) == 4 && Pow(2, 4) == 16;
    PowAdd(2, 4, 2);
    assert Pow(2, 3) == 8;
    PowAdd(2, 4, 3);
    assert Pow(2, 1) == 2;
    PowAdd(2, 4, 1);
    assert Pow(2, 0) == 1;
  }

  /** Weight moves from digit j + b to digit j. */
  lemma MoveBit(d: seq<int>, j: nat, b: nat)
    requires 1 <= b && j + b < |d|
    ensures Digits(d[j := d[j] + d[j + b] * Pow(2, b)][j + b := 0], 2, 0) == Digits(d, 2, 0)
  {
    var bit := d[j + b];
    var x := bit * Pow(2, b);
    var e := d[j := d[j] + x];
    DigitsUpdate(d, 2, 0, j, d[j] + x);
    DigitsUpdate(e, 2, 0, j + b, 0);
    PowAdd(2, b, j);
    hide Pow, Digits;
    MulAssoc(bit, Pow(2, b), Pow(2, j));
  }

  lemma MulAssoc(x: int, y: int, z: int)
    ensures (x * y) * z == x * (y * z)
  {
  }

  /** Taking a bit into the digit. */
  lemma AbsorbBit(d: seq<int>, d0: seq<int>, j: nat, b: nat, w: int)
    requires Window(w) && Bits(d0, j) && Open(d, d0, j, b, w) && b + 1 < w && b < 256 - j
    ensures var x := d[j + b] * Pow(2, b);
      d[j] + x <= Largest(w) && Open(d[j := d[j] + x][j + b := 0], d0, j, b + 1, w)
  {
    hide Digits, Pow;
    MoveBit(d, j, b);
    Powers(b, w);
    var p := Pow(2, b);
    if d[j + b] == 0 {
      assert d[j + b] * p == 0;
    } else {
      assert d[j + b] * p == p;
    }
  }

  /** At the last bit of the window, a zero leaves everything in place. */
  lemma LastZero(d: seq<int>, d0: seq<int>, j: nat, b: nat, w: int)
    requires Slid(d0, j, w) && Open(d, d0, j, b, w) && d0[j] == 1 && b + 1 == w && b < 256 - j && d[j + b] == 0
    ensures d[j] <= Largest(w) && Open(d, d0, j, b + 1, w)
  {
    Powers(b, w);
    hide Digits, Pow;
    assert d0[255] == 0;
  }

  /** At the last bit of the window, a one makes the digit negative and carries. */
  lemma LastOne(d: seq<int>, e: seq<int>, d0: seq<int>, j: nat, b: nat, w: int, k1: nat)
    requires Slid(d0, j, w) && Open(d, d0, j, b, w) && d0[j] == 1 && b + 1 == w && b < 256 - j && d[j + b] == 1
    requires |e| == 256 && e[j] == d[j] - Pow(2, b) && j + b < k1 < 256 && e[k1] == 1
    requires forall k :: j + b <= k < k1 ==> e[k] == 0
    requires forall k :: 0 <= k < j || j < k < j + b || k1 < k < 256 ==> e[k] == d[k]
    requires Digits(e, 2, 0) == Digits(d, 2, 0)
    ensures Open(e, d0, j, b + 1, w)
  {
    Powers(b, w);
    hide Digits, Pow;
    assert d0[255] == 0;
    assert e[j] % 2 == 1;
  }

  /** Beyond the window, zeros change nothing and a one ends the loop. */
  lemma Beyond(d: seq<int>, d0: seq<int>, j: nat, b: nat, w: int)
    requires Window(w) && Open(d, d0, j, b, w) && w <= b <= 6 && b < 256 - j
    ensures Open(d, d0, j, b + 1, w) && 0 <= d[j + b] <= 1 && d[j] <= Largest(w)
    ensures d[j] + Pow(2, b) > Largest(w) && d[j] - Pow(2, b) < -Largest(w)
  {
    Powers(b, w);
    hide Digits, Pow;
  }

  /** The window is complete: the digit at j is final. */
  lemma Close(d: seq<int>, d0: seq<int>, j: nat, b: nat, w: int)
    requires Slid(d0, j, w) && Open(d, d0, j, b, w) && d0[j] == 1 && (b >= w || b == 256 - j)
    ensures Slid(d, j + 1, w)
  {
    hide Digits, Pow;
    if b < w {
      CloseAtEnd(d, d0, j, b, w);
    }
    SpacedAfter(d, d0, j, w);
  }

  lemma CloseAtEnd(d: seq<int>, d0: seq<int>, j: nat, b: nat, w: int)
    requires Slid(d0, j, w) && Open(d, d0, j, b, w) && b == 256 - j && b < w
    ensures -Largest(w) <= d[j] <= Largest(w)
  {
    Powers(b, w);
  }

  lemma SpacedAfter(d: seq<int>, d0: seq<int>, j: nat, w: int)
    requires |d| == 256 && |d0| == 256 && j < 256 && Spaced(d0, j, w) && d0[j] == 1
    requires forall k :: 0 <= k < j ==> d[k] == d0[k]
    requires forall k :: j < k < j + w && k < 256 ==> d[k] == 0
    ensures Spaced(d, j + 1, w)
  {
    forall k, l | 0 <= k < j + 1 && k < l < k + w && l < |d| && d[k] != 0
      ensures d[l] == 0
    {
      var z := d0[j];
      if k < j {
        assert j >= k + w;
      }
    }
  }

  lemma NextBit(d: seq<int>, d0: seq<int>, j: nat, b: nat, w: int)
    requires Slid(d0, j, w) && Open(d, d0, j, b, w) && b < 256 - j
    ensures 0 <= d[j + b] <= 1
  {
    hide Digits, Pow;
  }

  /** Which branch the code takes, and what the first one does. */
  lemma Branches(d: seq<int>, d0: seq<int>, j: nat, b: nat, w: int)
    requires Slid(d0, j, w) && Open(d, d0, j, b, w) && d0[j] == 1 && b <= 6 && b < 256 - j
    ensures var x := d[j + b] * Pow(2, b);
      && (d[j] + x <= Largest(w) ==> Open(d[j := d[j] + x][j + b := 0], d0, j, b + 1, w))
      && (d[j] + x > Largest(w) ==> d[j + b] == 1 && b + 1 >= w && (d[j] - x >= -Largest(w) <==> b + 1 == w))
  {
    hide Digits, Pow;
    if b + 1 < w {
      AbsorbBit(d, d0, j, b, w);
    } else {
      Powers(b, w);
      NextBit(d, d0, j, b, w);
      hide Slid, Bits, Spaced, TopFree;
      var x := d[j + b] * Pow(2, b);
      if d[j + b] == 0 {
        assert d[j := d[j] + x][j + b := 0] == d;
        if b + 1 == w {
          LastZero(d, d0, j, b, w);
        } else {
          Beyond(d, d0, j, b, w);
        }
      } else if b >= w {
        Beyond(d, d0, j, b, w);
      }
    }
  }

  lemma UntouchedAbove(d: seq<int>, j: nat, x: int, k: nat)
    requires j < k && j < |d| && Bits(d, k)
    ensures Bits(d[j := x], k)
  {
  }

  lemma TopClear(d: seq<int>, d0: seq<int>, j: nat, b: nat, w: int)
    requires Slid(d0, j, w) && Open(d, d0, j, b, w) && d0[j] == 1 && b < 256 - j && b < w
    ensures d[255] == 0 && Bits(d, j + b)
  {
    hide Digits, Pow;
  }

  /** The second branch: the digit becomes negative, and the carry goes up. */
  method Borrow(r: array<int>, j: nat, b: nat, w: int, ghost d0: seq<int>, x: int)
    requires r.Length == 256 && Slid(d0, j, w) && Open(r[..], d0, j, b, w) && d0[j] == 1 && b < 256 - j
    requires b + 1 == w && r[j + b] == 1 && x == Pow(2, b)
    modifies r
    ensures Open(r[..], d0, j, b + 1, w)
  {
    hide Digits, Pow, Slid, Largest, Bits;
    ghost var d := r[..];
    TopClear(d, d0, j, b, w);
    hide Open;
    UntouchedAbove(d, j, d[j] - x, j + b);
    r[j] := r[j] - x;
    assert r[..] == d[j := d[j] - x];
    DigitsUpdate(d, 2, 0, j, d[j] - x);
    PowAdd(2, b, j);
    ghost var k1 := Propagate(r, j + b);
    LastOne(d, r[..], d0, j, b, w, k1);
  }

  /** One turn of the loop over b; `stop` is its break. */
  method CollectBit(r: array<int>, j: nat, b: nat, w: int, ghost d0: seq<int>) returns (stop: bool)
    requires r.Length == 256 && Slid(d0, j, w) && Open(r[..], d0, j, b, w) && d0[j] == 1 && b <= 6 && b < 256 - j
    modifies r
    ensures if stop then b >= w && r[..] == old(r[..]) else Open(r[..], d0, j, b + 1, w)
  {
    var m := Largest(w);
    var x := r[j + b] * Pow(2, b);
    ghost var d := r[..];
    stop := false;
    Branches(d, d0, j, b, w);
    if r[j] + x <= m {
      hide Open, Slid, Digits, Pow, Largest;
      r[j] := r[j] + x;
      r[j + b] := 0;
      assert r[..] == d[j := d[j] + x][j + b := 0];
    } else if r[j] - x >= -m {
      Borrow(r, j, b, w, d0, x);
    } else if r[j + b] != 0 {
      stop := true;
    }
  }

  /** The loop over b: collects the window that starts at j. */
  method Collect(r: array<int>, j: nat, w: int)
    requires r.Length == 256 && j < 256 && Slid(r[..], j, w) && r[j] == 1
    modifies r
    ensures Slid(r[..], j + 1, w) && Digits(r[..], 2, 0) == Digits(old(r[..]), 2, 0)
  {
    ghost var d0 := r[..];
    var b: nat := 1;
    assert Pow(2, 1) == 2;
    assert Open(r[..], d0, j, b, w);
    var stop := false;
    while !stop && b < 256 - j && b <= 6
      invariant 1 <= b <= 7 && Open(r[..], d0, j, b, w) && (stop ==> b >= w)
      decreases !stop, 7 - b
    {
      stop := CollectBit(r, j, b, w, d0);
      if !stop {
        b := b + 1;
      }
    }
    Close(r[..], d0, j, b, w);
  }

  lemma PowTwo()
    ensures Pow(2, 56) == W56 && Pow(2, 32) == W32 && Pow(2, 255) == W255
  {
    assert Pow(2, 4) == 16 && Pow(2, 7) == 128;
    hide Pow;
    PowStep(2, 4, 4, 16, 16);
    PowStep(2, 8, 8, 0x100, 0x100);
    PowStep(2, 16, 16, 0x10000, 0x10000);
    PowStep(2, 16, 8, 0x10000, 0x100);
    PowStep(2, 24, 7, 0x1000000, 0x80);
    PowStep(2, 32, 24, W32, 0x1000000);
    PowStep(2, 56, 56, W56, W56);
    PowStep(2, 112, 112, W112, W112);
    PowStep(2, 224, 31, W224, 0x80000000);
  }

  /** Below 2^255, the top bit is clear. */
  lemma LastBitClear(d: seq<int>)
    requires |d| == 256 && Bits(d, 0) && Digits(d, 2, 0) < W255
    ensures d[255] == 0
  {
    DigitBelow(d, 2, 0, 255);
    PowTwo();
  }

  /**
   contract256_slidingwindow_modm: the digits add up to the scalar, are zero or odd and
   at most 2^(w - 1) - 1 in size, and any w in a row hold at most one that is not zero.
   */
  method Slide(r: array<int>, s: Scalar, w: int)
    requires r.Length == 256 && Window(w) && Canonical(s) && Val(s) < W255
    modifies r
    ensures Digits(r[..], 2, 0) == Val(s)
    ensures forall k :: 0 <= k < 256 ==> IsDigit(r[k], w)
    ensures Spaced(r[..], 256, w)
  {
    PowTwo();
    TopLimb(s);
    Spread(r, s, 2, 56, 32);
    assert Bits(r[..], 0);
    LastBitClear(r[..]);
    for j := 0 to 256
      invariant Slid(r[..], j, w) && Digits(r[..], 2, 0) == Val(s)
    {
      if r[j] != 0 {
        Collect(r, j, w);
      }
    }
  }
}
