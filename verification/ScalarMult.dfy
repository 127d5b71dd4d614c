/**
 The two scalar multiplications (ge25519_double_scalarmult_vartime and
 ge25519_scalarmult_base_niels) on limbs: each returns a representation of the
 multiple it is named for.
 */
module ScalarMult {
  import opened Arith
  import opened Groups
  import opened Scalars
  import opened Recoding
  import opened SlidingWindow
  import opened ModP
  import opened PrimeField
  import opened Field
  import opened Edwards
  import opened CurveGroup
  import opened Points

  /** [a]p + [b]q */
  function Combination<T(!new)>(g: Group<T>, a: int, p: T, b: int, q: T): T {
    g.add(Times(g, a, p), Times(g, b, q))
  }

  lemma DoubleCombination<T(!new)>(g: Group<T>, a: int, p: T, b: int, q: T)
    requires Abelian(g) && g.carrier(p) && g.carrier(q)
    ensures var c := Combination(g, a, p, b, q); g.add(c, c) == Combination(g, 2 * a, p, 2 * b, q)
  {
    TimesAdd(g, a, a, p);
    TimesAdd(g, b, b, q);
    Interchange(g, Times(g, a, p), Times(g, b, q), Times(g, a, p), Times(g, b, q));
  }

  lemma AddFirst<T(!new)>(g: Group<T>, a: int, p: T, b: int, q: T, d: int)
    requires Abelian(g) && g.carrier(p) && g.carrier(q)
    ensures g.add(Combination(g, a, p, b, q), Times(g, d, p)) == Combination(g, a + d, p, b, q)
  {
    TimesAdd(g, a, d, p);
    TimesIn(g, b, q);
    var x, y, z := Times(g, a, p), Times(g, b, q), Times(g, d, p);
    Assoc(g, x, y, z);
    Comm(g, y, z);
    Assoc(g, x, z, y);
  }

  lemma AddSecond<T(!new)>(g: Group<T>, a: int, p: T, b: int, q: T, d: int)
    requires Abelian(g) && g.carrier(p) && g.carrier(q)
    ensures g.add(Combination(g, a, p, b, q), Times(g, d, q)) == Combination(g, a, p, b + d, q)
  {
    TimesAdd(g, b, d, q);
    TimesIn(g, a, p);
    Assoc(g, Times(g, a, p), Times(g, b, q), Times(g, d, q));
  }

  /** [n]p on the curve. */
  function Mult(n: int, p: Point): Point {
    Times(Curve(), n, p)
  }

  lemma OnCurveFull(r: Ge, p: Point)
    requires IsFull(r, p)
    ensures OnCurve(p)
  {
  }

  lemma MultIn(n: int, p: Point)
    requires Fermat() && OnCurve(p)
    ensures OnCurve(Mult(n, p)) && Mult(0, p) == NEUTRAL && Mult(1, p) == p
  {
    CurveIsAbelian();
    hide Fermat, OnCurve, Plus, Abelian;
    TimesIn(Curve(), n, p);
    TimesOne(Curve(), p);
  }

  lemma MultAdd(a: int, b: int, p: Point)
    requires Fermat() && OnCurve(p)
    ensures Plus(Mult(a, p), Mult(b, p)) == Mult(a + b, p)
  {
    CurveIsAbelian();
    hide Fermat, OnCurve, Plus, Abelian;
    TimesAdd(Curve(), a, b, p);
  }

  lemma MultTimes(a: int, b: int, p: Point)
    requires Fermat() && OnCurve(p)
    ensures Mult(a * b, p) == Mult(a, Mult(b, p)) && Mult(a, NEUTRAL) == NEUTRAL
  {
    CurveIsAbelian();
    hide Fermat, OnCurve, Plus, Abelian;
    TimesTimes(Curve(), a, b, p);
    TimesZero(Curve(), a);
  }

  lemma MultNegate(n: int, p: Point)
    requires Fermat() && OnCurve(p)
    ensures Negate(Mult(n, p)) == Mult(-n, p)
  {
    CurveIsAbelian();
    hide Fermat, OnCurve, Plus, Abelian;
    TimesNeg(Curve(), n, p);
  }

  /** The sign of a digit chooses between the multiple and its inverse. */
  lemma MultSigned(n: int, p: Point)
    requires Fermat() && OnCurve(p)
    ensures Signed(Mult(if n < 0 then -n else n, p), n < 0) == Mult(n, p)
  {
    CurveIsAbelian();
    hide Fermat, OnCurve, Plus, Abelian;
    TimesNeg(Curve(), -n, p);
  }

  /** [a]p + [b]q */
  function Mult2(a: int, p: Point, b: int, q: Point): Point {
    Plus(Mult(a, p), Mult(b, q))
  }

  lemma Mult2Step(a: int, p: Point, b: int, q: Point, d: int)
    requires Fermat() && OnCurve(p) && OnCurve(q)
    ensures var c := Mult2(a, p, b, q);
      && OnCurve(c)
      && Plus(c, c) == Mult2(2 * a, p, 2 * b, q)
      && Plus(c, Mult(d, p)) == Mult2(a + d, p, b, q)
      && Plus(c, Mult(d, q)) == Mult2(a, p, b + d, q)
  {
    CurveIsAbelian();
    MultIn(a, p);
    MultIn(b, q);
    Closed(Mult(a, p), Mult(b, q));
    hide Fermat, OnCurve, Plus, Abelian, Times;
    assert Mult2(a, p, b, q) == Combination(Curve(), a, p, b, q);
    DoubleCombination(Curve(), a, p, b, q);
    AddFirst(Curve(), a, p, b, q, d);
    AddSecond(Curve(), a, p, b, q, d);
  }

  /** The coordinates that memset and two assignments leave. */
  const NEUTRAL_GE: Ge := Ge(ZERO, ONE, ONE, ZERO)

  lemma NeutralFull()
    ensures IsFull(NEUTRAL_GE, NEUTRAL)
  {
    NeutralOnCurve();
    ProdIs(0, 1);
    ProdIs(1, 1);
    CongMod(1, 0);
    CongRefl(0);
    CongRefl(1);
  }

  /** pre1: the odd multiples of the point. */
  ghost predicate IsTable1(pre: seq<Pniels>, p: Point) {
    forall i :: 0 <= i < |pre| ==> IsPniels(pre[i], Mult(2 * i + 1, p))
  }

  /** ge25519_niels_sliding_multiples: the odd multiples of the base point. */
  ghost predicate IsTable2(table: seq<Niels>, b: Point) {
    |table| == 32 && forall i :: 0 <= i < |table| ==> IsNiels(table[i], Mult(2 * i + 1, b))
  }

  /** One more entry: the last one plus twice the point. */
  method NextMultiple(d1: Ge, last: Pniels, ghost i: int, ghost p: Point) returns (next: Pniels)
    requires Fermat() && OnCurve(p) && IsFull(d1, Mult(2, p)) && IsPniels(last, Mult(2 * i + 1, p))
    ensures IsPniels(next, Mult(2 * (i + 1) + 1, p))
  {
    hide Fermat, OnCurve, Plus, Mult, IsFull, IsPniels;
    next := PnielsAdd(d1, last, Mult(2, p), Mult(2 * i + 1, p));
    MultAdd(2, 2 * i + 1, p);
  }

  /** The loop that fills pre1. */
  method OddMultiples(p1: Ge, ghost p: Point) returns (pre1: seq<Pniels>)
    requires Fermat() && IsFull(p1, p)
    ensures |pre1| == 8 && IsTable1(pre1, p)
  {
    OnCurveFull(p1, p);
    MultIn(1, p);
    MultAdd(1, 1, p);
    hide Fermat, OnCurve, Plus, Mult, IsFull, IsPniels;
    var d1 := Double(p1, p);
    var entry := FullToPniels(p1, p);
    pre1 := [entry];
    for i := 0 to 7
      invariant |pre1| == i + 1 && IsTable1(pre1, p)
    {
      entry := NextMultiple(d1, pre1[i], i, p);
      pre1 := pre1 + [entry];
    }
  }

  /** One digit of the first scalar. */
  method AddDigit1(t0: P1p1, pre1: seq<Pniels>, digit: int, ghost p: Point, ghost c: Point) returns (t: P1p1, r: Ge)
    requires Fermat() && OnCurve(p) && IsCompleted(t0, c) && |pre1| == 8 && IsTable1(pre1, p)
    requires IsDigit(digit, 5) && digit != 0
    ensures IsCompleted(t, Plus(c, Mult(digit, p)))
  {
    MultSigned(digit, p);
    hide Fermat, OnCurve, Plus, Mult, IsFull, IsPniels, IsCompleted;
    r := ToFull(t0, c);
    var size := if digit < 0 then -digit else digit;
    t := PnielsAddP1p1(r, pre1[size / 2], digit < 0, c, Mult(size, p));
  }

  /** One digit of the second scalar. */
  method AddDigit2(t0: P1p1, table: seq<Niels>, digit: int, ghost b: Point, ghost c: Point) returns (t: P1p1, r: Ge)
    requires Fermat() && OnCurve(b) && IsCompleted(t0, c) && IsTable2(table, b)
    requires IsDigit(digit, 7) && digit != 0
    ensures IsCompleted(t, Plus(c, Mult(digit, b)))
  {
    MultSigned(digit, b);
    hide Fermat, OnCurve, Plus, Mult, IsFull, IsNiels, IsCompleted;
    r := ToFull(t0, c);
    var size := if digit < 0 then -digit else digit;
    t := NielsAdd2P1p1(r, table[size / 2], digit < 0, c, Mult(size, b));
  }

  /** One turn of the main loop: doubles, and adds both digits. */
  method DoubleAndAdd(r0: Ge, pre1: seq<Pniels>, table: seq<Niels>, digit1: int, digit2: int,
                      ghost p: Point, ghost b: Point, ghost a1: int, ghost a2: int) returns (r: Ge)
    requires Fermat() && OnCurve(p) && OnCurve(b) && |pre1| == 8 && IsTable1(pre1, p) && IsTable2(table, b)
    requires IsPartial(r0, Mult2(a1, p, a2, b)) && IsDigit(digit1, 5) && IsDigit(digit2, 7)
    ensures IsPartial(r, Mult2(digit1 + 2 * a1, p, digit2 + 2 * a2, b))
  {
    hide Fermat, OnCurve, Plus, Mult, Mult2, IsPartial, IsCompleted, IsTable1, IsTable2, IsDigit;
    r := r0;
    Mult2Step(a1, p, a2, b, 0);
    var t := DoubleP1p1(r, Mult2(a1, p, a2, b));
    if digit1 != 0 {
      t, r := AddDigit1(t, pre1, digit1, p, Mult2(2 * a1, p, 2 * a2, b));
      Mult2Step(2 * a1, p, 2 * a2, b, digit1);
    }
    ghost var c := digit1 + 2 * a1;
    assert IsCompleted(t, Mult2(c, p, 2 * a2, b));
    if digit2 != 0 {
      t, r := AddDigit2(t, table, digit2, b, Mult2(c, p, 2 * a2, b));
      Mult2Step(c, p, 2 * a2, b, digit2);
    }
    ghost var d := digit2 + 2 * a2;
    assert IsCompleted(t, Mult2(c, p, d, b));
    r := ToPartial(r, t, Mult2(c, p, d, b));
  }

  lemma NeutralStart(p: Point, b: Point)
    requires Fermat() && OnCurve(p) && OnCurve(b)
    ensures IsPartial(NEUTRAL_GE, Mult2(0, p, 0, b))
  {
    NeutralFull();
    NeutralOnCurve();
    MultIn(0, p);
    MultIn(0, b);
    PlusNeutral(NEUTRAL);
  }

  ghost predicate AreDigits(d: seq<int>, w: int) {
    |d| == 256 && forall k :: 0 <= k < 256 ==> IsDigit(d[k], w)
  }

  /** The scan for the first nonzero digit. */
  method SkipZeros(slide1: seq<int>, slide2: seq<int>) returns (i: int)
    requires |slide1| == 256 && |slide2| == 256
    ensures -1 <= i <= 255 && Digits(slide1, 2, i + 1) == 0 && Digits(slide2, 2, i + 1) == 0
  {
    i := 255;
    while i >= 0 && slide1[i] == 0 && slide2[i] == 0
      invariant -1 <= i <= 255 && Digits(slide1, 2, i + 1) == 0 && Digits(slide2, 2, i + 1) == 0
    {
      i := i - 1;
    }
  }

  /** The main loop: at index i, r stands for the multiples that the digits from i on make. */
  method Ladder(pre1: seq<Pniels>, table: seq<Niels>, slide1: seq<int>, slide2: seq<int>, ghost p: Point, ghost b: Point)
    returns (r: Ge)
    requires Fermat() && OnCurve(p) && OnCurve(b) && |pre1| == 8 && IsTable1(pre1, p) && IsTable2(table, b)
    requires AreDigits(slide1, 5) && AreDigits(slide2, 7)
    ensures IsPartial(r, Mult2(Digits(slide1, 2, 0), p, Digits(slide2, 2, 0), b))
  {
    hide Fermat, OnCurve, Plus, Mult, Mult2, IsPartial, IsTable1, IsTable2, IsDigit;
    r := NEUTRAL_GE;
    NeutralStart(p, b);
    var i := SkipZeros(slide1, slide2);
    while i >= 0
      invariant -1 <= i <= 255 && IsPartial(r, Mult2(Digits(slide1, 2, i + 1), p, Digits(slide2, 2, i + 1), b))
    {
      r := DoubleAndAdd(r, pre1, table, slide1[i], slide2[i], p, b, Digits(slide1, 2, i + 1), Digits(slide2, 2, i + 1));
      i := i - 1;
    }
  }

  /** ge25519_double_scalarmult_vartime: [s1]p + [s2]b, given the table of odd multiples of b. */
  method DoubleScalarmult(p1: Ge, s1: Scalar, s2: Scalar, table: seq<Niels>, ghost p: Point, ghost b: Point) returns (r: Ge)
    requires Fermat() && IsFull(p1, p) && OnCurve(b) && IsTable2(table, b)
    requires Canonical(s1) && Canonical(s2) && Val(s1) < W255 && Val(s2) < W255
    ensures IsPartial(r, Mult2(Val(s1), p, Val(s2), b))
  {
    OnCurveFull(p1, p);
    hide Fermat, OnCurve, Mult2, IsFull, IsPartial, IsTable1, IsTable2, Spaced, Digits, IsDigit, Val,
         Canonical;
    var slide1, slide2 := new int[256], new int[256];
    Slide(slide1, s1, 5);
    Slide(slide2, s2, 7);
    var pre1 := OddMultiples(p1, p);
    r := Ladder(pre1, table, slide1[..], slide2[..], p, b);
  }
}
