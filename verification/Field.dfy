/**
 Arithmetic modulo p = 2^255 - 19 on five 51-bit limbs held in 64-bit words
 (curve25519-donna-64bit.h). Reduction is lazy: every operation states how large
 its limbs may be and how large they come out. Variables of type u64 and u128
 make the verifier prove that no assignment wraps.
 */
module Field {
  import opened Arith
  import opened ModP

  const B51: int := 0x8000000000000
  const B102: int := 0x40000000000000000000000000
  const B153: int := 0x200000000000000000000000000000000000000
  const B204: int := 0x1000000000000000000000000000000000000000000000000000

  /** bignum25519 */
  datatype Fe = Fe(l0: u64, l1: u64, l2: u64, l3: u64, l4: u64)

  const ZERO: Fe := Fe(0, 0, 0, 0, 0)
  const ONE: Fe := Fe(1, 0, 0, 0, 0)

  function Sum5(t0: int, t1: int, t2: int, t3: int, t4: int): int {
    t0 + t1 * B51 + t2 * B102 + t3 * B153 + t4 * B204
  }

  function FeVal(a: Fe): (v: int)
    ensures 0 <= v
  {
    Sum5(a.l0, a.l1, a.l2, a.l3, a.l4)
  }

  predicate Below(a: Fe, n: int) {
    a.l0 < n && a.l1 < n && a.l2 < n && a.l3 < n && a.l4 < n
  }

  /** Limbs as multiplications and reducing additions leave them. */
  predicate Tight(a: Fe) { Below(a, 0x8000000040000) }

  /** Limbs as a multiplication leaves them: below 2^51, but for a carry of at most 13 bits into limb 1. */
  predicate Normal(a: Fe) {
    a.l0 < B51 && a.l1 < B51 + 0x2000 && a.l2 < B51 && a.l3 < B51 && a.l4 < B51
  }

  /** Limbs that multiplications accept. */
  predicate Loose(a: Fe) { Below(a, 0x40000000000000) }

  /** The first pass: each column is cut to 51 bits and what exceeds them is carried up. */
  method CarryUp(a0: u128, a1: u128, a2: u128, a3: u128, a4: u128)
    returns (r0: u64, r1: u64, r2: u64, r3: u64, r4: u64, c: u64, ghost c0: int, ghost c1: int, ghost c2: int, ghost c3: int)
    requires a0 < 80 * 0x1000000000000000000000000000 && a1 < 80 * 0x1000000000000000000000000000
    requires a2 < 80 * 0x1000000000000000000000000000 && a3 < 80 * 0x1000000000000000000000000000
    requires a4 < 6 * 0x1000000000000000000000000000
    ensures r0 < B51 && r1 < B51 && r2 < B51 && r3 < B51 && r4 < B51 && c < 7 * 0x200000000000000
    ensures a0 == r0 + c0 * B51 && a1 + c0 == r1 + c1 * B51 && a2 + c1 == r2 + c2 * B51
    ensures a3 + c2 == r3 + c3 * B51 && a4 + c3 == r4 + c * B51
  {
    var t0: u128, t1: u128, t2: u128, t3: u128, t4: u128 := a0, a1, a2, a3, a4;
    r0 := t0 % B51; c := t0 / B51;
    c0 := c;
    t1 := t1 + c; r1 := t1 % B51; c := t1 / B51;
    c1 := c;
    t2 := t2 + c; r2 := t2 % B51; c := t2 / B51;
    c2 := c;
    t3 := t3 + c; r3 := t3 % B51; c := t3 / B51;
    c3 := c;
    t4 := t4 + c; r4 := t4 % B51; c := t4 / B51;
  }

  /** Carries t through 51-bit limbs; the carry out of the top comes back in times 19. */
  method CarryChain(a0: u128, a1: u128, a2: u128, a3: u128, a4: u128) returns (out: Fe)
    requires a0 < 80 * 0x1000000000000000000000000000 && a1 < 80 * 0x1000000000000000000000000000
    requires a2 < 80 * 0x1000000000000000000000000000 && a3 < 80 * 0x1000000000000000000000000000
    requires a4 < 6 * 0x1000000000000000000000000000
    ensures Tight(out) && Normal(out) && Cong(FeVal(out), Sum5(a0, a1, a2, a3, a4))
  {
    hide FeVal, Sum5, Cong;
    var r0, r1, r2, r3, r4, c, c0, c1, c2, c3 := CarryUp(a0, a1, a2, a3, a4);
    ghost var s0: int, s1: int, c4: int := r0, r1, c;
    r0 := r0 + c * 19; c := r0 / B51;
    LastCarry(r0);
    r0 := r0 % B51;
    r1 := r1 + c;
    out := Fe(r0, r1, r2, r3, r4);
    Carried(a0, a1, a2, a3, a4, s0, s1, r2, r3, r4, c0, c1, c2, c3, c4, c, out);
  }

  lemma LastCarry(x: u64)
    ensures x / B51 < 0x2000
  {
  }

  /** Carries keep the sum, but for what the top carry loses at 2^255 and gains as 19. */
  lemma Carried(a0: int, a1: int, a2: int, a3: int, a4: int, s0: int, s1: int, s2: int, s3: int, s4: int,
                c0: int, c1: int, c2: int, c3: int, c4: int, c: int, out: Fe)
    requires a0 == s0 + c0 * B51 && a1 + c0 == s1 + c1 * B51 && a2 + c1 == s2 + c2 * B51
    requires a3 + c2 == s3 + c3 * B51 && a4 + c3 == s4 + c4 * B51
    requires s0 + c4 * 19 == out.l0 + c * B51 && out.l1 == s1 + c && out.l2 == s2 && out.l3 == s3 && out.l4 == s4
    ensures Cong(FeVal(out), Sum5(a0, a1, a2, a3, a4))
  {
    assert FeVal(out) - Sum5(a0, a1, a2, a3, a4) == -c4 * P;
    CongBy(FeVal(out), Sum5(a0, a1, a2, a3, a4), -c4);
  }

  const B108: int := 0x1000000000000000000000000000

  lemma ProductBound(x: int, y: int)
    requires 0 <= x < 0x40000000000000 && 0 <= y < 0x40000000000000
    ensures 0 <= x * y < B108
  {
    MulNat(x, y);
    MulLe(x, 0x40000000000000, y);
  }

  /** A limb times a number distributes over its limbs. */
  lemma Row(x: int, b: Fe)
    ensures x * FeVal(b) == Sum5(x * b.l0, x * b.l1, x * b.l2, x * b.l3, x * b.l4)
  {
  }

  lemma Rows(a: Fe, y: int)
    ensures FeVal(a) * y == Sum5(a.l0 * y, a.l1 * y, a.l2 * y, a.l3 * y, a.l4 * y)
  {
  }

  /** The nine column sums of a product of five-limb numbers. */
  datatype Columns = Columns(c0: int, c1: int, c2: int, c3: int, c4: int, c5: int, c6: int, c7: int, c8: int)

  function ColumnsOf(a: Fe, b: Fe): Columns {
    Columns(a.l0 * b.l0,
            a.l0 * b.l1 + a.l1 * b.l0,
            a.l0 * b.l2 + a.l1 * b.l1 + a.l2 * b.l0,
            a.l0 * b.l3 + a.l1 * b.l2 + a.l2 * b.l1 + a.l3 * b.l0,
            a.l0 * b.l4 + a.l1 * b.l3 + a.l2 * b.l2 + a.l3 * b.l1 + a.l4 * b.l0,
            a.l1 * b.l4 + a.l2 * b.l3 + a.l3 * b.l2 + a.l4 * b.l1,
            a.l2 * b.l4 + a.l3 * b.l3 + a.l4 * b.l2,
            a.l3 * b.l4 + a.l4 * b.l3,
            a.l4 * b.l4)
  }

  /** The columns weighted by their radix make up the product. */
  lemma ColumnsExact(a: Fe, b: Fe)
    ensures var c := ColumnsOf(a, b);
      FeVal(a) * FeVal(b) == Sum5(c.c0, c.c1, c.c2, c.c3, c.c4) + W255 * Sum5(c.c5, c.c6, c.c7, c.c8, 0)
  {
    Rows(a, FeVal(b));
    Row(a.l0, b);
    Row(a.l1, b);
    Row(a.l2, b);
    Row(a.l3, b);
    Row(a.l4, b);
  }

  /** 2^255 is 19 modulo p, so the high columns fold onto the low ones. */
  lemma Fold(a: Fe, b: Fe)
    ensures var c := ColumnsOf(a, b);
      Cong(Sum5(c.c0 + 19 * c.c5, c.c1 + 19 * c.c6, c.c2 + 19 * c.c7, c.c3 + 19 * c.c8, c.c4), FeVal(a) * FeVal(b))
  {
    ColumnsExact(a, b);
    var c := ColumnsOf(a, b);
    hide FeVal;
    CongBy(Sum5(c.c0 + 19 * c.c5, c.c1 + 19 * c.c6, c.c2 + 19 * c.c7, c.c3 + 19 * c.c8, c.c4), FeVal(a) * FeVal(b),
           -Sum5(c.c5, c.c6, c.c7, c.c8, 0));
  }

  /** Every product of limbs is below 2^108. */
  lemma ProductBounds(a: Fe, x: int)
    requires Loose(a) && 0 <= x < 0x40000000000000
    ensures 0 <= a.l0 * x < B108 && 0 <= a.l1 * x < B108 && 0 <= a.l2 * x < B108
    ensures 0 <= a.l3 * x < B108 && 0 <= a.l4 * x < B108
  {
    ProductBound(a.l0, x);
    ProductBound(a.l1, x);
    ProductBound(a.l2, x);
    ProductBound(a.l3, x);
    ProductBound(a.l4, x);
  }

  lemma ColumnBounds(a: Fe, b: Fe)
    requires Loose(a) && Loose(b)
    ensures var c := ColumnsOf(a, b);
      && 0 <= c.c0 < B108 && 0 <= c.c1 < 2 * B108 && 0 <= c.c2 < 3 * B108 && 0 <= c.c3 < 4 * B108 && 0 <= c.c4 < 5 * B108
      && 0 <= c.c5 < 4 * B108 && 0 <= c.c6 < 3 * B108 && 0 <= c.c7 < 2 * B108 && 0 <= c.c8 < B108
  {
    ProductBounds(a, b.l0);
    ProductBounds(a, b.l1);
    ProductBounds(a, b.l2);
    ProductBounds(a, b.l3);
    ProductBounds(a, b.l4);
  }

  /** The column sums as the code orders them. */
  lemma MulTerms(a: Fe, b: Fe)
    ensures var c := ColumnsOf(a, b);
      && b.l0 * a.l0 == c.c0
      && b.l0 * a.l1 + b.l1 * a.l0 == c.c1
      && b.l0 * a.l2 + b.l2 * a.l0 + b.l1 * a.l1 == c.c2
      && b.l0 * a.l3 + b.l3 * a.l0 + b.l1 * a.l2 + b.l2 * a.l1 == c.c3
      && b.l0 * a.l4 + b.l4 * a.l0 + b.l3 * a.l1 + b.l1 * a.l3 + b.l2 * a.l2 == c.c4
  {
  }

  lemma MulTerms19(a: Fe, b: Fe)
    ensures var c := ColumnsOf(a, b);
      && (b.l4 * 19) * a.l1 + (b.l1 * 19) * a.l4 + (b.l2 * 19) * a.l3 + (b.l3 * 19) * a.l2 == 19 * c.c5
      && (b.l4 * 19) * a.l2 + (b.l2 * 19) * a.l4 + (b.l3 * 19) * a.l3 == 19 * c.c6
      && (b.l4 * 19) * a.l3 + (b.l3 * 19) * a.l4 == 19 * c.c7
      && (b.l4 * 19) * a.l4 == 19 * c.c8
  {
    Nineteen(b.l4, a);
    Nineteen(b.l1, a);
    Nineteen(b.l2, a);
    Nineteen(b.l3, a);
  }

  lemma Nineteen(x: int, a: Fe)
    ensures (x * 19) * a.l1 == 19 * (a.l1 * x) && (x * 19) * a.l2 == 19 * (a.l2 * x)
    ensures (x * 19) * a.l3 == 19 * (a.l3 * x) && (x * 19) * a.l4 == 19 * (a.l4 * x)
  {
  }

  /** First half of curve25519_mul: the five folded columns of in2 * in. */
  method MulColumns(in2: Fe, in1: Fe) returns (t0: u128, t1: u128, t2: u128, t3: u128, t4: u128)
    requires Loose(in2) && Loose(in1)
    ensures t0 < 80 * B108 && t1 < 80 * B108 && t2 < 80 * B108 && t3 < 80 * B108 && t4 < 6 * B108
    ensures var c := ColumnsOf(in2, in1);
      && t0 == c.c0 + 19 * c.c5 && t1 == c.c1 + 19 * c.c6 && t2 == c.c2 + 19 * c.c7 && t3 == c.c3 + 19 * c.c8
      && t4 == c.c4
  {
    var r0: u64, r1: u64, r2: u64, r3: u64, r4: u64 := in1.l0, in1.l1, in1.l2, in1.l3, in1.l4;
    var s0: u64, s1: u64, s2: u64, s3: u64, s4: u64 := in2.l0, in2.l1, in2.l2, in2.l3, in2.l4;
    ColumnBounds(in2, in1);
    MulTerms(in2, in1);
    MulTerms19(in2, in1);
    hide ColumnsOf;
    t0 := r0 * s0;
    t1 := r0 * s1 + r1 * s0;
    t2 := r0 * s2 + r2 * s0 + r1 * s1;
    t3 := r0 * s3 + r3 * s0 + r1 * s2 + r2 * s1;
    t4 := r0 * s4 + r4 * s0 + r3 * s1 + r1 * s3 + r2 * s2;
    r1 := r1 * 19;
    r2 := r2 * 19;
    r3 := r3 * 19;
    r4 := r4 * 19;
    t0 := t0 + (r4 * s1 + r1 * s4 + r2 * s3 + r3 * s2);
    t1 := t1 + (r4 * s2 + r2 * s4 + r3 * s3);
    t2 := t2 + (r4 * s3 + r3 * s4);
    t3 := t3 + r4 * s4;
  }

  /** curve25519_mul: out = in2 * in */
  method Mul(in2: Fe, in1: Fe) returns (out: Fe)
    requires Loose(in2) && Loose(in1)
    ensures Tight(out) && Normal(out) && Cong(FeVal(out), FeVal(in2) * FeVal(in1))
  {
    hide Cong, FeVal, Sum5;
    var t0, t1, t2, t3, t4 := MulColumns(in2, in1);
    out := CarryChain(t0, t1, t2, t3, t4);
    Fold(in2, in1);
    CongTrans(FeVal(out), Sum5(t0, t1, t2, t3, t4), FeVal(in2) * FeVal(in1));
  }

  /** The folded columns of a square as the code computes them. */
  lemma SquareTerms(a: Fe)
    ensures var c := ColumnsOf(a, a);
      && a.l0 * a.l0 + (a.l4 * 19 * 2) * a.l1 + (a.l2 * 2 * 19) * a.l3 == c.c0 + 19 * c.c5
      && (a.l0 * 2) * a.l1 + (a.l4 * 19 * 2) * a.l2 + a.l3 * (a.l3 * 19) == c.c1 + 19 * c.c6
      && (a.l0 * 2) * a.l2 + a.l1 * a.l1 + (a.l4 * 19 * 2) * a.l3 == c.c2 + 19 * c.c7
      && (a.l0 * 2) * a.l3 + (a.l1 * 2) * a.l2 + a.l4 * (a.l4 * 19) == c.c3 + 19 * c.c8
      && (a.l0 * 2) * a.l4 + (a.l1 * 2) * a.l3 + a.l2 * a.l2 == c.c4
  {
  }

  /** The five folded columns of in^2, as both squaring routines compute them. */
  method SquareColumns(a: Fe) returns (t0: u128, t1: u128, t2: u128, t3: u128, t4: u128)
    requires Loose(a)
    ensures t0 < 80 * B108 && t1 < 80 * B108 && t2 < 80 * B108 && t3 < 80 * B108 && t4 < 6 * B108
    ensures Cong(Sum5(t0, t1, t2, t3, t4), FeVal(a) * FeVal(a))
  {
    var r0: u64, r1: u64, r2: u64, r3: u64, r4: u64 := a.l0, a.l1, a.l2, a.l3, a.l4;
    var d0: u64, d1: u64, d2: u64, d419: u64 := r0 * 2, r1 * 2, r2 * 2 * 19, r4 * 19;
    var d4: u64 := d419 * 2;
    ColumnBounds(a, a);
    SquareTerms(a);
    Fold(a, a);
    hide ColumnsOf, Cong, FeVal, Sum5;
    t0 := r0 * r0 + d4 * r1 + d2 * r3;
    t1 := d0 * r1 + d4 * r2 + r3 * (r3 * 19);
    t2 := d0 * r2 + r1 * r1 + d4 * r3;
    t3 := d0 * r3 + d1 * r2 + r4 * d419;
    t4 := d0 * r4 + d1 * r3 + r2 * r2;
  }

  /** curve25519_square: out = in^2 */
  method Square(a: Fe) returns (out: Fe)
    requires Loose(a)
    ensures Tight(out) && Normal(out) && Cong(FeVal(out), FeVal(a) * FeVal(a))
  {
    hide Cong, FeVal, Sum5;
    var t0, t1, t2, t3, t4 := SquareColumns(a);
    out := CarryChain(t0, t1, t2, t3, t4);
    CongTrans(FeVal(out), Sum5(t0, t1, t2, t3, t4), FeVal(a) * FeVal(a));
  }

  /** shl128(c, t, 13): the high word of t << 13, with the bits shifted out lost. */
  function Shl13(t: u128): (c: u64)
  {
    ((t * 0x2000) % 0x100000000000000000000000000000000) / 0x10000000000000000
  }

  lemma Shl13Exact(t: u128)
    requires t < 128 * B108
    ensures Shl13(t) == t / B51
  {
    assert (t * 0x2000) % 0x100000000000000000000000000000000 == t * 0x2000;
  }

  /** Carries words that are below 2^64 through 51-bit limbs; the top carry comes back times 19. */
  method Ripple(a0: u64, a1: u64, a2: u64, a3: u64, a4: u64) returns (out: Fe)
    requires a1 + 0x2000 < 0x10000000000000000 && a2 + 0x2000 < 0x10000000000000000
    requires a3 + 0x2000 < 0x10000000000000000 && a4 + 0x2000 < 0x10000000000000000
    ensures Tight(out) && Cong(FeVal(out), Sum5(a0, a1, a2, a3, a4))
  {
    var r0: u64, r1: u64, r2: u64, r3: u64, r4: u64, c: u64 := a0, a1, a2, a3, a4, 0;
    c := r0 / B51; r0 := r0 % B51;
    r1 := r1 + c; c := r1 / B51; r1 := r1 % B51;
    r2 := r2 + c; c := r2 / B51; r2 := r2 % B51;
    r3 := r3 + c; c := r3 / B51; r3 := r3 % B51;
    r4 := r4 + c; c := r4 / B51; r4 := r4 % B51;
    r0 := r0 + c * 19;
    out := Fe(r0, r1, r2, r3, r4);
    ghost var top: int := c;
    assert FeVal(out) - Sum5(a0, a1, a2, a3, a4) == -top * P;
    CongBy(FeVal(out), Sum5(a0, a1, a2, a3, a4), -top);
  }

  /** Carries the columns in parallel, each into its neighbour. */
  method ParallelCarry(t0: u128, t1: u128, t2: u128, t3: u128, t4: u128)
    returns (r0: u64, r1: u64, r2: u64, r3: u64, r4: u64)
    requires t0 < 80 * B108 && t1 < 80 * B108 && t2 < 80 * B108 && t3 < 80 * B108 && t4 < 6 * B108
    ensures r1 + 0x2000 < 0x10000000000000000 && r2 + 0x2000 < 0x10000000000000000
    ensures r3 + 0x2000 < 0x10000000000000000 && r4 + 0x2000 < 0x10000000000000000
    ensures Cong(Sum5(r0, r1, r2, r3, r4), Sum5(t0, t1, t2, t3, t4))
  {
    Shl13Exact(t0);
    Shl13Exact(t1);
    Shl13Exact(t2);
    Shl13Exact(t3);
    Shl13Exact(t4);
    hide Shl13;
    var c: u64;
    r0 := t0 % B51;
    r1 := t1 % B51; c := Shl13(t0); r1 := r1 + c;
    r2 := t2 % B51; c := Shl13(t1); r2 := r2 + c;
    r3 := t3 % B51; c := Shl13(t2); r3 := r3 + c;
    r4 := t4 % B51; c := Shl13(t3); r4 := r4 + c;
    c := Shl13(t4); r0 := r0 + c * 19;
    ghost var top: int := c;
    assert Sum5(r0, r1, r2, r3, r4) - Sum5(t0, t1, t2, t3, t4) == -top * P;
    CongBy(Sum5(r0, r1, r2, r3, r4), Sum5(t0, t1, t2, t3, t4), -top);
  }

  /** One round of curve25519_square_times: the columns are carried in parallel, then in sequence. */
  method SquareRound(a: Fe) returns (out: Fe)
    requires Loose(a)
    ensures Tight(out) && Cong(FeVal(out), FeVal(a) * FeVal(a))
  {
    hide FeVal, Cong, Sum5;
    var t0, t1, t2, t3, t4 := SquareColumns(a);
    var r0, r1, r2, r3, r4 := ParallelCarry(t0, t1, t2, t3, t4);
    out := Ripple(r0, r1, r2, r3, r4);
    CongTrans(FeVal(out), Sum5(r0, r1, r2, r3, r4), Sum5(t0, t1, t2, t3, t4));
    CongTrans(FeVal(out), Sum5(t0, t1, t2, t3, t4), FeVal(a) * FeVal(a));
  }

  /** curve25519_square_times: count successive squarings, count >= 1. */
  method SquareTimes(a: Fe, count: nat) returns (out: Fe)
    requires Loose(a) && 1 <= count
    ensures Tight(out) && Cong(FeVal(out), Pow(FeVal(a), Exp2(count)))
  {
    hide Cong, FeVal, Tight;
    ghost var z := FeVal(a);
    assert Pow(z, 1) == z;
    out := SquareRound(a);
    PowAdd(z, 1, 1);
    var n := count - 1;
    ghost var done := 1;
    while n != 0
      invariant 0 <= n && done + n == count && 1 <= done
      invariant Tight(out) && Cong(FeVal(out), Pow(z, Exp2(done)))
    {
      TightIsLoose(out);
      ghost var y := FeVal(out);
      out := SquareRound(out);
      CongMul(y, Pow(z, Exp2(done)), y, Pow(z, Exp2(done)));
      PowAdd(z, Exp2(done), Exp2(done));
      CongTrans(FeVal(out), y * y, Pow(z, Exp2(done + 1)));
      n := n - 1;
      done := done + 1;
    }
  }

  lemma TightIsLoose(a: Fe)
    requires Tight(a)
    ensures Loose(a)
  {
  }

  // Multiples of p, limb by limb.
  const TWO_P0: int := 0x0fffffffffffda
  const TWO_P1234: int := 0x0ffffffffffffe
  const FOUR_P0: int := 0x1fffffffffffb4
  const FOUR_P1234: int := 0x1ffffffffffffc

  /** curve25519_add and curve25519_add_after_basic */
  method Add(a: Fe, b: Fe) returns (out: Fe)
    requires Below(a, 0x8000000000000000) && Below(b, 0x8000000000000000)
    ensures FeVal(out) == FeVal(a) + FeVal(b)
    ensures Cong(FeVal(out), FeVal(a) + FeVal(b))
    ensures forall m, n :: Below(a, m) && Below(b, n) ==> Below(out, m + n - 1)
  {
    CongRefl(FeVal(a) + FeVal(b));
    out := Fe(a.l0 + b.l0, a.l1 + b.l1, a.l2 + b.l2, a.l3 + b.l3, a.l4 + b.l4);
  }

  /** No limb of twice p minus a borrows. */
  predicate Under2P(a: Fe) {
    a.l0 <= TWO_P0 && a.l1 <= TWO_P1234 && a.l2 <= TWO_P1234 && a.l3 <= TWO_P1234 && a.l4 <= TWO_P1234
  }

  predicate Under4P(a: Fe) {
    a.l0 <= FOUR_P0 && a.l1 <= FOUR_P1234 && a.l2 <= FOUR_P1234 && a.l3 <= FOUR_P1234 && a.l4 <= FOUR_P1234
  }

  /** curve25519_sub: 2p keeps every limb from borrowing. */
  method Sub(a: Fe, b: Fe) returns (out: Fe)
    requires Below(a, 0x8000000000000000) && Under2P(b)
    ensures Cong(FeVal(out), FeVal(a) - FeVal(b))
    ensures forall n :: Below(a, n) ==> Below(out, n + 0x10000000000000)
  {
    out := Fe(a.l0 + TWO_P0 - b.l0, a.l1 + TWO_P1234 - b.l1, a.l2 + TWO_P1234 - b.l2,
              a.l3 + TWO_P1234 - b.l3, a.l4 + TWO_P1234 - b.l4);
    CongBy(FeVal(out), FeVal(a) - FeVal(b), 2);
  }

  /** curve25519_sub_after_basic: as Sub, with 4p. */
  method SubAfterBasic(a: Fe, b: Fe) returns (out: Fe)
    requires Below(a, 0x8000000000000000) && Under4P(b)
    ensures Cong(FeVal(out), FeVal(a) - FeVal(b))
    ensures forall n :: Below(a, n) ==> Below(out, n + 0x20000000000000)
  {
    out := Fe(a.l0 + FOUR_P0 - b.l0, a.l1 + FOUR_P1234 - b.l1, a.l2 + FOUR_P1234 - b.l2,
              a.l3 + FOUR_P1234 - b.l3, a.l4 + FOUR_P1234 - b.l4);
    CongBy(FeVal(out), FeVal(a) - FeVal(b), 4);
  }

  /** curve25519_add_reduce */
  method AddReduce(a: Fe, b: Fe) returns (out: Fe)
    requires Loose(a) && Loose(b)
    ensures Tight(out) && Cong(FeVal(out), FeVal(a) + FeVal(b))
  {
    out := Ripple(a.l0 + b.l0, a.l1 + b.l1, a.l2 + b.l2, a.l3 + b.l3, a.l4 + b.l4);
  }

  /** curve25519_sub_reduce */
  method SubReduce(a: Fe, b: Fe) returns (out: Fe)
    requires Loose(a) && Under4P(b)
    ensures Tight(out) && Cong(FeVal(out), FeVal(a) - FeVal(b))
  {
    var r0: u64, r1: u64, r2: u64, r3: u64, r4: u64 :=
      a.l0 + FOUR_P0 - b.l0, a.l1 + FOUR_P1234 - b.l1, a.l2 + FOUR_P1234 - b.l2,
      a.l3 + FOUR_P1234 - b.l3, a.l4 + FOUR_P1234 - b.l4;
    out := Ripple(r0, r1, r2, r3, r4);
    CongBy(Sum5(r0, r1, r2, r3, r4), FeVal(a) - FeVal(b), 4);
    CongTrans(FeVal(out), Sum5(r0, r1, r2, r3, r4), FeVal(a) - FeVal(b));
  }

  /** curve25519_neg */
  method Neg(a: Fe) returns (out: Fe)
    requires Under2P(a)
    ensures Tight(out) && Cong(FeVal(out), -FeVal(a))
  {
    var r0: u64, r1: u64, r2: u64, r3: u64, r4: u64 :=
      TWO_P0 - a.l0, TWO_P1234 - a.l1, TWO_P1234 - a.l2, TWO_P1234 - a.l3, TWO_P1234 - a.l4;
    out := Ripple(r0, r1, r2, r3, r4);
    ghost var v: int := FeVal(a);
    CongBy(Sum5(r0, r1, r2, r3, r4), -v, 2);
    CongTrans(FeVal(out), Sum5(r0, r1, r2, r3, r4), -v);
  }
}
