/**
 Fixed-base multiplication with the packed table of base-point multiples
 (ge25519_scalarmult_base_choose_niels and ge25519_scalarmult_base_niels).
 */
module BaseMult {
  import opened Arith
  import opened Bytes
  import opened Bits
  import opened Scalars
  import opened Recoding
  import opened ModP
  import opened PrimeField
  import opened Field
  import opened FieldBytes
  import opened Edwards
  import opened Projective
  import opened Points
  import opened ScalarMult

  /** y - x, y + x and c x y of a point. */
  ghost predicate Triple(q: Point, m: int, s: int, t: int, c: int) {
    OnCurve(q) && Cong(m, q.y - q.x) && Cong(s, q.y + q.x) && Cong(t, Prod(c, Prod(q.x, q.y)))
  }

  ghost predicate IsRow(row: seq<byte>, q: Point, c: int) {
    |row| == 96 && Triple(q, Le(row[..32]) % W255, Le(row[32..64]) % W255, Le(row[64..]) % W255, c)
  }

  /** The factor of xy in the third field: the first eight rows hold 2xy, the others 2dxy. */
  function Factor(pos: int): int { if pos == 0 then 2 else 2 * D }

  /** ge25519_niels_base_multiples: row 8 pos + i holds (i + 1) 256^pos times the base point. */
  ghost predicate IsBaseTable(table: seq<seq<byte>>, b: Point) {
    |table| == 256
    && forall r :: 0 <= r < 256 ==> IsRow(table[r], Mult((r % 8 + 1) * Pow(256, r / 8), b), Factor(r / 8))
  }

  ghost predicate IsTriple(n: Niels, q: Point, c: int) {
    Tight(n.ysubx) && Tight(n.xaddy) && Tight(n.t2d) && Triple(q, FeVal(n.ysubx), FeVal(n.xaddy), FeVal(n.t2d), c)
  }

  /** The inverse point exchanges the first two and negates the third. */
  lemma NegateTriple(q: Point, m: int, s: int, t: int, c: int, t': int)
    requires Fermat() && Triple(q, m, s, t, c) && Cong(t', -t)
    ensures Triple(Negate(q), s, m, t', c)
  {
    NegateIs(q);
    hide OnCurve;
    var x', x, y := Negate(q).x, q.x, q.y;
    ReducedMod(-x);
    CongRefl(y);
    CongAdd(y, y, x', -x);
    CongSym(y - x', y + x);
    CongSym(y + x', y - x);
    CongTrans(s, y + x, y - x');
    CongTrans(m, y - x, y + x');
    // third field
    ProdIs(x, y);
    ProdIs(x', y);
    ProdIs(c, x * y);
    ProdIs(c, x' * y);
    CongMul(x', -x, y, y);
    CongScale(c, x' * y, -x * y);
    assert c * (-x * y) == -(c * (x * y));
    CongScale(-1, t, c * (x * y));
    CongTrans(t', -t, -(c * (x * y)));
    CongSym(c * (x' * y), -(c * (x * y)));
    CongTrans(t', -(c * (x * y)), c * (x' * y));
  }

  /** A row with 2dxy is prepared for addition. */
  lemma TripleIsNiels(n: Niels, q: Point)
    requires IsTriple(n, q, 2 * D)
    ensures IsNiels(n, q)
  {
    hide OnCurve, FeVal;
    ProdIs(q.y - q.x, 1);
    ProdIs(q.y + q.x, 1);
    var w := Prod(q.x, q.y);
    ProdIs(w, 1);
    ProdIs(D, w);
    ProdIs(2, D * w);
    ProdIs(2 * D, w);
    CongMod(1, 0);
    TightIsLoose(n.ysubx);
    TightIsLoose(n.xaddy);
    TightIsLoose(n.t2d);
  }

  /** A row with 2xy, taken as (2x : 2y : 2 : 2xy). */
  lemma TripleIsFull(q: Point, m: int, s: int, t: int, x: int, y: int)
    requires Triple(q, m, s, t, 2) && Cong(x, s - m) && Cong(y, s + m)
    ensures Stands(q, x, y, 2) && Extends(q, 2, t)
  {
    hide OnCurve;
    CongAdd(s, q.y + q.x, m, q.y - q.x);
    CongTrans(x, s - m, 2 * q.x);
    CongTrans(y, s + m, 2 * q.y);
    ProdIs(q.x, 2);
    ProdIs(q.y, 2);
    var w := Prod(q.x, q.y);
    ProdIs(2, w);
    ProdIs(w, 2);
    CongMod(2, 0);
  }

  /** The initial contents of `packed`: the neutral element. */
  function NeutralRow(): (row: seq<byte>)
    ensures |row| == 96
  {
    [1] + Zeros(31) + [1] + Zeros(63)
  }

  lemma NeutralRowBytes()
    ensures var row := NeutralRow(); Le(row[..32]) == 1 && Le(row[32..64]) == 1 && Le(row[64..]) == 0
  {
    OneBytes();
    LeZeros(Zeros(32));
    hide Le;
    var row, one := NeutralRow(), [1] + Zeros(31);
    assert row[..32] == one;
    assert row[32..64] == one;
    assert row[64..] == Zeros(32);
  }

  lemma OneBytes()
    ensures Le([1] + Zeros(31)) == 1
  {
    var one := [1] + Zeros(31);
    assert one[1..] == Zeros(31);
    LeZeros(Zeros(31));
  }

  lemma NeutralRowIs(c: int)
    ensures IsRow(NeutralRow(), NEUTRAL, c)
  {
    NeutralRowBytes();
    hide Le, NeutralRow, OnCurve;
    NeutralOnCurve();
    ProdIs(0, 1);
    ProdIs(c, 0);
    CongRefl(0);
    CongRefl(1);
  }

  /** One word of a string, written back. */
  lemma LoadedBytes(s: seq<byte>, at: nat)
    requires at + 8 <= |s|
    ensures Load64(s, at) < W64 && LeBytes(Load64(s, at), 8) == s[at..at + 8]
  {
    Load64Is(s, at);
    Exp256Values();
    LeOfBytes(Load64(s, at), 8);
    hide Le, Load64, LeBytes;
    LeInjective(LeBytes(Load64(s, at), 8), s[at..at + 8]);
  }

  /** curve25519_move_conditional_bytes, eight bytes at a time. */
  method MoveConditional(out: seq<byte>, input: seq<byte>, flag: u64) returns (r: seq<byte>)
    requires |out| == 96 && |input| == 96 && flag <= 1
    ensures r == if flag == 1 then input else out
  {
    hide And, Or, Load64, LeBytes;
    MaskOf(flag);
    var nb: u64 := (flag - 1) % W64;
    r := out;
    for i := 0 to 12
      invariant |r| == 96 && r[8 * i..] == out[8 * i..]
      invariant r[..8 * i] == if flag == 1 then input[..8 * i] else out[..8 * i]
    {
      LoadedBytes(r, 8 * i);
      LoadedBytes(input, 8 * i);
      Moved(flag, nb, Load64(r, 8 * i), Load64(input, 8 * i));
      var word := Or(And(Load64(r, 8 * i), nb), And(Load64(input, 8 * i), W64 - 1 - nb));
      PutWord(r, out, if flag == 1 then input else out, LeBytes(word, 8), i);
      r := r[..8 * i] + LeBytes(word, 8) + r[8 * i + 8..];
    }
    assert r[..96] == r && input[..96] == input && out[..96] == out;
  }

  lemma PutWord(r: seq<byte>, out: seq<byte>, goal: seq<byte>, word: seq<byte>, i: nat)
    requires |r| == |out| == |goal| == 96 && i < 12 && r[8 * i..] == out[8 * i..] && r[..8 * i] == goal[..8 * i]
    requires word == goal[8 * i..8 * i + 8]
    ensures var r' := r[..8 * i] + word + r[8 * i + 8..];
      r'[8 * i + 8..] == out[8 * i + 8..] && r'[..8 * i + 8] == goal[..8 * i + 8]
  {
    assert r[8 * i + 8..] == r[8 * i..][8..] == out[8 * i..][8..] == out[8 * i + 8..];
    assert goal[..8 * i + 8] == goal[..8 * i] + goal[8 * i..8 * i + 8];
  }

  /** curve25519_swap_conditional */
  method SwapConditional(a: Fe, b: Fe, iswap: int) returns (a': Fe, b': Fe)
    requires 0 <= iswap <= 1
    ensures a' == (if iswap == 1 then b else a) && b' == (if iswap == 1 then a else b)
  {
    MaskOf(iswap);
    var swap: u64 := (-iswap) % W64;
    Swapped(iswap, swap, a.l0, b.l0);
    Swapped(iswap, swap, a.l1, b.l1);
    Swapped(iswap, swap, a.l2, b.l2);
    Swapped(iswap, swap, a.l3, b.l3);
    Swapped(iswap, swap, a.l4, b.l4);
    hide And, Xor;
    var x0, x1, x2 := And(swap, Xor(a.l0, b.l0)), And(swap, Xor(a.l1, b.l1)), And(swap, Xor(a.l2, b.l2));
    var x3, x4 := And(swap, Xor(a.l3, b.l3)), And(swap, Xor(a.l4, b.l4));
    a' := Fe(Xor(a.l0, x0), Xor(a.l1, x1), Xor(a.l2, x2), Xor(a.l3, x3), Xor(a.l4, x4));
    b' := Fe(Xor(b.l0, x0), Xor(b.l1, x1), Xor(b.l2, x2), Xor(b.l3, x3), Xor(b.l4, x4));
  }

  /** The selection loop: the row for u, or the neutral one for 0. */
  method SelectRow(table: seq<seq<byte>>, pos: nat, u: nat) returns (packed: seq<byte>)
    requires |table| == 256 && (forall k :: 0 <= k < 256 ==> |table[k]| == 96) && pos < 32 && u <= 8
    ensures packed == if u == 0 then NeutralRow() else table[pos * 8 + u - 1]
  {
    packed := NeutralRow();
    for i := 0 to 8
      invariant packed == if 1 <= u <= i then table[pos * 8 + u - 1] else NeutralRow()
    {
      WindowEqualIs(u, i + 1);
      packed := MoveConditional(packed, table[pos * 8 + i], WindowEqual(u, i + 1));
    }
  }

  lemma RowIndex(pos: nat, u: nat)
    requires 1 <= u <= 8
    ensures (pos * 8 + u - 1) / 8 == pos && (pos * 8 + u - 1) % 8 == u - 1
  {
  }

  /** The point that the selected row stands for. */
  lemma RowPoint(table: seq<seq<byte>>, pos: nat, u: nat, base: Point)
    requires Fermat() && OnCurve(base) && IsBaseTable(table, base) && pos < 32 && u <= 8
    ensures IsRow(if u == 0 then NeutralRow() else table[pos * 8 + u - 1], Mult(u * Pow(256, pos), base), Factor(pos))
  {
    hide Fermat, OnCurve, IsRow, Mult, NeutralRow, Factor, Pow;
    if u == 0 {
      MultIn(0, base);
      NeutralRowIs(Factor(pos));
    } else {
      var r := pos * 8 + u - 1;
      RowIndex(pos, u);
      assert IsRow(table[r], Mult((r % 8 + 1) * Pow(256, r / 8), base), Factor(r / 8));
    }
  }

  /** Expanding the three fields. */
  method ExpandRow(packed: seq<byte>, ghost q: Point, ghost c: int) returns (t: Niels)
    requires IsRow(packed, q, c)
    ensures IsTriple(t, q, c) && Below(t.t2d, B51)
  {
    hide OnCurve, Le, FeVal;
    var ysubx := Expand(packed[..32]);
    var xaddy := Expand(packed[32..64]);
    var t2d := Expand(packed[64..]);
    t := Niels(ysubx, xaddy, t2d);
  }

  /** ge25519_scalarmult_base_choose_niels: the digit's multiple, with its sign. */
  method ChooseNiels(table: seq<seq<byte>>, pos: nat, b: int, ghost base: Point) returns (t: Niels)
    requires Fermat() && OnCurve(base) && IsBaseTable(table, base) && pos < 32 && -8 <= b <= 8
    ensures IsTriple(t, Mult(b * Pow(256, pos), base), Factor(pos))
  {
    hide OnCurve, Fermat, IsRow, Mult, NeutralRow, Triple, FeVal, Factor;
    Absolute(b);
    var sign := b % 256 / 128;
    var u := AbsoluteOf(b, sign);
    hide AbsoluteOf;
    RowPoint(table, pos, u, base);
    RowLengths(table, base);
    hide IsBaseTable;
    var packed := SelectRow(table, pos, u);
    ghost var q := Mult(u * Pow(256, pos), base);
    t := ExpandRow(packed, q, Factor(pos));
    ghost var m, s, xy := FeVal(t.ysubx), FeVal(t.xaddy), FeVal(t.t2d);
    var ysubx, xaddy := SwapConditional(t.ysubx, t.xaddy, sign);
    var neg := Neg(t.t2d);
    ghost var negated := FeVal(neg);
    var t2d, rest := SwapConditional(t.t2d, neg, sign);
    t := Niels(ysubx, xaddy, t2d);
    if b < 0 {
      NegateTriple(q, m, s, xy, Factor(pos), negated);
      SignedRow(b, pos, base);
    }
  }

  lemma RowLengths(table: seq<seq<byte>>, base: Point)
    requires IsBaseTable(table, base)
    ensures |table| == 256 && forall k :: 0 <= k < 256 ==> |table[k]| == 96
  {
    forall k | 0 <= k < 256
      ensures |table[k]| == 96
    {
      assert IsRow(table[k], Mult((k % 8 + 1) * Pow(256, k / 8), base), Factor(k / 8));
    }
  }

  lemma SignedRow(b: int, pos: nat, base: Point)
    requires Fermat() && OnCurve(base) && b < 0
    ensures Negate(Mult(-b * Pow(256, pos), base)) == Mult(b * Pow(256, pos), base)
  {
    var e := Pow(256, pos);
    PowPositive(256, pos);
    hide Fermat, OnCurve, Mult, Pow;
    MulLt(b, 0, e);
    assert -b * e == -(b * e);
    MultSigned(b * e, base);
  }

  lemma {:induction false} PowPositive(b: int, n: nat)
    requires 0 < b
    ensures 0 < Pow(b, n)
  {
    if n > 0 {
      PowPositive(b, n - 1);
      MulLt(0, b, Pow(b, n - 1));
    }
  }

  /** The digits at 1, 3, 5, ... (o = 1) or 0, 2, 4, ... (o = 0), the first k of them, in base 256. */
  function Half(d: seq<int>, o: nat, k: nat): int
    requires o <= 1 && 2 * k <= |d|
  {
    if k == 0 then 0 else Half(d, o, k - 1) + d[2 * k - 2 + o] * Pow(256, k - 1)
  }

  /** Sixteen times the odd digits plus the even digits. */
  lemma {:induction false} Halves(d: seq<int>, k: nat)
    requires 2 * k <= |d|
    ensures Digits(d[..2 * k], 16, 0) == 16 * Half(d, 1, k) + Half(d, 0, k)
  {
    if k > 0 {
      Halves(d, k - 1);
      var low := d[..2 * k - 2];
      var x, y := d[2 * k - 2], d[2 * k - 1];
      assert d[..2 * k - 1] == low + [x];
      assert d[..2 * k] == low + [x] + [y];
      DigitsAppend(low, 16, x, 0);
      DigitsAppend(low + [x], 16, y, 0);
      assert Pow(16, 2) == 256;
      PowMul(16, 2, k - 1);
      hide Digits;
      assert Pow(16, 2 * k - 1) == 16 * Pow(256, k - 1);
      SixteenOut(y, Pow(256, k - 1));
    } else {
      assert d[..0] == [];
    }
  }

  lemma SixteenOut(y: int, e: int)
    ensures y * (16 * e) == 16 * (y * e)
  {
  }

  ghost predicate AreNibbles(d: seq<int>) {
    |d| == 64 && forall k :: 0 <= k < 64 ==> -8 <= d[k] <= 8
  }

  /** The start: the row for digit 1 taken as a projective point. */
  method StartBase(table: seq<seq<byte>>, digit: int, ghost base: Point) returns (r: Ge)
    requires Fermat() && OnCurve(base) && IsBaseTable(table, base) && -8 <= digit <= 8
    ensures IsFull(r, Mult(digit, base))
  {
    hide Fermat, OnCurve, IsBaseTable, Mult, FeVal;
    var t := ChooseNiels(table, 0, digit, base);
    assert Pow(256, 0) == 1;
    ghost var q := Mult(digit, base);
    var x := SubReduce(t.xaddy, t.ysubx);
    var y := AddReduce(t.xaddy, t.ysubx);
    r := Ge(x, y, TWO, t.t2d);
    TwoIs();
    TripleIsFull(q, FeVal(t.ysubx), FeVal(t.xaddy), FeVal(t.t2d), FeVal(x), FeVal(y));
  }

  const TWO: Fe := Fe(2, 0, 0, 0, 0)

  lemma TwoIs()
    ensures FeVal(TWO) == 2 && Tight(TWO)
  {
  }

  /** Adds one digit's multiple. */
  method AddDigit(r0: Ge, table: seq<seq<byte>>, pos: nat, digit: int, ghost n: int, ghost base: Point) returns (r: Ge)
    requires Fermat() && OnCurve(base) && IsBaseTable(table, base) && 1 <= pos < 32 && -8 <= digit <= 8
    requires IsFull(r0, Mult(n, base))
    ensures IsFull(r, Mult(n + digit * Pow(256, pos), base))
  {
    hide Fermat, OnCurve, IsBaseTable, Mult, IsFull, IsTriple, IsNiels, Plus;
    var t := ChooseNiels(table, pos, digit, base);
    ghost var q := Mult(digit * Pow(256, pos), base);
    TripleIsNiels(t, q);
    r := NielsAdd2(r0, t, Mult(n, base), q);
    MultAdd(n, digit * Pow(256, pos), base);
  }

  /** Multiplying 2xy by d gives the field that additions expect. */
  lemma TimesD(q: Point, m: int, s: int, t: int, t': int)
    requires Triple(q, m, s, t, 2) && Cong(t', t * D)
    ensures Triple(q, m, s, t', 2 * D)
  {
    hide OnCurve;
    var w := Prod(q.x, q.y);
    ProdIs(2, w);
    ProdIs(2 * D, w);
    CongRefl(D);
    CongMul(t, 2 * w, D, D);
    CongTrans(t', t * D, (2 * w) * D);
  }

  /** The digit of weight one, whose row lacks the factor d. */
  method AddLowest(r0: Ge, table: seq<seq<byte>>, digit: int, ghost n: int, ghost base: Point) returns (r: Ge)
    requires Fermat() && OnCurve(base) && IsBaseTable(table, base) && -8 <= digit <= 8
    requires IsFull(r0, Mult(n, base))
    ensures IsFull(r, Mult(n + digit, base))
  {
    Constants();
    hide Fermat, OnCurve, IsBaseTable, Mult, IsFull, IsNiels, Plus, FeVal, Triple;
    var t := ChooseNiels(table, 0, digit, base);
    assert Pow(256, 0) == 1;
    ghost var q := Mult(digit, base);
    var t2d := Mul(t.t2d, ECD);
    TimesD(q, FeVal(t.ysubx), FeVal(t.xaddy), FeVal(t.t2d), FeVal(t2d));
    t := Niels(t.ysubx, t.xaddy, t2d);
    TripleIsNiels(t, q);
    r := NielsAdd2(r0, t, Mult(n, base), q);
    MultAdd(n, digit, base);
  }

  /** The digits at odd or even positions, from the second on. */
  method AddDigits(r0: Ge, table: seq<seq<byte>>, d: seq<int>, o: nat, ghost n: int, ghost base: Point) returns (r: Ge)
    requires Fermat() && OnCurve(base) && IsBaseTable(table, base) && AreNibbles(d) && o <= 1
    requires IsFull(r0, Mult(n + d[o], base))
    ensures IsFull(r, Mult(n + Half(d, o, 32), base))
  {
    hide Fermat, OnCurve, IsBaseTable, Mult, IsFull;
    r := r0;
    var i := 2 + o;
    assert Half(d, o, 1) == Half(d, o, 0) + d[o] * Pow(256, 0);
    while i < 64
      invariant 2 + o <= i <= 64 + o && i % 2 == o && IsFull(r, Mult(n + Half(d, o, i / 2), base))
    {
      r := AddDigit(r, table, i / 2, d[i], n + Half(d, o, i / 2), base);
      i := i + 2;
    }
  }

  /** Four doublings. */
  method TimesSixteen(r0: Ge, ghost n: int, ghost base: Point) returns (r: Ge)
    requires Fermat() && OnCurve(base) && IsFull(r0, Mult(n, base))
    ensures IsFull(r, Mult(16 * n, base))
  {
    assert IsPartial(r0, Mult(n, base));
    hide Fermat, OnCurve, Mult, IsPartial, Plus;
    MultAdd(n, n, base);
    MultAdd(2 * n, 2 * n, base);
    MultAdd(4 * n, 4 * n, base);
    MultAdd(8 * n, 8 * n, base);
    r := DoublePartial(r0, r0, Mult(n, base));
    r := DoublePartial(r, r, Mult(2 * n, base));
    r := DoublePartial(r, r, Mult(4 * n, base));
    r := Double(r, Mult(8 * n, base));
  }

  /** ge25519_scalarmult_base_niels: [s]base for every s below 2^255, given the table. */
  method ScalarmultBase(table: seq<seq<byte>>, s: Scalar, ghost base: Point) returns (r: Ge)
    requires Fermat() && OnCurve(base) && IsBaseTable(table, base)
    requires Canonical(s) && Val(s) < W255
    ensures IsFull(r, Mult(Val(s), base))
  {
    TopLimb(s);
    hide Fermat, OnCurve, IsBaseTable, Mult, IsFull, Val, Digits, Half;
    var b := new int[64];
    Window4(b, s);
    var d := b[..];
    r := StartBase(table, d[1], base);
    r := AddDigits(r, table, d, 1, 0, base);
    r := TimesSixteen(r, Half(d, 1, 32), base);
    r := AddLowest(r, table, d[0], 16 * Half(d, 1, 32), base);
    r := AddDigits(r, table, d, 0, 16 * Half(d, 1, 32), base);
    assert d[..64] == d;
    Halves(d, 32);
  }
}
