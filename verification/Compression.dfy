/**
 Compressing a curve point to 32 bytes and back (sections 5.1.2 and 5.1.3 of
 RFC 8032), as the numbers that ge25519_pack and ge25519_unpack_negative_vartime
 work out. Unpacking yields the inverse of the point that was packed.
 */
module Compression {
  import opened Arith
  import opened Bytes
  import opened ModP
  import opened PrimeField
  import opened NonResidue
  import opened Edwards
  import opened Options

  /** y with the parity of x in bit 255. */
  function Encode(p: Point): (s: seq<byte>)
    ensures |s| == 32
  {
    LeBytes(p.y % P + (p.x % 2) * W255, 32)
  }

  /** y^2 - 1 */
  function Num(y: int): int { Prod(y, y) - 1 }

  /** d y^2 + 1 */
  function Den(y: int): int { Prod(Prod(y, y), D) + 1 }

  /** num den^3 (num den^7)^((p-5)/8): a square root of num/den, or of -num/den, if either exists. */
  function Candidate(y: int): int {
    var n, d := Num(y), Den(y);
    var d3 := Prod(Prod(d, d), d);
    var w := Prod(Prod(Prod(d3, d3), d), n);
    Prod(Prod(Pow(w, (P - 5) / 8), d3), n)
  }

  /** A number x with den x^2 == num, if the candidate leads to one. */
  function Root(y: int): Option<int> {
    var c := Candidate(y);
    var t := Prod(Prod(c, c), Den(y));
    if Cong(t, Num(y)) then Some(c % P)
    else if Cong(t, -Num(y)) then Some(Prod(c, SQRT_M1) % P)
    else None
  }

  /** The root whose parity is not the given bit, or zero. */
  function Flip(x: int, bit: int): int {
    if x % 2 == bit then (-x) % P else x
  }

  function YOf(s: seq<byte>): int { Le(s) % W255 % P }

  function SignOf(s: seq<byte>): int { Le(s) / W255 }

  /** What ge25519_unpack_negative_vartime makes of 32 bytes. */
  function DecompressNegative(s: seq<byte>): Option<Point> {
    match Root(YOf(s))
    case None => None
    case Some(x) => Some(Point(Flip(x, SignOf(s)), YOf(s)))
  }

  /** den x^2 == num says that (x, y) is on the curve. */
  lemma RootEquation(x: int, y: int)
    requires Cong(Prod(Prod(x, x), Den(y)), Num(y))
    ensures Cong(y * y - x * x, 1 + D * ((x * y) * (x * y)))
  {
    ProdIs(x, x);
    ProdIs(y, y);
    ProdIs(y * y, D);
    ProdIs(x * x, (y * y) * D + 1);
    var a, b := x * x, y * y;
    assert a * (b * D + 1) == D * (a * b) + a;
    SquareOfProduct(x, y);
    CongSym(D * (a * b) + a, b - 1);
    CongRefl(1 - a);
    CongAdd(b - 1, D * (a * b) + a, 1 - a, 1 - a);
  }

  /** (c i)^2 den == num when c^2 den == -num. */
  lemma TimesRoot(c: int, i: int, den: int, num: int)
    requires Cong(i * i, -1) && Cong(Prod(Prod(c, c), den), -num)
    ensures Cong(Prod(Prod(Prod(c, i), Prod(c, i)), den), num)
  {
    ProdIs(c, c);
    ProdIs(c * c, den);
    ProdIs(c, i);
    ProdIs(c * i, c * i);
    ProdIs((c * i) * (c * i), den);
    assert ((c * i) * (c * i)) * den == ((c * c) * den) * (i * i);
    CongMul((c * c) * den, -num, i * i, -1);
    assert -num * -1 == num;
  }

  /** A root may be replaced by one congruent to it or to its negative. */
  lemma RootCong(x: int, x': int, den: int, num: int)
    requires Cong(Prod(Prod(x, x), den), num) && (Cong(x', x) || Cong(x', -x))
    ensures Cong(Prod(Prod(x', x'), den), num)
  {
    ProdIs(x, x);
    ProdIs(x * x, den);
    ProdIs(x', x');
    ProdIs(x' * x', den);
    if Cong(x', x) {
      CongMul(x', x, x', x);
    } else {
      CongMul(x', -x, x', -x);
      assert -x * -x == x * x;
    }
    CongRefl(den);
    CongMul(x' * x', x * x, den, den);
    CongTrans((x' * x') * den, (x * x) * den, num);
  }

  /** Whatever root is found is reduced and solves the equation. */
  lemma RootIs(y: int)
    requires Root(y).Some?
    ensures Reduced(Root(y).value) && Cong(Prod(Prod(Root(y).value, Root(y).value), Den(y)), Num(y))
  {
    hide Candidate, Den, Num;
    var c := Candidate(y);
    SqrtM1Is();
    if Cong(Prod(Prod(c, c), Den(y)), Num(y)) {
      ReducedMod(c);
      RootCong(c, c % P, Den(y), Num(y));
    } else {
      TimesRoot(c, SQRT_M1, Den(y), Num(y));
      ReducedMod(Prod(c, SQRT_M1));
      RootCong(Prod(c, SQRT_M1), Prod(c, SQRT_M1) % P, Den(y), Num(y));
    }
  }

  /** Flipping gives a reduced number with the other parity, unless it is zero. */
  lemma FlipIs(x: int, bit: int)
    requires Reduced(x) && 0 <= bit <= 1
    ensures Reduced(Flip(x, bit)) && (Cong(Flip(x, bit), x) || Cong(Flip(x, bit), -x))
    ensures Flip(x, bit) == 0 <==> x == 0
    ensures x != 0 ==> Flip(x, bit) % 2 != bit
    ensures Flip(x, bit) == x || Flip(x, bit) == (-x) % P
  {
    ReducedIs(x);
    ReducedMod(-x);
    CongRefl(x);
    if x == 0 {
      ReducedIs(0);
    } else {
      DivModUnique(-x, P, -1, P - x);
    }
  }

  lemma SignBit(s: seq<byte>)
    requires |s| == 32
    ensures 0 <= SignOf(s) <= 1
  {
    LeWords(s);
  }

  /** Whenever unpacking succeeds, the result is a point of the curve with the promised coordinates. */
  lemma DecompressSound(s: seq<byte>)
    requires |s| == 32 && DecompressNegative(s).Some?
    ensures var p := DecompressNegative(s).value;
      && OnCurve(p) && p.y == Le(s) % W255 % P
      && (p.x != 0 ==> p.x % 2 != SignOf(s))
  {
    hide Root, Den, Num, Le;
    var y, bit := YOf(s), SignOf(s);
    var x := Root(y).value;
    RootIs(y);
    SignBit(s);
    FlipIs(x, bit);
    RootCong(x, Flip(x, bit), Den(y), Num(y));
    RootEquation(Flip(x, bit), y);
    ReducedMod(Le(s) % W255);
    FromEquation(Point(Flip(x, bit), y));
  }

  /** The power (p-1)/2 of a nonzero number is 1 or -1. */
  lemma Euler(s: int)
    requires Fermat() && !Cong(s, 0)
    ensures Cong(Pow(s, (P - 1) / 2), 1) || Cong(Pow(s, (P - 1) / 2), -1)
  {
    var h := (P - 1) / 2;
    var e := Pow(s, h);
    PowAdd(s, h, h);
    assert e * e == Pow(s, P - 1);
    UnitRoot(e);
  }

  lemma UnitRoot(e: int)
    requires Fermat() && Cong(e * e, 1)
    ensures Cong(e, 1) || Cong(e, -1)
  {
    assert (e - 1) * (e + 1) == e * e - 1;
    CongRefl(1);
    CongAdd(e * e, 1, 1, 1);
    if !Cong(e - 1, 0) && !Cong(e + 1, 0) {
      NoZeroDivisors(e - 1, e + 1);
    }
    if Cong(e - 1, 0) {
      CongAdd(e - 1, 0, 1, 1);
    }
    if Cong(e + 1, 0) {
      CongAdd(e + 1, 0, 1, 1);
    }
  }

  /** w^e w^e w == w^(2e+1), with the exponent that makes it w^((p-1)/4). */
  lemma QuarterPower(w: int)
    ensures (Pow(w, (P - 5) / 8) * Pow(w, (P - 5) / 8)) * w == Pow(w, (P - 1) / 4)
  {
    var e := (P - 5) / 8;
    PowAdd(w, e, e);
    assert Pow(w, e + e + 1) == w * Pow(w, e + e);
    assert e + e + 1 == (P - 1) / 4;
  }

  /** The square of the candidate times den is num times (num den^7)^((p-1)/4). */
  lemma CandidateSquare(r: int, n: int, d: int, d3: int, w: int)
    requires d3 == (d * d) * d && w == ((d3 * d3) * d) * n
    ensures var c := (r * d3) * n; (c * c) * d == ((r * r) * w) * n
  {
    var c := (r * d3) * n;
    assert c * c == ((r * r) * (d3 * d3)) * (n * n);
    assert (((r * r) * (d3 * d3)) * (n * n)) * d == ((r * r) * (((d3 * d3) * d) * n)) * n;
  }

  /** If num == x^2 den, then num den^7 is a square. */
  lemma SquareBase(x: int, n: int, d: int, d3: int, w: int)
    requires d3 == (d * d) * d && w == ((d3 * d3) * d) * n && Cong(n, (x * x) * d)
    ensures var s := ((d * d) * (d * d)) * x; Cong(w, s * s)
  {
    var s := ((d * d) * (d * d)) * x;
    CongScale((d3 * d3) * d, n, (x * x) * d);
    Eighth(d, d3, x);
  }

  lemma Eighth(d: int, d3: int, x: int)
    requires d3 == (d * d) * d
    ensures ((d3 * d3) * d) * ((x * x) * d) == (((d * d) * (d * d)) * x) * (((d * d) * (d * d)) * x)
  {
    var dd := d * d;
    assert (d3 * d3) == (dd * dd) * dd;
    assert ((d3 * d3) * d) * ((x * x) * d) == ((d3 * d3) * dd) * (x * x);
    assert ((dd * dd) * dd) * dd == (dd * dd) * (dd * dd);
    SquareOfProduct(dd * dd, x);
  }

  /** On the curve, the candidate's square is num/den up to sign. */
  lemma CandidateWorks(x: int, y: int)
    requires Fermat() && Cong(Num(y), (x * x) * Den(y))
    ensures var t := Prod(Prod(Candidate(y), Candidate(y)), Den(y)); Cong(t, Num(y)) || Cong(t, -Num(y))
  {
    var n, d := Num(y), Den(y);
    hide Num, Den;
    var d3 := (d * d) * d;
    var w := ((d3 * d3) * d) * n;
    ProdIs(d, d);
    ProdIs(d * d, d);
    ProdIs(d3, d3);
    ProdIs(d3 * d3, d);
    ProdIs((d3 * d3) * d, n);
    var r := Pow(w, (P - 5) / 8);
    ProdIs(r, d3);
    ProdIs(r * d3, n);
    var c := (r * d3) * n;
    ProdIs(c, c);
    ProdIs(c * c, d);
    assert Candidate(y) == c;
    CandidateSquare(r, n, d, d3, w);
    QuarterPower(w);
    SquareBase(x, n, d, d3, w);
    var s := ((d * d) * (d * d)) * x;
    PowerOfSquare(w, s);
    SignedNum(x, n, d, s, Pow(w, (P - 1) / 4), (c * c) * d);
  }

  lemma PowerOfSquare(w: int, s: int)
    requires Cong(w, s * s)
    ensures Cong(Pow(w, (P - 1) / 4), Pow(s, (P - 1) / 2))
  {
    var q := (P - 1) / 4;
    CongPow(w, s * s, q);
    assert Pow(s, 2) == s * Pow(s, 1) == s * s;
    PowMul(s, 2, q);
    assert 2 * q == (P - 1) / 2;
  }

  lemma SignedNum(x: int, n: int, d: int, s: int, e: int, t: int)
    requires Fermat() && Cong(n, (x * x) * d) && s == ((d * d) * (d * d)) * x
    requires Cong(e, Pow(s, (P - 1) / 2)) && t == e * n
    ensures Cong(t, n) || Cong(t, -n)
  {
    if Cong(s, 0) {
      // then x or den vanishes, so num does
      assert Cong(n, 0) by {
        if Cong(d, 0) {
          ZeroMul(d, x * x);
        } else {
          if !Cong(x, 0) {
            NoZeroDivisors(d, d);
            NoZeroDivisors(d * d, d * d);
            NoZeroDivisors((d * d) * (d * d), x);
          }
          ZeroMul(x, x);
          ZeroMul(x * x, d);
        }
        CongTrans(n, (x * x) * d, 0);
      }
      ZeroMul(n, e);
      CongSym(n, 0);
      CongTrans(t, 0, n);
    } else {
      Euler(s);
      CongRefl(n);
      if Cong(Pow(s, (P - 1) / 2), 1) {
        CongTrans(e, Pow(s, (P - 1) / 2), 1);
        CongMul(e, 1, n, n);
      } else {
        CongTrans(e, Pow(s, (P - 1) / 2), -1);
        CongMul(e, -1, n, n);
      }
    }
  }

  /** den never vanishes: d y^2 == -1 would make d a square. */
  lemma DenNonzero(y: int)
    requires Fermat()
    ensures !Cong(Den(y), 0)
  {
    ProdIs(y, y);
    ProdIs(y * y, D);
    TwoIsUnit();
    if Cong(Den(y), 0) {
      CongRefl(1);
      CongAdd(Den(y), 0, 1, 1);
      if Cong(y, 0) {
        ZeroMul(y, y);
        ZeroMul(y * y, D);
        CongSym((y * y) * D, -1);
        CongTrans(-1, (y * y) * D, 0);
      } else {
        SqrtM1Is();
        CongSym(SQRT_M1 * SQRT_M1, -1);
        CongTrans((y * y) * D, -1, SQRT_M1 * SQRT_M1);
        NotRatio(y, SQRT_M1);
      }
    }
  }

  /** Two roots of the same equation agree up to sign. */
  lemma RootsAgree(x: int, r: int, den: int, num: int)
    requires Fermat() && !Cong(den, 0)
    requires Cong((x * x) * den, num) && Cong((r * r) * den, num)
    ensures Cong(r, x) || Cong(r, -x)
  {
    CongSym((x * x) * den, num);
    CongTrans((r * r) * den, num, (x * x) * den);
    assert (r * r) * den == den * (r * r) && (x * x) * den == den * (x * x);
    CongCancel(den, r * r, x * x);
    CongRefl(x * x);
    CongAdd(r * r, x * x, x * x, x * x);
    assert (r - x) * (r + x) == r * r - x * x;
    CongRefl(x);
    if !Cong(r - x, 0) && !Cong(r + x, 0) {
      NoZeroDivisors(r - x, r + x);
    }
    if Cong(r - x, 0) {
      CongAdd(r - x, 0, x, x);
    }
    if Cong(r + x, 0) {
      CongAdd(r + x, 0, x, x);
    }
  }

  /** On the curve, a root is found, and it is x or -x. */
  lemma RootComplete(p: Point)
    requires Fermat() && OnCurve(p)
    ensures Root(p.y).Some?
    ensures Root(p.y).value == p.x || Root(p.y).value == (-p.x) % P
  {
    var x, y := p.x, p.y;
    CurveEquation(p);
    OnCurveReduced(p);
    CurveToRoot(x, y);
    CandidateWorks(x, y);
    DenNonzero(y);
    hide OnCurve, Fermat, Candidate;
    var r := Root(y).value;
    RootIs(y);
    hide Den, Num;
    ProdIs(r, r);
    ProdIs(r * r, Den(y));
    CongSym(Num(y), (x * x) * Den(y));
    RootsAgree(x, r, Den(y), Num(y));
    ReducedMod(-x);
    if Cong(r, x) {
      ReducedUnique(r, x);
    } else {
      CongSym((-x) % P, -x);
      CongTrans(r, -x, (-x) % P);
      ReducedUnique(r, (-x) % P);
    }
  }

  lemma CurveToRoot(x: int, y: int)
    requires Cong(y * y - x * x, 1 + D * ((x * y) * (x * y)))
    ensures Cong(Num(y), (x * x) * Den(y))
  {
    ProdIs(y, y);
    ProdIs(y * y, D);
    var a, b := x * x, y * y;
    SquareOfProduct(x, y);
    CongRefl(a - 1);
    CongAdd(b - a, 1 + D * (a * b), a - 1, a - 1);
    assert a * (b * D + 1) == D * (a * b) + a;
  }

  /** Bit 255 exchanged: the last byte xor 0x80. */
  function FlipTop(s: seq<byte>): (r: seq<byte>)
    requires |s| == 32
    ensures |r| == 32
  {
    s[31 := (At(s, 31) + 128) % 256]
  }

  lemma Exp256Of31()
    ensures Exp256(31) * 128 == W255 && Exp256(32) == 2 * W255
  {
    Exp256Values();
    assert Exp256(4) == 0x1_00000000 && Exp256(3) == 0x1000000;
    Exp256Add(24, 4);
    Exp256Add(28, 3);
    Exp256Add(31, 1);
    assert Exp256(1) == 256;
  }

  /** A 32-byte number by its last byte. */
  lemma LeLast(s: seq<byte>)
    requires |s| == 32
    ensures Le(s) == Le(s[..31]) + Exp256(31) * At(s, 31) && 0 <= Le(s[..31]) < Exp256(31)
  {
    LeBound(s[..31]);
    LeSplit(s, 31);
    assert Le(s[31..]) == At(s, 31) + 256 * Le(s[31..][1..]);
    assert Le(s[31..][1..]) == 0;
  }

  lemma FlipTopIs(s: seq<byte>)
    requires |s| == 32
    ensures Le(FlipTop(s)) == Le(s) % W255 + (1 - Le(s) / W255) * W255
    ensures At(s, 31) / 128 == Le(s) / W255
  {
    hide Le, Exp256;
    LeLast(s);
    LeLast(FlipTop(s));
    FlipTopBytes(s);
    Exp256Of31();
    hide FlipTop;
    TopBitOfByte(Le(s[..31]), Exp256(31), At(s, 31), Le(s));
  }

  lemma FlipTopBytes(s: seq<byte>)
    requires |s| == 32
    ensures FlipTop(s)[..31] == s[..31] && At(FlipTop(s), 31) == (At(s, 31) + 128) % 256
  {
  }

  /** The top bit of the last byte is bit 255. */
  lemma TopBitOfByte(low: int, e: int, b: int, v: int)
    requires 0 <= low < e && e * 128 == W255 && 0 <= b < 256 && v == low + e * b
    ensures b / 128 == v / W255 && low + e * ((b + 128) % 256) == v % W255 + (1 - v / W255) * W255
  {
    if b < 128 {
      MulLe(b + 1, 128, e);
      assert (b + 1) * e == e * b + e && e * (b + 128) == e * b + W255;
      MulNat(e, b);
      DivModUnique(v, W255, 0, v);
    } else {
      MulLe(b - 127, 128, e);
      assert (b - 127) * e == e * (b - 128) + e && e * (b - 128) == e * b - W255;
      MulNat(e, b - 128);
      DivModUnique(v, W255, 1, low + e * (b - 128));
    }
  }

  /** What the encoding of a point says of its coordinates. */
  lemma EncodeIs(p: Point)
    requires Reduced(p.x) && Reduced(p.y)
    ensures Le(Encode(p)) == p.y + (p.x % 2) * W255
    ensures YOf(Encode(p)) == p.y && SignOf(Encode(p)) == p.x % 2
  {
    ReducedIs(p.x);
    ReducedIs(p.y);
    Exp256Of31();
    LeOfBytes(p.y + (p.x % 2) * W255, 32);
    DivModUnique(p.y + (p.x % 2) * W255, W255, p.x % 2, p.y);
    ModSmall(p.y, P);
  }

  /** Unpacking what was packed gives the inverse of the point, for every point of the curve. */
  lemma DecompressEncode(p: Point)
    requires Fermat() && OnCurve(p)
    ensures DecompressNegative(Encode(p)) == Some(Negate(p))
  {
    OnCurveReduced(p);
    ReducedIs(p.y);
    EncodeIs(p);
    RootComplete(p);
    hide OnCurve, Fermat, Root, Encode, YOf, SignOf;
    ReducedIs(p.x);
    FlipOfRoot(p.x, Root(p.y).value);
  }

  lemma FlipOfRoot(x: int, r: int)
    requires 0 <= x < P && (r == x || r == (-x) % P)
    ensures Flip(r, x % 2) == (-x) % P
  {
    if x != 0 {
      DivModUnique(-x, P, -1, P - x);
      DivModUnique(x - P, P, -1, x);
    }
  }

  /** No two points of the curve have the same encoding. */
  lemma EncodeInjective(p: Point, q: Point)
    requires Fermat() && OnCurve(p) && OnCurve(q) && Encode(p) == Encode(q)
    ensures p == q
  {
    DecompressEncode(p);
    DecompressEncode(q);
    OnCurveReduced(p);
    OnCurveReduced(q);
    hide OnCurve, Fermat, DecompressNegative, Encode;
    ReducedIs(p.x);
    ReducedIs(q.x);
    NegationInjective(p.x, q.x);
  }

  lemma NegationInjective(x: int, y: int)
    requires 0 <= x < P && 0 <= y < P && (-x) % P == (-y) % P
    ensures x == y
  {
    if x != 0 {
      DivModUnique(-x, P, -1, P - x);
    }
    if y != 0 {
      DivModUnique(-y, P, -1, P - y);
    }
  }

  /** The root is zero exactly for y == 1 and y == -1. */
  lemma RootZero(y: int)
    requires Fermat() && Root(y).Some?
    ensures Root(y).value == 0 <==> Cong(Prod(y, y), 1)
  {
    var x, yy := Root(y).value, Prod(y, y);
    RootIs(y);
    DenNonzero(y);
    var n, d := Num(y), Den(y);
    hide Root, Den;
    ProdIs(x, x);
    ProdIs(x * x, d);
    CongRefl(1);
    if x == 0 {
      CongSym(0, n);
      CongAdd(n, 0, 1, 1);
    } else if Cong(yy, 1) {
      CongAdd(yy, 1, 1, 1);
      CongTrans((x * x) * d, n, 0);
      assert !Cong(x, 0) by {
        if Cong(x, 0) {
          ReducedIs(0);
          ReducedUnique(x, 0);
        }
      }
      NoZeroDivisors(x, x);
      NoZeroDivisors(x * x, d);
    }
  }

  /**
   Packing an unpacked string gives it back with bit 255 exchanged, exactly when its
   low 255 bits are below p and it does not ask for the odd root of zero.
   */
  lemma EncodeDecompress(s: seq<byte>)
    requires |s| == 32 && Fermat() && DecompressNegative(s).Some?
    ensures var p := DecompressNegative(s).value; var y := Le(s) % W255;
      Encode(p) == FlipTop(s) <==> y < P && (Cong(Prod(y, y), 1) ==> Le(s) / W255 == 1)
  {
    var p := DecompressNegative(s).value;
    var v := Le(s);
    var y := v % W255;
    DecompressSound(s);
    OnCurveReduced(p);
    RootZero(YOf(s));
    RootIs(YOf(s));
    SignBit(s);
    FlipIs(Root(YOf(s)).value, SignOf(s));
    ReducedIs(p.y);
    EncodeIs(p);
    FlipTopIs(s);
    if y < P {
      ModSmall(y, P);
    }
    hide OnCurve, Fermat, Root, Le, Encode, FlipTop;
    if Le(Encode(p)) == Le(FlipTop(s)) {
      LeInjective(Encode(p), FlipTop(s));
    }
    RoundTripCases(p.x, p.y, y, v / W255);
  }

  lemma RoundTripCases(x: int, y0: int, y: int, bit: int)
    requires 0 <= bit <= 1 && y0 == y % P && 0 <= y < W255 && (x != 0 ==> x % 2 != bit)
    ensures y0 + (x % 2) * W255 == y + (1 - bit) * W255 <==> y < P && (x == 0 ==> bit == 1)
  {
  }

  /** Unpacking succeeds exactly when some point of the curve has the y that the string gives modulo p. */
  lemma DecompressDomain(s: seq<byte>)
    requires |s| == 32 && Fermat()
    ensures DecompressNegative(s).Some? <==> exists p: Point :: OnCurve(p) && p.y == Le(s) % W255 % P
  {
    if DecompressNegative(s).Some? {
      DecompressSound(s);
      assert OnCurve(DecompressNegative(s).value);
    }
    if p: Point :| OnCurve(p) && p.y == Le(s) % W255 % P {
      RootComplete(p);
    }
  }

  /** A string that decodes by section 5.1.3 of RFC 8032: it encodes a point of the curve. */
  ghost predicate IsEncoding(s: seq<byte>) {
    exists p: Point :: OnCurve(p) && Encode(p) == s
  }

  /**
   Decoding compared with section 5.1.3 of RFC 8032: besides the strings that the
   standard decodes, unpacking accepts those whose y is not below p and those that ask
   for the odd root of zero, and no others.
   */
  lemma StandardDecoding(s: seq<byte>)
    requires |s| == 32 && Fermat()
    ensures var y := Le(s) % W255;
      IsEncoding(s) <==>
        DecompressNegative(s).Some? && y < P && (Cong(Prod(y, y), 1) ==> Le(s) / W255 == 0)
  {
    if p: Point :| OnCurve(p) && Encode(p) == s {
      EncodedCanonical(p);
    }
    var y := Le(s) % W255;
    if DecompressNegative(s).Some? && y < P && (Cong(Prod(y, y), 1) ==> Le(s) / W255 == 0) {
      CanonicalEncodes(s);
      assert OnCurve(Negate(DecompressNegative(s).value));
    }
  }

  /** The encoding of a point is canonical. */
  lemma EncodedCanonical(p: Point)
    requires Fermat() && OnCurve(p)
    ensures var s := Encode(p); var y := Le(s) % W255;
      DecompressNegative(s).Some? && y < P && (Cong(Prod(y, y), 1) ==> Le(s) / W255 == 0)
  {
    OnCurveReduced(p);
    ReducedIs(p.x);
    ReducedIs(p.y);
    EncodeIs(p);
    DecompressEncode(p);
    RootComplete(p);
    RootZero(p.y);
    hide OnCurve, Fermat, Root, Encode, Le, DecompressNegative;
    ModSmall(p.y, W255);
    DivModUnique(p.y + (p.x % 2) * W255, W255, p.x % 2, p.y);
    if Cong(Prod(p.y, p.y), 1) && p.x != 0 {
      DivModUnique(-p.x, P, -1, P - p.x);
    }
  }

  lemma ParityCases(x: int, v: int)
    requires 0 <= x < P && 0 <= v / W255 <= 1
    requires if x == 0 then v / W255 == 0 else x % 2 != v / W255
    ensures v % W255 + ((-x) % P % 2) * W255 == v
  {
    if x != 0 {
      DivModUnique(-x, P, -1, P - x);
    }
  }

  /** Where unpacking yields x = 0, y is 1 or -1. */
  lemma ZeroX(s: seq<byte>)
    requires |s| == 32 && Fermat() && DecompressNegative(s).Some? && DecompressNegative(s).value.x == 0
    ensures Cong(Prod(YOf(s), YOf(s)), 1)
  {
    RootZero(YOf(s));
    RootIs(YOf(s));
    SignBit(s);
    hide Fermat, Root, Le;
    FlipIs(Root(YOf(s)).value, SignOf(s));
  }

  /** A string with the y of the point q and the other parity of x encodes the inverse of q. */
  lemma EncodesInverse(s: seq<byte>, q: Point)
    requires |s| == 32 && OnCurve(q) && Fermat() && q.y == Le(s) % W255
    requires if q.x == 0 then SignOf(s) == 0 else q.x % 2 != SignOf(s)
    ensures OnCurve(Negate(q)) && Encode(Negate(q)) == s
  {
    NegateIs(q);
    SignBit(s);
    hide Fermat, Le, Plus;
    OnCurveReduced(q);
    OnCurveReduced(Negate(q));
    hide OnCurve;
    ReducedIs(q.x);
    ParityCases(q.x, Le(s));
    EncodeIs(Negate(q));
    hide Encode, Cong, Prod, Reduced;
    LeInjective(Encode(Negate(q)), s);
  }

  /** A canonical string that unpacks is the encoding of the inverse of what it unpacks to. */
  lemma CanonicalEncodes(s: seq<byte>)
    requires |s| == 32 && Fermat() && DecompressNegative(s).Some?
    requires var y := Le(s) % W255; y < P && (Cong(Prod(y, y), 1) ==> Le(s) / W255 == 0)
    ensures var p := Negate(DecompressNegative(s).value); OnCurve(p) && Encode(p) == s
  {
    var q := DecompressNegative(s).value;
    DecompressSound(s);
    if q.x == 0 {
      ZeroX(s);
    }
    hide OnCurve, DecompressNegative, Fermat, Le, Encode, Negate;
    ModSmall(Le(s) % W255, P);
    EncodesInverse(s, q);
  }

  /** y = p + 1 unpacks as y = 1 does, and encodes no point. */
  lemma UnreducedY()
    requires Fermat()
    ensures var s := LeBytes(P + 1, 32); DecompressNegative(s) == Some(NEUTRAL) && !IsEncoding(s)
  {
    var s := LeBytes(P + 1, 32);
    Exp256Of31();
    LeOfBytes(P + 1, 32);
    DivModUnique(P + 1, W255, 0, P + 1);
    DivModUnique(P + 1, P, 1, 1);
    UnpacksNeutral(s);
    StandardDecoding(s);
  }

  /** y = 1 with the sign bit set unpacks to the neutral element, and encodes no point. */
  lemma SignedZero()
    requires Fermat()
    ensures var s := LeBytes(W255 + 1, 32); DecompressNegative(s) == Some(NEUTRAL) && !IsEncoding(s)
  {
    var s := LeBytes(W255 + 1, 32);
    Exp256Of31();
    LeOfBytes(W255 + 1, 32);
    DivModUnique(W255 + 1, W255, 1, 1);
    ModSmall(1, P);
    UnpacksNeutral(s);
    ProdIs(1, 1);
    CongRefl(1);
    StandardDecoding(s);
  }

  lemma UnpacksNeutral(s: seq<byte>)
    requires |s| == 32 && Fermat() && YOf(s) == 1
    ensures DecompressNegative(s) == Some(NEUTRAL)
  {
    NeutralOnCurve();
    RootComplete(NEUTRAL);
    SignBit(s);
    hide OnCurve, Fermat, Root, Le;
    ReducedIs(0);
    FlipIs(0, SignOf(s));
  }
}
