/** Field elements as 32 little-endian bytes (curve25519_expand and curve25519_contract). */
module FieldBytes {
  import opened Arith
  import opened Bytes
  import opened Field
  import opened ModP

  /** Bits that a 64-bit shift left keeps, then a 51-bit mask: limb 1. */
  lemma Limb1(x0: int, x1: int)
    requires 0 <= x0 < 0x10000000000000000 && 0 <= x1 < 0x10000000000000000
    ensures (x0 / B51 + (x1 * 0x2000) % 0x10000000000000000) % B51 == x0 / B51 + (x1 % 0x4000000000) * 0x2000
  {
    assert (x1 * 0x2000) % 0x10000000000000000 == (x1 % B51) * 0x2000;
    assert x1 % B51 == (x1 % B51) / 0x4000000000 * 0x4000000000 + x1 % 0x4000000000;
  }

  lemma Limb2(x1: int, x2: int)
    requires 0 <= x1 < 0x10000000000000000 && 0 <= x2 < 0x10000000000000000
    ensures (x1 / 0x4000000000 + (x2 * 0x4000000) % 0x10000000000000000) % B51
         == x1 / 0x4000000000 + (x2 % 0x2000000) * 0x4000000
  {
    var y := x2 % 0x4000000000;
    assert (x2 * 0x4000000) % 0x10000000000000000 == y * 0x4000000;
    assert y == y / 0x2000000 * 0x2000000 + y % 0x2000000 && y % 0x2000000 == x2 % 0x2000000;
    DivModUnique(x1 / 0x4000000000 + y * 0x4000000, B51, y / 0x2000000, x1 / 0x4000000000 + (x2 % 0x2000000) * 0x4000000);
  }

  lemma Limb3(x2: int, x3: int)
    requires 0 <= x2 < 0x10000000000000000 && 0 <= x3 < 0x10000000000000000
    ensures (x2 / 0x2000000 + (x3 * 0x8000000000) % 0x10000000000000000) % B51
         == x2 / 0x2000000 + (x3 % 0x1000) * 0x8000000000
  {
    assert (x3 * 0x8000000000) % 0x10000000000000000 == (x3 % 0x2000000) * 0x8000000000;
    assert x3 % 0x2000000 == (x3 % 0x2000000) / 0x1000 * 0x1000 + x3 % 0x1000;
  }

  /** The limbs together are the words, but for the top bit. */
  lemma PackWords(x0: int, x1: int, x2: int, x3: int)
    requires 0 <= x3 < 0x10000000000000000
    ensures x0 + x1 * 0x1_0000000000000000 + x2 * 0x1_00000000000000000000000000000000
            + x3 * 0x1_000000000000000000000000000000000000000000000000
         == Sum5(x0 % B51, x0 / B51 + (x1 % 0x4000000000) * 0x2000, x1 / 0x4000000000 + (x2 % 0x2000000) * 0x4000000,
                 x2 / 0x2000000 + (x3 % 0x1000) * 0x8000000000, (x3 / 0x1000) % B51) + (x3 / 0x8000000000000000) * W255
  {
    var y := x3 / 0x1000;
    assert y / B51 == x3 / 0x8000000000000000;
    assert x0 == x0 / B51 * B51 + x0 % B51;
    assert x1 == x1 / 0x4000000000 * 0x4000000000 + x1 % 0x4000000000;
    assert x2 == x2 / 0x2000000 * 0x2000000 + x2 % 0x2000000;
    assert x3 == y * 0x1000 + x3 % 0x1000;
    assert y == y / B51 * B51 + y % B51;
  }

  /** The limbs of four little-endian words. */
  method ExpandWords(w0: u64, w1: u64, w2: u64, w3: u64) returns (out: Fe)
    ensures Below(out, B51)
    ensures w0 + w1 * W64 + w2 * W128 + w3 * W192 == FeVal(out) + (w3 / 0x8000000000000000) * W255
  {
    var x0: int, x1: int, x2: int, x3: int := w0, w1, w2, w3;
    Limb1(x0, x1);
    Limb2(x1, x2);
    Limb3(x2, x3);
    PackWords(x0, x1, x2, x3);
    hide Sum5;
    var r0: u64 := x0 % B51; x0 := x0 / B51 + (x1 * 0x2000) % 0x10000000000000000;
    var r1: u64 := x0 % B51; x1 := x1 / 0x4000000000 + (x2 * 0x4000000) % 0x10000000000000000;
    var r2: u64 := x1 % B51; x2 := x2 / 0x2000000 + (x3 * 0x8000000000) % 0x10000000000000000;
    var r3: u64 := x2 % B51; x3 := x3 / 0x1000;
    var r4: u64 := x3 % B51;
    out := Fe(r0, r1, r2, r3, r4);
  }

  /** curve25519_expand: the low 255 bits, in 51-bit limbs. */
  method Expand(input: seq<byte>) returns (out: Fe)
    requires |input| == 32
    ensures Below(out, B51) && FeVal(out) == Le(input) % W255
  {
    LeWords(input);
    hide Load64, Le;
    out := ExpandWords(Load64(input, 0), Load64(input, 8), Load64(input, 16), Load64(input, 24));
    TightValue(out);
    DivModUnique(Le(input), W255, Load64(input, 24) / 0x8000000000000000, FeVal(out));
  }

  lemma TightValue(a: Fe)
    requires Below(a, B51)
    ensures 0 <= FeVal(a) < W255
  {
  }

  /** curve25519_contract_carry: the value stays, and all limbs but the top come below 2^51. */
  method ContractCarry(t: Fe) returns (r: Fe)
    requires Below(t, 0x8000000000001000)
    ensures FeVal(r) == FeVal(t)
    ensures r.l0 < B51 && r.l1 < B51 && r.l2 < B51 && r.l3 < B51 && r.l4 <= t.l4 + 0x2000
  {
    var t0: u64, t1: u64, t2: u64, t3: u64, t4: u64 := t.l0, t.l1, t.l2, t.l3, t.l4;
    t1 := t1 + t0 / B51; t0 := t0 % B51;
    t2 := t2 + t1 / B51; t1 := t1 % B51;
    t3 := t3 + t2 / B51; t2 := t2 % B51;
    t4 := t4 + t3 / B51; t3 := t3 % B51;
    r := Fe(t0, t1, t2, t3, t4);
  }

  /** curve25519_contract_carry_full: what exceeds 255 bits comes back times 19. */
  method ContractCarryFull(t: Fe) returns (r: Fe)
    requires Below(t, 0x8000000000001000)
    ensures FeVal(r) == FeVal(t) % W255 + 19 * (FeVal(t) / W255)
    ensures r.l1 < B51 && r.l2 < B51 && r.l3 < B51 && r.l4 < B51 && r.l0 < B51 + 19 * (FeVal(t) / W255)
  {
    r := ContractCarry(t);
    ghost var low := Fe(r.l0, r.l1, r.l2, r.l3, r.l4 % B51);
    ghost var q := r.l4 / B51;
    TightValue(low);
    assert FeVal(t) == q * W255 + FeVal(low);
    DivModUnique(FeVal(t), W255, q, FeVal(low));
    r := Fe(r.l0 + 19 * (r.l4 / B51), r.l1, r.l2, r.l3, r.l4 % B51);
  }

  /** Each folding of the bits above 255 keeps the residue. */
  lemma FoldTop(v: int)
    requires 0 <= v
    ensures (v % W255 + 19 * (v / W255)) % P == v % P
  {
    ModShift(v % W255 + 19 * (v / W255), v / W255, P);
  }

  /** The value after each of the first two carries. */
  lemma TwoFolds(v0: int, v1: int, v2: int)
    requires 0 <= v0 < 0x2000 * W255
    requires v1 == v0 % W255 + 19 * (v0 / W255) && v2 == v1 % W255 + 19 * (v1 / W255)
    ensures 0 <= v2 < W255 && v2 % P == v0 % P
    ensures v1 / W255 == 0 || v2 < B51
  {
    FoldTop(v0);
    FoldTop(v1);
  }

  /** Adding 19 and folding once more finds out whether p has to be taken away. */
  lemma LastFold(v2: int, v3: int)
    requires 0 <= v2 < W255 && v3 == (v2 + 19) % W255 + 19 * ((v2 + 19) / W255)
    ensures v3 == v2 % P + 19 && (v2 + 19) / W255 <= 1
  {
    if v2 < P {
      DivModUnique(v2, P, 0, v2);
    } else {
      DivModUnique(v2, P, 1, v2 - P);
    }
  }

  lemma LoosestValue(t: Fe)
    requires Below(t, 0x8000000000000000)
    ensures FeVal(t) < 0x2000 * W255
  {
  }

  lemma LowLimbLe(t: Fe)
    ensures t.l0 <= FeVal(t)
  {
  }

  /** The first two carries leave a number of 255 bits. */
  method CarryTwice(input: Fe) returns (t: Fe)
    requires Below(input, 0x8000000000000000)
    ensures Below(t, B51) && FeVal(t) % P == FeVal(input) % P
  {
    LoosestValue(input);
    hide FeVal;
    t := ContractCarryFull(input);
    ghost var v1 := FeVal(t);
    t := ContractCarryFull(t);
    TwoFolds(FeVal(input), v1, FeVal(t));
    LowLimbLe(t);
  }

  /** The arithmetic of curve25519_contract: the canonical representative, fully carried. */
  method Freeze(input: Fe) returns (t: Fe)
    requires Below(input, 0x8000000000000000)
    ensures Below(t, B51) && FeVal(t) == FeVal(input) % P
  {
    t := CarryTwice(input);
    ghost var v2 := FeVal(t);
    TightValue(t);
    hide FeVal;
    t := Offset(t, 19, 0);
    t := ContractCarryFull(t);
    LastFold(v2, FeVal(t));
    t := Offset(t, B51 - 19, B51 - 1);
    t := ContractCarry(t);
    t := DropTop(t);
  }

  method Offset(t: Fe, x: int, y: int) returns (r: Fe)
    requires Below(t, B51 + 20) && 0 <= x < B51 && 0 <= y < B51
    ensures r == Fe(t.l0 + x, t.l1 + y, t.l2 + y, t.l3 + y, t.l4 + y)
    ensures FeVal(r) == FeVal(t) + Sum5(x, y, y, y, y)
  {
    r := Fe(t.l0 + x, t.l1 + y, t.l2 + y, t.l3 + y, t.l4 + y);
  }

  /** The mask on the top limb takes away exactly 2^255. */
  method DropTop(t: Fe) returns (r: Fe)
    requires t.l0 < B51 && t.l1 < B51 && t.l2 < B51 && t.l3 < B51
    requires W255 <= FeVal(t) < 2 * W255
    ensures Below(r, B51) && FeVal(r) == FeVal(t) - W255
  {
    r := Fe(t.l0, t.l1, t.l2, t.l3, t.l4 % B51);
  }

  lemma Word0(t0: int, t1: int)
    requires 0 <= t0 < B51 && 0 <= t1 < B51
    ensures (t1 * B51) % 0x10000000000000000 == (t1 % 0x2000) * B51
  {
    assert t1 * B51 == t1 / 0x2000 * 0x10000000000000000 + (t1 % 0x2000) * B51;
  }

  lemma Word1(t2: int)
    requires 0 <= t2 < B51
    ensures (t2 * 0x4000000000) % 0x10000000000000000 == (t2 % 0x4000000) * 0x4000000000
  {
    assert t2 * 0x4000000000 == t2 / 0x4000000 * 0x10000000000000000 + (t2 % 0x4000000) * 0x4000000000;
  }

  lemma Word2(t3: int)
    requires 0 <= t3 < B51
    ensures (t3 * 0x2000000) % 0x10000000000000000 == (t3 % 0x8000000000) * 0x2000000
  {
    assert t3 * 0x2000000 == t3 / 0x8000000000 * 0x10000000000000000 + (t3 % 0x8000000000) * 0x2000000;
  }

  /** write51full: 51-bit limbs become 64-bit words. */
  method Words(t: Fe) returns (f0: u64, f1: u64, f2: u64, f3: u64)
    requires Below(t, B51)
    ensures f0 + f1 * W64 + f2 * W128 + f3 * W192 == FeVal(t)
  {
    var t0: int, t1: int, t2: int, t3: int, t4: int := t.l0, t.l1, t.l2, t.l3, t.l4;
    Word0(t0, t1);
    Word1(t2);
    Word2(t3);
    f0 := t0 + (t1 * B51) % 0x10000000000000000;
    f1 := t1 / 0x2000 + (t2 * 0x4000000000) % 0x10000000000000000;
    f2 := t2 / 0x4000000 + (t3 * 0x2000000) % 0x10000000000000000;
    f3 := t3 / 0x8000000000 + (t4 * 0x1000) % 0x10000000000000000;
  }

  /** The byte-writing loop: eight bytes, least significant first. */
  method WriteWord(word: u64) returns (out: seq<byte>)
    ensures |out| == 8 && Le(out) == word
  {
    var f: nat := word;
    out := [];
    assert Le([]) == 0;
    for i := 0 to 8
      invariant |out| == i && 0 <= f && Le(out) + Exp256(i) * f == word
    {
      var b: byte := f % 256;
      LeConcat(out, [b]);
      assert Le([b]) == b;
      assert Exp256(i) * f == Exp256(i) * b + Exp256(i + 1) * (f / 256) by {
        assert f == b + 256 * (f / 256);
        ByteWeights(Exp256(i), b, f / 256);
      }
      out := out + [b];
      f := f / 256;
    }
    LeBound(out);
    Exp256Values();
    if f > 0 {
      assert false;
    }
  }

  lemma ByteWeights(e: int, b: int, q: int)
    ensures e * (b + 256 * q) == e * b + (256 * e) * q
  {
  }

  /** curve25519_contract: the value mod p, as an integer below p, in 32 bytes. */
  method Contract(input: Fe) returns (out: seq<byte>)
    requires Below(input, 0x8000000000000000)
    ensures |out| == 32 && Le(out) == FeVal(input) % P
  {
    hide FeVal, Le;
    var t := Freeze(input);
    var f0, f1, f2, f3 := Words(t);
    var b0 := WriteWord(f0);
    var b1 := WriteWord(f1);
    var b2 := WriteWord(f2);
    var b3 := WriteWord(f3);
    LeOfWords(b0, b1, b2, b3);
    out := b0 + b1 + b2 + b3;
  }

  /** Encodings of integers below p survive expanding and contracting; others come out reduced. */
  method ExpandContract(input: seq<byte>) returns (out: seq<byte>)
    requires |input| == 32
    ensures |out| == 32 && Le(out) == Le(input) % W255 % P
    ensures out == input <==> Le(input) < P
  {
    hide FeVal, Le;
    var t := Expand(input);
    out := Contract(t);
    if Le(input) < P {
      ModSmall(Le(input), W255);
      ModSmall(Le(input), P);
      LeInjective(out, input);
    }
  }
}
