/** Base-point multiplication for Curve25519 (curved25519_scalarmult_basepoint), worked out on the Edwards curve. */
module Curve25519 {
  import opened Arith
  import opened Bytes
  import opened Bits
  import opened Scalars
  import opened ScalarBytes
  import opened ModP
  import opened PrimeField
  import opened Field
  import opened FieldBytes
  import opened Chains
  import opened Edwards
  import opened Points
  import opened BasePoint
  import opened ScalarMult
  import opened BaseMult
  import opened Signature
  import opened Montgomery
  import opened X25519

  /** The last four calls: u from the coordinates. */
  method Convert(p: Ge, ghost q: Point) returns (pk: seq<byte>)
    requires Fermat() && IsPartial(p, q)
    ensures |pk| == 32 && IsU(Le(pk), q)
  {
    hide FeVal, OnCurve, Le, Fermat, Reduced;
    var yplusz := Field.Add(p.y, p.z);
    var zminusy := Field.Sub(p.z, p.y);
    ghost var y, z, w := FeVal(p.y), FeVal(p.z), FeVal(zminusy);
    assert Below(yplusz, 0x8000000040000 + 0x8000000040000 - 1) && Below(zminusy, 0x8000000040000 + 0x10000000000000);
    zminusy := Recip(zminusy);
    CongPow(w, z - y, P - 2);
    CongTrans(FeVal(zminusy), Pow(w, P - 2), Pow(z - y, P - 2));
    yplusz := Field.Mul(yplusz, zminusy);
    pk := FieldBytes.Contract(yplusz);
    RatioIsU(q, y, z, FeVal(zminusy), FeVal(yplusz));
  }

  /** The base point has u coordinate 9. */
  lemma Nine()
    ensures Proper(9, BASE.y)
  {
    CongMod(9 * (1 - BASE.y), 1 + BASE.y);
    CongMod(1 - BASE.y, 0);
    CongMod(9, 0);
  }

  /** The u coordinate of [k]B is what X25519 gives for k and 9. */
  lemma LadderOfNine(k: nat, u: int)
    requires Fermat() && k < W255 && IsU(u, Mult(k, BASE))
    ensures u == Evaluate(k, 9)
  {
    BaseOnCurve();
    Nine();
    hide Fermat, OnCurve, Mult, IsU, Evaluate, Proper;
    LadderIs(k, 9, BASE);
    MultIn(k, BASE);
    UUnique(u, Evaluate(k, 9), Mult(k, BASE));
  }

  /**
   curved25519_scalarmult_basepoint: the u coordinate of the clamped scalar times the base point,
   which is X25519 of the scalar and 9.
   */
  method ScalarmultBasepoint(e: seq<byte>, table: seq<seq<byte>>, ghost base: Point) returns (pk: seq<byte>)
    requires Fermat() && OnCurve(base) && IsBaseTable(table, base) && |e| == 32
    ensures |pk| == 32 && IsU(Le(pk), Mult(Le(Clamped(e)), base)) && OnMontgomery(Le(pk))
    ensures base == BASE ==> Le(pk) == Evaluate(Le(Clamped(e)), 9)
  {
    hide Fermat, OnCurve, IsBaseTable, Mult, Val, IsPartial, Le, IsU, OnMontgomery, Canonical, Evaluate;
    ClampLow(e[0]);
    ClampHigh(e[31]);
    hide And, Or;
    var ec := e[0 := And(e[0], 248)];
    ec := ec[31 := And(ec[31], 127)];
    ec := ec[31 := Or(ec[31], 64)];
    assert ec == Clamped(e);
    ClampedBound(e);
    var s := ScalarBytes.ExpandRaw(ec);
    var p := ScalarmultBase(table, s, base);
    ghost var q := Mult(Le(Clamped(e)), base);
    FullIsPartial(p, q);
    pk := Convert(p, q);
    MapsToMontgomery(q, Le(pk));
    if base == BASE {
      LadderOfNine(Le(Clamped(e)), Le(pk));
    }
  }

  lemma ClampedBound(e: seq<byte>)
    requires |e| == 32
    ensures Le(Clamped(e)) < W255
  {
    hide Le, Clamped;
    ClampedValue(e);
    assert e[..32] == e && Clamped(e)[..32] == Clamped(e);
  }

  lemma FullIsPartial(r: Ge, p: Point)
    requires IsFull(r, p)
    ensures IsPartial(r, p) && OnCurve(p)
  {
  }
}
