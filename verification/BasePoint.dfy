/** The base point, as the tables give it (ge25519_basepoint). */
module BasePoint {
  import opened ModP
  import opened PrimeField
  import opened Field
  import opened Edwards
  import opened Points

  const BASE: Point := Point(0x216936d3cd6e53fec0a4e231fdd6dc5c692cc7609525a7b2c9562d608f25d51a,
                             0x6666666666666666666666666666666666666666666666666666666666666658)

  const BASEPOINT: Ge := Ge(
    Fe(0x62d608f25d51a, 0x412a4b4f6592a, 0x75b7171a4b31d, 0x1ff60527118fe, 0x216936d3cd6e5),
    Fe(0x6666666666658, 0x4cccccccccccc, 0x1999999999999, 0x3333333333333, 0x6666666666666),
    ONE,
    Fe(0x68ab3a5b7dda3, 0x00eea2a5eadbb, 0x2af8df483c27e, 0x332b375274732, 0x67875f0fd78b7))

  /** y is 4/5 and (x, y) is on the curve, as section 5.1 of RFC 8032 has it, with x even. */
  lemma BaseOnCurve()
    ensures OnCurve(BASE) && Cong(5 * BASE.y, 4) && BASE.x % 2 == 0
  {
    var x, y := BASE.x, BASE.y;
    ReducedIs(x);
    ReducedIs(y);
    CongBy(y * y - x * x, 1 + D * ((x * y) * (x * y)),
           -0x72705895b7fd68a9fa7924f5dbf66a83342931bfa505f5c01a65246a2283b5bdefac6a6f236898302e8ed7c7df683605c40a4c5bad89dcf0c8e913ecc5b282a35cfc55550db4be5e6bd6246e4a4ea2054904f5e4438fa42b0e56e116ea5951cfeb87ecfc5b550744d2c0fca4a89ec707de8b3c9a756eb80e7ec260dc2fda59);
    FromEquation(BASE);
    CongBy(5 * y, 4, 4);
  }

  /** The constant stands for the base point in all four coordinates. */
  lemma BasepointIs()
    ensures IsFull(BASEPOINT, BASE)
  {
    BaseOnCurve();
    hide OnCurve;
    var x, y := BASE.x, BASE.y;
    assert FeVal(BASEPOINT.x) == x && FeVal(BASEPOINT.y) == y && FeVal(BASEPOINT.z) == 1;
    var t := FeVal(BASEPOINT.t);
    assert t == 0x67875f0fd78b766566ea4e8e64abe37d20f09f80775152f56dde8ab3a5b7dda3;
    ProdIs(x, 1);
    ProdIs(y, 1);
    ProdIs(x, y);
    ProdIs(x * y, 1);
    CongRefl(x);
    CongRefl(y);
    CongMod(1, 0);
    CongBy(t, x * y, -0x1aba92430abea9989a1d81c197df16b05423d2b3aa848628a111bde6d8eb10e1);
  }
}
