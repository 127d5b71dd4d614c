/** How an entry of a table is checked against a multiple of the base point, and how rows make up a table. */
module TableSteps {
  import opened Arith
  import opened Bytes
  import opened ModP
  import opened PrimeField
  import opened Field
  import opened Edwards
  import opened Compression
  import opened Projective
  import opened Points
  import opened ScalarMult
  import opened BaseMult
  import opened BasePoint
  import opened BasePowers

  /** y - x, y + x and c x y, up to multiples of p. */
  ghost predicate Holds(p: Point, c: int, u: int, v: int, w: int, a: int, b: int, e: int) {
    && u - (p.y - p.x) == a * P
    && v - (p.y + p.x) == b * P
    && w - c * (p.x * p.y) == e * P
  }

  lemma HoldsTriple(p: Point, c: int, u: int, v: int, w: int, a: int, b: int, e: int)
    requires OnCurve(p) && Holds(p, c, u, v, w, a, b, e)
    ensures Triple(p, u, v, w, c)
  {
    hide OnCurve;
    CongBy(u, p.y - p.x, a);
    CongBy(v, p.y + p.x, b);
    ProdIs(p.x, p.y);
    ProdIs(c, p.x * p.y);
    CongBy(w, c * (p.x * p.y), e);
  }

  lemma OneNotZero()
    ensures !Cong(1, 0)
  {
    CongMod(1, 0);
  }

  lemma HoldsPrepared(p: Point, u: int, v: int, w: int, a: int, b: int, e: int)
    requires OnCurve(p) && Holds(p, 2 * D, u, v, w, a, b, e)
    ensures Prepared(p, u, v, w, 1)
  {
    hide OnCurve;
    OneNotZero();
    CongBy(u, p.y - p.x, a);
    CongBy(v, p.y + p.x, b);
    ProdIs(p.y - p.x, 1);
    ProdIs(p.y + p.x, 1);
    ProdIs(p.x, p.y);
    ProdIs(p.x * p.y, 1);
    ProdIs(D, p.x * p.y);
    ProdIs(2, D * (p.x * p.y));
    CongBy(w, 2 * D * (p.x * p.y), e);
  }

  /** An entry of the table for the sliding window. */
  lemma EntryIs(k: int, p: Point, n: Niels, u: int, v: int, w: int, a: int, b: int, e: int)
    requires Fermat() && IsMultiple(k, p) && Loose(n.ysubx) && Loose(n.xaddy) && Loose(n.t2d)
    requires FeVal(n.ysubx) == u && FeVal(n.xaddy) == v && FeVal(n.t2d) == w && Holds(p, 2 * D, u, v, w, a, b, e)
    ensures IsNiels(n, Mult(k, BASE))
  {
    MultipleOnCurve(k, p);
    hide Fermat, OnCurve, Mult, FeVal, Prepared, Holds;
    HoldsPrepared(p, u, v, w, a, b, e);
  }

  /** A row of the packed table, from the three numbers in it. */
  function Row(u: nat, v: nat, w: nat): seq<byte> {
    LeBytes(u, 32) + LeBytes(v, 32) + LeBytes(w, 32)
  }

  lemma NumbersOf(u: nat, v: nat, w: nat)
    requires u < W255 && v < W255 && w < W255
    ensures var row := Row(u, v, w);
      |row| == 96 && Le(row[..32]) % W255 == u && Le(row[32..64]) % W255 == v && Le(row[64..]) % W255 == w
  {
    Exp256Of31();
    LeOfBytes(u, 32);
    LeOfBytes(v, 32);
    LeOfBytes(w, 32);
    hide Le, LeBytes, Exp256;
    var row := Row(u, v, w);
    assert row[..32] == LeBytes(u, 32) && row[32..64] == LeBytes(v, 32) && row[64..] == LeBytes(w, 32);
    ModSmall(u, W255);
    ModSmall(v, W255);
    ModSmall(w, W255);
  }

  lemma RowIs(k: int, p: Point, c: int, u: nat, v: nat, w: nat, a: int, b: int, e: int)
    requires Fermat() && IsMultiple(k, p) && u < W255 && v < W255 && w < W255 && Holds(p, c, u, v, w, a, b, e)
    ensures IsRow(Row(u, v, w), Mult(k, BASE), c)
  {
    MultipleOnCurve(k, p);
    hide Fermat, OnCurve, Mult, Le, Row, Holds, Triple;
    NumbersOf(u, v, w);
    HoldsTriple(p, c, u, v, w, a, b, e);
  }

  /** The eight rows of one position. */
  ghost predicate IsBlock(rows: seq<seq<byte>>, pos: nat) {
    |rows| == 8 && forall i :: 0 <= i < 8 ==> IsRow(rows[i], Mult((i + 1) * Pow(256, pos), BASE), Factor(pos))
  }

  lemma Together(rows: seq<seq<byte>>, pos: nat, unit: int)
    requires |rows| == 8 && Pow(256, pos) == unit
    requires IsRow(rows[0], Mult(1 * unit, BASE), Factor(pos)) && IsRow(rows[1], Mult(2 * unit, BASE), Factor(pos))
    requires IsRow(rows[2], Mult(3 * unit, BASE), Factor(pos)) && IsRow(rows[3], Mult(4 * unit, BASE), Factor(pos))
    requires IsRow(rows[4], Mult(5 * unit, BASE), Factor(pos)) && IsRow(rows[5], Mult(6 * unit, BASE), Factor(pos))
    requires IsRow(rows[6], Mult(7 * unit, BASE), Factor(pos)) && IsRow(rows[7], Mult(8 * unit, BASE), Factor(pos))
    ensures IsBlock(rows, pos)
  {
    hide IsRow, Mult, Pow, Factor;
  }

  /** The rows of the first n positions. */
  ghost predicate AreRows(table: seq<seq<byte>>, n: nat) {
    |table| == 8 * n
    && forall r :: 0 <= r < 8 * n ==> IsRow(table[r], Mult((r % 8 + 1) * Pow(256, r / 8), BASE), Factor(r / 8))
  }

  lemma MoreRows(table: seq<seq<byte>>, n: nat, rows: seq<seq<byte>>)
    requires AreRows(table, n) && IsBlock(rows, n)
    ensures AreRows(table + rows, n + 1)
  {
    hide IsRow, Mult, Pow, Factor;
    var all := table + rows;
    forall r | 0 <= r < 8 * (n + 1)
      ensures IsRow(all[r], Mult((r % 8 + 1) * Pow(256, r / 8), BASE), Factor(r / 8))
    {
      if r < 8 * n {
        assert all[r] == table[r];
      } else {
        assert all[r] == rows[r - 8 * n];
        DivModUnique(r, 8, n, r - 8 * n);
      }
    }
  }

  lemma FirstRows(rows: seq<seq<byte>>)
    requires IsBlock(rows, 0)
    ensures AreRows(rows, 1)
  {
    hide IsRow, Mult, Pow, Factor;
    assert [] + rows == rows;
    MoreRows([], 0, rows);
  }

  lemma AllRows(table: seq<seq<byte>>)
    requires AreRows(table, 32)
    ensures IsBaseTable(table, BASE)
  {
    hide IsRow, Mult, Pow, Factor;
  }
}
