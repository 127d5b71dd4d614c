/** Greatest common divisors of scalars, which subtracting one scalar from another keeps. */
module Gcds {
  import opened Arith

  function Gcd(a: nat, b: nat): nat
    decreases b
  {
    if b == 0 then a else Gcd(b, a % b)
  }

  function GcdAll(v: seq<nat>): nat {
    if |v| == 0 then 0 else Gcd(GcdAll(v[..|v| - 1]), v[|v| - 1])
  }

  ghost predicate DividesAll(d: nat, v: seq<nat>)
    requires 0 < d
  {
    forall i :: 0 <= i < |v| ==> v[i] % d == 0
  }

  lemma ModSub(a: nat, b: nat, d: nat)
    requires 0 < d && b <= a && b % d == 0
    ensures (a - b) % d == 0 <==> a % d == 0
  {
    ModShift(a - b, b / d, d);
    assert b == b / d * d;
  }

  /** The quotient of a difference of multiples. */
  lemma DivSub(a: nat, b: nat, d: nat)
    requires 0 < d && b <= a && a % d == 0 && b % d == 0
    ensures b / d <= a / d && (a - b) / d == a / d - b / d
  {
    var x, y := a / d, b / d;
    assert a == d * x && b == d * y;
    assert a - b == (x - y) * d;
    if x < y {
      MulLt(x, y, d);
      assert false;
    }
    DivModUnique(a - b, d, x - y, 0);
  }

  lemma ModOfMod(a: nat, b: nat, e: nat)
    requires 0 < e && 0 < b && b % e == 0
    ensures (a % b) % e == 0 <==> a % e == 0
  {
    var q := a / b;
    assert a == b * q + a % b;
    assert b == b / e * e;
    assert b * q == (b / e * q) * e;
    ModShift(a % b, b / e * q, e);
  }

  lemma {:induction false} GcdDivides(a: nat, b: nat, e: nat)
    requires 0 < e
    ensures Gcd(a, b) % e == 0 <==> a % e == 0 && b % e == 0
    decreases b
  {
    if b == 0 {
      ModSmall(0, e);
    } else {
      GcdDivides(b, a % b, e);
      if b % e == 0 {
        ModOfMod(a, b, e);
      }
    }
  }

  /** The common divisors are the divisors of the greatest one. */
  lemma {:induction false} GcdAllIs(v: seq<nat>, e: nat)
    requires 0 < e
    ensures GcdAll(v) % e == 0 <==> DividesAll(e, v)
  {
    if |v| == 0 {
      ModSmall(0, e);
    } else {
      var n := |v| - 1;
      GcdAllIs(v[..n], e);
      GcdDivides(GcdAll(v[..n]), v[n], e);
      if DividesAll(e, v[..n]) && v[n] % e == 0 {
        forall i | 0 <= i < |v|
          ensures v[i] % e == 0
        {
          if i < n {
            assert v[..n][i] % e == 0;
          }
        }
      }
    }
  }

  lemma SelfDivides(a: nat)
    requires 0 < a
    ensures a % a == 0
  {
    DivModUnique(a, a, 1, 0);
  }

  lemma DivisorSmall(a: nat, d: nat)
    requires 0 < a && 0 < d && a % d == 0
    ensures d <= a
  {
    if a < d {
      ModSmall(a, d);
    }
  }

  /** Only the greatest common divisor has just the common divisors. */
  lemma GcdUnique(s: nat, v: seq<nat>)
    requires forall e {:trigger DividesAll(e, v)} :: 0 < e ==> (s % e == 0 <==> DividesAll(e, v))
    ensures s == GcdAll(v)
  {
    var g := GcdAll(v);
    var e := s + g + 1;
    GcdAllIs(v, e);
    ModSmall(s, e);
    ModSmall(g, e);
    if 0 < s && 0 < g {
      SelfDivides(s);
      SelfDivides(g);
      GcdAllIs(v, s);
      GcdAllIs(v, g);
      DivisorSmall(g, s);
      DivisorSmall(s, g);
    }
  }

  /** Subtracting one scalar from another keeps the common divisors. */
  lemma StepKeepsDivisors(d: nat, v: seq<nat>, m1: nat, m2: nat)
    requires 0 < d && m1 < |v| && m2 < |v| && m1 != m2 && v[m2] <= v[m1]
    ensures DividesAll(d, v[m1 := v[m1] - v[m2]]) <==> DividesAll(d, v)
  {
    var u := v[m1 := v[m1] - v[m2]];
    if DividesAll(d, v) {
      ModSub(v[m1], v[m2], d);
    }
    if DividesAll(d, u) {
      assert u[m2] % d == 0 && u[m1] % d == 0;
      ModSub(v[m1], v[m2], d);
      forall i | 0 <= i < |v|
        ensures v[i] % d == 0
      {
        assert u[i] % d == 0;
      }
    }
  }

  lemma StepKeepsGcd(v: seq<nat>, m1: nat, m2: nat)
    requires m1 < |v| && m2 < |v| && m1 != m2 && v[m2] <= v[m1]
    ensures GcdAll(v[m1 := v[m1] - v[m2]]) == GcdAll(v)
  {
    hide GcdAll, DividesAll;
    var u := v[m1 := v[m1] - v[m2]];
    forall e {:trigger DividesAll(e, v)} | 0 < e
      ensures GcdAll(u) % e == 0 <==> DividesAll(e, v)
    {
      GcdAllIs(u, e);
      StepKeepsDivisors(e, v, m1, m2);
    }
    GcdUnique(GcdAll(u), v);
  }

  /** With one scalar not zero, it is the greatest common divisor. */
  lemma GcdSole(v: seq<nat>, m: nat)
    requires m < |v| && forall j :: 0 <= j < |v| && j != m ==> v[j] == 0
    ensures GcdAll(v) == v[m]
  {
    hide GcdAll;
    forall e {:trigger DividesAll(e, v)} | 0 < e
      ensures v[m] % e == 0 <==> DividesAll(e, v)
    {
      ModSmall(0, e);
    }
    GcdUnique(v[m], v);
  }

  /** Each scalar divided by d. */
  function Quotients(v: seq<nat>, d: nat): (q: seq<nat>)
    requires 0 < d
    ensures |q| == |v| && forall i :: 0 <= i < |v| ==> q[i] == v[i] / d
  {
    seq(|v|, i requires 0 <= i < |v| => v[i] / d)
  }

  lemma QuotientsStep(v: seq<nat>, d: nat, m1: nat, m2: nat)
    requires 0 < d && DividesAll(d, v) && m1 < |v| && m2 < |v| && m1 != m2 && v[m2] <= v[m1]
    ensures var q := Quotients(v, d);
      q[m2] <= q[m1] && Quotients(v[m1 := v[m1] - v[m2]], d) == q[m1 := q[m1] - q[m2]]
  {
    DivSub(v[m1], v[m2], d);
  }
}
