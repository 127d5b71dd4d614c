/**
 Bos-Carter multi-scalar multiplication (ed25519-donna-batchverify.h): the
 largest scalar is reduced by the second largest, whose point absorbs the
 other's, until one scalar is left.
 */
module Sums {
  import opened Groups

  /** [v0]p0 + [v1]p1 + ... */
  function Sum<T(!new)>(g: Group<T>, v: seq<nat>, p: seq<T>): T
    requires |v| == |p|
  {
    if |v| == 0 then g.zero
    else g.add(Sum(g, v[..|v| - 1], p[..|p| - 1]), Times(g, v[|v| - 1], p[|p| - 1]))
  }

  ghost predicate AllIn<T(!new)>(g: Group<T>, p: seq<T>) {
    forall i :: 0 <= i < |p| ==> g.carrier(p[i])
  }

  function Total(v: seq<nat>): nat {
    if |v| == 0 then 0 else Total(v[..|v| - 1]) + v[|v| - 1]
  }

  lemma {:induction false} SumIn<T(!new)>(g: Group<T>, v: seq<nat>, p: seq<T>)
    requires Abelian(g) && |v| == |p| && AllIn(g, p)
    ensures g.carrier(Sum(g, v, p))
  {
    if |v| > 0 {
      var n := |v| - 1;
      SumIn(g, v[..n], p[..n]);
      TimesIn(g, v[n], p[n]);
      Comm(g, Sum(g, v[..n], p[..n]), Times(g, v[n], p[n]));
    }
  }

  /** (a + b) + c == (a + c) + b */
  lemma SwapLast<T(!new)>(g: Group<T>, a: T, b: T, c: T)
    requires Abelian(g) && g.carrier(a) && g.carrier(b) && g.carrier(c)
    ensures g.add(g.add(a, b), c) == g.add(g.add(a, c), b)
  {
    Assoc(g, a, b, c);
    Assoc(g, a, c, b);
    Comm(g, b, c);
  }

  lemma CarryLast<T(!new)>(g: Group<T>, s: T, s': T, t: T, u: T, last: T)
    requires Abelian(g) && g.carrier(s) && g.carrier(s') && g.carrier(t) && g.carrier(u) && g.carrier(last)
    requires g.add(s', t) == g.add(s, u)
    ensures g.add(g.add(s', last), t) == g.add(g.add(s, last), u)
  {
    SwapLast(g, s', last, t);
    SwapLast(g, s, last, u);
  }

  /** Replacing one term: the new sum plus the old term is the old sum plus the new term. */
  lemma {:induction false} SumUpdate<T(!new)>(g: Group<T>, v: seq<nat>, p: seq<T>, i: nat, x: nat, q: T)
    requires Abelian(g) && |v| == |p| && AllIn(g, p) && i < |v| && g.carrier(q)
    ensures g.add(Sum(g, v[i := x], p[i := q]), Times(g, v[i], p[i])) == g.add(Sum(g, v, p), Times(g, x, q))
  {
    var n := |v| - 1;
    var v', p' := v[i := x], p[i := q];
    SumIn(g, v[..n], p[..n]);
    TimesIn(g, v[n], p[n]);
    TimesIn(g, x, q);
    if i == n {
      assert v'[..n] == v[..n] && p'[..n] == p[..n];
      SwapLast(g, Sum(g, v[..n], p[..n]), Times(g, x, q), Times(g, v[n], p[n]));
    } else {
      SumUpdate(g, v[..n], p[..n], i, x, q);
      assert v'[..n] == v[..n][i := x] && p'[..n] == p[..n][i := q];
      SumIn(g, v'[..n], p'[..n]);
      TimesIn(g, v[i], p[i]);
      CarryLast(g, Sum(g, v[..n], p[..n]), Sum(g, v'[..n], p'[..n]), Times(g, v[i], p[i]), Times(g, x, q),
                Times(g, v[n], p[n]));
    }
  }

  lemma {:induction false} TotalUpdate(v: seq<nat>, i: nat, x: nat)
    requires i < |v|
    ensures Total(v[i := x]) == Total(v) - v[i] + x
  {
    var n := |v| - 1;
    if i == n {
      assert v[i := x][..n] == v[..n];
    } else {
      TotalUpdate(v[..n], i, x);
      assert v[i := x][..n] == v[..n][i := x];
    }
  }

  /** Adding r to one point adds that point's multiple of r. */
  lemma PointAbsorbs<T(!new)>(g: Group<T>, v: seq<nat>, p: seq<T>, i: nat, r: T)
    requires Abelian(g) && |v| == |p| && AllIn(g, p) && i < |v| && g.carrier(r)
    ensures g.carrier(g.add(p[i], r))
    ensures Sum(g, v, p[i := g.add(p[i], r)]) == g.add(Sum(g, v, p), Times(g, v[i], r))
  {
    var q := g.add(p[i], r);
    Comm(g, p[i], r);
    var s, s', t, u := Sum(g, v, p), Sum(g, v, p[i := q]), Times(g, v[i], p[i]), Times(g, v[i], r);
    SumIn(g, v, p);
    SumIn(g, v, p[i := q]);
    SumUpdate(g, v, p, i, v[i], q);
    assert v[i := v[i]] == v;
    TimesSum(g, v[i], p[i], r);
    Absorb(g, s, s', t, u);
  }

  lemma Absorb<T(!new)>(g: Group<T>, s: T, s': T, t: T, u: T)
    requires Abelian(g) && g.carrier(s) && g.carrier(s') && g.carrier(t) && g.carrier(u)
    requires g.add(s', t) == g.add(s, g.add(t, u))
    ensures s' == g.add(s, u)
  {
    Comm(g, s, u);
    Comm(g, t, u);
    Assoc(g, s, u, t);
    Comm(g, s', t);
    Comm(g, g.add(s, u), t);
    Cancel(g, t, s', g.add(s, u));
  }

  /** Lowering one scalar by b takes away b times its point. */
  lemma ScalarDrops<T(!new)>(g: Group<T>, v: seq<nat>, p: seq<T>, i: nat, b: nat)
    requires Abelian(g) && |v| == |p| && AllIn(g, p) && i < |v| && b <= v[i]
    ensures g.add(Sum(g, v[i := v[i] - b], p), Times(g, b, p[i])) == Sum(g, v, p)
  {
    var s, s' := Sum(g, v, p), Sum(g, v[i := v[i] - b], p);
    SumIn(g, v, p);
    SumIn(g, v[i := v[i] - b], p);
    SumUpdate(g, v, p, i, v[i] - b, p[i]);
    assert p[i := p[i]] == p;
    TimesAdd(g, v[i] - b, b, p[i]);
    Drop(g, s, s', Times(g, v[i] - b, p[i]), Times(g, b, p[i]));
  }

  lemma Drop<T(!new)>(g: Group<T>, s: T, s': T, t: T, u: T)
    requires Abelian(g) && g.carrier(s) && g.carrier(s') && g.carrier(t) && g.carrier(u)
    requires g.add(s', g.add(t, u)) == g.add(s, t)
    ensures g.add(s', u) == s
  {
    Comm(g, t, u);
    Comm(g, s', u);
    Assoc(g, s', u, t);
    Comm(g, s, t);
    Comm(g, g.add(s', u), t);
    Cancel(g, t, s, g.add(s', u));
  }

  /** The Bos-Carter step keeps the sum: (a - b)P + b(Q + P) == aP + bQ. */
  lemma StepKeepsSum<T(!new)>(g: Group<T>, v: seq<nat>, p: seq<T>, m1: nat, m2: nat)
    requires Abelian(g) && |v| == |p| && AllIn(g, p)
    requires m1 < |v| && m2 < |v| && m1 != m2 && v[m2] <= v[m1]
    ensures g.carrier(g.add(p[m2], p[m1]))
    ensures Sum(g, v[m1 := v[m1] - v[m2]], p[m2 := g.add(p[m2], p[m1])]) == Sum(g, v, p)
  {
    PointAbsorbs(g, v[m1 := v[m1] - v[m2]], p, m2, p[m1]);
    ScalarDrops(g, v, p, m1, v[m2]);
  }

  /** Two sums side by side. */
  lemma {:induction false} SumConcat<T(!new)>(g: Group<T>, v: seq<nat>, p: seq<T>, w: seq<nat>, q: seq<T>)
    requires Abelian(g) && |v| == |p| && |w| == |q| && AllIn(g, p) && AllIn(g, q)
    ensures g.carrier(Sum(g, v, p)) && g.carrier(Sum(g, w, q))
    ensures Sum(g, v + w, p + q) == g.add(Sum(g, v, p), Sum(g, w, q))
    decreases |w|
  {
    hide Abelian, Times;
    SumIn(g, v, p);
    SumIn(g, w, q);
    if |w| == 0 {
      assert v + w == v && p + q == p;
      Unit(g, Sum(g, v, p));
    } else {
      var n := |w| - 1;
      SumConcat(g, v, p, w[..n], q[..n]);
      assert (v + w)[..|v| + n] == v + w[..n] && (p + q)[..|v| + n] == p + q[..n];
      TimesIn(g, w[n], q[n]);
      Assoc(g, Sum(g, v, p), Sum(g, w[..n], q[..n]), Times(g, w[n], q[n]));
    }
  }

  /** A sum with one nonzero scalar is that one term. */
  lemma {:induction false} SumSingle<T(!new)>(g: Group<T>, v: seq<nat>, p: seq<T>, m: nat)
    requires Abelian(g) && |v| == |p| && AllIn(g, p) && m < |v|
    requires forall k :: 0 <= k < |v| && k != m ==> v[k] == 0
    ensures Sum(g, v, p) == Times(g, v[m], p[m])
  {
    var n := |v| - 1;
    TimesIn(g, v[m], p[m]);
    Unit(g, Times(g, v[m], p[m]));
    if m == n {
      SumZero(g, v[..n], p[..n]);
    } else {
      SumSingle(g, v[..n], p[..n], m);
      assert Times(g, v[n], p[n]) == g.zero;
    }
  }

  lemma {:induction false} SumZero<T(!new)>(g: Group<T>, v: seq<nat>, p: seq<T>)
    requires Abelian(g) && |v| == |p|
    requires forall k :: 0 <= k < |v| ==> v[k] == 0
    ensures Sum(g, v, p) == g.zero
  {
    if |v| > 0 {
      SumZero(g, v[..|v| - 1], p[..|p| - 1]);
      Unit(g, g.zero);
    }
  }

  /** d times a sum is the sum with every scalar multiplied by d. */
  lemma {:induction false} SumScale<T(!new)>(g: Group<T>, d: nat, v: seq<nat>, w: seq<nat>, p: seq<T>)
    requires Abelian(g) && |v| == |w| == |p| && AllIn(g, p)
    requires forall i :: 0 <= i < |v| ==> w[i] == d * v[i]
    ensures Times(g, d, Sum(g, v, p)) == Sum(g, w, p)
  {
    if |v| == 0 {
      TimesZero(g, d);
    } else {
      var n := |v| - 1;
      SumScale(g, d, v[..n], w[..n], p[..n]);
      SumIn(g, v[..n], p[..n]);
      TimesIn(g, v[n], p[n]);
      TimesSum(g, d, Sum(g, v[..n], p[..n]), Times(g, v[n], p[n]));
      TimesTimes(g, d, v[n], p[n]);
    }
  }
}

/** What the loop of the multi-scalar multiplication keeps, in terms of the values of scalars and points. */
module BosCarter {
  import opened Arith
  import opened Groups
  import opened Options
  import opened Scalars
  import opened Gcds
  import opened FinalScalar
  import opened Sums

  /** ((count + 1) / 2) | 1 */
  function HeapStart(count: nat): nat {
    var h := (count + 1) / 2;
    if h % 2 == 0 then h + 1 else h
  }

  ghost predicate TwoNonzero(v: seq<nat>) {
    exists i, j :: 0 <= i < j < |v| && v[i] != 0 && v[j] != 0
  }

  /**
   When the loop gets as far as taking in the short scalars: at least two of the
   scalars it starts with are nonzero, and their greatest common divisor has at most
   128 bits.
   */
  ghost predicate ReachesShort(v: seq<nat>) {
    TwoNonzero(v) && GcdAll(v) < W128
  }

  /**
   What the multiplication returns for scalars v and points p: the loop divides the scalars
   by their greatest common divisor, and the final step is left with that divisor.
   */
  function Outcome<T(!new)>(g: Group<T>, v: seq<nat>, p: seq<T>): Option<T>
    requires |v| == |p|
  {
    var d := GcdAll(v);
    FinalOf(g, d, if d == 0 then g.zero else Sum(g, Quotients(v, d), p))
  }

  /** What the loop knows before the short scalars are in: v are the long scalars now, v0 as they were. */
  ghost predicate LongPhase(v0: seq<nat>, v: seq<nat>, first: bool) {
    && |v| == |v0|
    && GcdAll(v) == GcdAll(v0)
    && (if first then v == v0
        else && TwoNonzero(v0)
             && (exists k :: 0 <= k < |v| && v[k] >= W128 / 2)
             && (forall k :: 0 <= k < |v| && Sole(v, k) ==> v[k] >= W128))
  }

  /** Every other scalar is zero. */
  ghost predicate Sole(v: seq<nat>, k: nat) {
    forall j :: 0 <= j < |v| && j != k ==> v[j] == 0
  }

  /** A step from a maximum of more than 128 bits stays in the long phase. */
  lemma LongStep(v0: seq<nat>, v: seq<nat>, first: bool, m1: nat, m2: nat)
    requires LongPhase(v0, v, first) && m1 < |v| && m2 < |v| && m1 != m2
    requires 0 < v[m2] <= v[m1] && W128 <= v[m1]
    ensures LongPhase(v0, v[m1 := v[m1] - v[m2]], false)
  {
    var u := v[m1 := v[m1] - v[m2]];
    StepKeepsGcd(v, m1, m2);
    hide GcdAll;
    if first {
      if m1 < m2 {
        assert v0[m1] != 0 && v0[m2] != 0;
      } else {
        assert v0[m2] != 0 && v0[m1] != 0;
      }
    }
    // a maximum at most halves
    if v[m2] >= W128 / 2 {
      assert u[m2] >= W128 / 2;
    } else {
      assert u[m1] >= W128 / 2;
    }
    forall k | 0 <= k < |u| && Sole(u, k)
      ensures u[k] >= W128
    {
      assert u[m2] == v[m2];
      assert k == m2 && u[m1] == 0;
    }
  }

  /** Leaving the loop in the long phase: the short scalars are never reached. */
  lemma LongExit(v0: seq<nat>, v: seq<nat>, first: bool, m1: nat)
    requires LongPhase(v0, v, first) && m1 < |v| && Sole(v, m1)
    ensures !ReachesShort(v0)
  {
    if first {
      assert !TwoNonzero(v0);
    } else {
      GcdSole(v, m1);
    }
  }

  /** Taking in the short scalars happens only when it should. */
  lemma LongEnd(v0: seq<nat>, v: seq<nat>, first: bool, m1: nat, m2: nat)
    requires LongPhase(v0, v, first) && m1 < |v| && m2 < |v| && m1 != m2
    requires 0 < v[m2] <= v[m1] < W128
    ensures ReachesShort(v0)
  {
    if first {
      if m1 < m2 {
        assert v0[m1] != 0 && v0[m2] != 0;
      } else {
        assert v0[m2] != 0 && v0[m1] != 0;
      }
    }
    var d := GcdAll(v);
    hide GcdAll;
    if d > 0 {
      SelfDivides(d);
      GcdAllIs(v, d);
      DivisorSmall(v[m1], d);
    }
  }

  /** The scalars v and v0 have d as a common divisor or not together, and the sums of their quotients agree. */
  ghost predicate KeptBy<T(!new)>(g: Group<T>, d: nat, v0: seq<nat>, p0: seq<T>, v: seq<nat>, p: seq<T>)
    requires 0 < d && |v0| == |p0| == |v| == |p|
  {
    && (DividesAll(d, v) <==> DividesAll(d, v0))
    && (DividesAll(d, v) ==> Sum(g, Quotients(v, d), p) == Sum(g, Quotients(v0, d), p0))
  }

  /** Scalars v0 with points p0 have become v with p, and all their quotients have the same sums. */
  ghost predicate Kept<T(!new)>(g: Group<T>, v0: seq<nat>, p0: seq<T>, v: seq<nat>, p: seq<T>) {
    && |v0| == |p0| == |v| == |p|
    && AllIn(g, p)
    && forall d {:trigger KeptBy(g, d, v0, p0, v, p)} :: 0 < d ==> KeptBy(g, d, v0, p0, v, p)
  }

  lemma StepKeptBy<T(!new)>(g: Group<T>, d: nat, v0: seq<nat>, p0: seq<T>, v: seq<nat>, p: seq<T>, m1: nat, m2: nat)
    requires Abelian(g) && 0 < d && |v0| == |p0| == |v| == |p| && AllIn(g, p) && KeptBy(g, d, v0, p0, v, p)
    requires m1 < |v| && m2 < |v| && m1 != m2 && v[m2] <= v[m1]
    ensures KeptBy(g, d, v0, p0, v[m1 := v[m1] - v[m2]], p[m2 := g.add(p[m2], p[m1])])
  {
    hide Abelian, Sum, DividesAll;
    StepKeepsDivisors(d, v, m1, m2);
    if DividesAll(d, v) {
      QuotientsStep(v, d, m1, m2);
      StepKeepsSum(g, Quotients(v, d), p, m1, m2);
    }
  }

  lemma StepKept<T(!new)>(g: Group<T>, v0: seq<nat>, p0: seq<T>, v: seq<nat>, p: seq<T>, m1: nat, m2: nat)
    requires Abelian(g) && Kept(g, v0, p0, v, p)
    requires m1 < |v| && m2 < |v| && m1 != m2 && v[m2] <= v[m1]
    ensures Kept(g, v0, p0, v[m1 := v[m1] - v[m2]], p[m2 := g.add(p[m2], p[m1])])
  {
    hide KeptBy, Abelian;
    var u, q := v[m1 := v[m1] - v[m2]], p[m2 := g.add(p[m2], p[m1])];
    Comm(g, p[m2], p[m1]);
    forall d {:trigger KeptBy(g, d, v0, p0, u, q)} | 0 < d
      ensures KeptBy(g, d, v0, p0, u, q)
    {
      assert KeptBy(g, d, v0, p0, v, p);
      StepKeptBy(g, d, v0, p0, v, p, m1, m2);
    }
  }

  /** When one scalar is left, it is the greatest common divisor and its point is the sum of the quotients. */
  lemma KeptExit<T(!new)>(g: Group<T>, v0: seq<nat>, p0: seq<T>, v: seq<nat>, p: seq<T>, m: nat)
    requires Abelian(g) && Kept(g, v0, p0, v, p) && m < |v| && Sole(v, m)
    ensures g.carrier(p[m]) && GcdAll(v0) == v[m] && FinalOf(g, v[m], p[m]) == Outcome(g, v0, p0)
  {
    hide Abelian, GcdAll, Sum, FinalOf;
    forall e {:trigger DividesAll(e, v0)} | 0 < e
      ensures v[m] % e == 0 <==> DividesAll(e, v0)
    {
      assert KeptBy(g, e, v0, p0, v, p);
      GcdSole(v, m);
      GcdAllIs(v, e);
    }
    GcdUnique(v[m], v0);
    var d := v[m];
    if d > 0 {
      SelfDivides(d);
      assert KeptBy(g, d, v0, p0, v, p);
      OneQuotient(g, v, p, m);
    } else {
      FinalOfZero(g, p[m], g.zero);
    }
  }

  lemma FinalOfZero<T(!new)>(g: Group<T>, p: T, q: T)
    ensures FinalOf(g, 0, p) == FinalOf(g, 0, q)
  {
  }

  lemma OneQuotient<T(!new)>(g: Group<T>, v: seq<nat>, p: seq<T>, m: nat)
    requires Abelian(g) && |v| == |p| && AllIn(g, p) && m < |v| && Sole(v, m) && 0 < v[m]
    ensures Sum(g, Quotients(v, v[m]), p) == p[m]
  {
    hide Abelian, Sum;
    var d := v[m];
    DivModUnique(d, d, 1, 0);
    DivModUnique(0, d, 0, 0);
    SumSingle(g, Quotients(v, d), p, m);
    TimesOne(g, p[m]);
  }

  /** Before the short scalars are taken in, the first n indices work among themselves. */
  ghost predicate Before<T(!new)>(g: Group<T>, v0: seq<nat>, p0: seq<T>, v: seq<nat>, p: seq<T>, n: nat, first: bool) {
    && |v0| == |p0| == |v| == |p| && n <= |v|
    && v[n..] == v0[n..]
    && Kept(g, v0[..n], p0[..n], v[..n], p[..n])
    && LongPhase(v0[..n], v[..n], first)
  }

  lemma StepBefore<T(!new)>(g: Group<T>, v0: seq<nat>, p0: seq<T>, v: seq<nat>, p: seq<T>, n: nat, first: bool,
                            m1: nat, m2: nat)
    requires Abelian(g) && Before(g, v0, p0, v, p, n, first)
    requires m1 < n && m2 < n && m1 != m2 && 0 < v[m2] <= v[m1] && W128 <= v[m1]
    ensures Before(g, v0, p0, v[m1 := v[m1] - v[m2]], p[m2 := g.add(p[m2], p[m1])], n, false)
  {
    hide LongPhase, Kept;
    var u, q := v[m1 := v[m1] - v[m2]], p[m2 := g.add(p[m2], p[m1])];
    assert u[..n] == v[..n][m1 := v[m1] - v[m2]];
    assert q[..n] == p[..n][m2 := g.add(p[m2], p[m1])];
    StepKept(g, v0[..n], p0[..n], v[..n], p[..n], m1, m2);
    LongStep(v0[..n], v[..n], first, m1, m2);
  }

  /** How a run begins: all scalars and points, and how many of them the heap is built with. */
  ghost predicate Begins<T(!new)>(g: Group<T>, v0: seq<nat>, p0: seq<T>, n: nat) {
    && Abelian(g)
    && |v0| == |p0| && 3 <= n <= |v0| && n % 2 == 1 && |v0| % 2 == 1
    && (forall k :: n <= k < |v0| ==> v0[k] < W128)
  }

  /** What is known at the head of the loop, of a run that began with v0 and p0. */
  ghost predicate AtHead<T(!new)>(g: Group<T>, v0: seq<nat>, p0: seq<T>, n: nat, v: seq<nat>, p: seq<T>,
                                  size: nat, limbsize: nat, extended: bool, first: bool) {
    && Begins(g, v0, p0, n) && Kept(g, v0, p0, v, p)
    && (if extended
        then size == |v| && ReachesShort(v0[..n]) && (forall k :: 0 <= k < |v| ==> v[k] < W128)
        else size == n && Before(g, v0, p0, v, p, n, first) && (if first then limbsize == 4 else limbsize >= 2))
  }

  lemma HeadEntry<T(!new)>(g: Group<T>, v: seq<nat>, p: seq<T>, n: nat)
    requires Begins(g, v, p, n) && AllIn(g, p)
    ensures AtHead(g, v, p, n, v, p, n, 4, false, true)
  {
  }

  lemma HeadFacts<T(!new)>(g: Group<T>, v0: seq<nat>, p0: seq<T>, n: nat, v: seq<nat>, p: seq<T>,
                           size: nat, limbsize: nat, extended: bool, first: bool)
    requires AtHead(g, v0, p0, n, v, p, size, limbsize, extended, first)
    ensures 3 <= size <= |v| == |p| && size % 2 == 1
    ensures !extended ==> if first then limbsize == 4 else exists k :: 0 <= k < size && v[k] >= W128 / 2
  {
    if !extended && !first {
      var u := v[..n];
      var k :| 0 <= k < |u| && u[k] >= W128 / 2;
      assert v[k] >= W128 / 2;
    }
  }

  /** One step from the head of the loop, the maximum being long unless the short scalars are in. */
  lemma HeadStep<T(!new)>(g: Group<T>, v0: seq<nat>, p0: seq<T>, n: nat, v: seq<nat>, p: seq<T>,
                          size: nat, before: nat, limbsize: nat, extended: bool, first: bool, m1: nat, m2: nat)
    requires AtHead(g, v0, p0, n, v, p, size, before, extended, first)
    requires m1 < size <= |v| == |p| && m2 < size && m1 != m2 && 0 < v[m2] <= v[m1]
    requires !extended ==> W128 <= v[m1] && limbsize >= 2
    ensures AtHead(g, v0, p0, n, v[m1 := v[m1] - v[m2]], p[m2 := g.add(p[m2], p[m1])], size, limbsize, extended, false)
  {
    StepKept(g, v0, p0, v, p, m1, m2);
    if !extended {
      StepBefore(g, v0, p0, v, p, n, first, m1, m2);
    }
  }

  /** Taking in the short scalars. */
  lemma HeadExtend<T(!new)>(g: Group<T>, v0: seq<nat>, p0: seq<T>, n: nat, v: seq<nat>, p: seq<T>,
                            size: nat, limbsize: nat, first: bool, m1: nat, m2: nat)
    requires AtHead(g, v0, p0, n, v, p, size, limbsize, false, first)
    requires m1 < size <= |v| && m2 < size && m1 != m2 && 0 < v[m2] <= v[m1] < W128
    requires forall k :: 0 <= k < size ==> v[k] <= v[m1]
    ensures forall k :: 0 <= k < |v| ==> v[k] < W128
    ensures AtHead(g, v0, p0, n, v, p, |v|, limbsize, true, first)
  {
    LongEnd(v0[..n], v[..n], first, m1, m2);
    forall k | n <= k < |v|
      ensures v[k] < W128
    {
      assert v[n..][k - n] == v0[n..][k - n];
    }
  }

  /** Leaving the loop: one term is left, of all indices or of the first n. */
  lemma HeadExit<T(!new)>(g: Group<T>, v0: seq<nat>, p0: seq<T>, n: nat, v: seq<nat>, p: seq<T>,
                          size: nat, limbsize: nat, extended: bool, first: bool, m1: nat)
    requires AtHead(g, v0, p0, n, v, p, size, limbsize, extended, first) && m1 < size <= |v| == |p|
    requires forall k :: 0 <= k < size && k != m1 ==> v[k] == 0
    ensures g.carrier(p[m1])
    ensures FinalOf(g, v[m1], p[m1])
         == if ReachesShort(v0[..n]) then Outcome(g, v0, p0) else Outcome(g, v0[..n], p0[..n])
  {
    hide Outcome, FinalOf, ReachesShort, Kept;
    if extended {
      KeptExit(g, v0, p0, v, p, m1);
    } else {
      LongExit(v0[..n], v[..n], first, m1);
      KeptExit(g, v0[..n], p0[..n], v[..n], p[..n], m1);
    }
  }

  /** A divisor common to all scalars is common to the first n. */
  lemma GcdGrows(v: seq<nat>, n: nat)
    requires n <= |v| && ReachesShort(v[..n])
    ensures 0 < GcdAll(v) < W128
  {
    var u := v[..n];
    hide GcdAll;
    var d, e := GcdAll(u), GcdAll(v);
    var i, j :| 0 <= i < j < |u| && u[i] != 0 && u[j] != 0;
    if d == 0 {
      GcdAllIs(u, u[i] + 1);
      ModSmall(0, u[i] + 1);
      assert u[i] % (u[i] + 1) == 0;
      ModSmall(u[i], u[i] + 1);
      assert false;
    }
    if e == 0 {
      GcdAllIs(v, v[i] + 1);
      ModSmall(0, v[i] + 1);
      assert v[i] % (v[i] + 1) == 0;
      ModSmall(v[i], v[i] + 1);
      assert false;
    }
    SelfDivides(e);
    GcdAllIs(v, e);
    assert DividesAll(e, u);
    GcdAllIs(u, e);
    DivisorSmall(d, e);
  }

  /** Two equal scalars reach the short ones just when they are not zero and have at most 128 bits. */
  lemma ReachBoundary(d: nat)
    ensures ReachesShort([d, d, 0]) <==> 0 < d < Exp2(128)
  {
    Exp2Of128();
    var v := [d, d, 0];
    EqualGcd(v, d);
    hide GcdAll, Exp2;
    if d != 0 {
      assert v[0] != 0 && v[1] != 0;
    }
  }

  lemma EqualGcd(v: seq<nat>, d: nat)
    requires v == [d, d, 0]
    ensures GcdAll(v) == d
  {
    hide GcdAll;
    forall e {:trigger DividesAll(e, v)} | 0 < e
      ensures d % e == 0 <==> DividesAll(e, v)
    {
      ModSmall(0, e);
      assert v[0] == d && v[1] == d && v[2] == 0;
    }
    GcdUnique(d, v);
  }

  lemma Exp2Of128()
    ensures Exp2(128) == W128
  {
    assert Exp2(8) == 0x100;
    Exp2Step(8, 8, 0x100, 0x100);
    Exp2Step(16, 16, 0x10000, 0x10000);
    Exp2Step(32, 32, W32, W32);
    Exp2Step(64, 64, W64, W64);
  }

  /** The greatest common divisor times the sum of the quotients is the sum. */
  lemma QuotientSum<T(!new)>(g: Group<T>, v: seq<nat>, p: seq<T>)
    requires Abelian(g) && |v| == |p| && AllIn(g, p) && 0 < GcdAll(v)
    ensures var q := Sum(g, Quotients(v, GcdAll(v)), p); g.carrier(q) && Times(g, GcdAll(v), q) == Sum(g, v, p)
  {
    hide Abelian, GcdAll, Sum, Times;
    var d := GcdAll(v);
    var w := Quotients(v, d);
    SelfDivides(d);
    GcdAllIs(v, d);
    forall i | 0 <= i < |v|
      ensures v[i] == d * w[i]
    {
      assert v[i] % d == 0;
    }
    SumScale(g, d, w, v, p);
    SumIn(g, w, p);
  }

  /**
   When the short scalars are reached, and every element is annihilated by 8l for a prime l,
   the outcome is neutral exactly when the sum is.
   */
  lemma OutcomeNeutral<T(!new)>(g: Group<T>, l: nat, v: seq<nat>, p: seq<T>, n: nat)
    requires Abelian(g) && |v| == |p| && AllIn(g, p) && n <= |v| && ReachesShort(v[..n]) && Prime(l) && 4 * W224 <= l
    requires forall q {:trigger Times(g, 8 * l, q)} :: g.carrier(q) ==> Times(g, 8 * l, q) == g.zero
    ensures Outcome(g, v, p) == Some(g.zero) <==> Sum(g, v, p) == g.zero
  {
    GcdGrows(v, n);
    hide Abelian, GcdAll, FinalOf, ReachesShort, Sum, Times, Prime, Quotients, AllIn;
    QuotientSum(g, v, p);
    var d := GcdAll(v);
    var q := Sum(g, Quotients(v, d), p);
    assert Times(g, 8 * l, q) == g.zero;
    NeutralAgrees(g, l, d, q);
  }

  /** The terms the heap was not built with, and the sum over all of them. */
  lemma PartialIsFull<T(!new)>(g: Group<T>, v: seq<nat>, p: seq<T>, n: nat)
    requires Abelian(g) && |v| == |p| && AllIn(g, p) && n <= |v|
    ensures Sum(g, v[..n], p[..n]) == Sum(g, v, p) <==> Sum(g, v[n..], p[n..]) == g.zero
  {
    SplitAt(v, n);
    SplitAt(p, n);
    assert AllIn(g, p[..n]) && AllIn(g, p[n..]);
    hide *;
    SumConcat(g, v[..n], p[..n], v[n..], p[n..]);
    AddsNothing(g, Sum(g, v[..n], p[..n]), Sum(g, v[n..], p[n..]));
  }

  lemma SplitAt<X>(s: seq<X>, n: nat)
    requires n <= |s|
    ensures s[..n] + s[n..] == s
  {
  }

  lemma AddsNothing<T(!new)>(g: Group<T>, x: T, y: T)
    requires Abelian(g) && g.carrier(x) && g.carrier(y)
    ensures x == g.add(x, y) <==> y == g.zero
  {
    hide Abelian;
    Unit(g, x);
    if g.add(x, y) == x {
      Cancel(g, x, y, g.zero);
    }
  }
}
