/**
 The multi-scalar multiplication of batch verification on limbs
 (ge25519_multi_scalarmult_vartime and ge25519_multi_scalarmult_vartime_final).
 */
module MultiScalars {
  import opened Arith
  import opened Groups
  import opened Options
  import opened Scalars
  import opened PrimeField
  import opened Edwards
  import opened CurveGroup
  import opened Points
  import opened ScalarMult
  import opened HeapOrder
  import opened BatchHeaps
  import opened FinalScalar
  import opened Sums
  import opened BosCarter

  /** The limbs stand for the point, if there is one. */
  ghost predicate Yields(out: Option<Ge>, q: Option<Point>) {
    (out.None? <==> q.None?) && (out.Some? && q.Some? ==> IsFull(out.value, q.value))
  }

  /** ge25519_multi_scalarmult_vartime_final */
  method Final(point: Ge, scalar: Scalar, ghost p: Point) returns (out: Option<Ge>)
    requires Fermat() && IsFull(point, p) && Canonical(scalar)
    ensures Yields(out, FinalOf(Curve(), Val(scalar), p))
  {
    hide Fermat, IsFull, OnCurve, Times, Canonical;
    Classify(scalar);
    LowMod(scalar);
    if IsOne(scalar) {
      return Some(point);
    } else if IsZero(scalar) {
      NeutralFull();
      return Some(NEUTRAL_GE);
    }
    var top := TopLimb(scalar);
    if top.None? {
      return None;
    }
    var limb: nat := top.value;
    LimbIsWord(scalar, limb);
    var flag: nat, k := TopFlag(scalar[limb]);
    LeadingBit(scalar, limb, k);
    var r := DoubleAndAdd(point, scalar, limb, flag, k, p);
    return Some(r);
  }

  lemma LimbIsWord(s: Scalar, i: nat)
    requires Canonical(s) && i < |s|
    ensures s[i] < W56
  {
  }

  /** One doubling, and the addition that a set bit asks for. */
  method DoubleAndAddBit(r0: Ge, point: Ge, bit: nat, ghost m: nat, ghost p: Point) returns (r: Ge)
    requires Fermat() && IsFull(point, p) && IsFull(r0, Mult(m, p)) && bit <= 1
    ensures IsFull(r, Mult(2 * m + bit, p))
  {
    OnCurveFull(point, p);
    assert IsPartial(r0, Mult(m, p));
    hide Fermat, IsFull, IsPartial, OnCurve, Plus, Mult;
    MultAdd(m, m, p);
    MultAdd(2 * m, 1, p);
    MultIn(1, p);
    r := Double(r0, Mult(m, p));
    if bit == 1 {
      r := AddFull(r, point, Mult(2 * m, p), p);
    }
  }

  /** The exponentiation loop, from the leading set bit down to bit 0. */
  method DoubleAndAdd(point: Ge, scalar: Scalar, limb0: nat, flag0: nat, ghost k0: nat, ghost p: Point) returns (r: Ge)
    requires Fermat() && IsFull(point, p) && Canonical(scalar)
    requires limb0 < |scalar| && k0 < 56 && flag0 == Exp2(k0)
    ensures IsFull(r, Mult(Pending(scalar, limb0, 2 * flag0, 1), p))
  {
    OnCurveFull(point, p);
    MultIn(1, p);
    hide Pending, Fermat, IsFull, OnCurve, Mult, Canonical;
    ghost var target := Pending(scalar, limb0, 2 * flag0, 1);
    var limb: nat, flag: nat := limb0, flag0;
    ghost var k := k0;
    ghost var m: nat := 1;
    r := point;
    while true
      invariant limb < |scalar| && k < 56 && flag == Exp2(k)
      invariant IsFull(r, Mult(m, p))
      invariant Pending(scalar, limb, 2 * flag, m) == target
      decreases limb, k
    {
      StepWeight(scalar, limb, flag, m);
      var bit: nat := scalar[limb] / flag % 2;
      r := DoubleAndAddBit(r, point, bit, m, p);
      m := 2 * m + bit;
      flag := flag / 2;
      if flag == 0 {
        assert k == 0;
        if limb == 0 {
          PendingDone(scalar, m);
          break;
        }
        NextLimb(scalar, limb, m);
        Exp2Of56();
        limb := limb - 1;
        flag := W56 / 2;
        k := 55;
      } else {
        k := k - 1;
      }
    }
  }

  function Vals(s: seq<Scalar>): (v: seq<nat>)
    ensures |v| == |s| && forall i :: 0 <= i < |s| ==> v[i] == Val(s[i])
  {
    seq(|s|, i requires 0 <= i < |s| => Val(s[i]))
  }

  /** One iteration: subtract, add, and restore the heap. */
  method Step(b: BatchHeap, max1: nat, max2: nat, limbsize: nat, ghost p1: Point, ghost p2: Point)
    requires b.Valid(limbsize) && b.size % 2 == 1 && 3 <= b.size
    requires max1 == b.heap[0] && max1 < b.size && max2 < b.size && max1 != max2
    requires Val(b.scalars[max2]) <= Val(b.scalars[max1])
    requires Fermat() && IsFull(b.points[max1], p1) && IsFull(b.points[max2], p2)
    modifies b.heap, b.scalars, b.points, b`pos
    ensures b.Valid(limbsize)
    ensures Vals(b.scalars[..]) == old(Vals(b.scalars[..]))[max1 := old(Val(b.scalars[max1]) - Val(b.scalars[max2]))]
    ensures IsFull(b.points[max2], Plus(p2, p1))
    ensures forall k :: 0 <= k < b.points.Length && k != max2 ==> b.points[k] == old(b.points[k])
  {
    hide Fermat, IsFull, Plus;
    var difference := SubBatch(b.scalars[max1], b.scalars[max1], b.scalars[max2], limbsize);
    SubExact(b.scalars[max1], b.scalars[max2], limbsize);
    RootChanges(b.heap[..b.size], b.pos, b.scalars[..], difference);
    b.scalars[max1] := difference;
    assert b.scalars[..] == old(b.scalars[..])[max1 := difference];
    var sum := AddFull(b.points[max2], b.points[max1], p2, p1);
    b.points[max2] := sum;
    assert b.W() == old(b.W())[0 := Val(difference)];
    b.HeapUpdatedRoot(limbsize);
  }

  /** Changing the scalar at the root disturbs the order around the root only. */
  lemma RootChanges(h: seq<nat>, pos: seq<nat>, s: seq<Scalar>, x: Scalar)
    requires Perm(h, pos) && 0 < |h| <= |s| && Indexes(h, s) && Ordered(Nodes(h, s))
    ensures Indexes(h, s[h[0] := x])
    ensures Nodes(h, s[h[0] := x]) == Nodes(h, s)[0 := Val(x)]
    ensures OrderedAround(Nodes(h, s)[0 := Val(x)], 0)
  {
    var w := Nodes(h, s);
    var u := w[0 := Val(x)];
    forall j | j != 0 && j != 1 && j != 2
      ensures At(u, j)
    {
      assert At(w, j);
    }
  }

  /** The limb above the largest scalar is not needed any more. */
  lemma DropLimb(b: BatchHeap, max1: nat, limbsize: nat)
    requires b.Valid(limbsize) && max1 < b.size && Val(b.scalars[max1]) > 0
    requires forall k :: 0 <= k < b.size ==> Val(b.scalars[k]) <= Val(b.scalars[max1])
    requires b.scalars[max1][limbsize] == 0
    ensures 0 < limbsize && b.Valid(limbsize - 1)
  {
    if limbsize == 0 {
      Classify(b.scalars[max1]);
      assert false;
    }
    FitsBound(b.scalars[max1], limbsize - 1);
    forall k | 0 <= k < b.size
      ensures Fits(b.scalars[k], limbsize - 1)
    {
      FitsBound(b.scalars[k], limbsize - 1);
    }
  }

  /** A scalar of at least 2^127 has a nonzero limb 2 or higher. */
  lemma LongNeedsLimb2(a: Scalar, limbsize: nat)
    requires Canonical(a) && limbsize < LIMBS && Fits(a, limbsize) && W128 / 2 <= Val(a)
    ensures limbsize >= 2 && (limbsize == 2 ==> a[2] != 0)
  {
    RadixValues();
    if limbsize < 2 {
      FitsBound(a, limbsize);
      RadixGrows(limbsize + 1, 2);
      assert false;
    }
    if limbsize == 2 && a[2] == 0 {
      FitsBound(a, 1);
      assert false;
    }
  }

  lemma ShortFits(a: Scalar, limbsize: nat)
    requires Canonical(a) && Val(a) < W128 && 2 <= limbsize < LIMBS
    ensures Fits(a, limbsize)
  {
    RadixValues();
    RadixGrows(3, limbsize + 1);
    FitsBound(a, limbsize);
  }

  /** The heap that takes in the short scalars stays valid for the same limbs. */
  lemma ShortsFit(b: BatchHeap, limbsize: nat)
    requires b.Valid(LIMBS - 1) && 2 <= limbsize < LIMBS
    requires forall k :: 0 <= k < b.size ==> Val(b.scalars[k]) < W128
    ensures b.Valid(limbsize)
  {
    forall k | 0 <= k < b.size
      ensures Fits(b.scalars[k], limbsize)
    {
      ShortFits(b.scalars[k], limbsize);
    }
  }

  /** The limbs in play: one fewer when the largest scalar no longer uses the top one. */
  method NextLimbsize(b: BatchHeap, max1: nat, limbsize: nat, ghost extended: bool, ghost first: bool)
    returns (l: nat)
    requires b.Valid(limbsize) && max1 < b.size && Val(b.scalars[max1]) > 0
    requires forall k :: 0 <= k < b.size ==> Val(b.scalars[k]) <= Val(b.scalars[max1])
    requires !extended ==> if first then limbsize == 4 else Val(b.scalars[max1]) >= W128 / 2
    ensures b.Valid(l)
    ensures !extended ==> l >= 2
  {
    l := limbsize;
    if !extended && !first {
      LongNeedsLimb2(b.scalars[max1], limbsize);
    }
    if b.scalars[max1][limbsize] == 0 {
      DropLimb(b, max1, limbsize);
      l := l - 1;
    }
  }

  /** The scalars of a heap, as values. */
  ghost predicate Holds(b: BatchHeap, v: seq<nat>, p: seq<Point>)
    reads b, b.scalars, b.points
  {
    && |v| == |p| <= b.scalars.Length && b.scalars.Length == b.points.Length
    && (forall k :: 0 <= k < |v| ==> v[k] == Val(b.scalars[k]))
    && (forall k :: 0 <= k < |p| ==> IsFull(b.points[k], p[k]))
  }

  /** The two largest scalars, in terms of the values. */
  method Top2(b: BatchHeap, limbsize: nat, ghost v: seq<nat>, ghost p: seq<Point>) returns (max1: nat, max2: nat)
    requires b.Valid(limbsize) && 3 <= b.size <= |v| && Holds(b, v, p)
    ensures max1 == b.heap[0] && max1 < b.size && max2 < b.size && max1 != max2
    ensures v[max2] <= v[max1]
    ensures forall k :: 0 <= k < b.size ==> v[k] <= v[max1]
    ensures forall k :: 0 <= k < b.size && k != max1 ==> v[k] <= v[max2]
  {
    hide IsFull;
    max1, max2 := b.HeapGetTop2(limbsize);
  }

  /** Extends the heap to all |v| scalars, all of them short, and looks again for the two largest. */
  method TakeIn(b: BatchHeap, limbsize: nat, count: nat, ghost v: seq<nat>, ghost p: seq<Point>,
                ghost i: nat, ghost j: nat) returns (max1: nat, max2: nat)
    requires b.Valid(limbsize) && 2 <= limbsize && 3 <= b.size <= count == |v| && Holds(b, v, p)
    requires forall k :: 0 <= k < |v| ==> v[k] < W128
    requires i < |v| && j < |v| && i != j && v[i] != 0 && v[j] != 0
    modifies b.heap, b`size, b`pos
    ensures b.Valid(limbsize) && b.size == count
    ensures max1 == b.heap[0] && max1 < b.size && max2 < b.size && max1 != max2
    ensures 0 < v[max2] <= v[max1]
  {
    hide IsFull;
    b.HeapExtend(count);
    ShortsFit(b, limbsize);
    max1, max2 := Top2(b, limbsize, v, p);
  }

  /** The arithmetic of one iteration, in terms of the values. */
  method StepValues(b: BatchHeap, max1: nat, max2: nat, limbsize: nat, ghost v: seq<nat>, ghost p: seq<Point>)
    requires Fermat()
    requires b.Valid(limbsize) && b.size % 2 == 1 && 3 <= b.size <= |v| && Holds(b, v, p)
    requires max1 == b.heap[0] && max1 < b.size && max2 < b.size && max1 != max2 && v[max2] <= v[max1]
    modifies b.heap, b.scalars, b.points, b`pos
    ensures b.Valid(limbsize)
    ensures Holds(b, v[max1 := v[max1] - v[max2]], p[max2 := Plus(p[max2], p[max1])])
  {
    hide Fermat, IsFull, Plus;
    Step(b, max1, max2, limbsize, p[max1], p[max2]);
  }

  /** The middle of one pass: drops a limb if it can, and takes in the short scalars if it can. */
  method Prepare(b: BatchHeap, count: nat, max1: nat, max2: nat, limbsize: nat, extended: bool, ghost first: bool,
                 ghost v0: seq<nat>, ghost p0: seq<Point>, ghost n: nat, ghost v: seq<nat>, ghost p: seq<Point>)
    returns (m1: nat, m2: nat, l: nat, e: bool)
    requires b.Valid(limbsize) && count == |v| && Holds(b, v, p)
    requires AtHead(Curve(), v0, p0, n, v, p, b.size, limbsize, extended, first)
    requires max1 == b.heap[0] && max1 < b.size <= |v| && max2 < b.size && max1 != max2 && 0 < v[max2] <= v[max1]
    requires forall k :: 0 <= k < b.size ==> v[k] <= v[max1]
    modifies b.heap, b`size, b`pos
    ensures b.Valid(l) && AtHead(Curve(), v0, p0, n, v, p, b.size, limbsize, e, first)
    ensures m1 == b.heap[0] && m1 < b.size <= |v| && m2 < b.size && m1 != m2 && 0 < v[m2] <= v[m1]
    ensures !e ==> W128 <= v[m1] && l >= 2
  {
    hide AtHead, IsFull;
    HeadFacts(Curve(), v0, p0, n, v, p, b.size, limbsize, extended, first);
    m1, m2, e := max1, max2, extended;
    Classify(b.scalars[max1]);
    l := NextLimbsize(b, max1, limbsize, e, first);
    if !e && IsAtMost128Bits(b.scalars[max1]) {
      HeadExtend(Curve(), v0, p0, n, v, p, b.size, limbsize, first, max1, max2);
      m1, m2 := TakeIn(b, l, count, v, p, max1, max2);
      e := true;
    }
  }

  /**
   One pass of the loop: whether it ends, the index of the largest scalar, and
   the loop's new state.
   */
  method Iterate(b: BatchHeap, count: nat, limbsize: nat, extended: bool, ghost first: bool,
                 ghost v0: seq<nat>, ghost p0: seq<Point>, ghost n: nat, ghost v: seq<nat>, ghost p: seq<Point>)
    returns (done: bool, max1: nat, l: nat, e: bool, ghost u: seq<nat>, ghost q: seq<Point>)
    requires Fermat()
    requires b.Valid(limbsize) && count == |v| && Holds(b, v, p)
    requires AtHead(Curve(), v0, p0, n, v, p, b.size, limbsize, extended, first)
    modifies b.heap, b.scalars, b.points, b`size, b`pos
    ensures b.Valid(l) && |u| == count && Holds(b, u, q)
    ensures AtHead(Curve(), v0, p0, n, u, q, b.size, l, e, if done then first else false)
    ensures done ==> max1 < b.size && forall k :: 0 <= k < b.size && k != max1 ==> u[k] == 0
    ensures !done ==> Total(u) < Total(v)
  {
    hide AtHead, Total, IsZero, Val, Fermat, IsFull, Plus;
    HeadFacts(Curve(), v0, p0, n, v, p, b.size, limbsize, extended, first);
    var max2: nat;
    max1, max2 := Top2(b, limbsize, v, p);
    Classify(b.scalars[max2]);
    if IsZero(b.scalars[max2]) {
      return true, max1, limbsize, extended, v, p;
    }
    max1, max2, l, e := Prepare(b, count, max1, max2, limbsize, extended, first, v0, p0, n, v, p);
    HeadFacts(Curve(), v0, p0, n, v, p, b.size, limbsize, e, first);
    HeadStep(Curve(), v0, p0, n, v, p, b.size, limbsize, l, e, first, max1, max2);
    TotalUpdate(v, max1, v[max1] - v[max2]);
    StepValues(b, max1, max2, l, v, p);
    done, u, q := false, v[max1 := v[max1] - v[max2]], p[max2 := Plus(p[max2], p[max1])];
  }

  /**
   ge25519_multi_scalarmult_vartime: the outcome for all scalars if the starting ones reach
   the short ones, and otherwise the outcome for those the heap was built with.
   */
  method MultiScalarmult(b: BatchHeap, count: nat, ghost v0: seq<nat>, ghost p0: seq<Point>) returns (out: Option<Ge>)
    requires Fermat() && b.Shape() && 5 <= count == |v0| && Holds(b, v0, p0) && AllIn(Curve(), p0)
    requires Begins(Curve(), v0, p0, HeapStart(count))
    requires forall i :: 0 <= i < b.scalars.Length ==> Canonical(b.scalars[i])
    modifies b.heap, b.scalars, b.points, b`size, b`pos
    ensures var n := HeapStart(count);
      Yields(out, if ReachesShort(v0[..n]) then Outcome(Curve(), v0, p0) else Outcome(Curve(), v0[..n], p0[..n]))
  {
    var limbsize: nat, extended, done, max1: nat := LIMBS - 1, false, false, 0;
    ghost var first, n, v, q := true, HeapStart(count), v0, p0;
    b.HeapBuild(HeapStart(count));
    HeadEntry(Curve(), v0, p0, n);
    hide AtHead, ReachesShort, Outcome, FinalOf, Fermat, IsFull, OnCurve, Begins, AllIn;
    while !done
      invariant b.Valid(limbsize) && |v| == count && Holds(b, v, q)
      invariant AtHead(Curve(), v0, p0, n, v, q, b.size, limbsize, extended, first)
      invariant done ==> max1 < b.size && forall k :: 0 <= k < b.size && k != max1 ==> v[k] == 0
      decreases !done, Total(v)
    {
      done, max1, limbsize, extended, v, q :=
        Iterate(b, count, limbsize, extended, first, v0, p0, n, v, q);
      first := first && done;
    }
    HeadFacts(Curve(), v0, p0, n, v, q, b.size, limbsize, extended, first);
    HeadExit(Curve(), v0, p0, n, v, q, b.size, limbsize, extended, first, max1);
    out := Final(b.points[max1], b.scalars[max1], q[max1]);
  }
}
