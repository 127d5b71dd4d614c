/**
 The index heap of batch verification (ed25519-donna-batchverify.h): a binary
 max-heap of scalar indices, ordered by the scalars they name, updated in place.
 */
module HeapOrder {
  import opened Scalars

  // A heap is seen here as the sequence of the values at its nodes; node j has
  // parent (j - 1) / 2.

  ghost predicate At(w: seq<nat>, j: int) {
    1 <= j < |w| ==> w[(j - 1) / 2] >= w[j]
  }

  ghost predicate Ordered(w: seq<nat>) {
    forall j {:trigger At(w, j)} :: At(w, j)
  }

  /** Order everywhere except between `node` and its parent. */
  ghost predicate OrderedBut(w: seq<nat>, node: nat) {
    forall j {:trigger At(w, j)} :: j != node ==> At(w, j)
  }

  /** Order everywhere except around `node`: with its parent and with its children. */
  ghost predicate OrderedAround(w: seq<nat>, node: nat) {
    forall j {:trigger At(w, j)} :: j != node && j != 2 * node + 1 && j != 2 * node + 2 ==> At(w, j)
  }

  /** No child of `node` exceeds the parent of `node`. */
  ghost predicate Bridged(w: seq<nat>, node: nat) {
    0 < node < |w| ==>
      && (2 * node + 1 < |w| ==> w[(node - 1) / 2] >= w[2 * node + 1])
      && (2 * node + 2 < |w| ==> w[(node - 1) / 2] >= w[2 * node + 2])
  }

  function Swap<X>(w: seq<X>, a: nat, b: nat): (r: seq<X>)
    requires a < |w| && b < |w|
  {
    w[a := w[b]][b := w[a]]
  }

  /** Sifting up: the swap moves the only possible disorder to the parent. */
  lemma UpStep(w: seq<nat>, node: nat)
    requires 0 < node < |w| && OrderedBut(w, node) && Bridged(w, node)
    requires w[(node - 1) / 2] <= w[node]
    ensures OrderedBut(Swap(w, (node - 1) / 2, node), (node - 1) / 2)
    ensures Bridged(Swap(w, (node - 1) / 2, node), (node - 1) / 2)
  {
    var p := (node - 1) / 2;
    var u := Swap(w, p, node);
    assert At(w, p);
    forall j | j != p
      ensures At(u, j)
    {
      assert j != node ==> At(w, j);
    }
    assert 2 * p + 1 != node ==> At(w, 2 * p + 1);
    assert 2 * p + 2 != node ==> At(w, 2 * p + 2);
  }

  /** Sifting down: the larger child moves up, and the disorder moves to its place. */
  lemma DownStep(w: seq<nat>, node: nat, child: nat)
    requires 2 * node + 2 < |w| && (child == 2 * node + 1 || child == 2 * node + 2)
    requires w[child] >= w[2 * node + 1] && w[child] >= w[2 * node + 2]
    requires OrderedAround(w, node) && Bridged(w, node)
    ensures OrderedAround(Swap(w, node, child), child) && Bridged(Swap(w, node, child), child)
  {
    var u := Swap(w, node, child);
    forall j | j != child && j != 2 * child + 1 && j != 2 * child + 2
      ensures At(u, j)
    {
      assert j != node && j != 2 * node + 1 && j != 2 * node + 2 ==> At(w, j);
    }
    assert At(w, 2 * child + 1) && At(w, 2 * child + 2);
  }

  /** At a leaf, disorder around the node is disorder with its parent. */
  lemma AtLeaf(w: seq<nat>, node: nat)
    requires |w| <= 2 * node + 1 && OrderedAround(w, node)
    ensures OrderedBut(w, node) && Bridged(w, node)
  {
    forall j | j != node
      ensures At(w, j)
    {
    }
  }

  /** A new last node is in disorder with its parent only. */
  lemma Appended(w: seq<nat>, v: nat)
    requires Ordered(w)
    ensures OrderedBut(w + [v], |w|) && Bridged(w + [v], |w|)
  {
    forall j | j != |w|
      ensures At(w + [v], j)
    {
      assert At(w, j);
    }
  }

  lemma NoDisorder(w: seq<nat>, node: nat)
    requires OrderedBut(w, node) && At(w, node)
    ensures Ordered(w)
  {
    forall j
      ensures At(w, j)
    {
    }
  }

  /** The root is a maximum. */
  lemma {:induction false} RootIsMax(w: seq<nat>, j: nat)
    requires Ordered(w) && j < |w|
    ensures w[j] <= w[0]
  {
    if j > 0 {
      assert At(w, j);
      RootIsMax(w, (j - 1) / 2);
    }
  }

  /** Below the root, one of its two children is a maximum. */
  lemma {:induction false} ChildIsMax(w: seq<nat>, j: nat)
    requires Ordered(w) && 3 <= |w| && 0 < j < |w|
    ensures w[j] <= if w[1] < w[2] then w[2] else w[1]
  {
    if j > 2 {
      assert At(w, j);
      ChildIsMax(w, (j - 1) / 2);
    }
  }

  /** h is a permutation of 0..|h|, with inverse pos. */
  ghost predicate Perm(h: seq<nat>, pos: seq<nat>) {
    && |pos| == |h|
    && (forall i :: 0 <= i < |h| ==> h[i] < |h| && pos[h[i]] == i)
    && (forall k :: 0 <= k < |h| ==> pos[k] < |h| && h[pos[k]] == k)
  }

  ghost predicate Indexes(h: seq<nat>, s: seq<Scalar>) {
    forall i :: 0 <= i < |h| ==> h[i] < |s|
  }

  /** The values at the heap's nodes, root first. */
  ghost function Nodes(h: seq<nat>, s: seq<Scalar>): (w: seq<nat>)
    requires Indexes(h, s)
    ensures |w| == |h| && forall i :: 0 <= i < |h| ==> w[i] == Val(s[h[i]])
  {
    seq(|h|, i requires 0 <= i < |h| => Val(s[h[i]]))
  }

  lemma NodesSwap(h: seq<nat>, s: seq<Scalar>, a: nat, b: nat)
    requires Indexes(h, s) && a < |h| && b < |h|
    ensures Indexes(Swap(h, a, b), s) && Nodes(Swap(h, a, b), s) == Swap(Nodes(h, s), a, b)
  {
  }

  lemma PermSwap(h: seq<nat>, pos: seq<nat>, a: nat, b: nat)
    requires Perm(h, pos) && a < |h| && b < |h|
    ensures Perm(Swap(h, a, b), Swap(pos, h[a], h[b]))
  {
  }

  lemma PermAppend(h: seq<nat>, pos: seq<nat>)
    requires Perm(h, pos)
    ensures Perm(h + [|h|], pos + [|h|])
  {
  }

  lemma NodesAppend(h: seq<nat>, s: seq<Scalar>, k: nat)
    requires Indexes(h, s) && k < |s|
    ensures Indexes(h + [k], s) && Nodes(h + [k], s) == Nodes(h, s) + [Val(s[k])]
  {
  }

  /** The heap's first three nodes name the two largest scalars. */
  lemma TopTwo(h: seq<nat>, pos: seq<nat>, s: seq<Scalar>, k: nat)
    requires Perm(h, pos) && |h| <= |s| && Indexes(h, s) && Ordered(Nodes(h, s)) && 3 <= |h| && k < |h|
    ensures Val(s[k]) <= Val(s[h[0]])
    ensures k != h[0] ==> Val(s[k]) <= Val(s[if Val(s[h[1]]) < Val(s[h[2]]) then h[2] else h[1]])
  {
    var w := Nodes(h, s);
    assert w[pos[k]] == Val(s[k]);
    RootIsMax(w, pos[k]);
    if pos[k] > 0 {
      ChildIsMax(w, pos[k]);
    }
  }
}

module BatchHeaps {
  import opened Scalars
  import opened Points
  import opened HeapOrder

  const SIZE_MAX: nat := 0xFFFFFFFFFFFFFFFF

  /** (node - 1) / 2 in unsigned arithmetic. */
  function Parent(node: nat): nat {
    if node == 0 then SIZE_MAX / 2 else (node - 1) / 2
  }

  class BatchHeap {
    const heap: array<nat>
    const scalars: array<Scalar>
    const points: array<Ge>
    var size: nat
    /** Where each index sits: the inverse of `heap` on 0..size. */
    ghost var pos: seq<nat>

    constructor (capacity: nat, zero: Scalar, point: Ge)
      ensures fresh(heap) && fresh(scalars) && fresh(points)
      ensures heap.Length == scalars.Length == points.Length == capacity
      ensures Shape() && size == 0 && (forall i :: 0 <= i < capacity ==> scalars[i] == zero)
    {
      heap := new nat[capacity](_ => 0);
      scalars := new Scalar[capacity](_ => zero);
      points := new Ge[capacity](_ => point);
      size := 0;
      pos := [];
    }

    ghost predicate Shape()
      reads this
    {
      && heap.Length == scalars.Length == points.Length
      && size <= heap.Length
      && heap as object != scalars && points as object != heap && points as object != scalars
    }

    /** The live part of the heap is a permutation of 0..size; scalars in it have no limb above `top`. */
    ghost predicate Sized(top: nat)
      reads this, heap, scalars
    {
      && Shape() && top < LIMBS
      && Perm(heap[..size], pos)
      && (forall i :: 0 <= i < scalars.Length ==> Canonical(scalars[i]))
      && (forall i :: 0 <= i < size ==> Fits(scalars[i], top))
    }

    /** The values at the heap's nodes, root first. */
    ghost function W(): (w: seq<nat>)
      reads this, heap, scalars
      requires Shape() && Perm(heap[..size], pos)
      ensures |w| == size
    {
      Nodes(heap[..size], scalars[..])
    }

    ghost predicate Valid(top: nat)
      reads this, heap, scalars
    {
      Sized(top) && Ordered(W())
    }

    /** heap_swap */
    method HeapSwap(a: nat, b: nat)
      requires Shape() && Perm(heap[..size], pos) && a < size && b < size
      modifies heap, this`pos
      ensures Shape() && Perm(heap[..size], pos)
      ensures heap[..size] == Swap(old(heap[..size]), a, b) && heap[size..] == old(heap[size..])
      ensures W() == Swap(old(W()), a, b)
    {
      PermSwap(heap[..size], pos, a, b);
      NodesSwap(heap[..size], scalars[..], a, b);
      pos := Swap(pos, heap[a], heap[b]);
      var temp := heap[a];
      heap[a] := heap[b];
      heap[b] := temp;
      assert heap[..size] == Swap(old(heap[..size]), a, b);
    }

    /** Between live nodes, the truncated comparisons compare the values. */
    lemma Compare(i: nat, j: nat, limbsize: nat)
      requires Sized(limbsize) && i < size && j < size
      ensures heap[i] < size && heap[j] < size
      ensures LtBatch(scalars[heap[i]], scalars[heap[j]], limbsize) <==> W()[i] < W()[j]
      ensures LteBatch(scalars[heap[i]], scalars[heap[j]], limbsize) <==> W()[i] <= W()[j]
    {
      var h := heap[..size];
      assert h[i] == heap[i] && h[j] == heap[j];
      CompareExact(scalars[heap[i]], scalars[heap[j]], limbsize);
    }

    /** One swap of sifting up. */
    method MoveUp(node: nat, ghost limbsize: nat)
      requires Sized(limbsize) && 0 < node < size
      requires OrderedBut(W(), node) && Bridged(W(), node) && W()[(node - 1) / 2] <= W()[node]
      modifies heap, this`pos
      ensures Sized(limbsize)
      ensures OrderedBut(W(), (node - 1) / 2) && Bridged(W(), (node - 1) / 2)
    {
      UpStep(W(), node);
      HeapSwap((node - 1) / 2, node);
    }

    /** One swap of sifting down. */
    method MoveDown(node: nat, child: nat, ghost limbsize: nat)
      requires Sized(limbsize) && 2 * node + 2 < size && (child == 2 * node + 1 || child == 2 * node + 2)
      requires W()[child] >= W()[2 * node + 1] && W()[child] >= W()[2 * node + 2]
      requires OrderedAround(W(), node) && Bridged(W(), node)
      modifies heap, this`pos
      ensures Sized(limbsize)
      ensures OrderedAround(W(), child) && Bridged(W(), child)
    {
      DownStep(W(), node, child);
      HeapSwap(node, child);
    }

    /** The next index takes the place after the last node. */
    method Append()
      requires Valid(LIMBS - 1) && size < heap.Length
      modifies heap, this`size, this`pos
      ensures Sized(LIMBS - 1) && size == old(size) + 1
      ensures OrderedBut(W(), size - 1) && Bridged(W(), size - 1)
    {
      Appended(W(), Val(scalars[size]));
      PermAppend(heap[..size], pos);
      NodesAppend(heap[..size], scalars[..], size);
      heap[size] := size;
      pos := pos + [size];
      size := size + 1;
      assert heap[..size] == old(heap[..size]) + [old(size)];
    }

    /** heap_insert_next: index `size` enters at the bottom and is sifted up. */
    method HeapInsertNext()
      requires Valid(LIMBS - 1) && size < heap.Length
      modifies heap, this`size, this`pos
      ensures Valid(LIMBS - 1) && size == old(size) + 1
    {
      hide LtBatch, Canonical, Fits;
      var node: nat := size;
      // `size` grows here rather than after the loop, so that the invariant covers the new node
      Append();
      var parent: nat := Parent(node);
      while node != 0 && LtBatch(scalars[heap[parent]], scalars[heap[node]], LIMBS - 1)
        invariant Sized(LIMBS - 1) && size == old(size) + 1
        invariant node < size && parent == Parent(node)
        invariant OrderedBut(W(), node) && Bridged(W(), node)
        decreases node
      {
        Compare(parent, node, LIMBS - 1);
        MoveUp(node, LIMBS - 1);
        node := parent;
        parent := Parent(node);
      }
      if node != 0 {
        Compare(parent, node, LIMBS - 1);
      }
      NoDisorder(W(), node);
    }

    /** The child that a sift down descends to. */
    method LargerChild(parent: nat, limbsize: nat) returns (node: nat)
      requires Sized(limbsize) && 2 * parent + 2 < size
      ensures node == 2 * parent + 1 || node == 2 * parent + 2
      ensures W()[node] >= W()[2 * parent + 1] && W()[node] >= W()[2 * parent + 2]
    {
      var childl: nat := 2 * parent + 1;
      var childr: nat := childl + 1;
      Compare(childl, childr, limbsize);
      node := if LtBatch(scalars[heap[childl]], scalars[heap[childr]], limbsize) then childr else childl;
    }

    /** First half of heap_updated_root: the root is sifted to a leaf, larger children moving up. */
    method SiftToLeaf(limbsize: nat) returns (node: nat)
      requires Sized(limbsize) && size % 2 == 1 && 3 <= size
      requires OrderedAround(W(), 0)
      modifies heap, this`pos
      ensures Sized(limbsize) && node < size
      ensures OrderedBut(W(), node) && Bridged(W(), node)
    {
      var parent: nat, childr: nat := 0, 2;
      node := 1;
      while childr < size
        invariant Sized(limbsize)
        invariant parent < size && childr == 2 * parent + 2
        invariant OrderedAround(W(), parent) && Bridged(W(), parent)
        invariant parent == 0 || node == parent
        decreases size - parent
      {
        node := LargerChild(parent, limbsize);
        MoveDown(parent, node, limbsize);
        parent := node;
        childr := 2 * parent + 2;
      }
      assert node == parent && size != 2 * parent + 2;
      AtLeaf(W(), node);
    }

    /** Second half of heap_updated_root: from the leaf back up to its sorted spot. */
    method SiftBackUp(limbsize: nat, start: nat)
      requires Sized(limbsize) && start < size
      requires OrderedBut(W(), start) && Bridged(W(), start)
      modifies heap, this`pos
      ensures Valid(limbsize)
    {
      var node: nat := start;
      var parent: nat := Parent(node);
      while node != 0 && LteBatch(scalars[heap[parent]], scalars[heap[node]], limbsize)
        invariant Sized(limbsize)
        invariant node < size && parent == Parent(node)
        invariant OrderedBut(W(), node) && Bridged(W(), node)
        decreases node
      {
        Compare(parent, node, limbsize);
        MoveUp(node, limbsize);
        node := parent;
        parent := Parent(node);
      }
      if node != 0 {
        Compare(parent, node, limbsize);
      }
      NoDisorder(W(), node);
    }

    /**
     heap_updated_root: whatever the root's scalar has become, heap order is
     restored. Every inner node of an odd-sized heap has two children, which is
     what lets the first half stop when the right child is missing.
     */
    method HeapUpdatedRoot(limbsize: nat)
      requires Sized(limbsize) && size % 2 == 1 && 3 <= size
      requires OrderedAround(W(), 0)
      modifies heap, this`pos
      ensures Valid(limbsize)
    {
      var node := SiftToLeaf(limbsize);
      SiftBackUp(limbsize, node);
    }

    /** heap_build */
    method HeapBuild(count: nat)
      requires Shape() && (forall i :: 0 <= i < scalars.Length ==> Canonical(scalars[i]))
      requires 0 < count <= heap.Length
      modifies heap, this`size, this`pos
      ensures Valid(LIMBS - 1) && size == count
    {
      heap[0] := 0;
      size := 0;
      pos := [];
      while size < count
        invariant Valid(LIMBS - 1) && size <= count
      {
        HeapInsertNext();
      }
    }

    /** heap_extend */
    method HeapExtend(newCount: nat)
      requires Valid(LIMBS - 1) && size <= newCount <= heap.Length
      modifies heap, this`size, this`pos
      ensures Valid(LIMBS - 1) && size == newCount
    {
      while size < newCount
        invariant Valid(LIMBS - 1) && size <= newCount
      {
        HeapInsertNext();
      }
    }

    /** heap_get_top2: two different indices whose scalars no other heap scalar exceeds. */
    method HeapGetTop2(limbsize: nat) returns (max1: nat, max2: nat)
      requires Valid(limbsize) && 3 <= size
      ensures max1 == heap[0] && max1 < size && max2 < size && max1 != max2
      ensures Val(scalars[max2]) <= Val(scalars[max1])
      ensures forall k :: 0 <= k < size && k != max1 ==> Val(scalars[k]) <= Val(scalars[max2])
    {
      var h0, h1, h2 := heap[0], heap[1], heap[2];
      ghost var h := heap[..size];
      assert h[0] == h0 && h[1] == h1 && h[2] == h2;
      CompareExact(scalars[h1], scalars[h2], limbsize);
      if LtBatch(scalars[h1], scalars[h2], limbsize) {
        h1 := h2;
      }
      max1, max2 := h0, h1;
      forall k | 0 <= k < size
        ensures Val(scalars[k]) <= Val(scalars[max1])
        ensures k != max1 ==> Val(scalars[k]) <= Val(scalars[max2])
      {
        TopTwo(h, pos, scalars[..], k);
      }
    }
  }
}
