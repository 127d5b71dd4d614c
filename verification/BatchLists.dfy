/** How the result of ed25519_sign_open_batch for a list comes from its parts: sixty-four entries at a time. */
module BatchLists {
  import opened Edwards
  import opened Batch

  /** Sixty-four entries or fewer are settled together. */
  lemma OneBatch(es: seq<Entry>, flags: seq<int>, ret: int, base: Point)
    requires 0 < |es| <= 64 && Verdict(es, flags, ret, base)
    ensures Settled(es, flags, base)
    ensures ret == (if exists i :: 0 <= i < |es| && flags[i] == 0 then 1 else 0) + (if Fails(es, base) then 2 else 0)
  {
    hide Good, Passes, Fails, Settled;
    assert Starts(es, 0) && SettledAt(es, flags, 0, base);
    assert BatchAt(es, 0) == es && flags[0..EndOf(|es|, 0)] == flags;
    forall k | Starts(es, k)
      ensures k == 0
    {
    }
  }

  /** The bits of either of two results. */
  function Either(r: int, s: int): int {
    (if r % 2 == 1 || s % 2 == 1 then 1 else 0) + (if r / 2 == 1 || s / 2 == 1 then 2 else 0)
  }

  lemma BatchLeft(a: seq<Entry>, b: seq<Entry>, k: int)
    requires |a| % 64 == 0 && Starts(a, k)
    ensures Starts(a + b, k) && BatchAt(a + b, k) == BatchAt(a, k) && EndOf(|a + b|, k) == EndOf(|a|, k) == k + 64
  {
  }

  lemma BatchRight(a: seq<Entry>, b: seq<Entry>, k: int)
    requires |a| % 64 == 0 && Starts(b, k)
    ensures Starts(a + b, |a| + k) && BatchAt(a + b, |a| + k) == BatchAt(b, k)
    ensures EndOf(|a + b|, |a| + k) == |a| + EndOf(|b|, k)
  {
  }

  lemma StartsEither(a: seq<Entry>, b: seq<Entry>, k: int)
    requires |a| % 64 == 0
    ensures Starts(a + b, k) <==> if k < |a| then Starts(a, k) else Starts(b, k - |a|)
  {
  }

  lemma SettledParts(a: seq<Entry>, b: seq<Entry>, f: seq<int>, g: seq<int>, base: Point)
    requires |a| % 64 == 0 && |f| == |a| && |g| == |b|
    requires forall k :: Starts(a, k) ==> SettledAt(a, f, k, base)
    requires forall k :: Starts(b, k) ==> SettledAt(b, g, k, base)
    ensures forall k :: Starts(a + b, k) ==> SettledAt(a + b, f + g, k, base)
  {
    hide Settled, BatchAt, EndOf;
    forall k | Starts(a + b, k)
      ensures SettledAt(a + b, f + g, k, base)
    {
      StartsEither(a, b, k);
      if k < |a| {
        BatchLeft(a, b, k);
        EndInList(|a|, k);
        var e := EndOf(|a|, k);
        assert (f + g)[k..e] == f[k..e];
      } else {
        BatchRight(a, b, k - |a|);
        EndInList(|b|, k - |a|);
        var e := EndOf(|b|, k - |a|);
        assert (f + g)[k..|a| + e] == g[k - |a|..e];
      }
    }
  }

  lemma EndInList(num: nat, k: nat)
    requires k <= num
    ensures k <= EndOf(num, k) <= num
  {
  }

  lemma FailsParts(a: seq<Entry>, b: seq<Entry>, base: Point)
    requires |a| % 64 == 0
    ensures (exists k :: Starts(a + b, k) && Fails(BatchAt(a + b, k), base))
       <==> (exists k :: Starts(a, k) && Fails(BatchAt(a, k), base)) || (exists k :: Starts(b, k) && Fails(BatchAt(b, k), base))
  {
    hide Fails, BatchAt, EndOf;
    if k :| Starts(a, k) && Fails(BatchAt(a, k), base) {
      BatchLeft(a, b, k);
    }
    if k :| Starts(b, k) && Fails(BatchAt(b, k), base) {
      BatchRight(a, b, k);
    }
    if k :| Starts(a + b, k) && Fails(BatchAt(a + b, k), base) {
      StartsEither(a, b, k);
      if k < |a| {
        BatchLeft(a, b, k);
      } else {
        BatchRight(a, b, k - |a|);
      }
    }
  }

  lemma ClearedParts(f: seq<int>, g: seq<int>)
    ensures (exists i :: 0 <= i < |f + g| && (f + g)[i] == 0)
       <==> (exists i :: 0 <= i < |f| && f[i] == 0) || (exists i :: 0 <= i < |g| && g[i] == 0)
  {
    if i :| 0 <= i < |f| && f[i] == 0 {
      assert (f + g)[i] == 0;
    }
    if i :| 0 <= i < |g| && g[i] == 0 {
      assert (f + g)[|f| + i] == 0;
    }
    if i :| 0 <= i < |f + g| && (f + g)[i] == 0 {
      assert if i < |f| then f[i] == 0 else g[i - |f|] == 0;
    }
  }

  /** A list that goes on after a whole number of full batches: the flags follow one another, and the bits add up. */
  lemma InTurn(a: seq<Entry>, b: seq<Entry>, f: seq<int>, g: seq<int>, r: int, s: int, base: Point)
    requires |a| % 64 == 0 && Verdict(a, f, r, base) && Verdict(b, g, s, base)
    ensures Verdict(a + b, f + g, Either(r, s), base)
  {
    hide Fails, BatchAt, EndOf, Starts, SettledAt;
    SettledParts(a, b, f, g, base);
    FailsParts(a, b, base);
    ClearedParts(f, g);
  }

  /** Nothing is left open: a list has one result. */
  lemma OneVerdict(es: seq<Entry>, f: seq<int>, g: seq<int>, r: int, s: int, base: Point)
    requires Verdict(es, f, r, base) && Verdict(es, g, s, base)
    ensures f == g && r == s
  {
    hide Passes, Good;
    forall i | 0 <= i < |es|
      ensures f[i] == g[i]
    {
      FlagOf(es, f, r, i, base);
      FlagOf(es, g, s, i, base);
    }
  }
}
