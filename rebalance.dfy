/**
 * The decisions of the nightly re-optimisation, as values: which batches
 * form an insurer's group, which of them are too small or too large, which
 * batch a too-small batch is merged into, in which order a too-large
 * batch's excess is spread over the other batches, and the statistics the
 * run reports.
 */
module Rebalance {
  import opened Domain
  import opened Ordering

  /** A batch the re-optimisation works on: unprocessed and due on `day`. */
  predicate DueOn(bt: Batch, day: int)
  {
    !bt.processed && bt.processingDate == day
  }

  predicate Ascending(q: seq<nat>)
  {
    forall i, j | 0 <= i < j < |q| :: q[i] < q[j]
  }

  /** The ids of q as a set. */
  function Elems(q: seq<nat>): (r: set<nat>)
    ensures forall x :: x in r <==> x in q
  {
    set x | x in q
  }

  /** The elements of q that satisfy p, in q's order (a collection filter). */
  function Keep(q: seq<nat>, p: nat -> bool): (r: seq<nat>)
    ensures forall x :: x in r <==> x in q && p(x)
    ensures |r| <= |q|
    ensures Ascending(q) ==> Ascending(r)
  {
    if q == [] then []
    else
      var rest := Keep(q[1..], p);
      assert forall x | x in rest :: x in q[1..];
      assert Ascending(q) ==> Ascending(q[1..]) && forall k | 0 <= k < |q| - 1 :: q[0] < q[1..][k];
      if p(q[0]) then
        (if Ascending(q) then ConsAscending(q[0], rest); [q[0]] + rest else [q[0]] + rest)
      else rest
  }

  lemma ConsAscending(x: nat, q: seq<nat>)
    requires Ascending(q) && forall y | y in q :: x < y
    ensures Ascending([x] + q)
  {
    var r := [x] + q;
    forall i, j | 0 <= i < j < |r| ensures r[i] < r[j] {
      assert r[j] == q[j - 1] && q[j - 1] in q;
      if i > 0 {
        assert r[i] == q[i - 1];
      }
    }
  }

  /** groupBy('insurer_id'): the ids of q whose batch belongs to insurer g. */
  function Group(bs: map<nat, Batch>, q: seq<nat>, g: nat): (r: seq<nat>)
    ensures forall x :: x in r <==> x in q && x in bs && bs[x].insurer == g
    ensures |r| <= |q| && (Ascending(q) ==> Ascending(r))
  {
    Keep(q, x => x in bs && bs[x].insurer == g)
  }

  /** The batches of the group with fewer claims than the insurer's minimum. */
  function TooSmall(bs: map<nat, Batch>, q: seq<nat>, ins: Insurer): (r: seq<nat>)
    ensures forall x :: x in r <==> x in q && x in bs && bs[x].totalClaims < ins.minBatchSize
    ensures |r| <= |q| && (Ascending(q) ==> Ascending(r))
  {
    Keep(q, x => x in bs && bs[x].totalClaims < ins.minBatchSize)
  }

  /** The batches of the group with more claims than the insurer's maximum. */
  function TooLarge(bs: map<nat, Batch>, q: seq<nat>, ins: Insurer): (r: seq<nat>)
    ensures forall x :: x in r <==> x in q && x in bs && bs[x].totalClaims > ins.maxBatchSize
    ensures |r| <= |q| && (Ascending(q) ==> Ascending(r))
  {
    Keep(q, x => x in bs && bs[x].totalClaims > ins.maxBatchSize)
  }

  /**
   * A batch that may take claims from batch `self`: another batch of the
   * same provider still below the maximum.  Both rebalance passes filter
   * their candidates by this rule.
   */
  predicate Receiver(bs: map<nat, Batch>, self: nat, b: nat, maxSize: int)
    requires self in bs
  {
    b in bs && b != self && bs[b].provider == bs[self].provider && bs[b].totalClaims < maxSize
  }

  /** Twice the distance of a size from the middle of [min, max], so that it stays an integer. */
  function Distance(total: int, ins: Insurer): nat
  {
    var d := 2 * total - (ins.minBatchSize + ins.maxBatchSize);
    if d >= 0 then d else -d
  }

  /**
   * The merge target of a too-small batch s: among the receivers in q, the
   * one closest to the middle of the size range, the earliest on a tie
   * (sortBy on the distance is stable, then first()).
   */
  function BestMergeTarget(bs: map<nat, Batch>, q: seq<nat>, s: nat, ins: Insurer): (r: Option<nat>)
    requires s in bs
    ensures r.Some? ==> r.value in q && Receiver(bs, s, r.value, ins.maxBatchSize)
    ensures r.None? <==> forall b | b in q :: !Receiver(bs, s, b, ins.maxBatchSize)
  {
    if q == [] then None
    else
      var prev := BestMergeTarget(bs, q[..|q| - 1], s, ins);
      var b := q[|q| - 1];
      assert forall x | x in q[..|q| - 1] :: x in q;
      assert forall x | x in q :: x in q[..|q| - 1] || x == b;
      if Receiver(bs, s, b, ins.maxBatchSize)
         && (prev.None? || Distance(bs[b].totalClaims, ins) < Distance(bs[prev.value].totalClaims, ins))
      then Some(b)
      else prev
  }

  /**
   * The merge target is a closest receiver, and no receiver equally close
   * comes before it in q.
   */
  lemma {:induction false} BestMergeTargetIsClosest(bs: map<nat, Batch>, q: seq<nat>, s: nat, ins: Insurer)
    requires s in bs
    ensures var r := BestMergeTarget(bs, q, s, ins);
      r.Some? ==> forall j | 0 <= j < |q| && Receiver(bs, s, q[j], ins.maxBatchSize) ::
        && Distance(bs[r.value].totalClaims, ins) <= Distance(bs[q[j]].totalClaims, ins)
        && (Distance(bs[r.value].totalClaims, ins) == Distance(bs[q[j]].totalClaims, ins) ==> r.value in q[..j + 1])
  {
    if q != [] {
      var n := |q| - 1;
      BestMergeTargetIsClosest(bs, q[..n], s, ins);
      var r := BestMergeTarget(bs, q, s, ins);
      var prev := BestMergeTarget(bs, q[..n], s, ins);
      if r.Some? {
        forall j | 0 <= j < |q| && Receiver(bs, s, q[j], ins.maxBatchSize)
          ensures Distance(bs[r.value].totalClaims, ins) <= Distance(bs[q[j]].totalClaims, ins)
          ensures Distance(bs[r.value].totalClaims, ins) == Distance(bs[q[j]].totalClaims, ins) ==> r.value in q[..j + 1]
        {
          if j < n {
            assert q[..n][j] == q[j];
            assert prev.Some?;
            assert q[..n][..j + 1] == q[..j + 1];
          } else if r != Some(q[n]) {
            assert r == prev;
            assert prev.value in q[..n];
            assert q[..n] <= q[..j + 1];
          }
        }
      }
    }
  }

  /** The receivers of a too-large batch l among q. */
  function SplitReceivers(bs: map<nat, Batch>, q: seq<nat>, l: nat, maxSize: int): (r: set<nat>)
    requires l in bs
    ensures r <= bs.Keys
  {
    set b | b in q && Receiver(bs, l, b, maxSize)
  }

  /** The sort key of sortBy('total_claims'). */
  function SizeKey(bs: map<nat, Batch>, s: set<nat>): (key: map<nat, int>)
    requires s <= bs.Keys
    ensures key.Keys == s
  {
    map b | b in s :: bs[b].totalClaims
  }

  /**
   * The order in which a too-large batch's excess is spread: its receivers
   * by ascending size, the earlier-created first on a tie.
   */
  ghost function SplitOrder(bs: map<nat, Batch>, q: seq<nat>, l: nat, maxSize: int): (r: seq<nat>)
    requires l in bs
    ensures forall b :: b in r <==> b in q && Receiver(bs, l, b, maxSize)
    ensures SortedBy(r, SizeKey(bs, SplitReceivers(bs, q, l, maxSize)))
  {
    var s := SplitReceivers(bs, q, l, maxSize);
    Ordered(s, SizeKey(bs, s))
  }

  /** Two small batches of one provider that merge into each other in turn. */
  function SmallPair(a: nat, b: nat, provider: nat): map<nat, Batch>
  {
    map[0 := Batch(provider, 0, 0, Identifier("", 0, None), a, 0, 0.0, false, 0),
        1 := Batch(provider, 0, 0, Identifier("", 0, Some(2)), b, 0, 0.0, false, 0)]
  }

  /**
   * The candidate lists of both passes are drawn from the group as loaded,
   * where a batch deleted earlier in the pass is still present with the
   * totals it had.  Two too-small batches 0 and 1 of one provider whose
   * sizes a and b fit together: batch 0 is merged into batch 1 and deleted;
   * when batch 1's turn comes, the loaded group offers batch 0 as its merge
   * target although the table no longer has it: the update of the claims'
   * batch_id is refused by the foreign key on claims.batch_id and the whole
   * run rolls back.  Over the live table there is no candidate.
   */
  lemma StaleSnapshotPicksDeletedBatch(a: nat, b: nat, provider: nat, ins: Insurer)
    requires 0 < a < ins.minBatchSize && 0 < b < ins.minBatchSize && a + b <= ins.maxBatchSize
    ensures var loaded := SmallPair(a, b, provider);
      && TooSmall(loaded, [0, 1], ins) == [0, 1]
      && BestMergeTarget(loaded, [0, 1], 0, ins) == Some(1)
      && var merged := loaded[1 := loaded[1].(totalClaims := a + b)];
         var live := merged - {0};
         && BestMergeTarget(merged, [0, 1], 1, ins) == Some(0)
         && 0 !in live
         && BestMergeTarget(live, [0, 1], 1, ins) == None
  {
    var loaded := SmallPair(a, b, provider);
    assert [0, 1][..1] == [0];
    assert [0, 1][1..] == [1];
    assert [0][..0] == [];
    assert [1][1..] == [];
    var merged := loaded[1 := loaded[1].(totalClaims := a + b)];
    var live := merged - {0};
    assert !Receiver(live, 1, 0, ins.maxBatchSize);
    assert !Receiver(live, 1, 1, ins.maxBatchSize);
  }
}
