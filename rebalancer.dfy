/**
 * The two rebalance passes of the re-optimisation, over the store: too-small
 * batches are deleted, merged into or topped up from a batch of the same
 * provider; too-large batches hand their excess, lowest priority level
 * first, to the same provider's smaller batches and then to a new batch.
 * Candidates are drawn from the live table (see StaleSnapshotPicksDeletedBatch
 * for what drawing them from the group as loaded does).
 */
module Rebalancer {
  import opened Domain
  import opened Ledger
  import opened Ordering
  import opened Store
  import opened ClaimMoves
  import opened Rebalance

  /** Only the totals and the cost differ between rows a and b. */
  predicate SameRow(a: Batch, b: Batch)
  {
    && a.provider == b.provider && a.insurer == b.insurer && a.batchDate == b.batchDate
    && a.ident == b.ident && a.processed == b.processed && a.processingDate == b.processingDate
  }

  /** Every live batch of q belongs to insurer g. */
  ghost predicate OneInsurer(bs: map<nat, Batch>, q: seq<nat>, g: nat)
  {
    forall b | b in q && b in bs :: bs[b].insurer == g
  }

  /**
   * How the batches table may change while the batches in G are
   * rebalanced: batches outside G are untouched, existing rows keep all but
   * their totals and cost, new rows get ids from next0 on, are unprocessed
   * and are due the day after their batch date.
   */
  ghost predicate Confined(b0: map<nat, Batch>, bs: map<nat, Batch>, G: set<nat>, next0: nat)
  {
    && (forall b | b in bs :: b in b0 || next0 <= b)
    && (forall b | b in b0 && b !in G :: b in bs && bs[b] == b0[b])
    && (forall b | b in bs && b in b0 :: SameRow(b0[b], bs[b]))
    && (forall b | b in bs && b !in b0 :: !bs[b].processed && bs[b].processingDate == bs[b].batchDate + 1)
  }

  /** Claims only move, and only out of the batches in `from`, into some batch. */
  ghost predicate MovedOut(c0: seq<Claim>, cs: seq<Claim>, from: set<nat>)
  {
    && OnlyMoved(c0, cs)
    && forall i | 0 <= i < |c0| :: cs[i].batch != c0[i].batch ==>
         c0[i].batch.Some? && c0[i].batch.value in from && cs[i].batch.Some?
  }

  /** Batches that were within the maximum still are. */
  ghost predicate StaysWithin(b0: map<nat, Batch>, bs: map<nat, Batch>, maxSize: int)
  {
    forall b | b in b0 && b in bs && b0[b].totalClaims <= maxSize :: bs[b].totalClaims <= maxSize
  }

  lemma ConfinedTrans(b0: map<nat, Batch>, b1: map<nat, Batch>, b2: map<nat, Batch>, G: set<nat>, n0: nat, n1: nat)
    requires Confined(b0, b1, G, n0) && Confined(b1, b2, G, n1) && n0 <= n1
    requires forall b | b in b0 :: b < n0
    ensures Confined(b0, b2, G, n0)
    ensures forall b | b in b0 && b in b2 :: b in b1
  {
  }

  lemma MovedOutTrans(c0: seq<Claim>, c1: seq<Claim>, c2: seq<Claim>, from: set<nat>)
    requires MovedOut(c0, c1, from) && MovedOut(c1, c2, from)
    ensures MovedOut(c0, c2, from)
  {
    forall i | 0 <= i < |c0| ensures c2[i] == c0[i].(batch := c2[i].batch) {
      assert c1[i] == c0[i].(batch := c1[i].batch);
    }
  }

  lemma StaysWithinTrans(b0: map<nat, Batch>, b1: map<nat, Batch>, b2: map<nat, Batch>, maxSize: int)
    requires StaysWithin(b0, b1, maxSize) && StaysWithin(b1, b2, maxSize)
    requires forall b | b in b0 && b in b2 :: b in b1
    ensures StaysWithin(b0, b2, maxSize)
  {
  }

  /** The claims and batches after claims sel of batch src went to dst and both were re-derived. */
  ghost function Moved(cs: seq<Claim>, bs: map<nat, Batch>, sel: seq<nat>, src: nat, dst: nat, cost: CostFn)
    : (r: (seq<Claim>, map<nat, Batch>))
    requires src in bs && dst in bs
  {
    var after := Reassigned(cs, sel, dst);
    (after, bs[src := Retotalled(bs[src], after, src, cost)][dst := Retotalled(bs[dst], after, dst, cost)])
  }

  /** What rebalanceSmallBatches does with one too-small batch. */
  datatype SmallMove = Drop | Stay | Merge(into: nat) | TopUp(into: nat, k: nat)

  /**
   * The decision for too-small batch s: an empty s is deleted; without a
   * merge target it stays; when s and its target t fit within the maximum
   * together, s goes whole into t; otherwise k claims of s move to fill t.
   * The top-up always fills t exactly to the maximum and leaves s non-empty.
   */
  function SmallDecision(bs: map<nat, Batch>, ids: seq<nat>, s: nat, ins: Insurer): (m: SmallMove)
    requires s in bs
    ensures m.Drop? <==> bs[s].totalClaims == 0
    ensures m.Stay? <==> bs[s].totalClaims != 0 && forall b | b in ids :: !Receiver(bs, s, b, ins.maxBatchSize)
    ensures (m.Merge? || m.TopUp?) ==>
      && BestMergeTarget(bs, ids, s, ins) == Some(m.into)
      && m.into in ids && Receiver(bs, s, m.into, ins.maxBatchSize)
    ensures m.Merge? ==> bs[m.into].totalClaims + bs[s].totalClaims <= ins.maxBatchSize
    ensures m.TopUp? ==>
      && 0 < m.k < bs[s].totalClaims
      && bs[m.into].totalClaims + m.k == ins.maxBatchSize
  {
    if bs[s].totalClaims == 0 then Drop
    else match BestMergeTarget(bs, ids, s, ins)
      case None => Stay
      case Some(t) =>
        if bs[t].totalClaims + bs[s].totalClaims <= ins.maxBatchSize then Merge(t)
        else
          var k := Min(bs[s].totalClaims, ins.maxBatchSize - bs[t].totalClaims);
          TopUp(t, k)
  }

  /** The claims and batches after move m of batch s (the merge moves every claim of s, in row order). */
  ghost function SmallStep(cs: seq<Claim>, bs: map<nat, Batch>, s: nat, m: SmallMove, cost: CostFn)
    : (r: (seq<Claim>, map<nat, Batch>))
    requires s in bs && ((m.Merge? || m.TopUp?) ==> m.into in bs)
  {
    match m
      case Drop => (cs, bs - {s})
      case Stay => (cs, bs)
      case Merge(t) =>
        var r := Moved(cs, bs, Selection(cs, s, |cs|, false), s, t, cost);
        (r.0, r.1 - {s})
      case TopUp(t, k) => Moved(cs, bs, Selection(cs, s, k, false), s, t, cost)
  }

  /** Merge: every claim of s goes to t (one bulk update), t is re-derived, s is deleted. */
  method MergeInto(db: Database, s: nat, t: nat)
    requires db.Valid() && s in db.batches && t in db.batches && s != t
    requires db.batches[s].provider == db.batches[t].provider && db.batches[s].insurer == db.batches[t].insurer
    modifies db`claims, db`batches
    ensures db.Valid()
    ensures (db.claims, db.batches) == SmallStep(old(db.claims), old(db.batches), s, Merge(t), db.cost)
  {
    assert TotalsAgree(db.claims, db.batches, s);
    assert Count(db.claims, s) <= |db.claims|;
    TopUpFrom(db, s, t, |db.claims|);
    DropEmpty(db, s);
  }

  /** Delete the empty batch s. */
  method DropEmpty(db: Database, s: nat)
    requires db.Valid() && s in db.batches && db.batches[s].totalClaims == 0
    modifies db`batches
    ensures db.Valid()
    ensures (db.claims, db.batches) == SmallStep(old(db.claims), old(db.batches), s, Drop, db.cost)
  {
    assert TotalsAgree(db.claims, db.batches, s);
    db.Delete(s);
  }

  /** Move k claims of s (all of them if it has fewer), in row order, into t; both are re-derived. */
  method TopUpFrom(db: Database, s: nat, t: nat, k: nat)
    requires db.Valid() && s in db.batches && t in db.batches && s != t
    requires db.batches[s].provider == db.batches[t].provider && db.batches[s].insurer == db.batches[t].insurer
    modifies db`claims, db`batches
    ensures db.Valid()
    ensures (db.claims, db.batches) == SmallStep(old(db.claims), old(db.batches), s, TopUp(t, k), db.cost)
    ensures db.batches[s].totalClaims == old(db.batches[s].totalClaims) - Min(k, old(db.batches[s].totalClaims))
  {
    ghost var c0, b0 := db.claims, db.batches;
    var n := Transfer(db, s, t, k, false);
    TransferIsTopUp(c0, b0, db.claims, db.batches, s, t, k, db.cost);
  }

  /** The state Transfer leaves is the top-up step's. */
  lemma TransferIsTopUp(c0: seq<Claim>, b0: map<nat, Batch>, cs: seq<Claim>, bs: map<nat, Batch>, s: nat, t: nat, k: nat, cost: CostFn)
    requires s in b0 && t in b0
    requires cs == Reassigned(c0, Selection(c0, s, k, false), t)
    requires bs == b0[s := Retotalled(b0[s], cs, s, cost)][t := Retotalled(b0[t], cs, t, cost)]
    ensures (cs, bs) == SmallStep(c0, b0, s, TopUp(t, k), cost)
  {
  }

  /** Carry out move m of batch s, whose target, if any, is another batch of the same provider and insurer. */
  method ApplySmall(db: Database, s: nat, m: SmallMove)
    requires db.Valid() && s in db.batches
    requires m.Drop? ==> db.batches[s].totalClaims == 0
    requires m.Merge? || m.TopUp? ==>
      && m.into in db.batches && m.into != s
      && db.batches[m.into].provider == db.batches[s].provider
      && db.batches[m.into].insurer == db.batches[s].insurer
    modifies db`claims, db`batches
    ensures db.Valid()
    ensures (db.claims, db.batches) == SmallStep(old(db.claims), old(db.batches), s, m, db.cost)
  {
    match m
    case Drop => DropEmpty(db, s);
    case Stay =>
    case Merge(t) => MergeInto(db, s, t);
    case TopUp(t, k) => TopUpFrom(db, s, t, k);
  }

  /** rebalanceSmallBatches for one too-small batch s of a group ids of one insurer. */
  method RebalanceOneSmall(db: Database, ids: seq<nat>, s: nat, ins: Insurer)
    requires db.Valid() && s in db.batches && s in ids
    requires OneInsurer(db.batches, ids, db.batches[s].insurer)
    modifies db`claims, db`batches
    ensures db.Valid()
    ensures (db.claims, db.batches) == SmallStep(old(db.claims), old(db.batches), s, SmallDecision(old(db.batches), ids, s, ins), db.cost)
  {
    assert TotalsAgree(db.claims, db.batches, s);
    var m := SmallDecision(db.batches, ids, s, ins);
    ApplySmall(db, s, m);
  }

  /** Moving claims from s to t rewrites no row but the totals and cost of s and t. */
  lemma MovedRows(cs: seq<Claim>, bs: map<nat, Batch>, sel: seq<nat>, s: nat, t: nat, cost: CostFn)
    requires s in bs && t in bs
    ensures var r := Moved(cs, bs, sel, s, t, cost);
      && r.1.Keys == bs.Keys
      && (forall b | b in bs :: SameRow(bs[b], r.1[b]))
      && (forall b | b in bs && b != s && b != t :: r.1[b] == bs[b])
  {
  }

  /**
   * Moving the distinct members sel of s into t shifts |sel| claims from s
   * to t and keeps every total right.
   */
  lemma MovedTotals(cs: seq<Claim>, bs: map<nat, Batch>, sel: seq<nat>, s: nat, t: nat, cost: CostFn)
    requires s in bs && t in bs && s != t && TotalsAgreeExcept(cs, bs, {})
    requires forall a, b | 0 <= a < b < |sel| :: sel[a] != sel[b]
    requires forall a | 0 <= a < |sel| :: sel[a] < |cs| && cs[sel[a]].batch == Some(s)
    ensures var r := Moved(cs, bs, sel, s, t, cost);
      && r.1[s].totalClaims == bs[s].totalClaims - |sel|
      && r.1[t].totalClaims == bs[t].totalClaims + |sel|
      && TotalsAgreeExcept(r.0, r.1, {})
  {
    var after := Reassigned(cs, sel, t);
    ReassignedCounts(cs, sel, s, t);
    KeptTotals(cs, after, bs, s, t);
    RetotalBoth(after, bs, s, t, cost);
    assert TotalsAgree(cs, bs, s) && TotalsAgree(cs, bs, t);
  }

  /** Moving members of s into t moves claims out of s only, and into a batch. */
  lemma MovedClaims(cs: seq<Claim>, sel: seq<nat>, s: nat, t: nat)
    requires forall a | 0 <= a < |sel| :: sel[a] < |cs| && cs[sel[a]].batch == Some(s)
    ensures MovedOut(cs, Reassigned(cs, sel, t), {s})
  {
    var after := Reassigned(cs, sel, t);
    forall i | 0 <= i < |cs| && after[i].batch != cs[i].batch
      ensures cs[i].batch == Some(s) && after[i].batch.Some?
    {
      var a :| 0 <= a < |sel| && sel[a] == i;
    }
  }

  /** The claims a query of s returns, as indices: distinct members of s. */
  lemma SelectionMembers(cs: seq<Claim>, s: nat, k: nat, byPriority: bool)
    ensures var sel := Selection(cs, s, k, byPriority);
      && (forall a, b | 0 <= a < b < |sel| :: sel[a] != sel[b])
      && (forall a | 0 <= a < |sel| :: sel[a] < |cs| && cs[sel[a]].batch == Some(s))
  {
    var sel := Selection(cs, s, k, byPriority);
    assert forall a | 0 <= a < |sel| :: sel[a] in sel;
  }

  /**
   * What rebalanceSmallBatches keeps while it works on the batches `from`
   * of group G: every total stays right, no batch outside `from` is deleted
   * and none is created, rows change only in their totals and cost and only
   * within the group, claims move only out of `from`, and no batch within
   * the maximum is pushed over it.
   */
  ghost predicate Kept(cs: seq<Claim>, bs: map<nat, Batch>, r: (seq<Claim>, map<nat, Batch>), from: set<nat>, G: set<nat>, maxSize: int)
  {
    && TotalsAgreeExcept(r.0, r.1, {})
    && r.1.Keys <= bs.Keys && bs.Keys - from <= r.1.Keys
    && (forall b | b in r.1 :: SameRow(bs[b], r.1[b]))
    && (forall b | b in bs && b !in G :: b in r.1 && r.1[b] == bs[b])
    && MovedOut(cs, r.0, from)
    && StaysWithin(bs, r.1, maxSize)
  }

  lemma MergeKept(cs: seq<Claim>, bs: map<nat, Batch>, s: nat, t: nat, G: set<nat>, maxSize: int, cost: CostFn)
    requires s in bs && t in bs && s != t && s in G && t in G && TotalsAgreeExcept(cs, bs, {})
    requires bs[t].totalClaims + bs[s].totalClaims <= maxSize
    ensures Kept(cs, bs, SmallStep(cs, bs, s, Merge(t), cost), {s}, G, maxSize)
  {
    assert TotalsAgree(cs, bs, s);
    assert Min(|cs|, bs[s].totalClaims) == bs[s].totalClaims by {
      assert Count(cs, s) <= |cs|;
    }
    var r := Moved(cs, bs, Selection(cs, s, |cs|, false), s, t, cost);
    assert SmallStep(cs, bs, s, TopUp(t, |cs|), cost) == r;
    TopUpKept(cs, bs, s, t, |cs|, G, maxSize, cost);
    KeptWithout(cs, bs, r, s, G, maxSize);
    assert SmallStep(cs, bs, s, Merge(t), cost) == (r.0, r.1 - {s});
  }

  /** Deleting s after a step keeps Kept. */
  lemma KeptWithout(cs: seq<Claim>, bs: map<nat, Batch>, r: (seq<Claim>, map<nat, Batch>), s: nat, G: set<nat>, maxSize: int)
    requires Kept(cs, bs, r, {s}, G, maxSize) && s in G
    ensures Kept(cs, bs, (r.0, r.1 - {s}), {s}, G, maxSize)
  {
    AgreeWithout(r.0, r.1, s);
  }

  lemma TopUpKept(cs: seq<Claim>, bs: map<nat, Batch>, s: nat, t: nat, k: nat, G: set<nat>, maxSize: int, cost: CostFn)
    requires s in bs && t in bs && s != t && s in G && t in G && TotalsAgreeExcept(cs, bs, {})
    requires bs[t].totalClaims + Min(k, bs[s].totalClaims) <= maxSize
    ensures Kept(cs, bs, SmallStep(cs, bs, s, TopUp(t, k), cost), {s}, G, maxSize)
  {
    var sel := Selection(cs, s, k, false);
    assert TotalsAgree(cs, bs, s);
    SelectionMembers(cs, s, k, false);
    MovedKept(cs, bs, sel, s, t, G, maxSize, cost);
  }

  /** Moving distinct members of s into t, with room for them in t, keeps Kept. */
  lemma MovedKept(cs: seq<Claim>, bs: map<nat, Batch>, sel: seq<nat>, s: nat, t: nat, G: set<nat>, maxSize: int, cost: CostFn)
    requires s in bs && t in bs && s != t && s in G && t in G && TotalsAgreeExcept(cs, bs, {})
    requires forall a, b | 0 <= a < b < |sel| :: sel[a] != sel[b]
    requires forall a | 0 <= a < |sel| :: sel[a] < |cs| && cs[sel[a]].batch == Some(s)
    requires bs[t].totalClaims + |sel| <= maxSize
    ensures Kept(cs, bs, Moved(cs, bs, sel, s, t, cost), {s}, G, maxSize)
  {
    MovedRows(cs, bs, sel, s, t, cost);
    MovedTotals(cs, bs, sel, s, t, cost);
    MovedClaims(cs, sel, s, t);
  }

  lemma DropKept(cs: seq<Claim>, bs: map<nat, Batch>, s: nat, G: set<nat>, maxSize: int, cost: CostFn)
    requires s in bs && s in G && TotalsAgreeExcept(cs, bs, {})
    ensures Kept(cs, bs, SmallStep(cs, bs, s, Drop, cost), {s}, G, maxSize)
  {
    AgreeWithout(cs, bs, s);
    assert forall i | 0 <= i < |cs| :: cs[i] == cs[i].(batch := cs[i].batch);
  }

  lemma StayKept(cs: seq<Claim>, bs: map<nat, Batch>, s: nat, G: set<nat>, maxSize: int, cost: CostFn)
    requires s in bs && s in G && TotalsAgreeExcept(cs, bs, {})
    ensures Kept(cs, bs, SmallStep(cs, bs, s, Stay, cost), {s}, G, maxSize)
  {
    assert forall i | 0 <= i < |cs| :: cs[i] == cs[i].(batch := cs[i].batch);
  }

  /** Every step of rebalanceSmallBatches keeps Kept. */
  lemma SmallStepKeeps(cs: seq<Claim>, bs: map<nat, Batch>, ids: seq<nat>, s: nat, ins: Insurer, cost: CostFn)
    requires s in bs && s in ids && TotalsAgreeExcept(cs, bs, {})
    ensures Kept(cs, bs, SmallStep(cs, bs, s, SmallDecision(bs, ids, s, ins), cost), {s}, Elems(ids), ins.maxBatchSize)
  {
    var G := Elems(ids);
    match SmallDecision(bs, ids, s, ins)
    case Drop => DropKept(cs, bs, s, G, ins.maxBatchSize, cost);
    case Stay => StayKept(cs, bs, s, G, ins.maxBatchSize, cost);
    case Merge(t) => MergeKept(cs, bs, s, t, G, ins.maxBatchSize, cost);
    case TopUp(t, k) => TopUpKept(cs, bs, s, t, k, G, ins.maxBatchSize, cost);
  }

  lemma KeptWiden(cs: seq<Claim>, bs: map<nat, Batch>, r: (seq<Claim>, map<nat, Batch>), from: set<nat>, wider: set<nat>, G: set<nat>, maxSize: int)
    requires Kept(cs, bs, r, from, G, maxSize) && from <= wider
    ensures Kept(cs, bs, r, wider, G, maxSize)
  {
  }

  lemma KeptTrans(cs: seq<Claim>, bs: map<nat, Batch>, r1: (seq<Claim>, map<nat, Batch>), r2: (seq<Claim>, map<nat, Batch>),
                  from: set<nat>, G: set<nat>, maxSize: int)
    requires Kept(cs, bs, r1, from, G, maxSize) && Kept(r1.0, r1.1, r2, from, G, maxSize)
    ensures Kept(cs, bs, r2, from, G, maxSize)
  {
    MovedOutTrans(cs, r1.0, r2.0, from);
    StaysWithinTrans(bs, r1.1, r2.1, maxSize);
    forall b | b in r2.1 ensures SameRow(bs[b], r2.1[b]) {
      assert SameRow(bs[b], r1.1[b]) && SameRow(r1.1[b], r2.1[b]);
    }
  }

  /**
   * rebalanceSmallBatches over the too-small batches `small` of group ids,
   * one after the other; a batch already gone is passed over.
   */
  ghost function SmallPass(cs: seq<Claim>, bs: map<nat, Batch>, ids: seq<nat>, small: seq<nat>, ins: Insurer, cost: CostFn)
    : (r: (seq<Claim>, map<nat, Batch>))
  {
    if small == [] then (cs, bs)
    else
      var p := SmallPass(cs, bs, ids, small[..|small| - 1], ins, cost);
      var s := small[|small| - 1];
      if s in p.1 then SmallStep(p.0, p.1, s, SmallDecision(p.1, ids, s, ins), cost) else p
  }

  /** The whole small pass keeps Kept for the too-small batches it works on. */
  lemma {:induction false} SmallPassKeeps(cs: seq<Claim>, bs: map<nat, Batch>, ids: seq<nat>, small: seq<nat>, ins: Insurer, cost: CostFn)
    requires TotalsAgreeExcept(cs, bs, {})
    requires forall a | 0 <= a < |small| :: small[a] in ids
    ensures Kept(cs, bs, SmallPass(cs, bs, ids, small, ins, cost), Elems(small), Elems(ids), ins.maxBatchSize)
  {
    var G, from := Elems(ids), Elems(small);
    if small == [] {
      assert forall i | 0 <= i < |cs| :: cs[i] == cs[i].(batch := cs[i].batch);
    } else {
      var n := |small| - 1;
      var prefix := small[..n];
      var s := small[n];
      assert forall a | 0 <= a < n :: prefix[a] == small[a];
      SmallPassKeeps(cs, bs, ids, prefix, ins, cost);
      var p := SmallPass(cs, bs, ids, prefix, ins, cost);
      assert Elems(prefix) <= from;
      KeptWiden(cs, bs, p, Elems(prefix), from, G, ins.maxBatchSize);
      if s in p.1 {
        SmallStepKeeps(p.0, p.1, ids, s, ins, cost);
        var r := SmallStep(p.0, p.1, s, SmallDecision(p.1, ids, s, ins), cost);
        KeptWiden(p.0, p.1, r, {s}, from, G, ins.maxBatchSize);
        KeptTrans(cs, bs, p, r, from, G, ins.maxBatchSize);
      }
    }
  }

  /**
   * rebalanceSmallBatches: each too-small batch of the group, in order, is
   * deleted, merged or topped up from as SmallDecision says.
   */
  method RebalanceSmall(db: Database, ids: seq<nat>, small: seq<nat>, ins: Insurer, ghost g: nat)
    requires db.Valid() && OneInsurer(db.batches, ids, g) && Ascending(small)
    requires forall a | 0 <= a < |small| :: small[a] in ids && small[a] in db.batches
    modifies db`claims, db`batches
    ensures db.Valid()
    ensures (db.claims, db.batches) == SmallPass(old(db.claims), old(db.batches), ids, small, ins, db.cost)
  {
    ghost var c0, b0 := db.claims, db.batches;
    for i := 0 to |small|
      invariant db.Valid() && OneInsurer(db.batches, ids, g)
      invariant (db.claims, db.batches) == SmallPass(c0, b0, ids, small[..i], ins, db.cost)
    {
      var s := small[i];
      assert forall a | 0 <= a < i :: small[..i][a] == small[a];
      SmallPassKeeps(c0, b0, ids, small[..i], ins, db.cost);
      assert s !in Elems(small[..i]);
      assert small[..i + 1][..i] == small[..i];
      ghost var c1, b1 := db.claims, db.batches;
      assert TotalsAgreeExcept(c1, b1, {});
      SmallStepKeeps(c1, b1, ids, s, ins, db.cost);
      RebalanceOneSmall(db, ids, s, ins);
    }
    assert small[..|small|] == small;
  }
}
