/**
 * The bookkeeping of the nightly re-optimisation, as values: the due
 * batches grouped by insurer, the statistics the run reports, and how those
 * statistics relate to the cost of the batches before and after the run.
 */
module Reoptimize {
  import opened Domain
  import opened Ordering
  import opened Rebalance
  import CostModel

  /** The sum of w over q (a collection's sum()). */
  function Weigh(q: seq<nat>, w: nat -> real): real
  {
    if q == [] then 0.0 else w(q[0]) + Weigh(q[1..], w)
  }

  /** sum('processing_cost') over the rows of q as loaded from bs. */
  function LoadedCost(bs: map<nat, Batch>): nat -> real
  {
    (x: nat) => if x in bs then bs[x].cost else 0.0
  }

  /** A row that the query "whereIn('id', ...)->where('processed', false)" returns. */
  predicate Open(bs: map<nat, Batch>, x: nat)
  {
    x in bs && !bs[x].processed
  }

  /** sum('processing_cost') over the rows of q that the re-query returns from bs. */
  function OpenCost(bs: map<nat, Batch>): nat -> real
  {
    (x: nat) => if Open(bs, x) then bs[x].cost else 0.0
  }

  /** The number of rows the re-query over q returns from bs. */
  function OpenCount(bs: map<nat, Batch>, q: seq<nat>): nat
  {
    if q == [] then 0 else (if Open(bs, q[0]) then 1 else 0) + OpenCount(bs, q[1..])
  }

  /** The keys of groupBy('insurer_id') over q: each insurer once, in order of first appearance. */
  function Insurers(bs: map<nat, Batch>, q: seq<nat>): (gs: seq<nat>)
    ensures Distinct(gs)
    ensures forall a | 0 <= a < |q| && q[a] in bs :: bs[q[a]].insurer in gs
  {
    if q == [] then []
    else
      var n := |q| - 1;
      var p := Insurers(bs, q[..n]);
      assert forall a | 0 <= a < n :: q[..n][a] == q[a];
      if q[n] in bs && bs[q[n]].insurer !in p then p + [bs[q[n]].insurer] else p
  }

  /** Each key of the grouping has a non-empty group. */
  lemma {:induction false} InsurersHaveBatches(bs: map<nat, Batch>, q: seq<nat>)
    ensures forall k | 0 <= k < |Insurers(bs, q)| :: Group(bs, q, Insurers(bs, q)[k]) != []
  {
    if q != [] {
      var n := |q| - 1;
      var p := Insurers(bs, q[..n]);
      InsurersHaveBatches(bs, q[..n]);
      forall k | 0 <= k < |Insurers(bs, q)| ensures Group(bs, q, Insurers(bs, q)[k]) != [] {
        var g := Insurers(bs, q)[k];
        if k < |p| {
          assert g == p[k];
          var y := Group(bs, q[..n], g)[0];
          assert y in q[..n];
          assert y in Group(bs, q, g);
        } else {
          assert g == bs[q[n]].insurer;
          assert q[n] in Group(bs, q, g);
        }
      }
    }
  }

  /** The four counters of the statistics. */
  datatype Tally = Tally(analyzed: nat, modified: nat, before: real, after: real)

  function Plus(t: Tally, u: Tally): Tally
  {
    Tally(t.analyzed + u.analyzed, t.modified + u.modified, t.before + u.before, t.after + u.after)
  }

  /**
   * What one insurer's group adds to the statistics: b0 is the table as
   * loaded, bs the table once the group is rebalanced.  A group of fewer
   * than two batches adds its size and its cost before, nothing else.
   */
  function GroupTally(b0: map<nat, Batch>, bs: map<nat, Batch>, ids: seq<nat>): Tally
  {
    var before := Weigh(ids, LoadedCost(b0));
    if |ids| < 2 then Tally(|ids|, 0, before, 0.0)
    else
      var after := Weigh(ids, OpenCost(bs));
      Tally(|ids|, if before != after then OpenCount(bs, ids) else 0, before, after)
  }

  /** The counters after the groups of gs, each group's after-cost read from bs. */
  function RunTally(b0: map<nat, Batch>, bs: map<nat, Batch>, due: seq<nat>, gs: seq<nat>): Tally
  {
    if gs == [] then Tally(0, 0, 0.0, 0.0)
    else
      var n := |gs| - 1;
      Plus(RunTally(b0, bs, due, gs[..n]), GroupTally(b0, bs, Group(b0, due, gs[n])))
  }

  /** Handling one more group adds that group's counters. */
  lemma RunTallySnoc(b0: map<nat, Batch>, bs: map<nat, Batch>, due: seq<nat>, done: seq<nat>, g: nat)
    ensures RunTally(b0, bs, due, done + [g]) == Plus(RunTally(b0, bs, due, done), GroupTally(b0, bs, Group(b0, due, g)))
  {
    assert (done + [g])[..|done|] == done;
  }

  /** The array reoptimizeBatches returns. */
  datatype Report = Report(analyzed: nat, modified: nat, costBefore: real, costAfter: real,
                           savings: real, savingsPercentage: real)

  /** The final statistics: savings, and their share of the cost before rounded to two places. */
  function Summarise(t: Tally): (r: Report)
    ensures r.analyzed == t.analyzed && r.modified == t.modified
    ensures r.costBefore == t.before && r.costAfter == t.after
    ensures r.costBefore - r.costAfter == r.savings
    ensures r.costBefore > 0.0 ==> CostModel.RAbs(r.savingsPercentage - r.savings / r.costBefore * 100.0) <= 0.005
    ensures r.costBefore <= 0.0 ==> r.savingsPercentage == 0.0
  {
    var savings := t.before - t.after;
    Report(t.analyzed, t.modified, t.before, t.after, savings,
           if t.before > 0.0 then CostModel.Round2(savings / t.before * 100.0) else 0.0)
  }

  /** The weights of the groups gs of q, summed group by group. */
  function GroupWeights(bs: map<nat, Batch>, q: seq<nat>, gs: seq<nat>, w: nat -> real): real
  {
    if gs == [] then 0.0
    else
      var n := |gs| - 1;
      GroupWeights(bs, q, gs[..n], w) + Weigh(Group(bs, q, gs[n]), w)
  }

  lemma {:induction false} GroupWeightsEmpty(bs: map<nat, Batch>, gs: seq<nat>, w: nat -> real)
    ensures GroupWeights(bs, [], gs, w) == 0.0
  {
    if gs != [] {
      GroupWeightsEmpty(bs, gs[..|gs| - 1], w);
    }
  }

  /** Adding one id in front of q adds its weight to exactly the group of its insurer. */
  lemma {:induction false} GroupWeightsCons(bs: map<nat, Batch>, x: nat, rest: seq<nat>, gs: seq<nat>, w: nat -> real)
    requires Distinct(gs)
    ensures GroupWeights(bs, [x] + rest, gs, w)
            == GroupWeights(bs, rest, gs, w) + (if x in bs && bs[x].insurer in gs then w(x) else 0.0)
  {
    if gs != [] {
      var n := |gs| - 1;
      var g := gs[n];
      assert Distinct(gs[..n]);
      GroupWeightsCons(bs, x, rest, gs[..n], w);
      assert ([x] + rest)[1..] == rest;
      assert x in bs && bs[x].insurer in gs <==> (x in bs && bs[x].insurer in gs[..n]) || (x in bs && bs[x].insurer == g) by {
        assert gs == gs[..n] + [g];
      }
      assert x in bs && bs[x].insurer == g ==> bs[x].insurer !in gs[..n];
    }
  }

  /**
   * Summing group by group gives the sum over q when every insurer of q
   * has its group once and ids without a row weigh nothing.
   */
  lemma {:induction false} Partition(bs: map<nat, Batch>, q: seq<nat>, gs: seq<nat>, w: nat -> real)
    requires Distinct(gs)
    requires forall a | 0 <= a < |q| :: if q[a] in bs then bs[q[a]].insurer in gs else w(q[a]) == 0.0
    ensures GroupWeights(bs, q, gs, w) == Weigh(q, w)
  {
    if q == [] {
      GroupWeightsEmpty(bs, gs, w);
    } else {
      assert forall a | 0 <= a < |q| - 1 :: q[1..][a] == q[a + 1];
      Partition(bs, q[1..], gs, w);
      assert q == [q[0]] + q[1..];
      GroupWeightsCons(bs, q[0], q[1..], gs, w);
    }
  }

  /** Every id weighs one. */
  function Unit(): nat -> real
  {
    (x: nat) => 1.0
  }

  lemma {:induction false} WeighUnit(q: seq<nat>)
    ensures Weigh(q, Unit()) == |q| as real
  {
    if q != [] {
      WeighUnit(q[1..]);
    }
  }

  /** The batches analysed and the cost before are the groups' sizes and loaded costs, summed. */
  lemma {:induction false} RunTallyGroups(b0: map<nat, Batch>, bs: map<nat, Batch>, due: seq<nat>, gs: seq<nat>)
    ensures RunTally(b0, bs, due, gs).analyzed as real == GroupWeights(b0, due, gs, Unit())
    ensures RunTally(b0, bs, due, gs).before == GroupWeights(b0, due, gs, LoadedCost(b0))
  {
    if gs != [] {
      var n := |gs| - 1;
      RunTallyGroups(b0, bs, due, gs[..n]);
      WeighUnit(Group(b0, due, gs[n]));
    }
  }

  /**
   * Over the groups of all the due batches, batches_analyzed is the number
   * of due batches and cost_before the sum of their costs as loaded.
   */
  lemma RunTallyTotals(b0: map<nat, Batch>, bs: map<nat, Batch>, due: seq<nat>)
    requires forall a | 0 <= a < |due| :: due[a] in b0
    ensures RunTally(b0, bs, due, Insurers(b0, due)).analyzed == |due|
    ensures RunTally(b0, bs, due, Insurers(b0, due)).before == Weigh(due, LoadedCost(b0))
  {
    var gs := Insurers(b0, due);
    RunTallyGroups(b0, bs, due, gs);
    Partition(b0, due, gs, Unit());
    Partition(b0, due, gs, LoadedCost(b0));
    WeighUnit(due);
  }

  /** Row x is the same in bs and bs2, or absent from both. */
  predicate Unchanged(bs: map<nat, Batch>, bs2: map<nat, Batch>, x: nat)
  {
    (x in bs <==> x in bs2) && (x in bs ==> bs[x] == bs2[x])
  }

  /** The re-query over ids depends only on the rows of ids. */
  lemma {:induction false} ReloadFrame(bs: map<nat, Batch>, bs2: map<nat, Batch>, ids: seq<nat>)
    requires forall a | 0 <= a < |ids| :: Unchanged(bs, bs2, ids[a])
    ensures Weigh(ids, OpenCost(bs)) == Weigh(ids, OpenCost(bs2))
    ensures OpenCount(bs, ids) == OpenCount(bs2, ids)
  {
    if ids != [] {
      assert Unchanged(bs, bs2, ids[0]);
      assert forall a | 0 <= a < |ids| - 1 :: ids[1..][a] == ids[a + 1];
      ReloadFrame(bs, bs2, ids[1..]);
    }
  }

  /**
   * Rebalancing one insurer's group leaves the statistics of the other
   * groups as they were: each is read from rows the rebalancing keeps.
   */
  lemma {:induction false} RunTallyFrame(b0: map<nat, Batch>, bs: map<nat, Batch>, bs2: map<nat, Batch>,
                                         due: seq<nat>, gs: seq<nat>, g: nat)
    requires g !in gs
    requires forall a | 0 <= a < |due| && due[a] in b0 && b0[due[a]].insurer != g :: Unchanged(bs, bs2, due[a])
    ensures RunTally(b0, bs2, due, gs) == RunTally(b0, bs, due, gs)
  {
    if gs != [] {
      var n := |gs| - 1;
      assert gs[n] in gs;
      RunTallyFrame(b0, bs, bs2, due, gs[..n], g);
      GroupTallyFrame(b0, bs, bs2, due, gs[n], g);
    }
  }

  /** The counters of the group of insurer h are read from rows that rebalancing group g keeps. */
  lemma GroupTallyFrame(b0: map<nat, Batch>, bs: map<nat, Batch>, bs2: map<nat, Batch>, due: seq<nat>, h: nat, g: nat)
    requires h != g
    requires forall a | 0 <= a < |due| && due[a] in b0 && b0[due[a]].insurer != g :: Unchanged(bs, bs2, due[a])
    ensures GroupTally(b0, bs2, Group(b0, due, h)) == GroupTally(b0, bs, Group(b0, due, h))
  {
    var ids := Group(b0, due, h);
    forall a | 0 <= a < |ids| ensures Unchanged(bs, bs2, ids[a]) {
      assert ids[a] in due;
    }
    ReloadFrame(bs, bs2, ids);
  }

  /**
   * A lone batch of an insurer counts in cost_before but never in
   * cost_after, so a run that changes nothing reports its whole cost as
   * saved.
   */
  lemma LoneBatchCountsAsSaved(id: nat, row: Batch)
    requires !row.processed && row.cost > 0.0
    ensures var b0 := map[id := row];
      var t := RunTally(b0, b0, [id], Insurers(b0, [id]));
      t.before == row.cost && t.after == 0.0 && t.before - t.after > 0.0
  {
    var b0 := map[id := row];
    assert [id][..0] == [] && [id][1..] == [];
    assert Insurers(b0, [id]) == [row.insurer];
    assert [row.insurer][..0] == [];
    assert Group(b0, [id], row.insurer) == [id];
    assert Weigh([id], LoadedCost(b0)) == row.cost;
    RunTallyOne(b0, b0, [id], row.insurer);
  }

  /**
   * The re-query after a group's rebalancing reads only the group's own
   * ids, so the cost of a batch split off a too-large batch is left out of
   * cost_after: two batches whose rows change only by moving cost y to a
   * new batch report y as saved.
   */
  lemma SplitBatchCountsAsSaved(r0: Batch, r1: Batch, created: Batch, y: real)
    requires !r0.processed && !r1.processed && !created.processed && r0.insurer == r1.insurer
    requires y > 0.0 && created.cost == y
    ensures var b0 := map[0 := r0.(cost := r0.cost + y), 1 := r1];
      var bs := map[0 := r0, 1 := r1, 2 := created];
      var t := RunTally(b0, bs, [0, 1], Insurers(b0, [0, 1]));
      && t.before == r0.cost + y + r1.cost
      && t.after == r0.cost + r1.cost
      && t.before - t.after == y
  {
    var b0 := map[0 := r0.(cost := r0.cost + y), 1 := r1];
    var bs := map[0 := r0, 1 := r1, 2 := created];
    OneInsurerPair(b0);
    RunTallyOne(b0, bs, [0, 1], r0.insurer);
    WeighPair(0, 1, LoadedCost(b0));
    WeighPair(0, 1, OpenCost(bs));
  }

  /** Two batches of one insurer form one group. */
  lemma OneInsurerPair(b0: map<nat, Batch>)
    requires 0 in b0 && 1 in b0 && b0[0].insurer == b0[1].insurer
    ensures Insurers(b0, [0, 1]) == [b0[0].insurer]
    ensures Group(b0, [0, 1], b0[0].insurer) == [0, 1]
  {
    assert [0, 1][..1] == [0] && [0, 1][1..] == [1];
    assert [0][..0] == [] && [0][1..] == [] && [1][1..] == [];
    assert Insurers(b0, [0]) == [b0[0].insurer];
  }

  /** A run over a single group has that group's counters. */
  lemma RunTallyOne(b0: map<nat, Batch>, bs: map<nat, Batch>, due: seq<nat>, g: nat)
    ensures RunTally(b0, bs, due, [g]) == GroupTally(b0, bs, Group(b0, due, g))
  {
    assert [g][..0] == [];
  }

  lemma WeighPair(a: nat, b: nat, w: nat -> real)
    ensures Weigh([a, b], w) == w(a) + w(b)
  {
    assert [a, b][1..] == [b] && [b][1..] == [];
    assert Weigh([b], w) == w(b) + Weigh([], w);
  }

  /**
   * The group's counters as intended: the cost after covers the group's
   * own batches and the batches the run created for the insurer (ids in
   * created), whatever the size of the group.
   */
  function SettledGroupTally(b0: map<nat, Batch>, bs: map<nat, Batch>, ids: seq<nat>, created: seq<nat>, g: nat): Tally
  {
    var before := Weigh(ids, LoadedCost(b0));
    var mine := ids + Group(bs, created, g);
    var after := Weigh(mine, OpenCost(bs));
    Tally(|ids|, if before != after then OpenCount(bs, mine) else 0, before, after)
  }

  function SettledRunTally(b0: map<nat, Batch>, bs: map<nat, Batch>, due: seq<nat>, created: seq<nat>, gs: seq<nat>): Tally
  {
    if gs == [] then Tally(0, 0, 0.0, 0.0)
    else
      var n := |gs| - 1;
      Plus(SettledRunTally(b0, bs, due, created, gs[..n]), SettledGroupTally(b0, bs, Group(b0, due, gs[n]), created, gs[n]))
  }

  /** The ids from lo up to hi that have a row in bs: the batches a run created, when lo and hi are the id counter before and after it. */
  function NewIds(bs: map<nat, Batch>, lo: nat, hi: nat): (q: seq<nat>)
    ensures forall a | 0 <= a < |q| :: q[a] in bs && lo <= q[a] < hi
    ensures forall b | b in bs && lo <= b < hi :: b in q
    decreases hi - lo
  {
    if lo >= hi then [] else (if lo in bs then [lo] else []) + NewIds(bs, lo + 1, hi)
  }

  lemma {:induction false} WeighAppend(p: seq<nat>, q: seq<nat>, w: nat -> real)
    ensures Weigh(p + q, w) == Weigh(p, w) + Weigh(q, w)
  {
    if p == [] {
      assert p + q == q;
    } else {
      assert (p + q)[0] == p[0];
      assert (p + q)[1..] == p[1..] + q;
      WeighAppend(p[1..], q, w);
    }
  }

  lemma {:induction false} SettledRunTallyGroups(b0: map<nat, Batch>, bs: map<nat, Batch>, due: seq<nat>, created: seq<nat>, gs: seq<nat>)
    ensures SettledRunTally(b0, bs, due, created, gs).analyzed as real == GroupWeights(b0, due, gs, Unit())
    ensures SettledRunTally(b0, bs, due, created, gs).before == GroupWeights(b0, due, gs, LoadedCost(b0))
    ensures SettledRunTally(b0, bs, due, created, gs).after
            == GroupWeights(b0, due, gs, OpenCost(bs)) + GroupWeights(bs, created, gs, OpenCost(bs))
  {
    if gs != [] {
      var n := |gs| - 1;
      SettledRunTallyGroups(b0, bs, due, created, gs[..n]);
      WeighUnit(Group(b0, due, gs[n]));
      WeighAppend(Group(b0, due, gs[n]), Group(bs, created, gs[n]), OpenCost(bs));
    }
  }

  /**
   * As intended, batches_analyzed is the number of due batches, cost_before
   * their cost as loaded, and cost_after the cost of every open due batch
   * and every open batch the run created, each counted once: the same
   * workload that cost_before prices.
   */
  lemma SettledAfterIsTotal(b0: map<nat, Batch>, bs: map<nat, Batch>, due: seq<nat>, created: seq<nat>)
    requires forall a | 0 <= a < |due| :: due[a] in b0
    requires forall a | 0 <= a < |due| && Open(bs, due[a]) :: bs[due[a]].insurer == b0[due[a]].insurer
    requires forall a | 0 <= a < |created| && created[a] in bs :: bs[created[a]].insurer in Insurers(b0, due)
    ensures SettledRunTally(b0, bs, due, created, Insurers(b0, due)).analyzed == |due|
  ensures SettledRunTally(b0, bs, due, created, Insurers(b0, due)).before == Weigh(due, LoadedCost(b0))
  ensures SettledRunTally(b0, bs, due, created, Insurers(b0, due)).after
            == Weigh(due, OpenCost(bs)) + Weigh(created, OpenCost(bs))
  {
    var gs := Insurers(b0, due);
    SettledRunTallyGroups(b0, bs, due, created, gs);
    Partition(b0, due, gs, Unit());
    Partition(b0, due, gs, LoadedCost(b0));
    WeighUnit(due);
    Partition(b0, due, gs, OpenCost(bs));
    Partition(bs, created, gs, OpenCost(bs));
  }

  lemma {:induction false} OpenAsLoaded(b0: map<nat, Batch>, ids: seq<nat>)
    requires forall a | 0 <= a < |ids| :: Open(b0, ids[a])
    ensures Weigh(ids, OpenCost(b0)) == Weigh(ids, LoadedCost(b0))
  {
    if ids != [] {
      assert forall a | 0 <= a < |ids| - 1 :: ids[1..][a] == ids[a + 1];
      OpenAsLoaded(b0, ids[1..]);
    }
  }

  /** As intended, a run that changes nothing and creates nothing reports no saving and no modified batch. */
  lemma {:induction false} UnchangedRunSavesNothing(b0: map<nat, Batch>, due: seq<nat>, gs: seq<nat>)
    requires forall a | 0 <= a < |due| :: Open(b0, due[a])
    ensures var t := SettledRunTally(b0, b0, due, [], gs); t.before == t.after && t.modified == 0
  {
    if gs != [] {
      var n := |gs| - 1;
      UnchangedRunSavesNothing(b0, due, gs[..n]);
      UnchangedGroupSavesNothing(b0, due, gs[n]);
    }
  }

  /** As intended, a group that the run leaves as loaded has the same cost before and after. */
  lemma UnchangedGroupSavesNothing(b0: map<nat, Batch>, due: seq<nat>, g: nat)
    requires forall a | 0 <= a < |due| :: Open(b0, due[a])
    ensures var t := SettledGroupTally(b0, b0, Group(b0, due, g), [], g); t.before == t.after && t.modified == 0
  {
    var ids := Group(b0, due, g);
    assert Group(b0, [], g) == [];
    assert ids + [] == ids;
    forall a | 0 <= a < |ids| ensures Open(b0, ids[a]) {
      assert ids[a] in due;
    }
    OpenAsLoaded(b0, ids);
  }
}
