/**
 * reoptimizeBatches against the store: load tomorrow's unprocessed
 * batches, group them by insurer, run the too-small and too-large passes
 * on every group of two or more batches, and report the statistics.  The
 * whole run is one transaction: any failure puts the claims and batches
 * back as they were.
 */
module Reoptimizer {
  import opened Domain
  import opened Ordering
  import opened Store
  import opened Rebalance
  import opened Rebalancer
  import opened LargePass
  import opened Reoptimize

  /** The ids of the batches the run loads: unprocessed and due on `day`. */
  ghost function DueIds(bs: map<nat, Batch>, day: int): set<nat>
  {
    set b | b in bs && DueOn(bs[b], day)
  }

  /** No ORDER BY: rows come in id order, which an all-equal key with the id as tie-break gives. */
  function IdOrder(s: set<nat>): (key: map<nat, int>)
    ensures key.Keys == s
  {
    map b | b in s :: 0
  }

  /** The loaded batches, in id order. */
  ghost function DueQueue(bs: map<nat, Batch>, day: int): (q: seq<nat>)
    ensures forall b :: b in q <==> b in bs && DueOn(bs[b], day)
    ensures Ascending(q)
  {
    var s := DueIds(bs, day);
    var q := Ordered(s, IdOrder(s));
    assert forall i, j | 0 <= i < j < |q| :: Before(IdOrder(s), q[i], q[j]);
    q
  }

  /** Batch::where('processed', false)->where('processing_date', day)->get(). */
  method QueryDue(db: Database, day: int) returns (q: seq<nat>)
    ensures q == DueQueue(db.batches, day)
  {
    var s := set b | b in db.batches.Keys && DueOn(db.batches[b], day);
    assert s == DueIds(db.batches, day);
    q := SortByKey(s, IdOrder(s));
  }

  /**
   * What rebalancing the group G of insurer g may do to the store: rows
   * outside G stay, rows keep all but their totals and cost, claims leave
   * only batches of G, batches within the maximum stay within it, and every
   * new batch belongs to g.
   */
  ghost predicate Regrouped(c0: seq<Claim>, b0: map<nat, Batch>, cs: seq<Claim>, bs: map<nat, Batch>,
                            G: set<nat>, maxSize: int, n0: nat, g: nat)
  {
    && Confined(b0, bs, G, n0)
    && MovedOut(c0, cs, G)
    && StaysWithin(b0, bs, maxSize)
    && forall b | b in bs && b !in b0 :: bs[b].insurer == g
  }

  /** The small pass keeps every row's insurer. */
  lemma KeptOneInsurer(c0: seq<Claim>, b0: map<nat, Batch>, r: (seq<Claim>, map<nat, Batch>),
                       from: set<nat>, G: set<nat>, maxSize: int, ids: seq<nat>, g: nat)
    requires Kept(c0, b0, r, from, G, maxSize) && OneInsurer(b0, ids, g)
    ensures OneInsurer(r.1, ids, g)
  {
    forall b | b in ids && b in r.1 ensures r.1[b].insurer == g {
      assert SameRow(b0[b], r.1[b]);
    }
  }

  /** The small pass followed by the large pass rebalances within the group. */
  lemma GroupSteps(c0: seq<Claim>, b0: map<nat, Batch>, c1: seq<Claim>, b1: map<nat, Batch>, cs: seq<Claim>, bs: map<nat, Batch>,
                   ids: seq<nat>, small: seq<nat>, large: seq<nat>, maxSize: int, n0: nat, n1: nat, g: nat)
    requires Kept(c0, b0, (c1, b1), Elems(small), Elems(ids), maxSize)
    requires LargeSoFar(c1, b1, cs, bs, ids, large, maxSize, n1, g)
    requires forall a | 0 <= a < |small| :: small[a] in ids
    requires forall a | 0 <= a < |large| :: large[a] in ids
    requires (forall b | b in b0 :: b < n0) && n0 <= n1
    ensures Regrouped(c0, b0, cs, bs, Elems(ids), maxSize, n0, g)
  {
    assert Confined(b0, b1, Elems(ids), n0);
    ConfinedTrans(b0, b1, bs, Elems(ids), n0, n1);
    StaysWithinTrans(b0, b1, bs, maxSize);
    MovedOutWiden(c0, c1, Elems(small), Elems(ids));
    MovedOutWiden(c1, cs, Elems(large), Elems(ids));
    MovedOutTrans(c0, c1, cs, Elems(ids));
  }

  /** The too-small and too-large lists of a group, filtered on the loaded rows. */
  lemma FilterLists(loaded: map<nat, Batch>, bs: map<nat, Batch>, ids: seq<nat>, ins: Insurer)
    requires Ascending(ids) && forall a | 0 <= a < |ids| :: ids[a] in bs
    ensures var small := TooSmall(loaded, ids, ins);
      && Ascending(small)
      && (forall a | 0 <= a < |small| :: small[a] in ids && small[a] in bs)
    ensures var large := TooLarge(loaded, ids, ins);
      forall a | 0 <= a < |large| :: large[a] in ids
  {
    var small := TooSmall(loaded, ids, ins);
    forall a | 0 <= a < |small| ensures small[a] in ids && small[a] in bs {
      assert small[a] in ids;
    }
  }

  /**
   * The body of the loop over the groups for a group of two or more
   * batches: pick the too-small and too-large batches from the rows as
   * loaded, then run the too-small pass and the too-large pass.
   * Afterwards every too-large batch that is still there is within the
   * tolerance.
   */
  method RebalanceGroup(db: Database, loaded: map<nat, Batch>, ids: seq<nat>, ins: Insurer, ghost g: nat)
    returns (err: Option<Failure>)
    requires db.Valid() && OneInsurer(db.batches, ids, g) && Ascending(ids)
    requires forall a | 0 <= a < |ids| :: ids[a] in db.batches && ids[a] < db.nextBatchId
    modifies db`claims, db`batches, db`nextBatchId
    ensures db.Valid() && old(db.nextBatchId) <= db.nextBatchId
    ensures err.None? ==>
      Regrouped(old(db.claims), old(db.batches), db.claims, db.batches, Elems(ids), ins.maxBatchSize, old(db.nextBatchId), g)
    ensures err.None? ==> forall a | 0 <= a < |TooLarge(loaded, ids, ins)| && TooLarge(loaded, ids, ins)[a] in db.batches ::
      db.batches[TooLarge(loaded, ids, ins)[a]].totalClaims <= Max(ins.maxBatchSize, 0) + SPLIT_TOLERANCE
    ensures err.Some? ==> err.value in {UnknownProvider, DuplicateIdentifier}
  {
    var small := TooSmall(loaded, ids, ins);
    var large := TooLarge(loaded, ids, ins);
    FilterLists(loaded, db.batches, ids, ins);
    ghost var c0, b0, n0 := db.claims, db.batches, db.nextBatchId;
    SmallPassKeeps(c0, b0, ids, small, ins, db.cost);
    RebalanceSmall(db, ids, small, ins, g);
    ghost var c1, b1 := db.claims, db.batches;
    KeptOneInsurer(c0, b0, (c1, b1), Elems(small), Elems(ids), ins.maxBatchSize, ids, g);
    err := RebalanceLarge(db, ids, large, ins, g);
    if err.None? {
      GroupSteps(c0, b0, c1, b1, db.claims, db.batches, ids, small, large, ins.maxBatchSize, n0, n0, g);
    }
  }

  /** The rollback of the transaction: the rows come back, the id counter does not. */
  method Rollback(db: Database, c0: seq<Claim>, b0: map<nat, Batch>, n0: nat)
    requires Consistent(c0, b0, n0) && TotalsAgreeExcept(c0, b0, {}) && n0 <= db.nextBatchId
    modifies db`claims, db`batches
    ensures db.Valid() && db.claims == c0 && db.batches == b0
  {
    db.Restore(c0, b0);
  }

  /** The loaded batches of insurers not yet handled are still as loaded. */
  ghost predicate Untouched(b0: map<nat, Batch>, bs: map<nat, Batch>, due: seq<nat>, seen: set<nat>)
  {
    forall a | 0 <= a < |due| && due[a] in b0 && b0[due[a]].insurer !in seen :: due[a] in bs && bs[due[a]] == b0[due[a]]
  }

  /** Rebalancing the group of g changes no row of another insurer's group. */
  lemma GroupFrame(c0: seq<Claim>, b0: map<nat, Batch>, due: seq<nat>, n0: nat, seen: set<nat>, g: nat,
                   c1: seq<Claim>, b1: map<nat, Batch>, n1: nat, cs: seq<Claim>, bs: map<nat, Batch>, maxSize: int)
    requires Untouched(b0, b1, due, seen) && g !in seen
    requires Confined(b0, b1, Elems(due), n0) && MovedOut(c0, c1, Elems(due))
    requires (forall b | b in b0 :: b < n0) && n0 <= n1
    requires Regrouped(c1, b1, cs, bs, Elems(Group(b0, due, g)), maxSize, n1, g) && NewRowsOf(b0, b1, seen)
    ensures Untouched(b0, bs, due, seen + {g}) && NewRowsOf(b0, bs, seen + {g})
    ensures Confined(b0, bs, Elems(due), n0) && MovedOut(c0, cs, Elems(due))
    ensures forall a | 0 <= a < |due| && due[a] in b0 && b0[due[a]].insurer != g :: Unchanged(b1, bs, due[a])
  {
    var G := Elems(Group(b0, due, g));
    assert G <= Elems(due);
    assert Confined(b1, bs, Elems(due), n1);
    ConfinedTrans(b0, b1, bs, Elems(due), n0, n1);
    MovedOutWiden(c1, cs, G, Elems(due));
    MovedOutTrans(c0, c1, cs, Elems(due));
    forall a | 0 <= a < |due| && due[a] in b0 && b0[due[a]].insurer != g ensures Unchanged(b1, bs, due[a]) {
      assert due[a] !in G;
    }
    forall b | b in bs && b !in b0 ensures bs[b].insurer in seen + {g} {
      if b in b1 {
        assert SameRow(b1[b], bs[b]);
      }
    }
  }

  /** Every batch created since the load belongs to one of the insurers in seen. */
  ghost predicate NewRowsOf(b0: map<nat, Batch>, bs: map<nat, Batch>, seen: set<nat>)
  {
    forall b | b in bs && b !in b0 :: bs[b].insurer in seen
  }

  /**
   * What the two passes leave of one batch, loaded as `before` and now
   * `after`: one loaded above the maximum is at most SPLIT_TOLERANCE over
   * it, one loaded within the maximum still is.
   */
  predicate Settles(before: Batch, after: Batch, maxSize: int)
  {
    && (before.totalClaims > maxSize ==> after.totalClaims <= Max(maxSize, 0) + SPLIT_TOLERANCE)
    && (before.totalClaims <= maxSize ==> after.totalClaims <= maxSize)
  }

  /**
   * The passes' result over the groups of the insurers in seen: every
   * loaded batch of a group of two or more that is still in the table
   * settles under its insurer's maximum.  Groups of one batch are skipped
   * by the run and are not bound.
   */
  ghost predicate Rebalanced(b0: map<nat, Batch>, bs: map<nat, Batch>, due: seq<nat>, seen: set<nat>,
                             insurers: map<nat, Insurer>)
  {
    forall a | 0 <= a < |due| && due[a] in b0 && due[a] in bs && b0[due[a]].insurer in seen
               && b0[due[a]].insurer in insurers && 2 <= |Group(b0, due, b0[due[a]].insurer)| ::
      Settles(b0[due[a]], bs[due[a]], insurers[b0[due[a]].insurer].maxBatchSize)
  }

  /** A group of one batch is skipped: nothing changes and nothing new is bound. */
  lemma RebalancedLone(b0: map<nat, Batch>, bs: map<nat, Batch>, due: seq<nat>, seen: set<nat>,
                       insurers: map<nat, Insurer>, g: nat)
    requires Rebalanced(b0, bs, due, seen, insurers) && |Group(b0, due, g)| < 2
    ensures Rebalanced(b0, bs, due, seen + {g}, insurers)
  {
  }

  /**
   * Rebalancing the group of g settles its batches and leaves the rows of
   * the groups already handled as they were.
   */
  lemma RebalancedStep(b0: map<nat, Batch>, b1: map<nat, Batch>, bs: map<nat, Batch>, due: seq<nat>, seen: set<nat>,
                       insurers: map<nat, Insurer>, g: nat)
    requires Rebalanced(b0, b1, due, seen, insurers) && g in insurers
    requires forall a | 0 <= a < |due| && due[a] in b0 && b0[due[a]].insurer != g :: Unchanged(b1, bs, due[a])
    requires var ids := Group(b0, due, g);
      forall a | 0 <= a < |ids| :: ids[a] in b1 && b1[ids[a]] == b0[ids[a]]
    requires StaysWithin(b1, bs, insurers[g].maxBatchSize)
    requires var large := TooLarge(b0, Group(b0, due, g), insurers[g]);
      forall a | 0 <= a < |large| && large[a] in bs ::
        bs[large[a]].totalClaims <= Max(insurers[g].maxBatchSize, 0) + SPLIT_TOLERANCE
    ensures Rebalanced(b0, bs, due, seen + {g}, insurers)
  {
    var ids := Group(b0, due, g);
    var large := TooLarge(b0, ids, insurers[g]);
    forall a | 0 <= a < |due| && due[a] in b0 && due[a] in bs && b0[due[a]].insurer in seen + {g}
               && b0[due[a]].insurer in insurers && 2 <= |Group(b0, due, b0[due[a]].insurer)|
      ensures Settles(b0[due[a]], bs[due[a]], insurers[b0[due[a]].insurer].maxBatchSize)
    {
      var x := due[a];
      if b0[x].insurer != g {
        assert Unchanged(b1, bs, x);
      } else {
        assert x in ids;
        var k :| 0 <= k < |ids| && ids[k] == x;
        assert b1[x] == b0[x];
        if b0[x].totalClaims > insurers[g].maxBatchSize {
          assert x in large;
          var j :| 0 <= j < |large| && large[j] == x;
        }
      }
    }
  }

  /**
   * The run so far: the groups of the insurers in seen are handled, the
   * others are as loaded, and every new batch belongs to a handled insurer.
   */
  ghost predicate Progress(c0: seq<Claim>, b0: map<nat, Batch>, n0: nat, due: seq<nat>, seen: set<nat>,
                           cs: seq<Claim>, bs: map<nat, Batch>)
  {
    && Untouched(b0, bs, due, seen)
    && NewRowsOf(b0, bs, seen)
    && Confined(b0, bs, Elems(due), n0)
    && MovedOut(c0, cs, Elems(due))
  }

  lemma ProgressStart(c0: seq<Claim>, b0: map<nat, Batch>, n0: nat, due: seq<nat>)
    requires forall b | b in b0 :: b < n0
    ensures Progress(c0, b0, n0, due, {}, c0, b0)
  {
    assert forall i | 0 <= i < |c0| :: c0[i] == c0[i].(batch := c0[i].batch);
  }

  /** A group not yet handled is still as loaded. */
  lemma GroupLoaded(b0: map<nat, Batch>, bs: map<nat, Batch>, due: seq<nat>, seen: set<nat>, g: nat, n0: nat)
    requires Untouched(b0, bs, due, seen) && g !in seen && Ascending(due)
    requires (forall a | 0 <= a < |due| :: due[a] in b0) && forall b | b in b0 :: b < n0
    ensures var ids := Group(b0, due, g);
      && OneInsurer(bs, ids, g) && Ascending(ids)
      && (forall a | 0 <= a < |ids| :: ids[a] in bs && bs[ids[a]] == b0[ids[a]] && ids[a] < n0)
  {
    var ids := Group(b0, due, g);
    forall a | 0 <= a < |ids| ensures ids[a] in bs && bs[ids[a]] == b0[ids[a]] && ids[a] < n0 {
      assert ids[a] in due;
    }
  }

  /** Skipping a group keeps the run's progress. */
  lemma ProgressWiden(c0: seq<Claim>, b0: map<nat, Batch>, n0: nat, due: seq<nat>, seen: set<nat>, g: nat,
                      cs: seq<Claim>, bs: map<nat, Batch>)
    requires Progress(c0, b0, n0, due, seen, cs, bs)
    ensures Progress(c0, b0, n0, due, seen + {g}, cs, bs)
  {
  }

  lemma DistinctPrefix(gs: seq<nat>, i: nat)
    requires Distinct(gs) && i < |gs|
    ensures gs[i] !in gs[..i] && gs[..i + 1] == gs[..i] + [gs[i]]
  {
  }

  /**
   * The two passes over one group of two or more batches, with what they
   * leave of the run: the groups already handled keep their counters, and
   * the progress now covers group g.
   */
  method RegroupStep(db: Database, b0: map<nat, Batch>, due: seq<nat>, g: nat, ins: Insurer,
                     ghost c0: seq<Claim>, ghost n0: nat, ghost done: seq<nat>)
    returns (err: Option<Failure>)
    requires db.Valid() && n0 <= db.nextBatchId && (forall b | b in b0 :: b < n0)
    requires (forall a | 0 <= a < |due| :: due[a] in b0) && Ascending(due)
    requires g !in done && g in db.insurers && ins == db.insurers[g]
    requires Progress(c0, b0, n0, due, Elems(done), db.claims, db.batches)
    requires Rebalanced(b0, db.batches, due, Elems(done), db.insurers)
    modifies db`claims, db`batches, db`nextBatchId
    ensures db.Valid() && old(db.nextBatchId) <= db.nextBatchId
    ensures err.None? ==>
      && Progress(c0, b0, n0, due, Elems(done + [g]), db.claims, db.batches)
      && Rebalanced(b0, db.batches, due, Elems(done + [g]), db.insurers)
      && RunTally(b0, db.batches, due, done) == RunTally(b0, old(db.batches), due, done)
    ensures err.Some? ==> err.value in {UnknownProvider, DuplicateIdentifier}
  {
    ElemsSnoc(done, g);
    ghost var c1, b1, n1 := db.claims, db.batches, db.nextBatchId;
    GroupLoaded(b0, b1, due, Elems(done), g, n0);
    err := RebalanceGroup(db, b0, Group(b0, due, g), ins, g);
    if err.Some? {
      return;
    }
    GroupFrame(c0, b0, due, n0, Elems(done), g, c1, b1, n1, db.claims, db.batches, ins.maxBatchSize);
    RebalancedStep(b0, b1, db.batches, due, Elems(done), db.insurers, g);
    RunTallyFrame(b0, b1, db.batches, due, done, g);
  }

  /**
   * One turn of the loop over the groups: count the group in, and, when
   * it holds two or more batches, rebalance it and count its cost after.
   */
  method HandleGroup(db: Database, b0: map<nat, Batch>, due: seq<nat>, g: nat, ins: Insurer, t: Tally,
                     ghost c0: seq<Claim>, ghost n0: nat, ghost done: seq<nat>)
    returns (err: Option<Failure>, t2: Tally)
    requires db.Valid() && n0 <= db.nextBatchId && (forall b | b in b0 :: b < n0)
    requires (forall a | 0 <= a < |due| :: due[a] in b0) && Ascending(due)
    requires g !in done && g in db.insurers && ins == db.insurers[g]
    requires Progress(c0, b0, n0, due, Elems(done), db.claims, db.batches)
    requires Rebalanced(b0, db.batches, due, Elems(done), db.insurers)
    modifies db`claims, db`batches, db`nextBatchId
    ensures db.Valid() && old(db.nextBatchId) <= db.nextBatchId
    ensures err.None? ==>
      && Progress(c0, b0, n0, due, Elems(done + [g]), db.claims, db.batches)
      && Rebalanced(b0, db.batches, due, Elems(done + [g]), db.insurers)
      && t2 == Plus(t, GroupTally(b0, db.batches, Group(b0, due, g)))
      && RunTally(b0, db.batches, due, done) == RunTally(b0, old(db.batches), due, done)
    ensures err.Some? ==> err.value in {UnknownProvider, DuplicateIdentifier}
  {
    ElemsSnoc(done, g);
    var ids := Group(b0, due, g);
    if |ids| < 2 {
      var originalCost := Weigh(ids, LoadedCost(b0));
      t2 := t.(analyzed := t.analyzed + |ids|, before := t.before + originalCost);
      assert GroupTally(b0, db.batches, ids) == Tally(|ids|, 0, originalCost, 0.0);
      ProgressWiden(c0, b0, n0, due, Elems(done), g, db.claims, db.batches);
      RebalancedLone(b0, db.batches, due, Elems(done), db.insurers, g);
      return None, t2;
    }
    err := RegroupStep(db, b0, due, g, ins, c0, n0, done);
    if err.Some? {
      return err, t;
    }
    t2 := CountGroup(t, b0, db.batches, ids);
  }

  /**
   * The counters of a group of two or more batches once both passes are
   * done: its batches and their cost as loaded (the loaded rows are not
   * affected by the passes), the cost of those of them still open as
   * re-read from the table, and, when the two costs differ, the re-read
   * batches counted as modified.
   */
  method CountGroup(t: Tally, b0: map<nat, Batch>, bs: map<nat, Batch>, ids: seq<nat>) returns (t2: Tally)
    requires 2 <= |ids|
    ensures t2 == Plus(t, GroupTally(b0, bs, ids))
  {
    var originalCost := Weigh(ids, LoadedCost(b0));
    var newCost := Weigh(ids, OpenCost(bs));
    t2 := t.(analyzed := t.analyzed + |ids|, before := t.before + originalCost, after := t.after + newCost);
    if originalCost != newCost {
      t2 := t2.(modified := t2.modified + OpenCount(bs, ids));
    }
  }

  /** Every insurer of gs is configured. */
  predicate Known(gs: seq<nat>, insurers: map<nat, Insurer>)
  {
    forall k | 0 <= k < |gs| :: gs[k] in insurers
  }

  lemma KnownSnoc(gs: seq<nat>, g: nat, insurers: map<nat, Insurer>)
    requires Known(gs, insurers) && g in insurers
    ensures Known(gs + [g], insurers)
  {
  }

  /** The counters after one more group are those of the longer prefix. */
  lemma TallyStep(b0: map<nat, Batch>, bs1: map<nat, Batch>, bs: map<nat, Batch>, due: seq<nat>, done: seq<nat>, g: nat,
                  t: Tally, t1: Tally)
    requires t == RunTally(b0, bs1, due, done) && RunTally(b0, bs, due, done) == RunTally(b0, bs1, due, done)
    requires t1 == Plus(t, GroupTally(b0, bs, Group(b0, due, g)))
    ensures t1 == RunTally(b0, bs, due, done + [g])
  {
    RunTallySnoc(b0, bs, due, done, g);
  }

  /**
   * The loop over the insurer groups.  On a failure the caller rolls back;
   * otherwise every group is handled and the counters are those of all
   * the groups.
   */
  method HandleGroups(db: Database, b0: map<nat, Batch>, due: seq<nat>, gs: seq<nat>, ghost c0: seq<Claim>, ghost n0: nat)
    returns (err: Option<Failure>, t: Tally)
    requires db.Valid() && db.claims == c0 && db.batches == b0 && db.nextBatchId == n0
    requires (forall a | 0 <= a < |due| :: due[a] in b0) && Ascending(due) && Distinct(gs)
    modifies db`claims, db`batches, db`nextBatchId
    ensures db.Valid() && n0 <= db.nextBatchId
    ensures err.None? ==>
      && Progress(c0, b0, n0, due, Elems(gs), db.claims, db.batches)
      && Rebalanced(b0, db.batches, due, Elems(gs), db.insurers)
      && t == RunTally(b0, db.batches, due, gs)
      && Known(gs, db.insurers)
    ensures err.Some? ==> err.value in {UnknownInsurer, UnknownProvider, DuplicateIdentifier}
  {
    t := Tally(0, 0, 0.0, 0.0);
    var insurers := db.insurers;
    ProgressStart(c0, b0, n0, due);
    assert Elems(gs[..0]) == {};
    for i := 0 to |gs|
      invariant db.Valid() && n0 <= db.nextBatchId
      invariant Progress(c0, b0, n0, due, Elems(gs[..i]), db.claims, db.batches)
      invariant Rebalanced(b0, db.batches, due, Elems(gs[..i]), insurers)
      invariant t == RunTally(b0, db.batches, due, gs[..i])
      invariant Known(gs[..i], insurers)
    {
      var g := gs[i];
      if g !in insurers {
        return Some(UnknownInsurer), t;
      }
      DistinctPrefix(gs, i);
      KnownSnoc(gs[..i], g, insurers);
      ghost var bs1 := db.batches;
      var t1;
      err, t1 := HandleGroup(db, b0, due, g, insurers[g], t, c0, n0, gs[..i]);
      if err.Some? {
        return err, t1;
      }
      TallyStep(b0, bs1, db.batches, due, gs[..i], g, t, t1);
      t := t1;
    }
    assert gs[..|gs|] == gs;
    err := None;
  }

  /**
   * reoptimizeBatches on day `today`.  A failure rolls every change back.
   * Otherwise the statistics are those of the insurer groups of the loaded
   * batches, each group's cost after read from the final table: the
   * number of batches analysed is the number of due batches, the cost
   * before is their cost as loaded, and the run only moved claims out of
   * due batches and only changed due batches or created new ones.  In
   * every group of two or more, a batch loaded above the insurer's maximum
   * ends within the tolerance and one loaded within it stays within it.
   */
  method ReoptimizeBatches(db: Database, today: int) returns (r: Result<Report>)
    requires db.Valid()
    modifies db`claims, db`batches, db`nextBatchId
    ensures db.Valid() && old(db.nextBatchId) <= db.nextBatchId
    ensures r.Err? ==> db.claims == old(db.claims) && db.batches == old(db.batches)
    ensures r.Err? ==> r.error in {UnknownInsurer, UnknownProvider, DuplicateIdentifier}
    ensures r.Ok? ==>
      var due := DueQueue(old(db.batches), today + 1);
      var gs := Insurers(old(db.batches), due);
      && Known(gs, db.insurers)
      && r.value == Summarise(RunTally(old(db.batches), db.batches, due, gs))
      && r.value.analyzed == |due|
      && r.value.costBefore == Weigh(due, LoadedCost(old(db.batches)))
      && Confined(old(db.batches), db.batches, Elems(due), old(db.nextBatchId))
      && MovedOut(old(db.claims), db.claims, Elems(due))
      && Rebalanced(old(db.batches), db.batches, due, Elems(gs), db.insurers)
  {
    var c0, b0, n0 := db.claims, db.batches, db.nextBatchId;
    var due := QueryDue(db, today + 1);
    var gs := Insurers(b0, due);
    var err, t := HandleGroups(db, b0, due, gs, c0, n0);
    if err.Some? {
      Rollback(db, c0, b0, n0);
      return Err(err.value);
    }
    RunTallyTotals(b0, db.batches, due);
    r := Ok(Summarise(t));
  }

  /**
   * The intended counters, group by group over the final table: each
   * group's batches and their cost as loaded, and the cost of its batches
   * and of the batches created for its insurer as re-read afterwards.
   */
  method SettledCounters(b0: map<nat, Batch>, bs: map<nat, Batch>, due: seq<nat>, created: seq<nat>, gs: seq<nat>)
    returns (t: Tally)
    ensures t == SettledRunTally(b0, bs, due, created, gs)
  {
    t := Tally(0, 0, 0.0, 0.0);
    for i := 0 to |gs|
      invariant t == SettledRunTally(b0, bs, due, created, gs[..i])
    {
      var g := gs[i];
      var ids := Group(b0, due, g);
      var mine := ids + Group(bs, created, g);
      var before := Weigh(ids, LoadedCost(b0));
      var after := Weigh(mine, OpenCost(bs));
      t := Plus(t, Tally(|ids|, if before != after then OpenCount(bs, mine) else 0, before, after));
      assert gs[..i + 1][..i] == gs[..i];
    }
    assert gs[..|gs|] == gs;
  }

  /** What the intended cost after needs of a finished run: due rows keep their insurer, new rows belong to a handled insurer. */
  lemma SettledApplies(c0: seq<Claim>, b0: map<nat, Batch>, n0: nat, due: seq<nat>, gs: seq<nat>,
                       cs: seq<Claim>, bs: map<nat, Batch>, created: seq<nat>)
    requires Progress(c0, b0, n0, due, Elems(gs), cs, bs) && forall b | b in b0 :: b < n0
    requires forall a | 0 <= a < |created| :: n0 <= created[a]
    ensures forall a | 0 <= a < |due| && Open(bs, due[a]) && due[a] in b0 :: bs[due[a]].insurer == b0[due[a]].insurer
    ensures forall a | 0 <= a < |created| && created[a] in bs :: bs[created[a]].insurer in gs
  {
    forall a | 0 <= a < |due| && Open(bs, due[a]) && due[a] in b0 ensures bs[due[a]].insurer == b0[due[a]].insurer {
      assert SameRow(b0[due[a]], bs[due[a]]);
    }
    forall a | 0 <= a < |created| && created[a] in bs ensures bs[created[a]].insurer in gs {
      assert created[a] !in b0;
    }
  }

  /**
   * reoptimizeBatches with the statistics as evidently intended: the same
   * run, but every group's cost after is read from the final table and
   * covers the batches created for its insurer, groups of one batch
   * included.  The cost after is then the cost of every open due batch and
   * every open new batch, so a run that changes nothing saves nothing
   * (Reoptimize.UnchangedRunSavesNothing).  The groups settle as in
   * ReoptimizeBatches.
   */
  method ReoptimizeBatchesSettled(db: Database, today: int) returns (r: Result<Report>)
    requires db.Valid()
    modifies db`claims, db`batches, db`nextBatchId
    ensures db.Valid() && old(db.nextBatchId) <= db.nextBatchId
    ensures r.Err? ==> db.claims == old(db.claims) && db.batches == old(db.batches)
    ensures r.Err? ==> r.error in {UnknownInsurer, UnknownProvider, DuplicateIdentifier}
    ensures r.Ok? ==>
      var due := DueQueue(old(db.batches), today + 1);
      var gs := Insurers(old(db.batches), due);
      var created := NewIds(db.batches, old(db.nextBatchId), db.nextBatchId);
      && Known(gs, db.insurers)
      && r.value == Summarise(SettledRunTally(old(db.batches), db.batches, due, created, gs))
      && r.value.analyzed == |due|
      && r.value.costBefore == Weigh(due, LoadedCost(old(db.batches)))
      && r.value.costAfter == Weigh(due, OpenCost(db.batches)) + Weigh(created, OpenCost(db.batches))
      && Confined(old(db.batches), db.batches, Elems(due), old(db.nextBatchId))
      && MovedOut(old(db.claims), db.claims, Elems(due))
      && Rebalanced(old(db.batches), db.batches, due, Elems(gs), db.insurers)
  {
    var c0, b0, n0 := db.claims, db.batches, db.nextBatchId;
    var due := QueryDue(db, today + 1);
    var gs := Insurers(b0, due);
    var err, t := HandleGroups(db, b0, due, gs, c0, n0);
    if err.Some? {
      Rollback(db, c0, b0, n0);
      return Err(err.value);
    }
    var created := NewIds(db.batches, n0, db.nextBatchId);
    var settled := SettledCounters(b0, db.batches, due, created, gs);
    SettledApplies(c0, b0, n0, due, gs, db.claims, db.batches, created);
    SettledAfterIsTotal(b0, db.batches, due, created);
    r := Ok(Summarise(settled));
  }
}
