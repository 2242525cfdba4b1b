/**
 * rebalanceLargeBatches over the store: a batch more than SPLIT_TOLERANCE
 * claims over the maximum hands its excess, lowest priority level first,
 * to the same provider's receivers in ascending size, filling each to the
 * maximum, and what no receiver can take goes to a new batch of its own.
 */
module LargePass {
  import opened Domain
  import opened Ledger
  import opened Ordering
  import opened Store
  import opened ClaimMoves
  import opened Rebalance
  import opened Rebalancer
  import opened Spreading
  import Assignment

  /**
   * One round of the receivers loop: receiver cands[j] takes as many of l's
   * lowest-priority claims as fit below the maximum, at most what is left
   * of the excess.  The source leaves the loop when that number is not
   * positive; the receiver has room and some excess is left, so that exit
   * is never taken.
   */
  method SpreadRound(db: Database, ghost c0: seq<Claim>, ghost b0: map<nat, Batch>, l: nat, cands: seq<nat>, j: nat,
                     moved: int, excess: int, maxSize: int) returns (toMove: int)
    requires db.Valid() && Spread(c0, b0, db.claims, db.batches, l, cands, j, moved, excess, maxSize)
    requires j < |cands| && moved < excess && l !in cands && excess <= b0[l].totalClaims
    requires forall a, b | 0 <= a < b < |cands| :: cands[a] != cands[b]
    requires forall a | 0 <= a < |cands| :: Receiver(b0, l, cands[a], maxSize) && b0[cands[a]].insurer == b0[l].insurer
    modifies db`claims, db`batches
    ensures db.Valid() && toMove > 0
    ensures Spread(c0, b0, db.claims, db.batches, l, cands, j + 1, moved + toMove, excess, maxSize)
  {
    var t := cands[j];
    toMove := Min(excess - moved, maxSize - db.batches[t].totalClaims);
    ghost var c1, b1 := db.claims, db.batches;
    assert SameRow(b0[t], b1[t]) && SameRow(b0[l], b1[l]);
    var n := Transfer(db, l, t, toMove, true);
    SpreadStep(c0, b0, c1, b1, db.claims, db.batches, l, cands, j, moved, excess, maxSize, toMove, db.cost);
  }

  /**
   * The receivers loop of rebalanceLargeBatches: for each receiver in
   * order, move as many of l's lowest-priority claims as fit below the
   * maximum, until the excess is placed.  Returns how many were placed and
   * how many receivers were visited.
   */
  method SpreadLoop(db: Database, l: nat, cands: seq<nat>, excess: int, maxSize: int) returns (moved: int, j: nat)
    requires db.Valid() && l in db.batches && l !in cands
    requires forall a, b | 0 <= a < b < |cands| :: cands[a] != cands[b]
    requires forall a | 0 <= a < |cands| ::
      && Receiver(db.batches, l, cands[a], maxSize)
      && db.batches[cands[a]].insurer == db.batches[l].insurer
    requires 0 <= excess <= db.batches[l].totalClaims
    modifies db`claims, db`batches
    ensures db.Valid() && (j == |cands| || moved >= excess)
    ensures Spread(old(db.claims), old(db.batches), db.claims, db.batches, l, cands, j, moved, excess, maxSize)
  {
    ghost var c0, b0 := db.claims, db.batches;
    SpreadStart(c0, b0, l, cands, excess, maxSize);
    moved := 0;
    j := 0;
    while j < |cands| && moved < excess
      invariant db.Valid() && Spread(c0, b0, db.claims, db.batches, l, cands, j, moved, excess, maxSize)
    {
      var toMove := SpreadRound(db, c0, b0, l, cands, j, moved, excess, maxSize);
      moved := moved + toMove;
      j := j + 1;
    }
  }

  /** The receivers loop, with what it leaves stated over the state it started from. */
  method SpreadExcess(db: Database, l: nat, cands: seq<nat>, excess: int, maxSize: int) returns (moved: int)
    requires db.Valid() && l in db.batches && l !in cands
    requires forall a, b | 0 <= a < b < |cands| :: cands[a] != cands[b]
    requires forall a | 0 <= a < |cands| ::
      && Receiver(db.batches, l, cands[a], maxSize)
      && db.batches[cands[a]].insurer == db.batches[l].insurer
    requires 0 <= excess <= db.batches[l].totalClaims
    modifies db`claims, db`batches
    ensures db.Valid()
    ensures SpreadDone(old(db.claims), old(db.batches), (db.claims, db.batches, moved), l, cands, excess, maxSize)
  {
    var j;
    moved, j := SpreadLoop(db, l, cands, excess, maxSize);
    SpreadFinish(old(db.claims), old(db.batches), db.claims, db.batches, l, cands, j, moved, excess, maxSize);
  }

  /** The identifier createNewBatchForProvider gives a new batch for l's provider on l's batch date. */
  ghost function SplitIdent(bs: map<nat, Batch>, l: nat, name: string): Identifier
    requires l in bs
  {
    Identifier(name, bs[l].batchDate, Some(|Assignment.SameProviderDate(bs, bs[l].provider, bs[l].batchDate)| + 1))
  }

  /** The empty row createNewBatchForProvider adds for l: l's provider, insurer and batch date, due the next day. */
  ghost function SplitRow(bs: map<nat, Batch>, l: nat, name: string): Batch
    requires l in bs
  {
    EmptyBatch(bs[l].provider, bs[l].insurer, bs[l].batchDate, SplitIdent(bs, l, name), bs[l].batchDate + 1)
  }

  /** An empty row under the next id agrees with the claims, which reference only existing batches. */
  lemma FreshRowAgrees(cs: seq<Claim>, bs: map<nat, Batch>, next: nat, row: Batch)
    requires Consistent(cs, bs, next) && TotalsAgreeExcept(cs, bs, {})
    requires row.totalClaims == 0 && row.totalAmount == 0
    ensures next !in bs && TotalsAgreeExcept(cs, bs[next := row], {})
  {
    forall i | 0 <= i < |cs| ensures cs[i].batch != Some(next) {
      assert Linked(cs[i], bs);
    }
    CountZero(cs, next);
    CountZeroAmount(cs, next);
    WriteAgreeing(cs, bs, next, row);
  }

  /**
   * Claims moved only out of l and only into the new batch n; n is the
   * only row added and every other row but l's is untouched; l keeps all
   * but its totals and cost.
   */
  ghost predicate SplitMoved(c0: seq<Claim>, b0: map<nat, Batch>, cs: seq<Claim>, bs: map<nat, Batch>, l: nat, n: nat)
  {
    && MovedOut(c0, cs, {l}) && MovedInto(c0, cs, {n})
    && n !in b0 && bs.Keys == b0.Keys + {n}
    && forall b | b in b0 :: SameRow(b0[b], bs[b]) && (b != l ==> bs[b] == b0[b])
  }

  lemma SplitMovedFacts(cs: seq<Claim>, b0: map<nat, Batch>, b1: map<nat, Batch>, l: nat, n: nat, k: nat, cost: CostFn)
    requires l in b0 && n !in b0 && n in b1 && b1 == b0[n := b1[n]]
    ensures var r := Moved(cs, b1, Selection(cs, l, k, true), l, n, cost);
      && SplitMoved(cs, b0, r.0, r.1, l, n)
      && SameRow(b1[n], r.1[n])
  {
    var sel := Selection(cs, l, k, true);
    SelectionMembers(cs, l, k, true);
    MovedRows(cs, b1, sel, l, n, cost);
    MovedClaims(cs, sel, l, n);
    MovedIntoTarget(cs, sel, n);
    var r := Moved(cs, b1, sel, l, n, cost);
    forall b | b in b0 ensures SameRow(b0[b], r.1[b]) && (b != l ==> r.1[b] == b0[b]) {
      assert b1[b] == b0[b];
    }
  }

  /**
   * A new batch for l's provider (createNewBatchForProvider), then up to k
   * of l's claims, lowest priority level first, moved into it and both
   * batches re-derived.  Refused, with nothing changed, when l's provider is
   * not on record or the new batch's identifier is taken.
   */
  method SplitOff(db: Database, l: nat, k: nat) returns (r: Result<nat>)
    requires db.Valid() && l in db.batches
    modifies db`claims, db`batches, db`nextBatchId
    ensures db.Valid() && old(db.nextBatchId) <= db.nextBatchId
    ensures var p := old(db.batches[l].provider);
      && (r == Err(UnknownProvider) <==> p !in db.providerNames)
      && (r == Err(DuplicateIdentifier) <==>
            p in db.providerNames && old(db.IdentifierTaken(SplitIdent(db.batches, l, db.providerNames[p]))))
      && (r.Ok? <==> p in db.providerNames && !old(db.IdentifierTaken(SplitIdent(db.batches, l, db.providerNames[p]))))
    ensures r.Err? ==> db.claims == old(db.claims) && db.batches == old(db.batches)
    ensures r.Ok? ==>
      var p := old(db.batches[l].provider);
      && p in db.providerNames
      && r.value == old(db.nextBatchId)
    ensures r.Ok? ==>
      && LowestLeft(old(db.claims), db.claims, l)
      && SplitMoved(old(db.claims), old(db.batches), db.claims, db.batches, l, r.value)
      && SameRow(SplitRow(old(db.batches), l, db.providerNames[old(db.batches[l].provider)]), db.batches[r.value])
      && db.batches[l].totalClaims == old(db.batches[l].totalClaims) - Min(k, old(db.batches[l].totalClaims))
      && db.batches[r.value].totalClaims == Min(k, old(db.batches[l].totalClaims))
  {
    var row := db.batches[l];
    if row.provider !in db.providerNames {
      return Err(UnknownProvider);
    }
    var made := CreateNewBatchForProvider(db, row.provider, row.insurer, db.providerNames[row.provider], row.batchDate);
    if made.None? {
      return Err(DuplicateIdentifier);
    }
    ghost var c0, b1 := db.claims, db.batches;
    assert b1 == old(db.batches)[made.value := SplitRow(old(db.batches), l, db.providerNames[row.provider])];
    var n := Transfer(db, l, made.value, k, true);
    assert (db.claims, db.batches) == Moved(c0, b1, Selection(c0, l, k, true), l, made.value, db.cost);
    SplitMovedFacts(c0, old(db.batches), b1, l, made.value, k, db.cost);
    MoveTakesLowest(c0, l, k, made.value);
    r := Ok(made.value);
  }

  /**
   * How the store may change while the too-large batches of group G are
   * worked on: totals stay right, no batch is deleted, rows change as
   * Confined allows, claims move only out of `from`, and no batch within
   * the maximum is pushed over it.
   */
  ghost predicate Grown(c0: seq<Claim>, b0: map<nat, Batch>, cs: seq<Claim>, bs: map<nat, Batch>,
                        G: set<nat>, from: set<nat>, maxSize: int, n0: nat)
  {
    && TotalsAgreeExcept(cs, bs, {})
    && b0.Keys <= bs.Keys
    && Confined(b0, bs, G, n0)
    && MovedOut(c0, cs, from)
    && StaysWithin(b0, bs, maxSize)
  }

  lemma KeptGrown(c0: seq<Claim>, b0: map<nat, Batch>, r: (seq<Claim>, map<nat, Batch>), from: set<nat>, G: set<nat>, maxSize: int, n0: nat)
    requires Kept(c0, b0, r, from, G, maxSize) && r.1.Keys == b0.Keys
    ensures Grown(c0, b0, r.0, r.1, G, from, maxSize, n0)
  {
  }

  /** Claims that changed batch in a move went to its target. */
  lemma MovedIntoTarget(cs: seq<Claim>, sel: seq<nat>, dst: nat)
    ensures MovedInto(cs, Reassigned(cs, sel, dst), {dst})
  {
  }

  /**
   * Moving claims of l into a batch created under a fresh id n keeps
   * Grown: the new row is unprocessed and due the day after its batch
   * date, every other row but l's is untouched.
   */
  lemma GrownExtend(c0: seq<Claim>, b0: map<nat, Batch>, c1: seq<Claim>, b1: map<nat, Batch>, cs: seq<Claim>, bs: map<nat, Batch>,
                    G: set<nat>, maxSize: int, n0: nat, l: nat, n: nat, row: Batch)
    requires Grown(c0, b0, c1, b1, G, {l}, maxSize, n0) && l in G && l in b1
    requires n !in b1 && n0 <= n && forall b | b in b0 :: b < n0
    requires !row.processed && row.processingDate == row.batchDate + 1
    requires TotalsAgreeExcept(cs, bs, {}) && MovedOut(c1, cs, {l})
    requires bs.Keys == b1.Keys + {n} && SameRow(row, bs[n]) && bs[l].totalClaims <= b1[l].totalClaims
    requires forall b | b in b1 :: SameRow(b1[b], bs[b]) && (b != l ==> bs[b] == b1[b])
    ensures Grown(c0, b0, cs, bs, G, {l}, maxSize, n0)
  {
    MovedOutTrans(c0, c1, cs, {l});
    forall b | b in bs && b in b0 ensures SameRow(b0[b], bs[b]) {
      assert SameRow(b0[b], b1[b]) && SameRow(b1[b], bs[b]);
    }
  }

  /** l is more than SPLIT_TOLERANCE claims over the maximum: rebalanceLargeBatches works on it. */
  predicate Over(bs: map<nat, Batch>, l: nat, maxSize: int)
  {
    l in bs && bs[l].totalClaims > maxSize + SPLIT_TOLERANCE
  }

  /**
   * What rebalanceLargeBatches leaves after too-large batch l with
   * receivers cands, against the state before it: l holds the maximum (or
   * nothing, for a negative maximum); the excess went to the receivers in
   * order, each one changed only when every earlier one is full, and what
   * they could not take (only when all are full) went to one new batch
   * under id n0, the only batch created; claims moved only out of l and
   * only into those batches; nothing else changed but totals.
   */
  ghost predicate LargeDone(c0: seq<Claim>, b0: map<nat, Batch>, cs: seq<Claim>, bs: map<nat, Batch>, l: nat,
                            cands: seq<nat>, maxSize: int, n0: nat, split: Option<nat>, moved: int)
  {
    && l in b0 && l in bs
    && var excess := b0[l].totalClaims - maxSize;
    && Grown(c0, b0, cs, bs, {l} + Elems(cands), {l}, maxSize, n0)
    && bs[l].totalClaims == Max(maxSize, 0)
    && 0 <= moved <= excess
    && (split.None? <==> moved == excess)
    && (forall a | 0 <= a < |cands| :: cands[a] in b0 && cands[a] in bs)
    && (moved < excess ==> forall a | 0 <= a < |cands| :: bs[cands[a]].totalClaims == maxSize)
    && (forall a, b | 0 <= a < b < |cands| && bs[cands[b]] != b0[cands[b]] :: bs[cands[a]].totalClaims == maxSize)
    && (split.None? ==> bs.Keys == b0.Keys && MovedInto(c0, cs, Elems(cands)))
    && (split.Some? ==>
          && split.value == n0 && bs.Keys == b0.Keys + {n0}
          && bs[n0].totalClaims == b0[l].totalClaims - Max(maxSize, 0) - moved
          && MovedInto(c0, cs, Elems(cands) + {n0}))
    && LowestLeft(c0, cs, l)
  }

  /** No receiver: nothing spread. */
  lemma SpreadNone(c0: seq<Claim>, b0: map<nat, Batch>, l: nat, excess: int, maxSize: int)
    requires TotalsAgreeExcept(c0, b0, {}) && l in b0 && 0 <= excess
    ensures SpreadDone(c0, b0, (c0, b0, 0), l, [], excess, maxSize)
  {
    SpreadStart(c0, b0, l, [], excess, maxSize);
    SpreadFinish(c0, b0, c0, b0, l, [], 0, 0, excess, maxSize);
  }

  /** The receivers took the whole excess: no new batch. */
  lemma LargeNoSplit(c0: seq<Claim>, b0: map<nat, Batch>, cs: seq<Claim>, bs: map<nat, Batch>, l: nat,
                     cands: seq<nat>, maxSize: int, n0: nat, moved: int)
    requires l in b0 && SpreadDone(c0, b0, (cs, bs, moved), l, cands, b0[l].totalClaims - maxSize, maxSize)
    requires moved >= b0[l].totalClaims - maxSize
    ensures LargeDone(c0, b0, cs, bs, l, cands, maxSize, n0, None, moved)
  {
    assert TotalsAgree(cs, bs, l);
    KeptGrown(c0, b0, (cs, bs), {l}, {l} + Elems(cands), maxSize, n0);
  }

  /** What the receivers could not take went to a new batch n0. */
  lemma LargeSplit(c0: seq<Claim>, b0: map<nat, Batch>, c1: seq<Claim>, b1: map<nat, Batch>, cs: seq<Claim>, bs: map<nat, Batch>,
                   l: nat, cands: seq<nat>, maxSize: int, n0: nat, moved: int, row: Batch)
    requires l in b0 && SpreadDone(c0, b0, (c1, b1, moved), l, cands, b0[l].totalClaims - maxSize, maxSize)
    requires moved < b0[l].totalClaims - maxSize && (cands != [] ==> 0 < maxSize)
    requires forall b | b in b0 :: b < n0
    requires !row.processed && row.processingDate == row.batchDate + 1
    requires TotalsAgreeExcept(cs, bs, {}) && SplitMoved(c1, b1, cs, bs, l, n0) && SameRow(row, bs[n0])
    requires LowestLeft(c1, cs, l)
    requires var k := b0[l].totalClaims - maxSize - moved;
      && bs[l].totalClaims == b1[l].totalClaims - Min(k, b1[l].totalClaims)
      && bs[n0].totalClaims == Min(k, b1[l].totalClaims)
    ensures LargeDone(c0, b0, cs, bs, l, cands, maxSize, n0, Some(n0), moved)
  {
    var G := {l} + Elems(cands);
    assert TotalsAgree(c1, b1, l);
    KeptGrown(c0, b0, (c1, b1), {l}, G, maxSize, n0);
    GrownExtend(c0, b0, c1, b1, cs, bs, G, maxSize, n0, l, n0, row);
    MovedIntoTrans(c0, c1, cs, Elems(cands), {n0});
    LowestTrans(c0, c1, cs, l);
  }

  /** The receivers loop, or nothing when there is no receiver. */
  method SpreadPhase(db: Database, l: nat, cands: seq<nat>, excess: int, maxSize: int) returns (moved: int)
    requires db.Valid() && l in db.batches && l !in cands
    requires forall a, b | 0 <= a < b < |cands| :: cands[a] != cands[b]
    requires forall a | 0 <= a < |cands| ::
      && Receiver(db.batches, l, cands[a], maxSize)
      && db.batches[cands[a]].insurer == db.batches[l].insurer
    requires 0 <= excess && (cands != [] ==> excess <= db.batches[l].totalClaims)
    modifies db`claims, db`batches
    ensures db.Valid()
    ensures SpreadDone(old(db.claims), old(db.batches), (db.claims, db.batches, moved), l, cands, excess, maxSize)
  {
    if cands == [] {
      SpreadNone(db.claims, db.batches, l, excess, maxSize);
      moved := 0;
    } else {
      moved := SpreadExcess(db, l, cands, excess, maxSize);
    }
  }

  /** SplitRow depends only on what rebalancing keeps of each row. */
  lemma SplitRowSame(b0: map<nat, Batch>, b1: map<nat, Batch>, l: nat, name: string)
    requires l in b0 && b0.Keys == b1.Keys && forall b | b in b0 :: SameRow(b0[b], b1[b])
    ensures SplitRow(b0, l, name) == SplitRow(b1, l, name)
  {
    var p, d := b0[l].provider, b0[l].batchDate;
    assert Assignment.SameProviderDate(b0, p, d) == Assignment.SameProviderDate(b1, p, d) by {
      forall b ensures b in Assignment.SameProviderDate(b0, p, d) <==> b in Assignment.SameProviderDate(b1, p, d) {
        if b in b0 {
          assert SameRow(b0[b], b1[b]);
        }
      }
    }
  }

  /**
   * After the receivers loop placed less than the excess: the rest goes to
   * a new batch.
   */
  method SplitRest(db: Database, ghost c0: seq<Claim>, ghost b0: map<nat, Batch>, l: nat, cands: seq<nat>,
                   excess: int, moved: int, maxSize: int) returns (r: Result<Option<nat>>)
    requires db.Valid() && l in b0 && excess == b0[l].totalClaims - maxSize && moved < excess
    requires SpreadDone(c0, b0, (db.claims, db.batches, moved), l, cands, excess, maxSize)
    requires (cands != [] ==> 0 < maxSize) && forall b | b in b0 :: b < db.nextBatchId
    modifies db`claims, db`batches, db`nextBatchId
    ensures db.Valid() && old(db.nextBatchId) <= db.nextBatchId
    ensures r.Ok? ==> LargeDone(c0, b0, db.claims, db.batches, l, cands, maxSize, old(db.nextBatchId), r.value, moved)
    ensures r.Ok? ==>
      && r.value.Some? && b0[l].provider in db.providerNames
      && SameRow(SplitRow(b0, l, db.providerNames[b0[l].provider]), db.batches[r.value.value])
    ensures r.Err? ==> r.error in {UnknownProvider, DuplicateIdentifier}
  {
    ghost var c1, b1, n0 := db.claims, db.batches, db.nextBatchId;
    FreshRowAgrees(c1, b1, n0, SplitRow(b1, l, ""));
    var made := SplitOff(db, l, excess - moved);
    if made.Err? {
      return Err(made.error);
    }
    ghost var row := SplitRow(b1, l, db.providerNames[b1[l].provider]);
    SplitRowSame(b0, b1, l, db.providerNames[b1[l].provider]);
    LargeSplit(c0, b0, c1, b1, db.claims, db.batches, l, cands, maxSize, n0, moved, row);
    r := Ok(Some(made.value));
  }

  /** After the receivers loop: when it placed less than the excess, the rest goes to a new batch. */
  method SplitPhase(db: Database, ghost c0: seq<Claim>, ghost b0: map<nat, Batch>, l: nat, cands: seq<nat>,
                    excess: int, moved: int, maxSize: int) returns (r: Result<Option<nat>>)
    requires db.Valid() && l in b0 && excess == b0[l].totalClaims - maxSize
    requires SpreadDone(c0, b0, (db.claims, db.batches, moved), l, cands, excess, maxSize)
    requires (cands != [] ==> 0 < maxSize) && forall b | b in b0 :: b < db.nextBatchId
    modifies db`claims, db`batches, db`nextBatchId
    ensures db.Valid() && old(db.nextBatchId) <= db.nextBatchId
    ensures r.Ok? ==> LargeDone(c0, b0, db.claims, db.batches, l, cands, maxSize, old(db.nextBatchId), r.value, moved)
    ensures r.Ok? && r.value.Some? ==>
      && b0[l].provider in db.providerNames
      && SameRow(SplitRow(b0, l, db.providerNames[b0[l].provider]), db.batches[r.value.value])
    ensures r.Err? ==> r.error in {UnknownProvider, DuplicateIdentifier}
  {
    if moved < excess {
      r := SplitRest(db, c0, b0, l, cands, excess, moved, maxSize);
    } else {
      LargeNoSplit(c0, b0, db.claims, db.batches, l, cands, maxSize, db.nextBatchId, moved);
      r := Ok(None);
    }
  }

  /** A provider's over-full batch 0 and its empty overflow batch 1, as loaded. */
  function OverflowPair(m: nat, provider: nat): map<nat, Batch>
  {
    map[0 := Batch(provider, 0, 0, Identifier("", 0, None), m, 0, 0.0, false, 0),
        1 := Batch(provider, 0, 0, Identifier("", 0, Some(2)), 0, 0, 0.0, false, 0)]
  }

  /**
   * The receivers of the too-large pass are drawn from the group as loaded,
   * where a batch the too-small pass deleted is still present with the
   * totals it had.  Batch 0 is over the tolerance and its overflow batch 1
   * is empty: the too-small pass drops batch 1, and the loaded group then
   * offers batch 1 as the first receiver of batch 0's excess although the
   * table no longer has it: saving a claim into it is refused by the
   * foreign key on claims.batch_id and the whole run rolls back.  Over the
   * live table there is no receiver, and a new batch takes the excess.
   */
  lemma StaleSnapshotSplitsIntoDeletedBatch(m: nat, provider: nat, ins: Insurer)
    requires 0 < ins.minBatchSize <= ins.maxBatchSize && ins.maxBatchSize + SPLIT_TOLERANCE < m
    ensures var loaded := OverflowPair(m, provider);
      && TooSmall(loaded, [0, 1], ins) == [1]
      && SmallDecision(loaded, [0, 1], 1, ins) == Drop
      && TooLarge(loaded, [0, 1], ins) == [0]
      && SplitOrder(loaded, [0, 1], 0, ins.maxBatchSize) == [1]
      && SplitOrder(loaded - {1}, [0, 1], 0, ins.maxBatchSize) == []
  {
    var loaded := OverflowPair(m, provider);
    var live := loaded - {1};
    assert [0, 1][..1] == [0];
    assert [0, 1][1..] == [1];
    assert [1][1..] == [];
    assert !Receiver(loaded, 0, 0, ins.maxBatchSize) && Receiver(loaded, 0, 1, ins.maxBatchSize);
    assert SplitReceivers(loaded, [0, 1], 0, ins.maxBatchSize) == {1};
    assert !Receiver(live, 0, 0, ins.maxBatchSize) && !Receiver(live, 0, 1, ins.maxBatchSize);
    assert SplitReceivers(live, [0, 1], 0, ins.maxBatchSize) == {};
  }

  /**
   * The receivers of too-large batch l among the group ids, sorted by
   * total_claims (sortBy is stable: ties stay in id order); all distinct,
   * and none has reached the maximum, so the maximum is positive when
   * there is one.
   */
  method SplitCandidates(db: Database, ids: seq<nat>, l: nat, maxSize: int) returns (cands: seq<nat>)
    requires db.Valid() && l in db.batches
    ensures cands == SplitOrder(db.batches, ids, l, maxSize)
    ensures l !in cands && forall a, b | 0 <= a < b < |cands| :: cands[a] != cands[b]
    ensures forall a | 0 <= a < |cands| :: cands[a] in ids && Receiver(db.batches, l, cands[a], maxSize)
    ensures cands != [] ==> 0 < maxSize
  {
    var receivers := SplitReceivers(db.batches, ids, l, maxSize);
    cands := SortByKey(receivers, SizeKey(db.batches, receivers));
    assert forall a | 0 <= a < |cands| :: cands[a] in cands;
    SortedDistinct(cands, SizeKey(db.batches, receivers));
    if cands != [] {
      assert Receiver(db.batches, l, cands[0], maxSize) && TotalsAgree(db.claims, db.batches, cands[0]);
    }
  }

  /**
   * rebalanceLargeBatches for one too-large batch l of group ids: a batch
   * at most SPLIT_TOLERANCE claims over the maximum is left alone;
   * otherwise its excess goes to the same provider's receivers in ascending
   * size and what they cannot take to a new batch, or all of it to a new
   * batch when there is no receiver.  Returns the new batch, if any, and
   * how many claims the receivers took.
   */
  method RebalanceOneLarge(db: Database, ids: seq<nat>, l: nat, ins: Insurer, ghost g: nat)
    returns (r: Result<Option<nat>>, moved: int)
    requires db.Valid() && l in ids && OneInsurer(db.batches, ids, g)
    modifies db`claims, db`batches, db`nextBatchId
    ensures db.Valid() && old(db.nextBatchId) <= db.nextBatchId
    ensures !old(Over(db.batches, l, ins.maxBatchSize)) ==>
      r == Ok(None) && db.claims == old(db.claims) && db.batches == old(db.batches)
    ensures r.Ok? && old(Over(db.batches, l, ins.maxBatchSize)) ==>
      LargeDone(old(db.claims), old(db.batches), db.claims, db.batches, l,
                SplitOrder(old(db.batches), ids, l, ins.maxBatchSize), ins.maxBatchSize, old(db.nextBatchId), r.value, moved)
    ensures r.Ok? && r.value.Some? ==>
      && old(db.batches[l].provider) in db.providerNames
      && SameRow(SplitRow(old(db.batches), l, db.providerNames[old(db.batches[l].provider)]), db.batches[r.value.value])
    ensures r.Err? ==> old(Over(db.batches, l, ins.maxBatchSize)) && r.error in {UnknownProvider, DuplicateIdentifier}
  {
    if l !in db.batches || db.batches[l].totalClaims <= ins.maxBatchSize + SPLIT_TOLERANCE {
      return Ok(None), 0;
    }
    ghost var c0, b0 := db.claims, db.batches;
    var excess := db.batches[l].totalClaims - ins.maxBatchSize;
    var cands := SplitCandidates(db, ids, l, ins.maxBatchSize);
    assert forall a | 0 <= a < |cands| :: db.batches[cands[a]].insurer == g == db.batches[l].insurer;
    assert forall b | b in b0 :: b < db.nextBatchId;
    moved := SpreadPhase(db, l, cands, excess, ins.maxBatchSize);
    r := SplitPhase(db, c0, b0, l, cands, excess, moved, ins.maxBatchSize);
  }

  /**
   * What the large pass keeps while it works through the too-large batches
   * `done` of group ids: Grown over the group with claims moving only out
   * of those batches; each of them still there is now at most
   * SPLIT_TOLERANCE over the maximum (over 0 for a negative maximum); every
   * batch created belongs to the group's insurer g.
   */
  ghost predicate LargeSoFar(c0: seq<Claim>, b0: map<nat, Batch>, cs: seq<Claim>, bs: map<nat, Batch>,
                             ids: seq<nat>, done: seq<nat>, maxSize: int, n0: nat, g: nat)
  {
    && Grown(c0, b0, cs, bs, Elems(ids), Elems(done), maxSize, n0)
    && (forall a | 0 <= a < |done| && done[a] in bs :: bs[done[a]].totalClaims <= Max(maxSize, 0) + SPLIT_TOLERANCE)
    && (forall b | b in bs && b !in b0 :: bs[b].insurer == g)
  }

  lemma LargeStart(c0: seq<Claim>, b0: map<nat, Batch>, ids: seq<nat>, maxSize: int, n0: nat, g: nat)
    requires TotalsAgreeExcept(c0, b0, {})
    ensures LargeSoFar(c0, b0, c0, b0, ids, [], maxSize, n0, g)
  {
    assert forall i | 0 <= i < |c0| :: c0[i] == c0[i].(batch := c0[i].batch);
  }

  /** The group keeps its insurer: existing rows keep theirs, new rows get g. */
  lemma LargeOneInsurer(c0: seq<Claim>, b0: map<nat, Batch>, cs: seq<Claim>, bs: map<nat, Batch>,
                        ids: seq<nat>, done: seq<nat>, maxSize: int, n0: nat, g: nat)
    requires LargeSoFar(c0, b0, cs, bs, ids, done, maxSize, n0, g) && OneInsurer(b0, ids, g)
    ensures OneInsurer(bs, ids, g)
  {
    forall b | b in ids && b in bs ensures bs[b].insurer == g {
      if b in b0 {
        assert SameRow(b0[b], bs[b]);
      }
    }
  }

  lemma MovedOutWiden(c0: seq<Claim>, cs: seq<Claim>, from: set<nat>, wider: set<nat>)
    requires MovedOut(c0, cs, from) && from <= wider
    ensures MovedOut(c0, cs, wider)
  {
  }

  /** Grown composes, the later step confined to part of the group and starting from a later next id. */
  lemma GrownTrans(c0: seq<Claim>, b0: map<nat, Batch>, c1: seq<Claim>, b1: map<nat, Batch>, cs: seq<Claim>, bs: map<nat, Batch>,
                   G: set<nat>, G2: set<nat>, F1: set<nat>, F2: set<nat>, maxSize: int, n0: nat, n1: nat)
    requires Grown(c0, b0, c1, b1, G, F1, maxSize, n0) && Grown(c1, b1, cs, bs, G2, F2, maxSize, n1)
    requires G2 <= G && n0 <= n1 && forall b | b in b0 :: b < n0
    ensures Grown(c0, b0, cs, bs, G, F1 + F2, maxSize, n0)
  {
    assert Confined(b1, bs, G, n1);
    ConfinedTrans(b0, b1, bs, G, n0, n1);
    MovedOutWiden(c0, c1, F1, F1 + F2);
    MovedOutWiden(c1, cs, F2, F1 + F2);
    MovedOutTrans(c0, c1, cs, F1 + F2);
    StaysWithinTrans(b0, b1, bs, maxSize);
  }

  /** A batch within the tolerance is left alone. */
  lemma LargeSkipKeeps(c0: seq<Claim>, b0: map<nat, Batch>, cs: seq<Claim>, bs: map<nat, Batch>,
                       ids: seq<nat>, done: seq<nat>, l: nat, maxSize: int, n0: nat, g: nat)
    requires LargeSoFar(c0, b0, cs, bs, ids, done, maxSize, n0, g) && !Over(bs, l, maxSize)
    ensures LargeSoFar(c0, b0, cs, bs, ids, done + [l], maxSize, n0, g)
  {
    MovedOutWiden(c0, cs, Elems(done), Elems(done + [l]));
  }

  /** The large pass's state is kept by the work on one more too-large batch. */
  lemma LargeDoneKeeps(c0: seq<Claim>, b0: map<nat, Batch>, c1: seq<Claim>, b1: map<nat, Batch>, cs: seq<Claim>, bs: map<nat, Batch>,
                       ids: seq<nat>, done: seq<nat>, l: nat, maxSize: int, n0: nat, n1: nat, g: nat,
                       split: Option<nat>, moved: int)
    requires LargeSoFar(c0, b0, c1, b1, ids, done, maxSize, n0, g) && OneInsurer(b1, ids, g)
    requires n0 <= n1 && (forall b | b in b0 :: b < n0) && (forall a | 0 <= a < |ids| :: ids[a] < n0) && l in ids
    requires forall a | 0 <= a < |done| :: done[a] in ids
    requires Over(b1, l, maxSize)
    requires LargeDone(c1, b1, cs, bs, l, SplitOrder(b1, ids, l, maxSize), maxSize, n1, split, moved)
    requires split.Some? ==> bs[split.value].insurer == b1[l].insurer
    ensures LargeSoFar(c0, b0, cs, bs, ids, done + [l], maxSize, n0, g)
  {
    var cands := SplitOrder(b1, ids, l, maxSize);
    var G := Elems(ids);
    CandsInGroup(b1, ids, l, maxSize);
    GrownTrans(c0, b0, c1, b1, cs, bs, G, {l} + Elems(cands), Elems(done), {l}, maxSize, n0, n1);
    ElemsSnoc(done, l);
    LargeBound(b1, bs, ids, done, l, cands, maxSize, n1);
    LargeNewRows(b0, b1, bs, ids, l, maxSize, n1, g, split);
  }

  lemma CandsInGroup(bs: map<nat, Batch>, ids: seq<nat>, l: nat, maxSize: int)
    requires l in bs && l in ids
    ensures {l} + Elems(SplitOrder(bs, ids, l, maxSize)) <= Elems(ids)
    ensures forall x | x in SplitOrder(bs, ids, l, maxSize) :: x in bs && bs[x].totalClaims < maxSize
  {
  }

  lemma ElemsSnoc(q: seq<nat>, x: nat)
    ensures Elems(q) + {x} == Elems(q + [x])
  {
  }

  /** The size bound of LargeSoFar, over the rows alone. */
  lemma LargeBound(b1: map<nat, Batch>, bs: map<nat, Batch>, ids: seq<nat>, done: seq<nat>, l: nat, cands: seq<nat>, maxSize: int, n1: nat)
    requires forall a | 0 <= a < |done| && done[a] in b1 :: b1[done[a]].totalClaims <= Max(maxSize, 0) + SPLIT_TOLERANCE
    requires forall a | 0 <= a < |done| :: done[a] in ids
    requires forall a | 0 <= a < |ids| :: ids[a] < n1
    requires Confined(b1, bs, {l} + Elems(cands), n1) && StaysWithin(b1, bs, maxSize)
    requires forall x | x in cands :: x in b1 && b1[x].totalClaims < maxSize
    requires l in bs && bs[l].totalClaims == Max(maxSize, 0)
    ensures forall a | 0 <= a < |done + [l]| && (done + [l])[a] in bs ::
      bs[(done + [l])[a]].totalClaims <= Max(maxSize, 0) + SPLIT_TOLERANCE
  {
    var d := done + [l];
    forall a | 0 <= a < |d| && d[a] in bs ensures bs[d[a]].totalClaims <= Max(maxSize, 0) + SPLIT_TOLERANCE {
      if d[a] != l {
        var x := d[a];
        assert done[a] == x && x in ids;
        assert x in b1;
      }
    }
  }

  /** A batch the large pass creates belongs to the group's insurer. */
  lemma LargeNewRows(b0: map<nat, Batch>, b1: map<nat, Batch>, bs: map<nat, Batch>, ids: seq<nat>, l: nat, maxSize: int, n1: nat, g: nat,
                     split: Option<nat>)
    requires forall b | b in b1 && b !in b0 :: b1[b].insurer == g
    requires l in ids && l in b1 && OneInsurer(b1, ids, g)
    requires forall b | b in bs && b in b1 :: SameRow(b1[b], bs[b])
    requires split.None? ==> bs.Keys == b1.Keys
    requires split.Some? ==> bs.Keys == b1.Keys + {split.value} && bs[split.value].insurer == b1[l].insurer
    ensures forall b | b in bs && b !in b0 :: bs[b].insurer == g
  {
    forall b | b in bs && b !in b0 ensures bs[b].insurer == g {
      if b in b1 {
        assert SameRow(b1[b], bs[b]);
      }
    }
  }

  /**
   * One turn of rebalanceLargeBatches's loop: batch l of the too-large list
   * (RebalanceOneLarge), with the pass's state carried over.
   */
  method LargeRound(db: Database, ids: seq<nat>, done: seq<nat>, l: nat, ins: Insurer,
                    ghost c0: seq<Claim>, ghost b0: map<nat, Batch>, ghost n0: nat, ghost g: nat)
    returns (err: Option<Failure>)
    requires db.Valid() && LargeSoFar(c0, b0, db.claims, db.batches, ids, done, ins.maxBatchSize, n0, g)
    requires OneInsurer(db.batches, ids, g) && n0 <= db.nextBatchId && (forall b | b in b0 :: b < n0)
    requires (forall a | 0 <= a < |ids| :: ids[a] < n0) && l in ids
    requires forall a | 0 <= a < |done| :: done[a] in ids
    modifies db`claims, db`batches, db`nextBatchId
    ensures db.Valid() && old(db.nextBatchId) <= db.nextBatchId
    ensures err.None? ==> LargeSoFar(c0, b0, db.claims, db.batches, ids, done + [l], ins.maxBatchSize, n0, g)
    ensures err.Some? ==> err.value in {UnknownProvider, DuplicateIdentifier}
  {
    ghost var c1, b1, n1 := db.claims, db.batches, db.nextBatchId;
    var r, moved := RebalanceOneLarge(db, ids, l, ins, g);
    if r.Err? {
      return Some(r.error);
    }
    if Over(b1, l, ins.maxBatchSize) {
      LargeDoneKeeps(c0, b0, c1, b1, db.claims, db.batches, ids, done, l, ins.maxBatchSize, n0, n1, g, r.value, moved);
    } else {
      LargeSkipKeeps(c0, b0, c1, b1, ids, done, l, ins.maxBatchSize, n0, g);
    }
    err := None;
  }

  /**
   * rebalanceLargeBatches: each too-large batch of the group, in order,
   * handed to RebalanceOneLarge; the first refusal ends the pass (and the
   * whole re-optimisation).
   */
  method RebalanceLarge(db: Database, ids: seq<nat>, large: seq<nat>, ins: Insurer, ghost g: nat)
    returns (err: Option<Failure>)
    requires db.Valid() && OneInsurer(db.batches, ids, g)
    requires forall a | 0 <= a < |ids| :: ids[a] < db.nextBatchId
    requires forall a | 0 <= a < |large| :: large[a] in ids
    modifies db`claims, db`batches, db`nextBatchId
    ensures db.Valid() && old(db.nextBatchId) <= db.nextBatchId
    ensures err.None? ==>
      LargeSoFar(old(db.claims), old(db.batches), db.claims, db.batches, ids, large, ins.maxBatchSize, old(db.nextBatchId), g)
    ensures err.Some? ==> err.value in {UnknownProvider, DuplicateIdentifier}
  {
    ghost var c0, b0, n0 := db.claims, db.batches, db.nextBatchId;
    LargeStart(c0, b0, ids, ins.maxBatchSize, n0, g);
    for i := 0 to |large|
      invariant db.Valid() && n0 <= db.nextBatchId
      invariant LargeSoFar(c0, b0, db.claims, db.batches, ids, large[..i], ins.maxBatchSize, n0, g)
    {
      LargeOneInsurer(c0, b0, db.claims, db.batches, ids, large[..i], ins.maxBatchSize, n0, g);
      assert forall a | 0 <= a < i :: large[..i][a] == large[a];
      err := LargeRound(db, ids, large[..i], large[i], ins, c0, b0, n0, g);
      if err.Some? {
        return;
      }
      assert large[..i + 1] == large[..i] + [large[i]];
    }
    assert large[..|large|] == large;
    err := None;
  }
}
