/**
 * The loop state of the receivers loop of rebalanceLargeBatches and how one
 * round keeps it.
 */
module Spreading {
  import opened Domain
  import opened Ledger
  import opened Ordering
  import opened Store
  import opened ClaimMoves
  import opened Rebalance
  import opened Rebalancer

  /** Claims that changed batch went into one of the batches `to`. */
  ghost predicate MovedInto(c0: seq<Claim>, cs: seq<Claim>, to: set<nat>)
  {
    |cs| == |c0| && forall i | 0 <= i < |c0| && cs[i].batch != c0[i].batch :: cs[i].batch.Some? && cs[i].batch.value in to
  }

  lemma MovedIntoTrans(c0: seq<Claim>, c1: seq<Claim>, c2: seq<Claim>, a: set<nat>, b: set<nat>)
    requires MovedInto(c0, c1, a) && MovedInto(c1, c2, b)
    ensures MovedInto(c0, c2, a + b)
  {
  }

  /** If claim i has left l and claim j is still there, i's priority level is no higher than j's. */
  ghost predicate LeftLower(c0: seq<Claim>, cs: seq<Claim>, l: nat, i: nat, j: nat)
    requires i < |c0| && j < |c0| && |cs| == |c0|
  {
    c0[i].batch == Some(l) && cs[i].batch != Some(l) && cs[j].batch == Some(l) ==> c0[i].priority <= c0[j].priority
  }

  /** The claims that left l are its lowest-priority ones: none has a higher level than a claim still in l. */
  ghost predicate LowestLeft(c0: seq<Claim>, cs: seq<Claim>, l: nat)
  {
    |cs| == |c0| && forall i: nat, j: nat {:trigger LeftLower(c0, cs, l, i, j)} | i < |c0| && j < |c0| :: LeftLower(c0, cs, l, i, j)
  }

  /** One query "WHERE batch_id = l ORDER BY priority_level LIMIT k" moved elsewhere takes l's lowest claims. */
  lemma MoveTakesLowest(cs: seq<Claim>, l: nat, k: nat, t: nat)
    requires t != l
    ensures LowestLeft(cs, Reassigned(cs, Selection(cs, l, k, true), t), l)
  {
    var sel := Selection(cs, l, k, true);
    var after := Reassigned(cs, sel, t);
    forall i: nat, j: nat | i < |cs| && j < |cs| ensures LeftLower(cs, after, l, i, j) {
      if cs[i].batch == Some(l) && after[i].batch != Some(l) && after[j].batch == Some(l) {
        SelectionTakesLowest(cs, l, k, true, i, j);
      }
    }
  }

  /** Two rounds that each take l's lowest claims together take l's lowest claims. */
  lemma LowestTrans(c0: seq<Claim>, c1: seq<Claim>, c2: seq<Claim>, l: nat)
    requires LowestLeft(c0, c1, l) && LowestLeft(c1, c2, l)
    requires MovedOut(c0, c1, {l}) && MovedOut(c1, c2, {l})
    ensures LowestLeft(c0, c2, l)
  {
    forall i: nat, j: nat | i < |c0| && j < |c0| ensures LeftLower(c0, c2, l, i, j) {
      if c0[i].batch == Some(l) && c2[i].batch != Some(l) && c2[j].batch == Some(l) {
        assert c1[i] == c0[i].(batch := c1[i].batch) && c2[j] == c1[j].(batch := c2[j].batch);
        assert c1[j] == c0[j].(batch := c1[j].batch);
        if c1[i].batch == Some(l) {
          assert LeftLower(c1, c2, l, i, j);
        } else {
          assert LeftLower(c0, c1, l, i, j);
        }
      }
    }
  }

  lemma LowestRefl(cs: seq<Claim>, l: nat)
    ensures LowestLeft(cs, cs, l)
  {
    forall i: nat, j: nat | i < |cs| && j < |cs| ensures LeftLower(cs, cs, l, i, j) {
    }
  }

  /**
   * The counts of the spreading loop after the first j receivers: moved
   * claims have left l, every receiver visited is full unless the excess ran
   * out at the last one, and the rest are untouched.
   */
  ghost predicate SpreadCounts(b0: map<nat, Batch>, bs: map<nat, Batch>, l: nat, cands: seq<nat>, j: nat, moved: int, excess: int, maxSize: int)
  {
    && j <= |cands| && 0 <= moved <= excess && bs.Keys == b0.Keys
    && l in b0 && l in bs && bs[l].totalClaims == b0[l].totalClaims - moved
    && (forall a | j <= a < |cands| :: cands[a] in bs && cands[a] in b0 && bs[cands[a]] == b0[cands[a]])
    && (forall a | 0 <= a < j && (a < j - 1 || moved < excess) :: cands[a] in bs && bs[cands[a]].totalClaims == maxSize)
  }

  /** The whole loop state: the counts, Kept, where the moved claims went, and that they were l's lowest. */
  ghost predicate Spread(c0: seq<Claim>, b0: map<nat, Batch>, cs: seq<Claim>, bs: map<nat, Batch>,
                         l: nat, cands: seq<nat>, j: nat, moved: int, excess: int, maxSize: int)
  {
    SpreadCore(c0, b0, cs, bs, l, cands, j, moved, excess, maxSize) && LowestLeft(c0, cs, l)
  }

  ghost predicate SpreadCore(c0: seq<Claim>, b0: map<nat, Batch>, cs: seq<Claim>, bs: map<nat, Batch>,
                         l: nat, cands: seq<nat>, j: nat, moved: int, excess: int, maxSize: int)
  {
    && SpreadCounts(b0, bs, l, cands, j, moved, excess, maxSize)
    && Kept(c0, b0, (cs, bs), {l}, {l} + Elems(cands), maxSize)
    && MovedInto(c0, cs, Elems(cands[..j]))
  }

  lemma SpreadCountsStep(b0: map<nat, Batch>, b1: map<nat, Batch>, bs: map<nat, Batch>,
                         l: nat, cands: seq<nat>, j: nat, moved: int, excess: int, maxSize: int, toMove: nat)
    requires SpreadCounts(b0, b1, l, cands, j, moved, excess, maxSize) && j < |cands| && moved < excess
    requires forall a, b | 0 <= a < b < |cands| :: cands[a] != cands[b]
    requires l !in cands
    requires toMove == Min(excess - moved, maxSize - b1[cands[j]].totalClaims) && toMove > 0
    requires bs.Keys == b1.Keys
    requires bs[l].totalClaims == b1[l].totalClaims - toMove
    requires bs[cands[j]].totalClaims == b1[cands[j]].totalClaims + toMove
    requires forall b | b in b1 && b != l && b != cands[j] :: bs[b] == b1[b]
    ensures SpreadCounts(b0, bs, l, cands, j + 1, moved + toMove, excess, maxSize)
  {
  }

  lemma SpreadKeptStep(c0: seq<Claim>, b0: map<nat, Batch>, c1: seq<Claim>, b1: map<nat, Batch>, l: nat, t: nat,
                       G: set<nat>, maxSize: int, toMove: nat, cost: CostFn)
    requires Kept(c0, b0, (c1, b1), {l}, G, maxSize) && l in b1 && t in b1 && l != t && l in G && t in G
    requires b1[t].totalClaims + toMove <= maxSize && toMove <= b1[l].totalClaims
    ensures var r := Moved(c1, b1, Selection(c1, l, toMove, true), l, t, cost);
      && Kept(c0, b0, r, {l}, G, maxSize)
      && r.1.Keys == b1.Keys
      && r.1[l].totalClaims == b1[l].totalClaims - toMove
      && r.1[t].totalClaims == b1[t].totalClaims + toMove
      && (forall b | b in b1 && b != l && b != t :: r.1[b] == b1[b])
      && MovedInto(c1, r.0, {t})
  {
    var sel := Selection(c1, l, toMove, true);
    assert TotalsAgree(c1, b1, l);
    SelectionMembers(c1, l, toMove, true);
    MovedKept(c1, b1, sel, l, t, G, maxSize, cost);
    MovedTotals(c1, b1, sel, l, t, cost);
    MovedRows(c1, b1, sel, l, t, cost);
    KeptTrans(c0, b0, (c1, b1), Moved(c1, b1, sel, l, t, cost), {l}, G, maxSize);
  }

  lemma IntoStep(c0: seq<Claim>, c1: seq<Claim>, cs: seq<Claim>, cands: seq<nat>, j: nat)
    requires j < |cands| && MovedInto(c0, c1, Elems(cands[..j])) && MovedInto(c1, cs, {cands[j]})
    ensures MovedInto(c0, cs, Elems(cands[..j + 1]))
  {
    MovedIntoTrans(c0, c1, cs, Elems(cands[..j]), {cands[j]});
    assert cands[..j + 1] == cands[..j] + [cands[j]];
  }

  /** One round of the receivers loop, as Transfer leaves it, keeps Spread. */
  lemma SpreadStep(c0: seq<Claim>, b0: map<nat, Batch>, c1: seq<Claim>, b1: map<nat, Batch>, cs: seq<Claim>, bs: map<nat, Batch>,
                   l: nat, cands: seq<nat>, j: nat, moved: int, excess: int, maxSize: int, toMove: nat, cost: CostFn)
    requires Spread(c0, b0, c1, b1, l, cands, j, moved, excess, maxSize) && j < |cands| && moved < excess
    requires forall a, b | 0 <= a < b < |cands| :: cands[a] != cands[b]
    requires l !in cands && excess <= b0[l].totalClaims
    requires toMove == Min(excess - moved, maxSize - b1[cands[j]].totalClaims) && toMove > 0
    requires cs == Reassigned(c1, Selection(c1, l, toMove, true), cands[j])
    requires bs == b1[l := Retotalled(b1[l], cs, l, cost)][cands[j] := Retotalled(b1[cands[j]], cs, cands[j], cost)]
    ensures Spread(c0, b0, cs, bs, l, cands, j + 1, moved + toMove, excess, maxSize)
  {
    SpreadCoreStep(c0, b0, c1, b1, cs, bs, l, cands, j, moved, excess, maxSize, toMove, cost);
    LowestStep(c0, c1, l, toMove, cands[j]);
  }

  lemma SpreadCoreStep(c0: seq<Claim>, b0: map<nat, Batch>, c1: seq<Claim>, b1: map<nat, Batch>, cs: seq<Claim>, bs: map<nat, Batch>,
                   l: nat, cands: seq<nat>, j: nat, moved: int, excess: int, maxSize: int, toMove: nat, cost: CostFn)
    requires SpreadCore(c0, b0, c1, b1, l, cands, j, moved, excess, maxSize) && j < |cands| && moved < excess
    requires forall a, b | 0 <= a < b < |cands| :: cands[a] != cands[b]
    requires l !in cands && excess <= b0[l].totalClaims
    requires toMove == Min(excess - moved, maxSize - b1[cands[j]].totalClaims) && toMove > 0
    requires cs == Reassigned(c1, Selection(c1, l, toMove, true), cands[j])
    requires bs == b1[l := Retotalled(b1[l], cs, l, cost)][cands[j] := Retotalled(b1[cands[j]], cs, cands[j], cost)]
    ensures SpreadCore(c0, b0, cs, bs, l, cands, j + 1, moved + toMove, excess, maxSize)
  {
    var t := cands[j];
    SpreadKeptStep(c0, b0, c1, b1, l, t, {l} + Elems(cands), maxSize, toMove, cost);
    SpreadCountsStep(b0, b1, bs, l, cands, j, moved, excess, maxSize, toMove);
    IntoStep(c0, c1, cs, cands, j);
  }

  /** A round takes l's lowest claims among those still there. */
  lemma LowestStep(c0: seq<Claim>, c1: seq<Claim>, l: nat, k: nat, t: nat)
    requires LowestLeft(c0, c1, l) && MovedOut(c0, c1, {l}) && t != l
    ensures LowestLeft(c0, Reassigned(c1, Selection(c1, l, k, true), t), l)
  {
    SelectionMembers(c1, l, k, true);
    MovedClaims(c1, Selection(c1, l, k, true), l, t);
    MoveTakesLowest(c1, l, k, t);
    LowestTrans(c0, c1, Reassigned(c1, Selection(c1, l, k, true), t), l);
  }

  /**
   * What the receivers loop leaves, against the state it started from: at
   * most the excess placed and taken from l; short of the excess only when
   * every receiver is full; a receiver changed only when every earlier one
   * is full; claims moved only out of l and only into the receivers; sizes
   * at or below the maximum stay so; everything else unchanged.
   */
  ghost predicate SpreadDone(c0: seq<Claim>, b0: map<nat, Batch>, r: (seq<Claim>, map<nat, Batch>, int),
                             l: nat, cands: seq<nat>, excess: int, maxSize: int)
  {
    && l in b0 && r.1.Keys == b0.Keys
    && 0 <= r.2 <= excess
    && r.1[l].totalClaims == b0[l].totalClaims - r.2
    && (forall a | 0 <= a < |cands| :: cands[a] in b0)
    && (r.2 < excess ==> forall a | 0 <= a < |cands| :: r.1[cands[a]].totalClaims == maxSize)
    && (forall a, b | 0 <= a < b < |cands| && r.1[cands[b]] != b0[cands[b]] :: r.1[cands[a]].totalClaims == maxSize)
    && Kept(c0, b0, (r.0, r.1), {l}, {l} + Elems(cands), maxSize)
    && MovedInto(c0, r.0, Elems(cands))
    && LowestLeft(c0, r.0, l)
  }

  /** Before the first round: nothing placed, nothing changed. */
  lemma SpreadStart(c0: seq<Claim>, b0: map<nat, Batch>, l: nat, cands: seq<nat>, excess: int, maxSize: int)
    requires TotalsAgreeExcept(c0, b0, {}) && l in b0 && 0 <= excess
    requires forall a | 0 <= a < |cands| :: cands[a] in b0
    ensures Spread(c0, b0, c0, b0, l, cands, 0, 0, excess, maxSize)
  {
    LowestRefl(c0, l);
    assert forall i | 0 <= i < |c0| :: c0[i] == c0[i].(batch := c0[i].batch);
  }

  /** The loop state at its exit (all receivers visited, or the excess placed) is SpreadDone. */
  lemma SpreadFinish(c0: seq<Claim>, b0: map<nat, Batch>, cs: seq<Claim>, bs: map<nat, Batch>,
                     l: nat, cands: seq<nat>, j: nat, moved: int, excess: int, maxSize: int)
    requires Spread(c0, b0, cs, bs, l, cands, j, moved, excess, maxSize) && (j == |cands| || moved >= excess)
    requires forall a | 0 <= a < |cands| :: cands[a] in b0
    ensures SpreadDone(c0, b0, (cs, bs, moved), l, cands, excess, maxSize)
  {
    assert Elems(cands[..j]) <= Elems(cands);
  }
}
