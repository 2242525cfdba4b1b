/**
 * Moving claims from one batch to another, as the rebalancer does it: the
 * first k member claims of the source batch, either in row order
 * (`->limit(k)`) or by ascending priority level (`->orderBy('priority_level')
 * ->limit(k)`), get the destination's id; both batches then have their
 * totals re-derived.  Also the creation of the extra batch a split needs.
 */
module ClaimMoves {
  import opened Domain
  import opened Ledger
  import opened Ordering
  import opened Store
  import Assignment

  /** The ids (positions) of the claims whose batch is b. */
  ghost function MemberIds(cs: seq<Claim>, b: nat): set<nat>
  {
    set i: nat | i < |cs| && cs[i].batch == Some(b)
  }

  /** As many ids as the batch has claims. */
  lemma {:induction false} MemberIdsCount(cs: seq<Claim>, b: nat)
    ensures |MemberIds(cs, b)| == Count(cs, b)
  {
    if |cs| > 0 {
      var n := |cs| - 1;
      MemberIdsCount(cs[..n], b);
      assert forall i | 0 <= i < n :: cs[..n][i] == cs[i];
      if cs[n].batch == Some(b) {
        assert MemberIds(cs, b) == MemberIds(cs[..n], b) + {n};
      } else {
        assert MemberIds(cs, b) == MemberIds(cs[..n], b);
      }
    }
  }

  /**
   * The sort key of the claim query: the priority level, or nothing (row
   * order) when the query has no ORDER BY.  Ties are broken by claim id.
   */
  function ClaimKey(cs: seq<Claim>, byPriority: bool): (key: map<nat, int>)
    ensures forall i: nat :: i in key <==> i < |cs|
  {
    map i: nat | i < |cs| :: if byPriority then cs[i].priority else 0
  }

  /**
   * The claims a "WHERE batch_id = src [ORDER BY priority_level] LIMIT k"
   * query returns: the members of src in ascending (key, id) order, cut at k.
   */
  ghost function Selection(cs: seq<Claim>, src: nat, k: nat, byPriority: bool): (sel: seq<nat>)
    ensures |sel| == Min(k, Count(cs, src))
    ensures forall i | i in sel :: i < |cs| && cs[i].batch == Some(src)
    ensures forall i, j | 0 <= i < j < |sel| :: sel[i] != sel[j]
  {
    var all := Ordered(MemberIds(cs, src), ClaimKey(cs, byPriority));
    MemberIdsCount(cs, src);
    SortedDistinct(all, ClaimKey(cs, byPriority));
    var sel := all[..Min(k, |all|)];
    assert forall i | i in sel :: i in all;
    sel
  }

  /** A query cut at k never passes over a better-keyed member for a worse one. */
  lemma SelectionTakesLowest(cs: seq<Claim>, src: nat, k: nat, byPriority: bool, i: nat, j: nat)
    requires i in Selection(cs, src, k, byPriority)
    requires j < |cs| && cs[j].batch == Some(src) && j !in Selection(cs, src, k, byPriority)
    ensures byPriority ==> cs[i].priority <= cs[j].priority
    ensures !byPriority ==> i < j
  {
    var key := ClaimKey(cs, byPriority);
    var all := Ordered(MemberIds(cs, src), key);
    var sel := Selection(cs, src, k, byPriority);
    assert sel == all[..|sel|];
    var a :| 0 <= a < |sel| && sel[a] == i;
    assert j in MemberIds(cs, src);
    var b :| 0 <= b < |all| && all[b] == j;
    assert |sel| <= b;
    assert Before(key, all[a], all[b]);
  }

  /** A query whose limit is at least the batch's size returns every member. */
  lemma SelectionAll(cs: seq<Claim>, src: nat, k: nat, byPriority: bool)
    requires k >= Count(cs, src)
    ensures forall i: nat | i < |cs| :: i in Selection(cs, src, k, byPriority) <==> cs[i].batch == Some(src)
  {
    var all := Ordered(MemberIds(cs, src), ClaimKey(cs, byPriority));
    MemberIdsCount(cs, src);
    assert Selection(cs, src, k, byPriority) == all;
  }

  /** The claims with every id in pick pointing at dst. */
  function Reassigned(cs: seq<Claim>, pick: seq<nat>, dst: nat): (r: seq<Claim>)
    ensures |r| == |cs|
    ensures forall i | 0 <= i < |cs| :: r[i] == (if i in pick then cs[i].(batch := Some(dst)) else cs[i])
  {
    seq(|cs|, i requires 0 <= i < |cs| => if i in pick then cs[i].(batch := Some(dst)) else cs[i])
  }

  /**
   * Pointing distinct members of src at dst shifts exactly that many claims
   * from src to dst and leaves every other batch's aggregates alone.
   */
  lemma {:induction false} ReassignedCounts(cs: seq<Claim>, sel: seq<nat>, src: nat, dst: nat)
    requires src != dst
    requires forall a, b | 0 <= a < b < |sel| :: sel[a] != sel[b]
    requires forall a | 0 <= a < |sel| :: sel[a] < |cs| && cs[sel[a]].batch == Some(src)
    ensures Count(Reassigned(cs, sel, dst), src) == Count(cs, src) - |sel|
    ensures Count(Reassigned(cs, sel, dst), dst) == Count(cs, dst) + |sel|
    ensures OthersKept(cs, Reassigned(cs, sel, dst), src, dst)
  {
    if sel != [] {
      var n := |sel| - 1;
      var p := sel[..n];
      assert forall a | 0 <= a < |p| :: p[a] == sel[a];
      ReassignedCounts(cs, p, src, dst);
      var prev := Reassigned(cs, p, dst);
      var i := sel[n];
      assert i !in p by {
        forall a | 0 <= a < n ensures p[a] != i {
          assert p[a] == sel[a];
        }
      }
      assert prev[i] == cs[i];
      MoveOne(prev, i, src, dst);
      ReassignedLast(cs, sel, dst);
      var r := Reassigned(cs, sel, dst);
      forall x | x != src && x != dst ensures Count(r, x) == Count(cs, x) && Amount(r, x) == Amount(cs, x) {
        assert Count(prev, x) == Count(cs, x) && Amount(prev, x) == Amount(cs, x);
      }
    } else {
      assert Reassigned(cs, sel, dst) == cs;
    }
  }

  /** Reassigning a pick is reassigning all but its last id, then that one. */
  lemma ReassignedLast(cs: seq<Claim>, sel: seq<nat>, dst: nat)
    requires sel != [] && sel[|sel| - 1] < |cs|
    ensures var prev := Reassigned(cs, sel[..|sel| - 1], dst);
      var i := sel[|sel| - 1];
      Reassigned(cs, sel, dst) == prev[i := prev[i].(batch := Some(dst))]
  {
    var p := sel[..|sel| - 1];
    var i := sel[|sel| - 1];
    assert sel == p + [i];
    var prev := Reassigned(cs, p, dst);
    var next := prev[i := prev[i].(batch := Some(dst))];
    forall m | 0 <= m < |cs| ensures Reassigned(cs, sel, dst)[m] == next[m] {
      assert m in sel <==> m in p || m == i;
    }
  }

  /** Claims are only moved: each keeps everything but its batch. */
  ghost predicate OnlyMoved(before: seq<Claim>, after: seq<Claim>)
  {
    |after| == |before| && forall i | 0 <= i < |before| :: after[i] == before[i].(batch := after[i].batch)
  }

  /** Aggregates of every batch other than src and dst are as they were. */
  ghost predicate OthersKept(before: seq<Claim>, after: seq<Claim>, src: nat, dst: nat)
  {
    forall x | x != src && x != dst :: Count(after, x) == Count(before, x) && Amount(after, x) == Amount(before, x)
  }

  /** Pointing one more member of src at dst shifts one claim's worth between the two and nothing else. */
  lemma MoveOne(cs: seq<Claim>, i: nat, src: nat, dst: nat)
    requires i < |cs| && cs[i].batch == Some(src) && src != dst
    ensures Count(cs[i := cs[i].(batch := Some(dst))], src) == Count(cs, src) - 1
    ensures Count(cs[i := cs[i].(batch := Some(dst))], dst) == Count(cs, dst) + 1
    ensures OthersKept(cs, cs[i := cs[i].(batch := Some(dst))], src, dst)
  {
    var c := cs[i].(batch := Some(dst));
    UpdateAt(cs, i, c, src);
    UpdateAt(cs, i, c, dst);
    forall x | x != src && x != dst
      ensures Count(cs[i := c], x) == Count(cs, x) && Amount(cs[i := c], x) == Amount(cs, x)
    {
      UpdateAt(cs, i, c, x);
    }
  }

  /** The loop state of MoveClaims after j claims of `order` have been moved. */
  ghost predicate MovedPrefix(c0: seq<Claim>, cs: seq<Claim>, order: seq<nat>, j: nat, src: nat, dst: nat)
    requires j <= |order|
  {
    && |cs| == |c0|
    && (forall m | 0 <= m < |c0| :: cs[m] == (if m in order[..j] then c0[m].(batch := Some(dst)) else c0[m]))
    && Count(cs, src) == Count(c0, src) - j
    && Count(cs, dst) == Count(c0, dst) + j
    && OthersKept(c0, cs, src, dst)
  }

  lemma MovedPrefixStep(c0: seq<Claim>, cs: seq<Claim>, order: seq<nat>, j: nat, src: nat, dst: nat)
    requires j < |order| && MovedPrefix(c0, cs, order, j, src, dst) && src != dst
    requires forall a, b | 0 <= a < b < |order| :: order[a] != order[b]
    requires order[j] < |c0| && c0[order[j]].batch == Some(src)
    ensures MovedPrefix(c0, cs[order[j] := cs[order[j]].(batch := Some(dst))], order, j + 1, src, dst)
  {
    var i := order[j];
    assert i !in order[..j];
    assert cs[i] == c0[i];
    MoveOne(cs, i, src, dst);
    assert order[..j + 1] == order[..j] + [i];
  }

  /** The member ids of src and the sort key of the claim query, read off the claims table. */
  method MemberQuery(db: Database, src: nat, byPriority: bool) returns (members: set<nat>, key: map<nat, int>)
    ensures members == MemberIds(db.claims, src) && key == ClaimKey(db.claims, byPriority)
  {
    members, key := {}, map[];
    var i := 0;
    while i < |db.claims|
      invariant i <= |db.claims|
      invariant members == set m: nat | m < i && db.claims[m].batch == Some(src)
      invariant forall m: nat :: m in key <==> m < i
      invariant forall m: nat | m < i :: key[m] == (if byPriority then db.claims[m].priority else 0)
    {
      if db.claims[i].batch == Some(src) {
        members := members + {i};
      }
      key := key[i := if byPriority then db.claims[i].priority else 0];
      i := i + 1;
    }
  }

  /** Point the first n claims of `order`, all members of src, at dst one by one. */
  method MoveInOrder(db: Database, order: seq<nat>, n: nat, src: nat, dst: nat)
    requires db.Wellformed() && src in db.batches && dst in db.batches && src != dst
    requires db.batches[src].provider == db.batches[dst].provider
    requires db.batches[src].insurer == db.batches[dst].insurer
    requires n <= |order| && forall a, b | 0 <= a < b < |order| :: order[a] != order[b]
    requires forall i | i in order :: i < |db.claims| && db.claims[i].batch == Some(src)
    modifies db`claims
    ensures db.Wellformed()
    ensures db.claims == Reassigned(old(db.claims), order[..n], dst)
    ensures Count(db.claims, src) == Count(old(db.claims), src) - n
    ensures Count(db.claims, dst) == Count(old(db.claims), dst) + n
    ensures OthersKept(old(db.claims), db.claims, src, dst)
  {
    ghost var c0 := db.claims;
    var j := 0;
    while j < n
      invariant j <= n && db.Wellformed()
      invariant MovedPrefix(c0, db.claims, order, j, src, dst)
    {
      assert order[j] in order;
      assert Linked(c0[order[j]], db.batches);
      MovedPrefixStep(c0, db.claims, order, j, src, dst);
      db.Reassign(order[j], dst);
      j := j + 1;
    }
    assert db.claims == Reassigned(c0, order[..n], dst);
  }

  /**
   * Move up to k member claims of src to dst (claim->batch_id = dst;
   * claim->save() for each claim the query returns).  The batch rows are
   * not touched: their totals are stale until re-derived.
   */
  method MoveClaims(db: Database, src: nat, dst: nat, k: nat, byPriority: bool) returns (n: nat)
    requires db.Wellformed() && src in db.batches && dst in db.batches && src != dst
    requires db.batches[src].provider == db.batches[dst].provider
    requires db.batches[src].insurer == db.batches[dst].insurer
    modifies db`claims
    ensures db.Wellformed()
    ensures n == Min(k, Count(old(db.claims), src))
    ensures db.claims == Reassigned(old(db.claims), Selection(old(db.claims), src, k, byPriority), dst)
    ensures Count(db.claims, src) == Count(old(db.claims), src) - n
    ensures Count(db.claims, dst) == Count(old(db.claims), dst) + n
    ensures OthersKept(old(db.claims), db.claims, src, dst)
  {
    ghost var c0 := db.claims;
    var members, key := MemberQuery(db, src, byPriority);
    var order := SortByKey(members, key);
    MemberIdsCount(c0, src);
    SortedDistinct(order, key);
    n := Min(k, |order|);
    assert forall i | i in order :: i in MemberIds(c0, src);
    MoveInOrder(db, order, n, src, dst);
    ghost var sel := Selection(c0, src, k, byPriority);
    assert order[..n] == sel;
  }

  /** Re-deriving the two batches whose members changed makes every total right again. */
  lemma RetotalBoth(cs: seq<Claim>, bs: map<nat, Batch>, src: nat, dst: nat, cost: CostFn)
    requires TotalsAgreeExcept(cs, bs, {src, dst}) && src in bs && dst in bs
    ensures TotalsAgreeExcept(cs, bs[src := Retotalled(bs[src], cs, src, cost)][dst := Retotalled(bs[dst], cs, dst, cost)], {})
  {
    var nb := bs[src := Retotalled(bs[src], cs, src, cost)][dst := Retotalled(bs[dst], cs, dst, cost)];
    forall x | x in nb ensures TotalsAgree(cs, nb, x) {
      if x != src && x != dst {
        assert TotalsAgree(cs, bs, x);
      }
    }
  }

  /** Claim moves that keep the other batches' aggregates leave their totals right. */
  lemma KeptTotals(c0: seq<Claim>, cs: seq<Claim>, bs: map<nat, Batch>, src: nat, dst: nat)
    requires TotalsAgreeExcept(c0, bs, {}) && OthersKept(c0, cs, src, dst)
    ensures TotalsAgreeExcept(cs, bs, {src, dst})
  {
    forall x | x in bs && x !in {src, dst} ensures TotalsAgree(cs, bs, x) {
      assert TotalsAgree(c0, bs, x);
    }
  }

  /**
   * Move up to k claims of src to dst and re-derive both batches' totals
   * (updateBatchTotals on each): every total is right again, the two
   * batches' counts shift by exactly the number moved.
   */
  method Transfer(db: Database, src: nat, dst: nat, k: nat, byPriority: bool) returns (n: nat)
    requires db.Valid() && src in db.batches && dst in db.batches && src != dst
    requires db.batches[src].provider == db.batches[dst].provider
    requires db.batches[src].insurer == db.batches[dst].insurer
    modifies db`claims, db`batches
    ensures db.Valid()
    ensures n == Min(k, old(db.batches[src].totalClaims))
    ensures db.claims == Reassigned(old(db.claims), Selection(old(db.claims), src, k, byPriority), dst)
    ensures db.batches == old(db.batches)
      [src := Retotalled(old(db.batches[src]), db.claims, src, db.cost)]
      [dst := Retotalled(old(db.batches[dst]), db.claims, dst, db.cost)]
    ensures db.batches[src].totalClaims == old(db.batches[src].totalClaims) - n
    ensures db.batches[dst].totalClaims == old(db.batches[dst].totalClaims) + n
  {
    ghost var c0, b0 := db.claims, db.batches;
    assert TotalsAgree(c0, b0, src) && TotalsAgree(c0, b0, dst);
    n := MoveClaims(db, src, dst, k, byPriority);
    KeptTotals(c0, db.claims, b0, src, dst);
    RetotalBoth(db.claims, b0, src, dst, db.cost);
    UpdateBatchTotals(db, src);
    UpdateBatchTotals(db, dst);
  }

  /**
   * createNewBatchForProvider: an empty batch for the provider and insurer
   * on the given batch date, named "#N" with N one more than the number of
   * batches with that provider and batch date, due the next day.  Refused,
   * with nothing changed, when that identifier is taken.
   */
  method CreateNewBatchForProvider(db: Database, provider: nat, insurer: nat, name: string, date: int)
    returns (r: Option<nat>)
    requires db.Valid()
    modifies db`batches, db`nextBatchId
    ensures db.Valid()
    ensures
      var ident := Identifier(name, date, Some(|old(Assignment.SameProviderDate(db.batches, provider, date))| + 1));
      && (r.None? <==> old(db.IdentifierTaken(ident)))
      && (r.None? ==> db.batches == old(db.batches) && db.nextBatchId == old(db.nextBatchId))
      && (r.Some? ==>
            && r.value == old(db.nextBatchId) && db.nextBatchId == old(db.nextBatchId) + 1
            && db.batches == old(db.batches)[r.value := EmptyBatch(provider, insurer, date, ident, date + 1)])
  {
    var count := Assignment.CountProviderDate(db, provider, date);
    r := db.CreateBatch(provider, insurer, date, Identifier(name, date, Some(count + 1)), date + 1);
  }
}
