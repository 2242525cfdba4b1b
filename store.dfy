/**
 * The in-memory store the batching service works against: the claims and
 * batches tables and the read-only insurer and provider records, with the
 * row-level operations the service issues (insert, update, delete, bulk
 * update) and the aggregate queries it reads totals from.
 */
module Store {
  import opened Domain
  import opened Ledger

  /** The processing cost of a batch: a function of its member claims, its insurer and its processing date. */
  type CostFn = (seq<Claim>, nat, int) -> real

  /** A claim's batch, if any, exists and belongs to the claim's provider and insurer. */
  ghost predicate Linked(c: Claim, bs: map<nat, Batch>)
  {
    c.batch.Some? ==>
      c.batch.value in bs && bs[c.batch.value].provider == c.provider && bs[c.batch.value].insurer == c.insurer
  }

  /** The batch_identifier column of row b. */
  function IdentOf(bs: map<nat, Batch>, b: nat): Identifier
    requires b in bs
  {
    bs[b].ident
  }

  /**
   * The unique index on batch_identifier.  The quantifier fires only on
   * IdentOf terms, which only the code that names batches mentions.
   */
  ghost predicate UniqueIdentifiers(bs: map<nat, Batch>)
  {
    forall a, b {:trigger IdentOf(bs, a), IdentOf(bs, b)} | a in bs && b in bs && a != b :: IdentOf(bs, a) != IdentOf(bs, b)
  }

  /** Writing a row whose identifier no other row has keeps the index unique. */
  lemma UniqueAfterWrite(bs: map<nat, Batch>, k: nat, row: Batch)
    requires UniqueIdentifiers(bs)
    requires forall x | x in bs && x != k :: IdentOf(bs, x) != row.ident
    ensures UniqueIdentifiers(bs[k := row])
  {
    var nb := bs[k := row];
    forall a, b | a in nb && b in nb && a != b ensures IdentOf(nb, a) != IdentOf(nb, b) {
      if a != k && b != k {
        assert IdentOf(bs, a) != IdentOf(bs, b);
      } else if a == k {
        assert IdentOf(bs, b) != row.ident;
      } else {
        assert IdentOf(bs, a) != row.ident;
      }
    }
  }

  /** Deleting a row keeps the index unique. */
  lemma UniqueAfterDelete(bs: map<nat, Batch>, k: nat)
    requires UniqueIdentifiers(bs)
    ensures UniqueIdentifiers(bs - {k})
  {
    var nb := bs - {k};
    forall a, b | a in nb && b in nb && a != b ensures IdentOf(nb, a) != IdentOf(nb, b) {
      assert IdentOf(bs, a) != IdentOf(bs, b);
    }
  }

  /** Shape of a store: ids below the next id, no dangling batch references, unique identifiers. */
  ghost predicate Consistent(cs: seq<Claim>, bs: map<nat, Batch>, next: nat)
  {
    && (forall b | b in bs :: b < next)
    && (forall i | 0 <= i < |cs| :: Linked(cs[i], bs))
    && UniqueIdentifiers(bs)
  }

  /** Batch b's cached totals equal the count and sum over the claims referencing it. */
  ghost predicate TotalsAgree(cs: seq<Claim>, bs: map<nat, Batch>, b: nat)
    requires b in bs
  {
    bs[b].totalClaims == Count(cs, b) && bs[b].totalAmount == Amount(cs, b)
  }

  /** Every batch outside `stale` has correct totals. */
  ghost predicate TotalsAgreeExcept(cs: seq<Claim>, bs: map<nat, Batch>, stale: set<nat>)
  {
    forall b {:trigger TotalsAgree(cs, bs, b)} | b in bs && b !in stale :: TotalsAgree(cs, bs, b)
  }

  class Database {
    var claims: seq<Claim>          // claim id = index
    var batches: map<nat, Batch>    // batch id -> row
    var nextBatchId: nat            // auto-increment counter of the batches table
    const insurers: map<nat, Insurer>
    const providerNames: map<nat, string>
    const cost: CostFn

    ghost predicate Wellformed()
      reads this
    {
      Consistent(claims, batches, nextBatchId)
    }

    /** The central invariant: totals are a materialised view over the claims. */
    ghost predicate Valid()
      reads this
    {
      Wellformed() && TotalsAgreeExcept(claims, batches, {})
    }

    /** Batch b's cached totals and cost are those a recomputation would produce. */
    ghost predicate UpToDate(b: nat)
      reads this
      requires b in batches
    {
      TotalsAgree(claims, batches, b)
      && batches[b].cost == cost(Members(claims, b), batches[b].insurer, batches[b].processingDate)
    }

    predicate IdentifierTaken(x: Identifier)
      reads this
    {
      exists b | b in batches :: batches[b].ident == x
    }

    constructor (insurers: map<nat, Insurer>, providerNames: map<nat, string>, cost: CostFn)
      ensures Valid()
      ensures claims == [] && batches == map[] && nextBatchId == 0
      ensures this.insurers == insurers && this.providerNames == providerNames && this.cost == cost
    {
      claims := [];
      batches := map[];
      nextBatchId := 0;
      this.insurers := insurers;
      this.providerNames := providerNames;
      this.cost := cost;
    }

    /** Claim::create: a new claim, not yet in any batch. */
    method SubmitClaim(c: Claim) returns (id: nat)
      requires Valid() && c.batch == None
      modifies this
      ensures Valid()
      ensures id == |old(claims)| && claims == old(claims) + [c]
      ensures batches == old(batches) && nextBatchId == old(nextBatchId)
    {
      id := |claims|;
      forall b | b in batches ensures TotalsAgree(claims + [c], batches, b) {
        assert TotalsAgree(claims, batches, b);
        AppendUnbatched(claims, c, b);
      }
      claims := claims + [c];
    }

    /**
     * Batch::create.  Refused, with nothing changed, when the identifier is
     * already taken; otherwise the new row gets the next id.
     */
    method CreateBatch(provider: nat, insurer: nat, batchDate: int, ident: Identifier, processingDate: int)
      returns (r: Option<nat>)
      requires Wellformed()
      modifies this`batches, this`nextBatchId
      ensures Wellformed()
      ensures r.None? <==> old(IdentifierTaken(ident))
      ensures r.None? ==> batches == old(batches) && nextBatchId == old(nextBatchId)
      ensures r.Some? ==>
        && r.value == old(nextBatchId) && nextBatchId == old(nextBatchId) + 1
        && r.value !in old(batches)
        && batches == old(batches)[r.value := EmptyBatch(provider, insurer, batchDate, ident, processingDate)]
        && TotalsAgree(claims, batches, r.value)
      ensures old(TotalsAgreeExcept(claims, batches, {})) ==> TotalsAgreeExcept(claims, batches, {})
    {
      if exists b | b in batches :: batches[b].ident == ident {
        return None;
      }
      var id := nextBatchId;
      forall i | 0 <= i < |claims| ensures claims[i].batch != Some(id) {
        assert Linked(claims[i], batches);
      }
      CountZero(claims, id);
      CountZeroAmount(claims, id);
      UniqueAfterWrite(batches, id, EmptyBatch(provider, insurer, batchDate, ident, processingDate));
      if TotalsAgreeExcept(claims, batches, {}) {
        WriteAgreeing(claims, batches, id, EmptyBatch(provider, insurer, batchDate, ident, processingDate));
      }
      batches := batches[id := EmptyBatch(provider, insurer, batchDate, ident, processingDate)];
      nextBatchId := nextBatchId + 1;
      r := Some(id);
    }

    /** Point claim i at batch dst (claim->batch_id = dst; claim->save()). */
    method Reassign(i: nat, dst: nat)
      requires Wellformed() && i < |claims| && dst in batches
      requires batches[dst].provider == claims[i].provider && batches[dst].insurer == claims[i].insurer
      modifies this`claims
      ensures Wellformed()
      ensures claims == old(claims)[i := old(claims)[i].(batch := Some(dst))]
    {
      claims := claims[i := claims[i].(batch := Some(dst))];
    }

    /** Save a batch row; its provider, insurer and identifier stay as they are. */
    method Save(b: nat, row: Batch)
      requires Wellformed() && b in batches
      requires row.provider == batches[b].provider && row.insurer == batches[b].insurer
      requires row.ident == batches[b].ident
      modifies this`batches
      ensures Wellformed()
      ensures batches == old(batches)[b := row]
    {
      forall x | x in batches && x != b ensures IdentOf(batches, x) != row.ident {
        assert IdentOf(batches, x) != IdentOf(batches, b);
      }
      UniqueAfterWrite(batches, b, row);
      batches := batches[b := row];
    }

    /** Delete a batch that no claim references. */
    method Delete(b: nat)
      requires Valid() && b in batches && Count(claims, b) == 0
      modifies this`batches
      ensures Valid()
      ensures batches == old(batches) - {b}
    {
      CountZero(claims, b);
      forall x | x in batches - {b} ensures TotalsAgree(claims, batches - {b}, x) {
        assert TotalsAgree(claims, batches, x);
      }
      UniqueAfterDelete(batches, b);
      batches := batches - {b};
    }

    /** Claim::where('batch_id', b)->update(['processed' => true]). */
    method MarkClaimsProcessed(b: nat)
      requires Valid()
      modifies this`claims
      ensures Valid()
      ensures |claims| == |old(claims)|
      ensures forall i | 0 <= i < |claims| ::
        claims[i] == old(claims[i]).(processed := old(claims[i]).processed || old(claims[i]).batch == Some(b))
    {
      ghost var before := claims;
      var i := 0;
      while i < |claims|
        invariant 0 <= i <= |claims| == |before|
        invariant forall k | 0 <= k < i ::
          claims[k] == before[k].(processed := before[k].processed || before[k].batch == Some(b))
        invariant forall k | i <= k < |claims| :: claims[k] == before[k]
        invariant Wellformed()
      {
        if claims[i].batch == Some(b) {
          claims := claims[i := claims[i].(processed := true)];
        }
        i := i + 1;
      }
      forall x | x in batches ensures TotalsAgree(claims, batches, x) {
        assert TotalsAgree(before, batches, x);
        SameLinks(claims, before, x);
      }
    }

    /** Put back the rows a rolled-back transaction had changed; the id counter is not rewound. */
    method Restore(cs: seq<Claim>, bs: map<nat, Batch>)
      requires Consistent(cs, bs, nextBatchId)
      modifies this`claims, this`batches
      ensures Wellformed()
      ensures claims == cs && batches == bs
    {
      claims, batches := cs, bs;
    }

    /** SELECT COUNT(*), SUM(total_amount) FROM claims WHERE batch_id = b (an empty sum read as 0). */
    method Tally(b: nat) returns (count: int, amount: int)
      ensures count == Count(claims, b) && amount == Amount(claims, b)
    {
      count, amount := 0, 0;
      var i := 0;
      while i < |claims|
        invariant 0 <= i <= |claims|
        invariant count == Count(claims[..i], b) && amount == Amount(claims[..i], b)
      {
        PrefixStep(claims, i, b);
        if claims[i].batch == Some(b) {
          count, amount := count + 1, amount + claims[i].amount;
        }
        i := i + 1;
      }
      assert claims[..i] == claims;
    }
  }

  /** Rewriting a batch row with the same totals keeps every batch's totals right. */
  lemma KeepTotals(cs: seq<Claim>, bs: map<nat, Batch>, b: nat, row: Batch)
    requires TotalsAgreeExcept(cs, bs, {}) && b in bs
    requires row.totalClaims == bs[b].totalClaims && row.totalAmount == bs[b].totalAmount
    ensures TotalsAgreeExcept(cs, bs[b := row], {})
  {
    assert TotalsAgree(cs, bs, b);
    WriteAgreeing(cs, bs, b, row);
  }

  /** Deleting a row keeps every other batch's totals right. */
  lemma AgreeWithout(cs: seq<Claim>, bs: map<nat, Batch>, b: nat)
    requires TotalsAgreeExcept(cs, bs, {})
    ensures TotalsAgreeExcept(cs, bs - {b}, {})
  {
    var nb := bs - {b};
    forall x | x in nb ensures TotalsAgree(cs, nb, x) {
      assert TotalsAgree(cs, bs, x);
    }
  }

  /** Writing a row whose totals are the count and sum over its members keeps every batch's totals right. */
  lemma WriteAgreeing(cs: seq<Claim>, bs: map<nat, Batch>, b: nat, row: Batch)
    requires TotalsAgreeExcept(cs, bs, {})
    requires row.totalClaims == Count(cs, b) && row.totalAmount == Amount(cs, b)
    ensures TotalsAgreeExcept(cs, bs[b := row], {})
  {
    var nb := bs[b := row];
    forall x | x in nb ensures TotalsAgree(cs, nb, x) {
      if x != b {
        assert TotalsAgree(cs, bs, x);
      }
    }
  }

  /** With no member claim the sum of amounts is 0. */
  lemma {:induction false} CountZeroAmount(cs: seq<Claim>, b: nat)
    requires forall k | 0 <= k < |cs| :: cs[k].batch != Some(b)
    ensures Amount(cs, b) == 0
  {
    if |cs| > 0 {
      CountZeroAmount(cs[..|cs| - 1], b);
    }
  }

  /** A batch row with its totals re-derived from the claims and its cost recomputed. */
  function Retotalled(row: Batch, cs: seq<Claim>, b: nat, cost: CostFn): (r: Batch)
    ensures r.totalClaims == Count(cs, b) && r.totalAmount == Amount(cs, b)
    ensures r.(totalClaims := row.totalClaims, totalAmount := row.totalAmount, cost := row.cost) == row
  {
    row.(totalClaims := Count(cs, b), totalAmount := Amount(cs, b),
         cost := cost(Members(cs, b), row.insurer, row.processingDate))
  }

  /**
   * updateBatchTotals: re-derive total_claims and total_amount from the
   * member claims and recompute the processing cost.  Recomputing a batch
   * that is already up to date changes nothing.
   */
  method UpdateBatchTotals(db: Database, b: nat)
    requires db.Wellformed() && b in db.batches
    modifies db`batches
    ensures db.Wellformed()
    ensures db.batches == old(db.batches)[b := Retotalled(old(db.batches[b]), db.claims, b, db.cost)]
    ensures TotalsAgree(db.claims, db.batches, b) && db.UpToDate(b)
    ensures old(db.UpToDate(b)) ==> db.batches == old(db.batches)
  {
    var count, amount := db.Tally(b);
    var row := db.batches[b];
    var c := db.cost(Members(db.claims, b), row.insurer, row.processingDate);
    db.Save(b, row.(totalClaims := count, totalAmount := amount, cost := c));
  }
}
