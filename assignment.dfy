/**
 * Batch assignment: a new claim joins the open batch for its
 * (provider, insurer, batch date) key, or a new batch created for it; the
 * batch's totals are re-derived from its claims; a full batch gets an empty
 * overflow batch beside it.  One transaction: any refused insert undoes
 * everything and the claim stays unbatched.
 */
module Assignment {
  import opened Domain
  import opened Ledger
  import opened Store

  /** The grouping date: encounter date when the insurer prefers it, else submission date. */
  function BatchDate(c: Claim, ins: Insurer): int
  {
    if ins.prefersEncounterDate then c.encounterDate else c.submissionDate
  }

  /** An unprocessed batch for the key (provider, insurer, batch date). */
  predicate OpenFor(bt: Batch, provider: nat, insurer: nat, date: int)
  {
    bt.provider == provider && bt.insurer == insurer && bt.batchDate == date && !bt.processed
  }

  /** Some open batch for the key still has room below the maximum size. */
  ghost predicate HasRoom(bs: map<nat, Batch>, provider: nat, insurer: nat, date: int, maxSize: int)
  {
    exists y | y in bs :: OpenFor(bs[y], provider, insurer, date) && bs[y].totalClaims < maxSize
  }

  /** Claims already scheduled: total_claims of the insurer's unprocessed batches due on `day`, over ids below n. */
  function LoadOn(bs: map<nat, Batch>, insurer: nat, day: int, n: nat): int
  {
    if n == 0 then 0
    else
      var b := n - 1;
      LoadOn(bs, insurer, day, b)
      + (if b in bs && bs[b].insurer == insurer && !bs[b].processed && bs[b].processingDate == day
         then bs[b].totalClaims else 0)
  }

  /** All batches, of any insurer, with this provider and batch date. */
  ghost function SameProviderDate(bs: map<nat, Batch>, provider: nat, date: int): set<nat>
  {
    set b | b in bs && bs[b].provider == provider && bs[b].batchDate == date
  }

  /**
   * The processing date of a new batch: the day after the batch date, or
   * the day after that when the insurer's load for that next day plus this
   * claim reaches its daily capacity.
   */
  function NewBatchProcessingDate(load: int, capacity: int, date: int): int
  {
    if load + 1 >= capacity then date + 2 else date + 1
  }

  function Without(bs: map<nat, Batch>, o: Option<nat>): map<nat, Batch>
  {
    if o.Some? then bs - {o.value} else bs
  }

  /** The first (lowest id) open batch for the key, if any. */
  method FindOpenBatch(db: Database, provider: nat, insurer: nat, date: int) returns (r: Option<nat>)
    requires db.Wellformed()
    ensures r.Some? ==> r.value in db.batches && OpenFor(db.batches[r.value], provider, insurer, date)
    ensures r.Some? ==> forall b | b in db.batches && b < r.value :: !OpenFor(db.batches[b], provider, insurer, date)
    ensures r.None? ==> forall b | b in db.batches :: !OpenFor(db.batches[b], provider, insurer, date)
  {
    var i := 0;
    while i < db.nextBatchId
      invariant 0 <= i <= db.nextBatchId
      invariant forall b | b in db.batches && b < i :: !OpenFor(db.batches[b], provider, insurer, date)
    {
      if i in db.batches && OpenFor(db.batches[i], provider, insurer, date) {
        return Some(i);
      }
      i := i + 1;
    }
    return None;
  }

  /** Sum of total_claims of the insurer's unprocessed batches due on `day`. */
  method ScheduledLoad(db: Database, insurer: nat, day: int) returns (load: int)
    ensures load == LoadOn(db.batches, insurer, day, db.nextBatchId)
  {
    load := 0;
    var i := 0;
    while i < db.nextBatchId
      invariant 0 <= i <= db.nextBatchId
      invariant load == LoadOn(db.batches, insurer, day, i)
    {
      if i in db.batches && db.batches[i].insurer == insurer && !db.batches[i].processed
         && db.batches[i].processingDate == day {
        load := load + db.batches[i].totalClaims;
      }
      i := i + 1;
    }
  }

  /** Number of batches with this provider and batch date, whatever their insurer or state. */
  method CountProviderDate(db: Database, provider: nat, date: int) returns (n: nat)
    requires db.Wellformed()
    ensures n == |SameProviderDate(db.batches, provider, date)|
  {
    n := 0;
    var i := 0;
    ghost var seen: set<nat> := {};
    while i < db.nextBatchId
      invariant 0 <= i <= db.nextBatchId
      invariant seen == set b | b in db.batches && b < i && db.batches[b].provider == provider && db.batches[b].batchDate == date
      invariant n == |seen|
    {
      if i in db.batches && db.batches[i].provider == provider && db.batches[i].batchDate == date {
        assert i !in seen;
        seen := seen + {i};
        n := n + 1;
      }
      i := i + 1;
    }
    assert seen == SameProviderDate(db.batches, provider, date);
  }

  /** Whether an open batch for the key still has room. */
  method HasOpenWithRoom(db: Database, provider: nat, insurer: nat, date: int, maxSize: int) returns (room: bool)
    requires db.Wellformed()
    ensures room <==> HasRoom(db.batches, provider, insurer, date, maxSize)
  {
    var i := 0;
    while i < db.nextBatchId
      invariant 0 <= i <= db.nextBatchId
      invariant forall b | b in db.batches && b < i ::
        !(OpenFor(db.batches[b], provider, insurer, date) && db.batches[b].totalClaims < maxSize)
    {
      if i in db.batches && OpenFor(db.batches[i], provider, insurer, date) && db.batches[i].totalClaims < maxSize {
        return true;
      }
      i := i + 1;
    }
    return false;
  }

  /**
   * createNewBatchIfNeeded: when no open batch for the key has room, insert
   * an empty batch named "#N", N being one more than the number of batches
   * with this provider and batch date, due the day after the batch date.
   */
  method CreateNewBatchIfNeeded(db: Database, provider: nat, insurer: nat, name: string, date: int, maxSize: int)
    returns (r: Result<Option<nat>>)
    requires db.Valid()
    modifies db`batches, db`nextBatchId
    ensures db.Valid()
    ensures old(HasRoom(db.batches, provider, insurer, date, maxSize)) ==>
      r == Ok(None) && db.batches == old(db.batches) && db.nextBatchId == old(db.nextBatchId)
    ensures !old(HasRoom(db.batches, provider, insurer, date, maxSize)) ==>
      var ident := Identifier(name, date, Some(|old(SameProviderDate(db.batches, provider, date))| + 1));
      && (r.Err? <==> old(db.IdentifierTaken(ident)))
      && (r.Err? ==> r.error == DuplicateIdentifier && db.batches == old(db.batches) && db.nextBatchId == old(db.nextBatchId))
      && (r.Ok? ==>
            r.value == Some(old(db.nextBatchId)) && db.nextBatchId == old(db.nextBatchId) + 1
            && db.batches == old(db.batches)[old(db.nextBatchId) := EmptyBatch(provider, insurer, date, ident, date + 1)])
  {
    var room := HasOpenWithRoom(db, provider, insurer, date, maxSize);
    if room {
      return Ok(None);
    }
    var count := CountProviderDate(db, provider, date);
    var created := db.CreateBatch(provider, insurer, date, Identifier(name, date, Some(count + 1)), date + 1);
    if created.None? {
      return Err(DuplicateIdentifier);
    }
    return Ok(created);
  }

  ghost predicate NoneOpen(bs: map<nat, Batch>, provider: nat, insurer: nat, date: int)
  {
    forall x | x in bs :: !OpenFor(bs[x], provider, insurer, date)
  }

  /** b is the lowest-id open batch for the key. */
  ghost predicate FirstOpen(bs: map<nat, Batch>, b: nat, provider: nat, insurer: nat, date: int)
  {
    b in bs && OpenFor(bs[b], provider, insurer, date)
    && forall x | x in bs && x < b :: !OpenFor(bs[x], provider, insurer, date)
  }

  /**
   * The overflow rule, over the batches after the claim joined batch b: an
   * overflow batch exists exactly when b reached the maximum size and no
   * other open batch for the key had room, and it is an empty batch named
   * "#N" (N one more than the other batches of this provider and date) due
   * the day after the batch date.
   */
  ghost predicate OverflowRule(bs: map<nat, Batch>, b: nat, overflow: Option<nat>,
                               provider: nat, insurer: nat, name: string, date: int, maxSize: int)
    requires b in bs
  {
    && (overflow.Some? <==>
          bs[b].totalClaims >= maxSize && !HasRoom(Without(bs, overflow), provider, insurer, date, maxSize))
    && (overflow.Some? ==>
          && overflow.value != b && overflow.value in bs
          && bs[overflow.value] == EmptyBatch(provider, insurer, date,
               Identifier(name, date, Some(|SameProviderDate(Without(bs, overflow), provider, date)| + 1)), date + 1))
  }

  /** Point claim cid at batch b and re-derive b's totals; every other batch keeps correct totals. */
  method AddToBatch(db: Database, cid: nat, b: nat)
    requires db.Valid() && cid < |db.claims| && db.claims[cid].batch == None && b in db.batches
    requires db.batches[b].provider == db.claims[cid].provider && db.batches[b].insurer == db.claims[cid].insurer
    modifies db`claims, db`batches
    ensures db.Valid() && b in db.batches && db.UpToDate(b)
    ensures db.claims == old(db.claims)[cid := old(db.claims[cid]).(batch := Some(b))]
    ensures db.batches == old(db.batches)[b := db.batches[b]]
    ensures db.batches[b] == old(db.batches[b]).(totalClaims := old(db.batches[b].totalClaims) + 1,
      totalAmount := old(db.batches[b].totalAmount) + old(db.claims[cid]).amount,
      cost := db.batches[b].cost)
  {
    ghost var cs, bs := db.claims, db.batches;
    assert TotalsAgree(cs, bs, b);
    var c := db.claims[cid].(batch := Some(b));
    db.Reassign(cid, b);
    forall x | x in db.batches ensures
      Count(db.claims, x) == Count(cs, x) - Ind(cs[cid], x) + Ind(c, x) &&
      Amount(db.claims, x) == Amount(cs, x) - Share(cs[cid], x) + Share(c, x)
    {
      UpdateAt(cs, cid, c, x);
    }
    UpdateBatchTotals(db, b);
    forall x | x in db.batches ensures TotalsAgree(db.claims, db.batches, x) {
      if x != b {
        assert TotalsAgree(cs, bs, x);
      }
    }
  }

  /**
   * The overflow step of processClaim: once batch b holds the insurer's
   * maximum number of claims, createNewBatchIfNeeded.  ok is false when the
   * overflow batch's identifier was refused (nothing changed).
   */
  method OverflowIfFull(db: Database, b: nat, provider: nat, insurer: nat, name: string, date: int, maxSize: int)
    returns (ok: bool, ghost overflow: Option<nat>)
    requires db.Valid() && b in db.batches
    modifies db`batches, db`nextBatchId
    ensures db.Valid() && b in db.batches && db.batches[b] == old(db.batches[b])
    ensures !ok ==> overflow == None && db.batches == old(db.batches)
    ensures !ok <==>
      old(db.batches[b].totalClaims) >= maxSize && !old(HasRoom(db.batches, provider, insurer, date, maxSize))
      && old(db.IdentifierTaken(Identifier(name, date, Some(|SameProviderDate(db.batches, provider, date)| + 1))))
    ensures ok ==> Without(db.batches, overflow) == old(db.batches)
    ensures ok ==> OverflowRule(db.batches, b, overflow, provider, insurer, name, date, maxSize)
  {
    overflow := None;
    if db.batches[b].totalClaims >= maxSize {
      var made := CreateNewBatchIfNeeded(db, provider, insurer, name, date, maxSize);
      if made.Err? {
        return false, None;
      }
      overflow := made.value;
    }
    ok := true;
  }

  /**
   * Steps 2 and 3 of processClaim on a chosen open batch b: attach the claim,
   * re-derive b's totals, open an overflow batch if b is now full.  When the
   * overflow batch's identifier is refused, everything is rolled back and
   * `refused` is that identifier.
   */
  method AttachAndOverflow(db: Database, cid: nat, b: nat, name: string, date: int, maxSize: int)
    returns (ok: bool, ghost refused: Identifier, ghost overflow: Option<nat>)
    requires db.Valid() && cid < |db.claims| && db.claims[cid].batch == None && b in db.batches
    requires db.batches[b].provider == db.claims[cid].provider && db.batches[b].insurer == db.claims[cid].insurer
    modifies db`claims, db`batches, db`nextBatchId
    ensures db.Valid()
    ensures !ok ==>
      && db.claims == old(db.claims) && db.batches == old(db.batches) && overflow == None
      && refused.suffix.Some? && old(db.IdentifierTaken(refused))
    ensures ok ==>
      var c := old(db.claims[cid]);
      && db.claims == old(db.claims)[cid := c.(batch := Some(b))]
      && b in db.batches && db.UpToDate(b)
      && db.batches[b] == old(db.batches[b]).(totalClaims := old(db.batches[b].totalClaims) + 1,
           totalAmount := old(db.batches[b].totalAmount) + c.amount, cost := db.batches[b].cost)
      && Without(db.batches, overflow) == old(db.batches)[b := db.batches[b]]
      && OverflowRule(db.batches, b, overflow, c.provider, c.insurer, name, date, maxSize)
  {
    var claims0, batches0 := db.claims, db.batches;
    var provider, insurer := db.claims[cid].provider, db.claims[cid].insurer;
    AddToBatch(db, cid, b);
    ghost var mid := db.batches;
    refused := Identifier(name, date, Some(|SameProviderDate(mid, provider, date)| + 1));
    ok, overflow := OverflowIfFull(db, b, provider, insurer, name, date, maxSize);
    if !ok {
      ghost var y :| y in mid && mid[y].ident == refused;
      assert y in batches0 && batches0[y].ident == refused;
      assert forall x | x in batches0 :: x in db.batches;
      db.Restore(claims0, batches0);
    }
  }

  /**
   * processClaim when no open batch exists for the claim's key: create the
   * base batch (named after the provider and batch date, due the next day or
   * the day after when the insurer's load for the next day is at capacity)
   * and attach the claim to it.  Any refused insert rolls everything back.
   */
  method StartBatch(db: Database, cid: nat, name: string, date: int, ins: Insurer)
    returns (r: Option<nat>, ghost refused: Option<Identifier>, ghost overflow: Option<nat>)
    requires db.Valid() && cid < |db.claims| && db.claims[cid].batch == None
    modifies db`claims, db`batches, db`nextBatchId
    ensures db.Valid()
    ensures r.None? <==> refused.Some?
    ensures r.None? ==>
      db.claims == old(db.claims) && db.batches == old(db.batches) && overflow == None
      && old(db.IdentifierTaken(refused.value))
    ensures refused == Some(Identifier(name, date, None)) <==> old(db.IdentifierTaken(Identifier(name, date, None)))
    ensures r.Some? ==>
      var c := old(db.claims[cid]);
      var due := NewBatchProcessingDate(old(LoadOn(db.batches, c.insurer, date + 1, db.nextBatchId)), ins.dailyCapacity, date);
      && r.value == old(db.nextBatchId) && r.value !in old(db.batches)
      && db.claims == old(db.claims)[cid := c.(batch := Some(r.value))]
      && r.value in db.batches && db.UpToDate(r.value)
      && db.batches[r.value] == EmptyBatch(c.provider, c.insurer, date, Identifier(name, date, None), due)
           .(totalClaims := 1, totalAmount := c.amount, cost := db.batches[r.value].cost)
      && Without(db.batches, overflow) == old(db.batches)[r.value := db.batches[r.value]]
      && OverflowRule(db.batches, r.value, overflow, c.provider, c.insurer, name, date, ins.maxBatchSize)
  {
    var c := db.claims[cid];
    var claims0, batches0 := db.claims, db.batches;
    overflow := None;
    var load := ScheduledLoad(db, c.insurer, date + 1);
    var created := db.CreateBatch(c.provider, c.insurer, date, Identifier(name, date, None),
                                  NewBatchProcessingDate(load, ins.dailyCapacity, date));
    if created.None? {
      return None, Some(Identifier(name, date, None)), None;
    }
    var b := created.value;
    ghost var bs1 := db.batches;
    var ok: bool;
    ghost var ident: Identifier;
    ok, ident, overflow := AttachAndOverflow(db, cid, b, name, date, ins.maxBatchSize);
    if !ok {
      db.Restore(claims0, batches0);
      assert ident != Identifier(name, date, None);
      return None, Some(ident), None;
    }
    assert bs1[b := db.batches[b]] == batches0[b := db.batches[b]];
    r, refused := Some(b), None;
  }

  /**
   * processClaim: put claim `cid` (just submitted, in no batch) into the
   * first open batch for its key, creating that batch when there is none,
   * and re-derive the batch's totals; when the batch has reached the
   * insurer's maximum size, open an overflow batch.  Returns the batch, or
   * None when an insert was refused because its identifier was taken (then
   * nothing changed).  `refused` is that identifier; `overflow` the empty
   * batch opened because the batch became full.
   */
  method ProcessClaim(db: Database, cid: nat) returns (r: Option<nat>, ghost refused: Option<Identifier>, ghost overflow: Option<nat>)
    requires db.Valid()
    requires cid < |db.claims| && db.claims[cid].batch == None
    requires db.claims[cid].insurer in db.insurers && db.claims[cid].provider in db.providerNames
    modifies db`claims, db`batches, db`nextBatchId
    ensures db.Valid()
    ensures r.None? <==> refused.Some?
    ensures r.None? ==>
      db.claims == old(db.claims) && db.batches == old(db.batches) && overflow == None
      && old(db.IdentifierTaken(refused.value))
    ensures
      var c := old(db.claims[cid]);
      var date := BatchDate(c, db.insurers[c.insurer]);
      var base := Identifier(db.providerNames[c.provider], date, None);
      refused == Some(base) <==> NoneOpen(old(db.batches), c.provider, c.insurer, date) && old(db.IdentifierTaken(base))
    ensures r.Some? ==>
      var c := old(db.claims[cid]);
      var ins := db.insurers[c.insurer];
      var date := BatchDate(c, ins);
      && db.claims == old(db.claims)[cid := c.(batch := Some(r.value))]
      && r.value in db.batches && db.UpToDate(r.value)
      && Without(db.batches, overflow) == old(db.batches)[r.value := db.batches[r.value]]
      && OverflowRule(db.batches, r.value, overflow, c.provider, c.insurer, db.providerNames[c.provider], date, ins.maxBatchSize)
    ensures r.Some? && r.value in old(db.batches) ==>
      var c := old(db.claims[cid]);
      var date := BatchDate(c, db.insurers[c.insurer]);
      var before := old(db.batches[r.value]);
      && FirstOpen(old(db.batches), r.value, c.provider, c.insurer, date)
      && db.batches[r.value] == before.(totalClaims := before.totalClaims + 1,
           totalAmount := before.totalAmount + c.amount, cost := db.batches[r.value].cost)
    ensures r.Some? && r.value !in old(db.batches) ==>
      var c := old(db.claims[cid]);
      var ins := db.insurers[c.insurer];
      var date := BatchDate(c, ins);
      var due := NewBatchProcessingDate(old(LoadOn(db.batches, c.insurer, date + 1, db.nextBatchId)), ins.dailyCapacity, date);
      && NoneOpen(old(db.batches), c.provider, c.insurer, date) && r.value == old(db.nextBatchId)
      && db.batches[r.value] ==
           EmptyBatch(c.provider, c.insurer, date, Identifier(db.providerNames[c.provider], date, None), due)
             .(totalClaims := 1, totalAmount := c.amount, cost := db.batches[r.value].cost)
  {
    var c := db.claims[cid];
    var ins := db.insurers[c.insurer];
    var date := BatchDate(c, ins);
    var name := db.providerNames[c.provider];
    var open := FindOpenBatch(db, c.provider, c.insurer, date);
    if open.None? {
      r, refused, overflow := StartBatch(db, cid, name, date, ins);
      return;
    }
    var ok: bool;
    ghost var ident: Identifier;
    ok, ident, overflow := AttachAndOverflow(db, cid, open.value, name, date, ins.maxBatchSize);
    if !ok {
      return None, Some(ident), None;
    }
    r, refused := open, None;
  }
}
