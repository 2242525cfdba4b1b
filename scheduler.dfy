/**
 * processReadyBatches: the daily capacity pass over the store, proved to
 * perform exactly the run that DailyPass.Pass describes.
 */
module Scheduler {
  import opened Domain
  import opened Ledger
  import opened Ordering
  import opened Store
  import opened Schedule
  import opened DailyPass
  import opened SinglePass

  /** Claims of insurer i in batches already processed today, over ids below n. */
  function DoneToday(bs: map<nat, Batch>, today: int, i: nat, n: nat): int
  {
    if n == 0 then 0
    else
      var b := n - 1;
      DoneToday(bs, today, i, b)
      + (if b in bs && bs[b].processed && bs[b].processingDate == today && bs[b].insurer == i
         then bs[b].totalClaims else 0)
  }

  /** The insurer -> SUM(total_claims) map of the grouped query, built in id order. */
  function SeedMap(bs: map<nat, Batch>, today: int, n: nat): map<nat, int>
  {
    if n == 0 then map[]
    else
      var m := SeedMap(bs, today, n - 1);
      var b := n - 1;
      if b in bs && bs[b].processed && bs[b].processingDate == today
      then m[bs[b].insurer := Seeded(m, bs[b].insurer) + bs[b].totalClaims]
      else m
  }

  /** Each insurer's seed is the number of its claims in batches processed today. */
  lemma {:induction false} SeedMapSums(bs: map<nat, Batch>, today: int, n: nat, i: nat)
    ensures Seeded(SeedMap(bs, today, n), i) == DoneToday(bs, today, i, n)
  {
    if n > 0 {
      SeedMapSums(bs, today, n - 1, i);
    }
  }

  /** The report entry for a processed batch. */
  function SummaryOf(b: nat, bt: Batch): Summary
  {
    Summary(b, bt.ident, bt.totalClaims, bt.totalAmount, bt.cost)
  }

  /** The claim belongs to one of the batches. */
  predicate InBatches(c: Claim, ids: seq<nat>)
  {
    c.batch.Some? && c.batch.value in ids
  }

  /** SELECT insurer_id, SUM(total_claims) FROM batches WHERE processing_date = today AND processed GROUP BY insurer_id. */
  method SeedCounts(db: Database, today: int) returns (counts: map<nat, int>)
    ensures counts == SeedMap(db.batches, today, db.nextBatchId)
  {
    counts := map[];
    var b := 0;
    while b < db.nextBatchId
      invariant 0 <= b <= db.nextBatchId
      invariant counts == SeedMap(db.batches, today, b)
    {
      if b in db.batches && db.batches[b].processed && db.batches[b].processingDate == today {
        var row := db.batches[b];
        counts := counts[row.insurer := Seeded(counts, row.insurer) + row.totalClaims];
      }
      b := b + 1;
    }
  }

  /** The ready query: unprocessed batches due today or earlier, by processing date then creation. */
  method QueryReady(db: Database, today: int) returns (q: seq<nat>)
    ensures q == ReadyQueue(db.batches, today)
  {
    var ready := set b | b in db.batches.Keys && !db.batches[b].processed && db.batches[b].processingDate <= today;
    assert ready == ReadyIds(db.batches, today);
    q := SortByKey(ready, DueKeys(db.batches, ready));
  }

  /** The claim, marked processed when it belongs to one of the batches. */
  function Mark(c: Claim, ids: seq<nat>): Claim
  {
    c.(processed := c.processed || InBatches(c, ids))
  }

  /** The claims table after the claims of the batches `ids` are marked processed. */
  function MarkAll(cs: seq<Claim>, ids: seq<nat>): (r: seq<Claim>)
    ensures |r| == |cs|
  {
    if cs == [] then [] else [Mark(cs[0], ids)] + MarkAll(cs[1..], ids)
  }

  lemma {:induction false} MarkAllAt(cs: seq<Claim>, ids: seq<nat>)
    ensures forall i | 0 <= i < |cs| :: MarkAll(cs, ids)[i] == Mark(cs[i], ids)
  {
    if cs != [] {
      MarkAllAt(cs[1..], ids);
    }
  }

  /** A table that agrees claim by claim with the marked table is the marked table. */
  lemma MarkAllPointwise(cs0: seq<Claim>, cs: seq<Claim>, ids: seq<nat>)
    requires |cs| == |cs0| && forall i | 0 <= i < |cs| :: cs[i] == Mark(cs0[i], ids)
    ensures cs == MarkAll(cs0, ids)
  {
    MarkAllAt(cs0, ids);
  }

  /** Marking the batches of `ids` and then those of `more` marks the batches of both. */
  lemma MarkAllTwice(cs: seq<Claim>, ids: seq<nat>, more: seq<nat>)
    ensures MarkAll(MarkAll(cs, ids), more) == MarkAll(cs, ids + more)
  {
    var once := MarkAll(cs, ids);
    MarkAllAt(cs, ids);
    MarkAllAt(once, more);
    forall i | 0 <= i < |cs| ensures MarkAll(once, more)[i] == Mark(cs[i], ids + more) {
      assert InBatches(once[i], more) == InBatches(cs[i], more);
    }
    MarkAllPointwise(cs, MarkAll(once, more), ids + more);
  }

  /** The ids a decision processes: the batch itself or nothing. */
  function Taken(b: nat, d: Decision): (ids: seq<nat>)
    ensures ids == [] || ids == [b]
    ensures b in ids <==> d == Process
  {
    if d == Process then [b] else []
  }

  /**
   * The chunk callback's work on one batch: skip it when below the
   * insurer's minimum, defer it to tomorrow when it would take the insurer
   * over its daily capacity, and otherwise mark it and its claims processed
   * and charge its claims to the insurer.
   */
  method HandleBatch(db: Database, b: nat, counts: map<nat, int>, today: int)
    returns (d: Decision, counts': map<nat, int>)
    requires db.Valid() && b in db.batches
    modifies db`batches, db`claims
    ensures db.Valid()
    ensures d == Decide(old(db.batches[b]), db.insurers, counts)
    ensures db.batches == Update(old(db.batches), b, d, today)
    ensures counts' == Charge(counts, old(db.batches[b]), d)
    ensures db.claims == MarkAll(old(db.claims), Taken(b, d))
  {
    ghost var cs := db.claims;
    var row := db.batches[b];
    counts' := counts;
    if row.totalClaims < MinSize(db.insurers, row.insurer) {
      d := Skip;
      MarkAllPointwise(cs, cs, []);
    } else if Seeded(counts, row.insurer) + row.totalClaims > Capacity(db.insurers, row.insurer) {
      d := Defer;
      Postpone(db, b, today);
      MarkAllPointwise(cs, cs, []);
    } else {
      d := Process;
      counts' := counts[row.insurer := Seeded(counts, row.insurer) + row.totalClaims];
      assert counts' == Charge(counts, row, d);
      MarkProcessed(db, b);
    }
  }

  /** $batch->processing_date = tomorrow; $batch->save(). */
  method Postpone(db: Database, b: nat, today: int)
    requires db.Valid() && b in db.batches
    modifies db`batches
    ensures db.Valid()
    ensures db.batches == old(db.batches)[b := old(db.batches[b]).(processingDate := today + 1)]
  {
    var row := db.batches[b];
    KeepTotals(db.claims, db.batches, b, row.(processingDate := today + 1));
    db.Save(b, row.(processingDate := today + 1));
  }

  /** $batch->processed = true; $batch->save(); then the bulk update of its claims. */
  method MarkProcessed(db: Database, b: nat)
    requires db.Valid() && b in db.batches
    modifies db`batches, db`claims
    ensures db.Valid()
    ensures db.batches == old(db.batches)[b := old(db.batches[b]).(processed := true)]
    ensures db.claims == MarkAll(old(db.claims), [b])
  {
    ghost var cs := db.claims;
    var row := db.batches[b];
    KeepTotals(db.claims, db.batches, b, row.(processed := true));
    db.Save(b, row.(processed := true));
    db.MarkClaimsProcessed(b);
    MarkAllPointwise(cs, db.claims, [b]);
  }

  /**
   * After the first j batches of a page, from table bs0 to table bs: the
   * rest of the page brings bs to the same end state as the whole page's
   * writes from bs0, and the rest of the plan is the plan of the rest of the
   * page from the current counts.
   */
  ghost predicate Remaining(bs0: map<nat, Batch>, page: seq<nat>, ds: seq<Decision>, insurers: map<nat, Insurer>,
                            today: int, j: nat, bs: map<nat, Batch>, counts: map<nat, int>)
  {
    && j <= |page| == |ds| && AllIn(page, bs0) && bs.Keys == bs0.Keys
    && Apply(bs0, page, ds, today) == Apply(bs, page[j..], ds[j..], today)
    && ds[j..] == Plan(Rows(bs, page[j..]), insurers, counts)
  }

  /** After the first j batches of a page, `chosen` are the ones processed, and none of them is still ahead. */
  ghost predicate Done(page: seq<nat>, ds: seq<Decision>, j: nat, chosen: seq<nat>)
  {
    && j <= |page| == |ds|
    && chosen == Chosen(page[..j], ds[..j])
    && forall k | 0 <= k < |chosen| :: chosen[k] !in page[j..]
  }

  /** One report per chosen batch, read from the table as it now stands. */
  ghost predicate Reported(bs: map<nat, Batch>, chosen: seq<nat>, reports: seq<Summary>)
  {
    && |reports| == |chosen| && AllIn(chosen, bs)
    && forall k | 0 <= k < |chosen| :: reports[k] == SummaryOf(chosen[k], bs[chosen[k]])
  }

  /** Handling batch j as the current counts decide follows the plan and leaves the rest of it to come. */
  lemma RemainingStep(bs0: map<nat, Batch>, page: seq<nat>, ds: seq<Decision>, insurers: map<nat, Insurer>,
                      today: int, j: nat, bs: map<nat, Batch>, counts: map<nat, int>)
    requires Remaining(bs0, page, ds, insurers, today, j, bs, counts)
    requires j < |page| && Distinct(page)
    ensures page[j] in bs && ds[j] == Decide(bs[page[j]], insurers, counts)
    ensures
      var d := ds[j];
      Remaining(bs0, page, ds, insurers, today, j + 1, Update(bs, page[j], d, today), Charge(counts, bs[page[j]], d))
  {
    var b := page[j];
    assert page[j..][1..] == page[j + 1..] && ds[j..][1..] == ds[j + 1..];
    assert page[j..][0] == b;
    assert b !in page[j + 1..];
    var bs' := Update(bs, b, ds[j], today);
    assert Rows(bs', page[j + 1..]) == Rows(bs, page[j..])[1..];
  }

  lemma DoneStep(page: seq<nat>, ds: seq<Decision>, j: nat, chosen: seq<nat>)
    requires Done(page, ds, j, chosen) && j < |page| && Distinct(page)
    ensures page[j] !in chosen
    ensures Done(page, ds, j + 1, chosen + Taken(page[j], ds[j]))
  {
    assert page[j] in page[j..];
    ChosenExtend(page, ds, j);
    assert forall x | x in page[j + 1..] :: x in page[j..];
    assert page[j] !in page[j + 1..];
  }

  lemma ReportedStep(bs: map<nat, Batch>, chosen: seq<nat>, reports: seq<Summary>, b: nat, d: Decision, today: int)
    requires Reported(bs, chosen, reports) && b in bs && b !in chosen
    ensures
      var bs' := Update(bs, b, d, today);
      Reported(bs', chosen + Taken(b, d), if d == Process then reports + [SummaryOf(b, bs'[b])] else reports)
  {
  }

  /**
   * One page of the chunk callback: for each batch in page order, skip it
   * when below the insurer's minimum, defer it to tomorrow when it would
   * take the insurer over its daily capacity, and otherwise mark it and its
   * claims processed, charge its claims to the insurer and report it.  The
   * counts start from `seeds`.
   */
  method ProcessPage(db: Database, page: seq<nat>, seeds: map<nat, int>, today: int)
    returns (chosen: seq<nat>, reports: seq<Summary>)
    requires db.Valid() && AllIn(page, db.batches) && Distinct(page)
    modifies db`batches, db`claims
    ensures db.Valid()
    ensures
      var ds := Plan(Rows(old(db.batches), page), db.insurers, seeds);
      db.batches == Apply(old(db.batches), page, ds, today) && chosen == Chosen(page, ds)
    ensures |reports| == |chosen| && AllIn(chosen, db.batches)
    ensures forall k | 0 <= k < |chosen| :: reports[k] == SummaryOf(chosen[k], db.batches[chosen[k]])
    ensures db.claims == MarkAll(old(db.claims), chosen)
  {
    ghost var bs0, cs0 := db.batches, db.claims;
    ghost var ds := Plan(Rows(db.batches, page), db.insurers, seeds);
    var counts: map<nat, int> := seeds;
    chosen, reports := [], [];
    var j := 0;
    assert page[0..] == page && ds[0..] == ds;
    MarkAllPointwise(cs0, cs0, []);
    while j < |page|
      invariant db.Valid()
      invariant Remaining(bs0, page, ds, db.insurers, today, j, db.batches, counts)
      invariant Done(page, ds, j, chosen)
      invariant Reported(db.batches, chosen, reports)
      invariant db.claims == MarkAll(cs0, chosen)
    {
      var b := page[j];
      ghost var cs, bs, before := db.claims, db.batches, counts;
      var d;
      d, counts := HandleBatch(db, b, counts, today);
      RemainingStep(bs0, page, ds, db.insurers, today, j, bs, before);
      DoneStep(page, ds, j, chosen);
      ReportedStep(bs, chosen, reports, b, d, today);
      MarkAllTwice(cs0, chosen, Taken(b, d));
      chosen := chosen + Taken(b, d);
      if d == Process {
        reports := reports + [SummaryOf(b, db.batches[b])];
      }
      j := j + 1;
    }
    assert page[..j] == page && ds[..j] == ds && page[j..] == [];
  }

  /**
   * processReadyBatches: seed the per-insurer counts with the claims already
   * processed today, then run the ready query page by page.  Returns the
   * report of every batch it marked processed, in order.
   */
  method ProcessReadyBatches(db: Database, today: int) returns (summaries: seq<Summary>)
    requires db.Valid()
    modifies db`batches, db`claims
    ensures db.Valid()
    ensures
      var run := Pass(old(db.batches), today, db.insurers, SeedMap(old(db.batches), today, old(db.nextBatchId)), PAGE_SIZE, 0);
      && db.batches == run.0
      && Reported(db.batches, run.1, summaries)
      && db.claims == MarkAll(old(db.claims), run.1)
  {
    var seeds := SeedCounts(db, today);
    summaries := RunPages(db, seeds, today);
  }

  /**
   * The daily run as evidently intended: the ready query read once, every
   * ready batch considered once in query order, the counts carried from one
   * batch to the next over the whole day.  Its table is the single pass's,
   * so no insurer goes over its capacity and only undersized batches stay
   * ready (SinglePass.DayRunWithinCapacity, DayRunLeavesOnlyUndersized).
   */
  method ProcessReadyBatchesOnce(db: Database, today: int) returns (summaries: seq<Summary>)
    requires db.Valid()
    modifies db`batches, db`claims
    ensures db.Valid()
    ensures
      var seeds := SeedMap(old(db.batches), today, old(db.nextBatchId));
      var done := DayProcessed(old(db.batches), today, db.insurers, seeds);
      && db.batches == DayRun(old(db.batches), today, db.insurers, seeds)
      && Reported(db.batches, done, summaries)
      && db.claims == MarkAll(old(db.claims), done)
  {
    var seeds := SeedCounts(db, today);
    var q := QueryReady(db, today);
    ReadyInTable(db.batches, today);
    var chosen;
    chosen, summaries := ProcessPage(db, q, seeds, today);
  }

  /**
   * The chunked loop: each page re-runs the ready query at the next offset,
   * on the table as the earlier pages left it, with the counts restarting
   * from `seeds`, until a page comes back short.
   */
  method RunPages(db: Database, seeds: map<nat, int>, today: int) returns (summaries: seq<Summary>)
    requires db.Valid()
    modifies db`batches, db`claims
    ensures db.Valid()
    ensures
      var run := Pass(old(db.batches), today, db.insurers, seeds, PAGE_SIZE, 0);
      && db.batches == run.0
      && Reported(db.batches, run.1, summaries)
      && db.claims == MarkAll(old(db.claims), run.1)
  {
    ghost var cs0 := db.claims;
    ghost var run := Pass(db.batches, today, db.insurers, seeds, PAGE_SIZE, 0);
    ghost var done: seq<nat> := [];
    summaries := [];
    var offset: nat := 0;
    assert done + run.1 == run.1;
    MarkAllPointwise(cs0, cs0, []);
    while true
      invariant db.Valid()
      invariant Continues(run, db.batches, today, db.insurers, seeds, PAGE_SIZE, offset, done)
      invariant ReportedDone(db.batches, done, summaries)
      invariant db.claims == MarkAll(cs0, done)
      decreases Pending(db.batches, today, offset)
    {
      var q := QueryReady(db, today);
      var page := Window(q, offset, PAGE_SIZE);
      if page == [] {
        RunEnds(run, db.batches, today, db.insurers, seeds, PAGE_SIZE, offset, done);
        break;
      }
      PageOfReady(db.batches, today, offset, PAGE_SIZE);
      RunGoesOn(run, db.batches, today, db.insurers, seeds, PAGE_SIZE, offset, done, page);
      ghost var bs := db.batches;
      ghost var ds := Plan(Rows(bs, page), db.insurers, seeds);
      var chosen, reports := ProcessPage(db, page, seeds, today);
      ReportedAfterPage(bs, page, ds, today, done, summaries, chosen, reports);
      MarkAllTwice(cs0, done, chosen);
      done := done + chosen;
      summaries := summaries + reports;
      if |page| < PAGE_SIZE {
        break;
      }
      offset := offset + PAGE_SIZE;
    }
  }

  /** The reports so far are right, and every batch reported is processed. */
  ghost predicate ReportedDone(bs: map<nat, Batch>, done: seq<nat>, summaries: seq<Summary>)
  {
    Reported(bs, done, summaries) && forall x | x in done :: x in bs && bs[x].processed
  }

  /**
   * A page of still-pending batches keeps the earlier reports right (it
   * only writes its own batches), and adds its own.
   */
  lemma ReportedAfterPage(bs: map<nat, Batch>, page: seq<nat>, ds: seq<Decision>, today: int,
                          done: seq<nat>, summaries: seq<Summary>, chosen: seq<nat>, reports: seq<Summary>)
    requires |page| == |ds| && AllIn(page, bs)
    requires forall x | x in page :: x in bs && !bs[x].processed
    requires ReportedDone(bs, done, summaries)
    requires chosen == Chosen(page, ds) && Reported(Apply(bs, page, ds, today), chosen, reports)
    ensures ReportedDone(Apply(bs, page, ds, today), done + chosen, summaries + reports)
  {
    var bs' := Apply(bs, page, ds, today);
    ApplyWrites(bs, page, ds, today);
    assert Reported(bs', done, summaries);
    ReportedJoin(bs', done, summaries, chosen, reports);
  }

  /** Reports of two runs of batches, one after the other. */
  lemma ReportedJoin(bs: map<nat, Batch>, a: seq<nat>, ra: seq<Summary>, b: seq<nat>, rb: seq<Summary>)
    requires Reported(bs, a, ra) && Reported(bs, b, rb)
    ensures Reported(bs, a + b, ra + rb)
  {
  }
}
