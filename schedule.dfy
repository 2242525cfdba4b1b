/**
 * The decision the daily scheduler takes for each batch of one page of
 * ready batches, as a function: a batch below its insurer's minimum size is
 * skipped (it stays pending), a batch that would push its insurer's count
 * of claims processed today over the daily capacity is deferred to
 * tomorrow, and any other batch is processed and charged to its insurer.
 */
module Schedule {
  import opened Domain

  datatype Decision = Skip | Defer | Process

  /** The insurer's minimum batch size, 5 when the insurer is not on record. */
  function MinSize(insurers: map<nat, Insurer>, i: nat): int
  {
    if i in insurers then insurers[i].minBatchSize else DEFAULT_MIN_BATCH_SIZE
  }

  /** The insurer's daily capacity, 100 when the insurer is not on record. */
  function Capacity(insurers: map<nat, Insurer>, i: nat): int
  {
    if i in insurers then insurers[i].dailyCapacity else DEFAULT_DAILY_CAPACITY
  }

  /** Claims already processed today for the insurer; an insurer with no entry has 0. */
  function Seeded(counts: map<nat, int>, i: nat): int
  {
    if i in counts then counts[i] else 0
  }

  /**
   * The decision for one batch: below the minimum it is skipped whatever
   * the counts; otherwise it is processed exactly when its claims fit in
   * what is left of its insurer's capacity.
   */
  function Decide(bt: Batch, insurers: map<nat, Insurer>, counts: map<nat, int>): (d: Decision)
    ensures d.Skip? <==> bt.totalClaims < MinSize(insurers, bt.insurer)
    ensures d.Process? <==>
      MinSize(insurers, bt.insurer) <= bt.totalClaims
      && Seeded(counts, bt.insurer) + bt.totalClaims <= Capacity(insurers, bt.insurer)
  {
    if bt.totalClaims < MinSize(insurers, bt.insurer) then Skip
    else if Seeded(counts, bt.insurer) + bt.totalClaims > Capacity(insurers, bt.insurer) then Defer
    else Process
  }

  /** A processed batch adds its claims to its insurer's count. */
  function Charge(counts: map<nat, int>, bt: Batch, d: Decision): (r: map<nat, int>)
    ensures forall i :: Seeded(r, i) == Seeded(counts, i) + (if d.Process? && i == bt.insurer then bt.totalClaims else 0)
    ensures r.Keys <= counts.Keys + {bt.insurer}
  {
    if d == Process then counts[bt.insurer := Seeded(counts, bt.insurer) + bt.totalClaims] else counts
  }

  /** The decisions for a page of batch rows, in page order, counts threaded from one batch to the next. */
  function Plan(rows: seq<Batch>, insurers: map<nat, Insurer>, counts: map<nat, int>): (ds: seq<Decision>)
    ensures |ds| == |rows|
  {
    if rows == [] then []
    else
      var d := Decide(rows[0], insurers, counts);
      [d] + Plan(rows[1..], insurers, Charge(counts, rows[0], d))
  }

  /** The per-insurer counts after the page. */
  function FinalCounts(rows: seq<Batch>, insurers: map<nat, Insurer>, counts: map<nat, int>): map<nat, int>
  {
    if rows == [] then counts
    else FinalCounts(rows[1..], insurers, Charge(counts, rows[0], Decide(rows[0], insurers, counts)))
  }

  /** Claims of insurer i in the batches the decisions process. */
  function ProcessedLoad(rows: seq<Batch>, ds: seq<Decision>, i: nat): int
    requires |ds| == |rows|
  {
    if rows == [] then 0
    else (if ds[0] == Process && rows[0].insurer == i then rows[0].totalClaims else 0)
         + ProcessedLoad(rows[1..], ds[1..], i)
  }

  /** Number of batches the decisions process. */
  function ProcessedCount(ds: seq<Decision>): nat
  {
    if ds == [] then 0 else (if ds[0] == Process then 1 else 0) + ProcessedCount(ds[1..])
  }

  /** A batch is skipped exactly when it is below its insurer's minimum size; the running count never matters for that. */
  lemma {:induction false} PlanSkipsExactlyUndersized(rows: seq<Batch>, insurers: map<nat, Insurer>, counts: map<nat, int>)
    ensures forall k | 0 <= k < |rows| ::
      Plan(rows, insurers, counts)[k] == Skip <==> rows[k].totalClaims < MinSize(insurers, rows[k].insurer)
  {
    if rows != [] {
      var d := Decide(rows[0], insurers, counts);
      PlanSkipsExactlyUndersized(rows[1..], insurers, Charge(counts, rows[0], d));
    }
  }

  /** Each insurer's count grows by exactly the claims of its processed batches; no other insurer's count moves. */
  lemma {:induction false} PlanCharges(rows: seq<Batch>, insurers: map<nat, Insurer>, counts: map<nat, int>, i: nat)
    ensures Seeded(FinalCounts(rows, insurers, counts), i)
         == Seeded(counts, i) + ProcessedLoad(rows, Plan(rows, insurers, counts), i)
  {
    if rows != [] {
      var d := Decide(rows[0], insurers, counts);
      PlanCharges(rows[1..], insurers, Charge(counts, rows[0], d), i);
      assert Plan(rows, insurers, counts)[1..] == Plan(rows[1..], insurers, Charge(counts, rows[0], d));
    }
  }

  /**
   * Capacity within a page: an insurer's count ends no higher than its
   * daily capacity or its starting count, and once a batch of the insurer
   * was processed, no higher than its capacity.
   */
  lemma {:induction false} PlanWithinCapacity(rows: seq<Batch>, insurers: map<nat, Insurer>, counts: map<nat, int>, i: nat)
    ensures Seeded(FinalCounts(rows, insurers, counts), i) <= Max(Seeded(counts, i), Capacity(insurers, i))
    ensures (exists k | 0 <= k < |rows| :: Plan(rows, insurers, counts)[k] == Process && rows[k].insurer == i)
            ==> Seeded(FinalCounts(rows, insurers, counts), i) <= Capacity(insurers, i)
  {
    if rows != [] {
      var d := Decide(rows[0], insurers, counts);
      var next := Charge(counts, rows[0], d);
      PlanWithinCapacity(rows[1..], insurers, next, i);
      var ds := Plan(rows, insurers, counts);
      assert ds == [d] + Plan(rows[1..], insurers, next);
      if d == Process && rows[0].insurer == i {
        assert Seeded(next, i) <= Capacity(insurers, i);
      }
      if exists k | 0 <= k < |rows| :: ds[k] == Process && rows[k].insurer == i {
        var k :| 0 <= k < |rows| && ds[k] == Process && rows[k].insurer == i;
        if k > 0 {
          assert Plan(rows[1..], insurers, next)[k - 1] == Process && rows[1..][k - 1].insurer == i;
        }
      }
    }
  }

  /** A pending batch of insurer 0 with n claims, for the example below. */
  function SampleRow(n: int): Batch
  {
    Batch(0, 0, 0, Identifier("", 0, None), n, 0, 0.0, false, 0)
  }

  /**
   * Raising an insurer's daily capacity can lower the number of batches
   * processed: batches of 6, 2 and 3 claims (minimum size 1) give two
   * processed batches at capacity 5 but only one at capacity 6.
   */
  lemma CapacityNotMonotone()
    ensures
      var rows := [SampleRow(6), SampleRow(2), SampleRow(3)];
      && ProcessedCount(Plan(rows, map[0 := Insurer("", "", 5, 1, 50, true)], map[])) == 2
      && ProcessedCount(Plan(rows, map[0 := Insurer("", "", 6, 1, 50, true)], map[])) == 1
  {
    var rows := [SampleRow(6), SampleRow(2), SampleRow(3)];
    assert rows[1..] == [SampleRow(2), SampleRow(3)] && rows[2..] == [SampleRow(3)] && rows[1..][1..] == rows[2..];
    var at5 := map[0 := Insurer("", "", 5, 1, 50, true)];
    var at6 := map[0 := Insurer("", "", 6, 1, 50, true)];
    var empty: map<nat, int> := map[];

    assert Decide(rows[0], at5, empty) == Defer;
    assert Decide(rows[1], at5, empty) == Process;
    var two := Charge(empty, rows[1], Process);
    assert Seeded(two, 0) == 2;
    assert Decide(rows[2], at5, two) == Process;
    assert Plan(rows[2..], at5, two) == [Process] + Plan([], at5, Charge(two, rows[2], Process));
    assert Plan(rows[1..], at5, empty) == [Process] + Plan(rows[2..], at5, two);
    assert Plan(rows, at5, empty) == [Defer, Process, Process];

    assert Decide(rows[0], at6, empty) == Process;
    var six := Charge(empty, rows[0], Process);
    assert Seeded(six, 0) == 6;
    assert Decide(rows[1], at6, six) == Defer;
    assert Decide(rows[2], at6, six) == Defer;
    assert Plan(rows[2..], at6, six) == [Defer] + Plan([], at6, six);
    assert Plan(rows[1..], at6, six) == [Defer] + Plan(rows[2..], at6, six);
    assert Plan(rows, at6, empty) == [Process, Defer, Defer];

    assert ProcessedCount([Process]) == 1 && ProcessedCount([Defer]) == 0;
    assert [Process, Defer, Defer][1..] == [Defer, Defer] && [Defer, Defer][1..] == [Defer];
    assert [Defer, Process, Process][1..] == [Process, Process] && [Process, Process][1..] == [Process];
  }
}
