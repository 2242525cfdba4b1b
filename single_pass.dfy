/**
 * The daily run as it is evidently meant to work: every ready batch is
 * considered exactly once, in query order, with the per-insurer counts
 * carried through the whole day.  Two small tables on which the paged run
 * of DailyPass departs from it: one where a ready batch that fits is never
 * looked at, one where an insurer is charged past its daily capacity.
 */
module SinglePass {
  import opened Domain
  import opened Ordering
  import opened Schedule
  import opened DailyPass

  /** The ready query's order is the only ascending arrangement of the ready set. */
  lemma QueueIs(bs: map<nat, Batch>, today: int, q: seq<nat>)
    requires SortedBy(q, DueKeys(bs, ReadyIds(bs, today)))
    requires forall b :: b in q <==> b in ReadyIds(bs, today)
    ensures ReadyQueue(bs, today) == q
  {
    SortedUnique(q, ReadyQueue(bs, today), DueKeys(bs, ReadyIds(bs, today)));
  }

  /** The ready query returns existing batches, each once. */
  lemma ReadyInTable(bs: map<nat, Batch>, today: int)
    ensures AllIn(ReadyQueue(bs, today), bs) && Distinct(ReadyQueue(bs, today))
  {
    var q := ReadyQueue(bs, today);
    SortedDistinct(q, DueKeys(bs, ReadyIds(bs, today)));
    forall k | 0 <= k < |q| ensures q[k] in bs {
      assert q[k] in q;
    }
  }

  /** The ready batches' rows, in query order. */
  ghost function ReadyRows(bs: map<nat, Batch>, today: int): (rows: seq<Batch>)
    ensures |rows| == |ReadyQueue(bs, today)|
  {
    ReadyInTable(bs, today);
    Rows(bs, ReadyQueue(bs, today))
  }

  /** One decision per ready batch, the counts starting from `seeds` and carried through the whole day. */
  ghost function DayDecisions(bs: map<nat, Batch>, today: int, insurers: map<nat, Insurer>, seeds: map<nat, int>)
    : (ds: seq<Decision>)
    ensures |ds| == |ReadyQueue(bs, today)|
  {
    Plan(ReadyRows(bs, today), insurers, seeds)
  }

  /** The batches table after the single pass. */
  ghost function DayRun(bs: map<nat, Batch>, today: int, insurers: map<nat, Insurer>, seeds: map<nat, int>)
    : map<nat, Batch>
  {
    ReadyInTable(bs, today);
    Apply(bs, ReadyQueue(bs, today), DayDecisions(bs, today, insurers, seeds), today)
  }

  /** The batches the single pass processes, in order. */
  ghost function DayProcessed(bs: map<nat, Batch>, today: int, insurers: map<nat, Insurer>, seeds: map<nat, int>)
    : seq<nat>
  {
    Chosen(ReadyQueue(bs, today), DayDecisions(bs, today, insurers, seeds))
  }

  /**
   * Over the whole day, an insurer's claims already processed plus those
   * the pass processes stay within its daily capacity (or within what had
   * already been processed, when that was more).
   */
  lemma DayRunWithinCapacity(bs: map<nat, Batch>, today: int, insurers: map<nat, Insurer>, seeds: map<nat, int>, i: nat)
    ensures Seeded(seeds, i) + ProcessedLoad(ReadyRows(bs, today), DayDecisions(bs, today, insurers, seeds), i)
            <= Max(Seeded(seeds, i), Capacity(insurers, i))
  {
    var rows := ReadyRows(bs, today);
    PlanCharges(rows, insurers, seeds, i);
    PlanWithinCapacity(rows, insurers, seeds, i);
  }

  /**
   * After the single pass, the batches still ready are exactly the ready
   * batches below their insurer's minimum size: every other ready batch was
   * either processed or moved to tomorrow.
   */
  lemma DayRunLeavesOnlyUndersized(bs: map<nat, Batch>, today: int, insurers: map<nat, Insurer>, seeds: map<nat, int>)
    ensures forall b :: b in ReadyIds(DayRun(bs, today, insurers, seeds), today)
                    <==> b in ReadyIds(bs, today) && bs[b].totalClaims < MinSize(insurers, bs[b].insurer)
  {
    forall b
      ensures b in ReadyIds(DayRun(bs, today, insurers, seeds), today)
          <==> b in ReadyIds(bs, today) && bs[b].totalClaims < MinSize(insurers, bs[b].insurer)
    {
      DayRunAt(bs, today, insurers, seeds, b);
    }
  }

  lemma DayRunAt(bs: map<nat, Batch>, today: int, insurers: map<nat, Insurer>, seeds: map<nat, int>, b: nat)
    ensures b in ReadyIds(DayRun(bs, today, insurers, seeds), today)
        <==> b in ReadyIds(bs, today) && bs[b].totalClaims < MinSize(insurers, bs[b].insurer)
  {
    var q := ReadyQueue(bs, today);
    if b in q {
      var k :| 0 <= k < |q| && q[k] == b;
      DayRunAtQueued(bs, today, insurers, seeds, k);
    } else {
      ReadyInTable(bs, today);
      ApplyWrites(bs, q, DayDecisions(bs, today, insurers, seeds), today);
    }
  }

  /** The k-th ready batch stays ready exactly when the single pass skips it, i.e. when it is undersized. */
  lemma DayRunAtQueued(bs: map<nat, Batch>, today: int, insurers: map<nat, Insurer>, seeds: map<nat, int>, k: nat)
    requires k < |ReadyQueue(bs, today)|
    ensures var b := ReadyQueue(bs, today)[k];
      b in bs && b in ReadyIds(bs, today)
      && (b in ReadyIds(DayRun(bs, today, insurers, seeds), today) <==> bs[b].totalClaims < MinSize(insurers, bs[b].insurer))
  {
    var q := ReadyQueue(bs, today);
    ReadyInTable(bs, today);
    var b := q[k];
    var ds := DayDecisions(bs, today, insurers, seeds);
    var rows := ReadyRows(bs, today);
    assert rows[k] == bs[b];
    PlanSkipsExactlyUndersized(rows, insurers, seeds);
    ApplyAt(bs, q, ds, today);
    assert DayRun(bs, today, insurers, seeds)[b] == Decided(bs[b], ds[k], today);
  }

  /** A page of one batch: the batch is decided against the seeds alone and the run goes on at the next offset. */
  lemma OnePage(bs: map<nat, Batch>, today: int, insurers: map<nat, Insurer>, seeds: map<nat, int>, offset: nat, b: nat)
    requires Window(ReadyQueue(bs, today), offset, 1) == [b]
    ensures b in bs
    ensures
      var d := Decide(bs[b], insurers, seeds);
      var rest := Pass(Update(bs, b, d, today), today, insurers, seeds, 1, offset + 1);
      Pass(bs, today, insurers, seeds, 1, offset) == (rest.0, (if d == Process then [b] else []) + rest.1)
  {
    PassStep(bs, today, insurers, seeds, 1, offset);
    assert [b][0] == b;
    var d := Decide(bs[b], insurers, seeds);
    assert Rows(bs, [b]) == [bs[b]];
    assert Plan([bs[b]], insurers, seeds) == [d];
    assert Apply(bs, [b], [d], today) == Update(bs, b, d, today);
    assert Chosen([b], [d]) == (if d == Process then [b] else []);
  }

  /** An empty page ends the run. */
  lemma NoPage(bs: map<nat, Batch>, today: int, insurers: map<nat, Insurer>, seeds: map<nat, int>, offset: nat)
    requires Window(ReadyQueue(bs, today), offset, 1) == []
    ensures Pass(bs, today, insurers, seeds, 1, offset) == (bs, [])
  {
    PassStep(bs, today, insurers, seeds, 1, offset);
  }

  /**
   * Processing one ready batch takes it out of the ready queue and leaves
   * the order of the others as it was.
   */
  lemma DropProcessed(bs: map<nat, Batch>, today: int, k: nat)
    requires k < |ReadyQueue(bs, today)|
    ensures ReadyQueue(bs, today)[k] in bs
    ensures var q := ReadyQueue(bs, today);
      ReadyQueue(Update(bs, q[k], Process, today), today) == q[..k] + q[k + 1..]
  {
    var q := ReadyQueue(bs, today);
    ReadyInTable(bs, today);
    var b := q[k];
    var after := Update(bs, b, Process, today);
    var r := q[..k] + q[k + 1..];
    ReadyAfterProcess(bs, today, b);
    Removed(q, k, r);
    assert forall x :: x in r <==> x in ReadyIds(after, today) by {
      RemovedMembers(q, k);
    }
    KeysAfterProcess(bs, today, b);
    SortedWithout(q, k, DueKeys(bs, ReadyIds(bs, today)), DueKeys(after, ReadyIds(after, today)));
    QueueIs(after, today, r);
  }

  /** The ready set after processing b is the ready set without b. */
  lemma ReadyAfterProcess(bs: map<nat, Batch>, today: int, b: nat)
    requires b in bs
    ensures ReadyIds(Update(bs, b, Process, today), today) == ReadyIds(bs, today) - {b}
  {
  }

  /** Processing a batch leaves the ordering key of every other ready batch as it was. */
  lemma KeysAfterProcess(bs: map<nat, Batch>, today: int, b: nat)
    requires b in bs
    ensures var after := Update(bs, b, Process, today);
      forall x | x in ReadyIds(after, today) ::
        x in ReadyIds(bs, today) && DueKeys(after, ReadyIds(after, today))[x] == DueKeys(bs, ReadyIds(bs, today))[x]
  {
    ReadyAfterProcess(bs, today, b);
  }

  /** Deleting position k of a sequence shifts the later elements down by one. */
  lemma Removed(q: seq<nat>, k: nat, r: seq<nat>)
    requires k < |q| && r == q[..k] + q[k + 1..]
    ensures |r| == |q| - 1
    ensures forall i | 0 <= i < k :: r[i] == q[i]
    ensures forall i | k <= i < |r| :: r[i] == q[i + 1]
  {
  }

  /** Deleting position k of a sequence with no repeats removes exactly its k-th element. */
  lemma RemovedMembers(q: seq<nat>, k: nat)
    requires k < |q| && Distinct(q)
    ensures forall x :: x in q[..k] + q[k + 1..] <==> x in q && x != q[k]
  {
    var r := q[..k] + q[k + 1..];
    Removed(q, k, r);
    forall x | x in q && x != q[k] ensures x in r {
      var j :| 0 <= j < |q| && q[j] == x;
      assert r[if j < k then j else j - 1] == x;
    }
  }

  /** Deleting an element keeps a sequence sorted, under any key that agrees on what is left. */
  lemma SortedWithout(q: seq<nat>, k: nat, key: map<nat, int>, key': map<nat, int>)
    requires k < |q| && SortedBy(q, key)
    requires forall x | x in q[..k] + q[k + 1..] :: x in key' && x in key && key'[x] == key[x]
    ensures SortedBy(q[..k] + q[k + 1..], key')
  {
    var r := q[..k] + q[k + 1..];
    Removed(q, k, r);
    forall i | 0 <= i < |r| ensures r[i] in key' {
      assert r[i] in r;
    }
    forall i, j | 0 <= i < j < |r| ensures Before(key', r[i], r[j]) {
      assert r[i] in r && r[j] in r;
      assert Before(key, q[if i < k then i else i + 1], q[if j < k then j else j + 1]);
    }
  }

  /** A page of one batch that is processed, followed by a known rest of the run. */
  lemma ProcessThen(bs: map<nat, Batch>, today: int, insurers: map<nat, Insurer>, seeds: map<nat, int>,
                    offset: nat, next: nat, b: nat, after: map<nat, Batch>, tail: seq<nat>, run: seq<nat>)
    requires next == offset + 1
    requires Window(ReadyQueue(bs, today), offset, 1) == [b]
    requires b in bs && Decide(bs[b], insurers, seeds) == Process
    requires Pass(Update(bs, b, Process, today), today, insurers, seeds, 1, next) == (after, tail)
    requires run == [b] + tail
    ensures Pass(bs, today, insurers, seeds, 1, offset) == (after, run)
  {
    OnePage(bs, today, insurers, seeds, offset, b);
  }

  /** Processing the head of a ready queue of two. */
  lemma DropHeadOfTwo(bs: map<nat, Batch>, today: int, x: nat, y: nat)
    requires ReadyQueue(bs, today) == [x, y]
    ensures x in bs && ReadyQueue(Update(bs, x, Process, today), today) == [y]
  {
    DropProcessed(bs, today, 0);
    assert [x, y][..0] + [x, y][1..] == [y];
  }

  /** Processing the head of a ready queue of three. */
  lemma DropHeadOfThree(bs: map<nat, Batch>, today: int, x: nat, y: nat, z: nat)
    requires ReadyQueue(bs, today) == [x, y, z]
    ensures x in bs && ReadyQueue(Update(bs, x, Process, today), today) == [y, z]
  {
    DropProcessed(bs, today, 0);
    assert [x, y, z][..0] + [x, y, z][1..] == [y, z];
  }

  /** Processing the second of two ready batches. */
  lemma DropSecond(bs: map<nat, Batch>, today: int, y: nat, z: nat)
    requires ReadyQueue(bs, today) == [y, z]
    ensures z in bs && ReadyQueue(Update(bs, z, Process, today), today) == [y]
  {
    DropProcessed(bs, today, 1);
    assert [y, z][..1] + [y, z][2..] == [y];
  }

  /**
   * Paging by offset over a query whose result shrinks, with pages of one
   * batch: when two batches are ready and the first is processed, the
   * second query, at offset 1, finds the second batch at offset 0 and comes
   * back empty, so the run ends without ever looking at it.
   */
  lemma PagedRunStopsEarly(bs: map<nat, Batch>, today: int, insurers: map<nat, Insurer>, seeds: map<nat, int>,
                           x: nat, y: nat)
    requires ReadyQueue(bs, today) == [x, y]
    requires x in bs && Decide(bs[x], insurers, seeds) == Process
    ensures Pass(bs, today, insurers, seeds, 1, 0) == (Update(bs, x, Process, today), [x])
  {
    var next := Update(bs, x, Process, today);
    DropHeadOfTwo(bs, today, x, y);
    assert Window([x, y], 0, 1) == [x] by { assert [x, y][0..1] == [x]; }
    NoPage(next, today, insurers, seeds, 1);
    assert [x] + [] == [x];
    ProcessThen(bs, today, insurers, seeds, 0, 1, x, next, [], [x]);
  }

  /**
   * The counts restart on every page, with pages of one batch: when three
   * batches are ready and the first is processed, the second query, at
   * offset 1, returns the third, which is decided against the seeds again,
   * as if the first had not been processed.
   */
  lemma PagedRunRecounts(bs: map<nat, Batch>, today: int, insurers: map<nat, Insurer>, seeds: map<nat, int>,
                         x: nat, y: nat, z: nat)
    requires ReadyQueue(bs, today) == [x, y, z]
    requires x in bs && z in bs && x != z
    requires Decide(bs[x], insurers, seeds) == Process && Decide(bs[z], insurers, seeds) == Process
    ensures Pass(bs, today, insurers, seeds, 1, 0)
         == (Update(Update(bs, x, Process, today), z, Process, today), [x, z])
  {
    assert [x] + [z] == [x, z];
    var mid := Update(bs, x, Process, today);
    var last := Update(mid, z, Process, today);
    assert Window(ReadyQueue(bs, today), 0, 1) == [x] by {
      assert [x, y, z][0..1] == [x];
    }
    RecountAfterHead(bs, today, insurers, seeds, x, y, z);
    ProcessThen(bs, today, insurers, seeds, 0, 1, x, last, [z], [x, z]);
  }

  lemma RecountAfterHead(bs: map<nat, Batch>, today: int, insurers: map<nat, Insurer>, seeds: map<nat, int>,
                         x: nat, y: nat, z: nat)
    requires ReadyQueue(bs, today) == [x, y, z]
    requires x in bs && z in bs && x != z && Decide(bs[z], insurers, seeds) == Process
    ensures var mid := Update(bs, x, Process, today);
      Pass(mid, today, insurers, seeds, 1, 1) == (Update(mid, z, Process, today), [z])
  {
    var mid := Update(bs, x, Process, today);
    DropHeadOfThree(bs, today, x, y, z);
    assert mid[z] == bs[z];
    RecountSecondPage(mid, today, insurers, seeds, y, z);
  }

  lemma RecountSecondPage(bs: map<nat, Batch>, today: int, insurers: map<nat, Insurer>, seeds: map<nat, int>,
                          y: nat, z: nat)
    requires ReadyQueue(bs, today) == [y, z]
    requires z in bs && Decide(bs[z], insurers, seeds) == Process
    ensures Pass(bs, today, insurers, seeds, 1, 1) == (Update(bs, z, Process, today), [z])
  {
    var last := Update(bs, z, Process, today);
    DropSecond(bs, today, y, z);
    assert Window([y, z], 1, 1) == [z] by { assert [y, z][1..2] == [z]; }
    NoPage(last, today, insurers, seeds, 2);
    assert [z] + [] == [z];
    ProcessThen(bs, today, insurers, seeds, 1, 2, z, last, [], [z]);
  }

  /** Insurer 0: capacity 100, minimum 5, maximum 50. */
  function OneInsurer(): map<nat, Insurer>
  {
    map[0 := Insurer("", "", 100, 5, 50, true)]
  }

  /** Two ready batches of n claims each for insurer 0. */
  function Twins(n: int): map<nat, Batch>
  {
    map[0 := SampleRow(n), 1 := SampleRow(n)]
  }

  lemma TwinsQueue(n: int)
    ensures ReadyQueue(Twins(n), 0) == [0, 1]
  {
    assert ReadyIds(Twins(n), 0) == {0, 1};
    QueueIs(Twins(n), 0, [0, 1]);
  }

  /**
   * Two ready batches of n claims, 5 <= n <= 50, for an insurer with
   * minimum 5 and capacity 100, pages of one batch: the paged run processes
   * batch 0 only, and batch 1 stays ready although it is not undersized.
   * The single pass processes both.
   */
  lemma PagedRunSkipsReadyBatch(n: int)
    requires 5 <= n <= 50
    ensures
      var run := Pass(Twins(n), 0, OneInsurer(), map[], 1, 0);
      && run.1 == [0]
      && 1 in ReadyIds(run.0, 0) && Twins(n)[1].totalClaims >= MinSize(OneInsurer(), 0)
      && DayProcessed(Twins(n), 0, OneInsurer(), map[]) == [0, 1]
  {
    TwinsQueue(n);
    PagedRunStopsEarly(Twins(n), 0, OneInsurer(), map[], 0, 1);
    assert 1 in ReadyIds(Update(Twins(n), 0, Process, 0), 0);
    TwinsDay(n);
  }

  lemma TwinsDay(n: int)
    requires 5 <= n <= 50
    ensures DayProcessed(Twins(n), 0, OneInsurer(), map[]) == [0, 1]
  {
    TwinsQueue(n);
    assert ReadyRows(Twins(n), 0) == [SampleRow(n), SampleRow(n)];
    TwinsPlan(n);
    assert Chosen([1], [Process]) == [1];
    assert Chosen([0, 1], [Process, Process]) == [0, 1];
  }

  lemma TwinsPlan(n: int)
    requires 5 <= n <= 50
    ensures Plan([SampleRow(n), SampleRow(n)], OneInsurer(), map[]) == [Process, Process]
  {
    var rows := [SampleRow(n), SampleRow(n)];
    var once := Charge(map[], SampleRow(n), Process);
    assert Seeded(once, 0) == n;
    assert Plan(rows[1..], OneInsurer(), once) == [Process];
  }

  /** Batches of big, 1 and big claims for insurer 0; the middle one is undersized. */
  function BigSmallBig(big: int): map<nat, Batch>
  {
    map[0 := SampleRow(big), 1 := SampleRow(1), 2 := SampleRow(big)]
  }

  lemma BigSmallBigQueue(big: int)
    ensures ReadyQueue(BigSmallBig(big), 0) == [0, 1, 2]
  {
    assert ReadyIds(BigSmallBig(big), 0) == {0, 1, 2};
    QueueIs(BigSmallBig(big), 0, [0, 1, 2]);
  }

  /**
   * Batches of big, 1 and big claims, 50 < big <= 100, for an insurer with
   * capacity 100 and minimum 5, pages of one batch: the paged run processes
   * batches 0 and 2, 2 * big claims for an insurer whose capacity is 100.
   * The single pass skips batch 1 and defers batch 2.
   */
  lemma PagedRunExceedsCapacity(big: int)
    requires 50 < big <= 100
    ensures
      var run := Pass(BigSmallBig(big), 0, OneInsurer(), map[], 1, 0);
      && run.1 == [0, 2]
      && BigSmallBig(big)[0].totalClaims + BigSmallBig(big)[2].totalClaims > Capacity(OneInsurer(), 0)
      && DayProcessed(BigSmallBig(big), 0, OneInsurer(), map[]) == [0]
  {
    BigSmallBigQueue(big);
    assert BigSmallBig(big)[0] == SampleRow(big) && BigSmallBig(big)[2] == SampleRow(big);
    PagedRunRecounts(BigSmallBig(big), 0, OneInsurer(), map[], 0, 1, 2);
    BigSmallBigDay(big);
  }

  lemma BigSmallBigDay(big: int)
    requires 50 < big <= 100
    ensures DayProcessed(BigSmallBig(big), 0, OneInsurer(), map[]) == [0]
  {
    BigSmallBigQueue(big);
    BigSmallBigRows(big);
    BigSmallBigPlan(big);
    BigSmallBigChosen();
  }

  lemma BigSmallBigRows(big: int)
    ensures ReadyRows(BigSmallBig(big), 0) == [SampleRow(big), SampleRow(1), SampleRow(big)]
  {
    BigSmallBigQueue(big);
  }

  lemma BigSmallBigChosen()
    ensures Chosen([0, 1, 2], [Process, Skip, Defer]) == [0]
  {
    assert Chosen([2], [Defer]) == [];
    assert Chosen([1, 2], [Skip, Defer]) == [];
  }

  lemma BigSmallBigPlan(big: int)
    requires 50 < big <= 100
    ensures Plan([SampleRow(big), SampleRow(1), SampleRow(big)], OneInsurer(), map[]) == [Process, Skip, Defer]
  {
    var rows := [SampleRow(big), SampleRow(1), SampleRow(big)];
    var full := Charge(map[], SampleRow(big), Process);
    assert Seeded(full, 0) == big;
    assert rows[1..] == [SampleRow(1), SampleRow(big)] && rows[1..][1..] == [SampleRow(big)];
    assert Plan(rows[1..][1..], OneInsurer(), full) == [Defer];
    assert Plan(rows[1..], OneInsurer(), full) == [Skip, Defer];
  }
}
