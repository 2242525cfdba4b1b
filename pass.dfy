/**
 * One run of the daily scheduler as a function of the batches table.  The
 * ready batches (unprocessed, due today or earlier) are read in pages in
 * (processing date, creation) order; every page re-runs the query at an
 * offset one page further on, so it sees the table as the earlier pages
 * left it; the per-insurer counts start from the same seed on every page.
 * A page shorter than the page size ends the run.
 */
module DailyPass {
  import opened Domain
  import opened Ordering
  import opened Schedule

  /** Unprocessed batches whose processing date is today or earlier. */
  ghost function ReadyIds(bs: map<nat, Batch>, today: int): set<nat>
  {
    set b | b in bs && !bs[b].processed && bs[b].processingDate <= today
  }

  /** The ordering key of the ready query: the processing date (ties by id, i.e. creation order). */
  function DueKeys(bs: map<nat, Batch>, s: set<nat>): map<nat, int>
    requires s <= bs.Keys
  {
    map b | b in s :: bs[b].processingDate
  }

  /** The ready batches in query order. */
  ghost function ReadyQueue(bs: map<nat, Batch>, today: int): (q: seq<nat>)
    ensures forall b :: b in q <==> b in ReadyIds(bs, today)
    ensures |q| == |ReadyIds(bs, today)|
  {
    Ordered(ReadyIds(bs, today), DueKeys(bs, ReadyIds(bs, today)))
  }

  /** LIMIT size OFFSET offset. */
  function Window(q: seq<nat>, offset: nat, size: nat): (w: seq<nat>)
    ensures |w| <= size
    ensures offset <= |q| ==> offset + |w| <= |q| && w == q[offset .. offset + |w|]
    ensures |w| < size ==> offset + |w| >= |q|
    ensures forall b | b in w :: b in q
  {
    if offset >= |q| then [] else q[offset .. Min(offset + size, |q|)]
  }

  predicate AllIn(ids: seq<nat>, bs: map<nat, Batch>)
  {
    forall k | 0 <= k < |ids| :: ids[k] in bs
  }

  /** A page of the ready query holds existing, unprocessed batches, each once. */
  lemma PageOfReady(bs: map<nat, Batch>, today: int, offset: nat, size: nat)
    ensures AllIn(Window(ReadyQueue(bs, today), offset, size), bs)
    ensures Distinct(Window(ReadyQueue(bs, today), offset, size))
    ensures forall x | x in Window(ReadyQueue(bs, today), offset, size) :: x in bs && !bs[x].processed
  {
    var q := ReadyQueue(bs, today);
    SortedDistinct(q, DueKeys(bs, ReadyIds(bs, today)));
    var w := Window(q, offset, size);
    forall k | 0 <= k < |w| ensures w[k] in bs {
      assert w[k] in q;
    }
  }

  /** The rows of the page as the query returned them. */
  function Rows(bs: map<nat, Batch>, ids: seq<nat>): (rows: seq<Batch>)
    requires AllIn(ids, bs)
    ensures |rows| == |ids| && forall k | 0 <= k < |ids| :: rows[k] == bs[ids[k]]
  {
    if ids == [] then [] else [bs[ids[0]]] + Rows(bs, ids[1..])
  }

  /** The row after one decision: processed = true, or processing_date = tomorrow, or as it was. */
  function Decided(bt: Batch, d: Decision, today: int): Batch
  {
    match d
    case Skip => bt
    case Defer => bt.(processingDate := today + 1)
    case Process => bt.(processed := true)
  }

  /** What one decision writes. */
  function Update(bs: map<nat, Batch>, b: nat, d: Decision, today: int): (r: map<nat, Batch>)
    requires b in bs
    ensures r.Keys == bs.Keys && forall x | x in bs && x != b :: r[x] == bs[x]
  {
    bs[b := Decided(bs[b], d, today)]
  }

  /** The page's writes, in page order. */
  function Apply(bs: map<nat, Batch>, ids: seq<nat>, ds: seq<Decision>, today: int): (r: map<nat, Batch>)
    requires |ids| == |ds| && AllIn(ids, bs)
    ensures r.Keys == bs.Keys
  {
    if ids == [] then bs else Apply(Update(bs, ids[0], ds[0], today), ids[1..], ds[1..], today)
  }

  /** The ids the decisions process, in page order. */
  function Chosen(ids: seq<nat>, ds: seq<Decision>): seq<nat>
    requires |ids| == |ds|
  {
    if ids == [] then [] else (if ds[0] == Process then [ids[0]] else []) + Chosen(ids[1..], ds[1..])
  }

  /** The ids processed among the first j+1 of the page: those among the first j, then the j-th if processed. */
  lemma {:induction false} ChosenExtend(ids: seq<nat>, ds: seq<Decision>, j: nat)
    requires |ids| == |ds| && j < |ids|
    ensures Chosen(ids[..j + 1], ds[..j + 1]) == Chosen(ids[..j], ds[..j]) + (if ds[j] == Process then [ids[j]] else [])
  {
    if j > 0 {
      ChosenExtend(ids[1..], ds[1..], j - 1);
      assert ids[..j + 1][1..] == ids[1..][..j] && ds[..j + 1][1..] == ds[1..][..j];
      assert ids[..j][1..] == ids[1..][..j - 1] && ds[..j][1..] == ds[1..][..j - 1];
    } else {
      assert ids[..1][1..] == [] && ds[..1][1..] == [];
    }
  }

  /**
   * A page's writes touch only the page's batches, never clear a processed
   * flag, and leave every batch they process processed.
   */
  lemma {:induction false} ApplyWrites(bs: map<nat, Batch>, ids: seq<nat>, ds: seq<Decision>, today: int)
    requires |ids| == |ds| && AllIn(ids, bs)
    ensures forall x | x in bs && x !in ids :: Apply(bs, ids, ds, today)[x] == bs[x]
    ensures forall x | x in bs && bs[x].processed :: Apply(bs, ids, ds, today)[x].processed
    ensures forall x | x in bs && x in Chosen(ids, ds) :: Apply(bs, ids, ds, today)[x].processed
  {
    if ids != [] {
      var next := Update(bs, ids[0], ds[0], today);
      ApplyWrites(next, ids[1..], ds[1..], today);
    }
  }

  /** On a page with no repeated id, each batch ends as its own decision leaves it. */
  lemma {:induction false} ApplyAt(bs: map<nat, Batch>, ids: seq<nat>, ds: seq<Decision>, today: int)
    requires |ids| == |ds| && AllIn(ids, bs) && Distinct(ids)
    ensures forall k | 0 <= k < |ids| :: Apply(bs, ids, ds, today)[ids[k]] == Decided(bs[ids[k]], ds[k], today)
  {
    if ids != [] {
      var next := Update(bs, ids[0], ds[0], today);
      ApplyAt(next, ids[1..], ds[1..], today);
      ApplyWrites(next, ids[1..], ds[1..], today);
      forall k | 0 <= k < |ids|
        ensures Apply(bs, ids, ds, today)[ids[k]] == Decided(bs[ids[k]], ds[k], today)
      {
        if k == 0 {
          assert ids[0] !in ids[1..];
        } else {
          assert ids[1..][k - 1] == ids[k] && ids[k] != ids[0];
        }
      }
    }
  }

  /** A page's writes only take batches out of the ready set. */
  lemma {:induction false} ApplyShrinks(bs: map<nat, Batch>, ids: seq<nat>, ds: seq<Decision>, today: int)
    requires |ids| == |ds| && AllIn(ids, bs)
    ensures ReadyIds(Apply(bs, ids, ds, today), today) <= ReadyIds(bs, today)
  {
    if ids != [] {
      var next := Update(bs, ids[0], ds[0], today);
      ApplyShrinks(next, ids[1..], ds[1..], today);
      assert ReadyIds(next, today) <= ReadyIds(bs, today);
    }
  }

  /** How much of the run is left: the ready batches at or after the offset, plus one. */
  ghost function Pending(bs: map<nat, Batch>, today: int, offset: nat): nat
  {
    var n := |ReadyIds(bs, today)|;
    if offset <= n then n - offset + 1 else 0
  }

  /**
   * The run from page `offset / size` on: the batches table after it and
   * the ids it marked processed, in order.
   */
  ghost function Pass(bs: map<nat, Batch>, today: int, insurers: map<nat, Insurer>, seeds: map<nat, int>,
                      size: nat, offset: nat): (map<nat, Batch>, seq<nat>)
    requires size > 0
    decreases Pending(bs, today, offset)
  {
    var page := Window(ReadyQueue(bs, today), offset, size);
    if page == [] then (bs, [])
    else
      var ds := Plan(Rows(bs, page), insurers, seeds);
      var next := Apply(bs, page, ds, today);
      var done := Chosen(page, ds);
      if |page| < size then (next, done)
      else
        PendingDrops(bs, page, ds, today, size, offset);
        var rest := Pass(next, today, insurers, seeds, size, offset + size);
        (rest.0, done + rest.1)
  }

  /** One page of the run: an empty page ends it, a short page is the last, a full page leaves less to do and the run goes on at the next offset. */
  lemma PassStep(bs: map<nat, Batch>, today: int, insurers: map<nat, Insurer>, seeds: map<nat, int>,
                 size: nat, offset: nat)
    requires size > 0
    ensures AllIn(Window(ReadyQueue(bs, today), offset, size), bs)
    ensures
      var page := Window(ReadyQueue(bs, today), offset, size);
      var ds := Plan(Rows(bs, page), insurers, seeds);
      var next := Apply(bs, page, ds, today);
      && (page == [] ==> Pass(bs, today, insurers, seeds, size, offset) == (bs, []))
      && (page != [] && |page| < size ==> Pass(bs, today, insurers, seeds, size, offset) == (next, Chosen(page, ds)))
      && (page != [] && |page| >= size ==>
            && Pending(next, today, offset + size) < Pending(bs, today, offset)
            && var rest := Pass(next, today, insurers, seeds, size, offset + size);
               Pass(bs, today, insurers, seeds, size, offset) == (rest.0, Chosen(page, ds) + rest.1))
  {
    PageOfReady(bs, today, offset, size);
    var page := Window(ReadyQueue(bs, today), offset, size);
    if page != [] && |page| >= size {
      var ds := Plan(Rows(bs, page), insurers, seeds);
      ApplyShrinks(bs, page, ds, today);
      CardSubset(ReadyIds(Apply(bs, page, ds, today), today), ReadyIds(bs, today));
    }
  }

  /** `run` is what the run from this point on, after the batches `done`, comes to. */
  ghost predicate Continues(run: (map<nat, Batch>, seq<nat>), bs: map<nat, Batch>, today: int,
                            insurers: map<nat, Insurer>, seeds: map<nat, int>, size: nat, offset: nat, done: seq<nat>)
  {
    size > 0
    && var rest := Pass(bs, today, insurers, seeds, size, offset);
       run == (rest.0, done + rest.1)
  }

  /** An empty page ends the run where it stands. */
  lemma RunEnds(run: (map<nat, Batch>, seq<nat>), bs: map<nat, Batch>, today: int,
                insurers: map<nat, Insurer>, seeds: map<nat, int>, size: nat, offset: nat, done: seq<nat>)
    requires Continues(run, bs, today, insurers, seeds, size, offset, done)
    requires Window(ReadyQueue(bs, today), offset, size) == []
    ensures run == (bs, done)
  {
    PassStep(bs, today, insurers, seeds, size, offset);
    assert done + [] == done;
  }

  /** Concatenation regroups; proved apart because next to the unfolded Pass the same step is costly. */
  lemma Associative(a: seq<nat>, b: seq<nat>, c: seq<nat>)
    ensures a + (b + c) == (a + b) + c
  {
  }

  /** After a page, a short page ends the run; a full one leaves less to do and the run continues at the next offset. */
  lemma RunGoesOn(run: (map<nat, Batch>, seq<nat>), bs: map<nat, Batch>, today: int,
                  insurers: map<nat, Insurer>, seeds: map<nat, int>, size: nat, offset: nat, done: seq<nat>,
                  page: seq<nat>)
    requires Continues(run, bs, today, insurers, seeds, size, offset, done)
    requires page == Window(ReadyQueue(bs, today), offset, size) && page != [] && AllIn(page, bs)
    ensures
      var ds := Plan(Rows(bs, page), insurers, seeds);
      var next := Apply(bs, page, ds, today);
      var done' := done + Chosen(page, ds);
      && (|page| < size ==> run == (next, done'))
      && (|page| >= size ==>
            Pending(next, today, offset + size) < Pending(bs, today, offset)
            && Continues(run, next, today, insurers, seeds, size, offset + size, done'))
  {
    PassStep(bs, today, insurers, seeds, size, offset);
    var ds := Plan(Rows(bs, page), insurers, seeds);
    var next := Apply(bs, page, ds, today);
    if |page| >= size {
      var rest := Pass(next, today, insurers, seeds, size, offset + size);
      Associative(done, Chosen(page, ds), rest.1);
    }
  }

  /** A non-empty page's writes leave fewer ready batches from the next offset on. */
  lemma PendingDrops(bs: map<nat, Batch>, page: seq<nat>, ds: seq<Decision>, today: int, size: nat, offset: nat)
    requires size > 0 && page == Window(ReadyQueue(bs, today), offset, size) && page != []
    requires |page| == |ds| && AllIn(page, bs)
    ensures Pending(Apply(bs, page, ds, today), today, offset + size) < Pending(bs, today, offset)
  {
    ApplyShrinks(bs, page, ds, today);
    CardSubset(ReadyIds(Apply(bs, page, ds, today), today), ReadyIds(bs, today));
  }

  lemma CardSubset(a: set<nat>, b: set<nat>)
    requires a <= b
    ensures |a| <= |b|
  {
    assert b == a + (b - a);
  }
}
