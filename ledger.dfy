/**
 * The aggregates a batch caches: how many claims reference it and the sum of
 * their amounts.  These are the COUNT(*) and SUM(total_amount) that the
 * service reads back every time a claim joins or leaves a batch.
 */
module Ledger {
  import opened Domain

  /** 1 when the claim references batch b, else 0. */
  function Ind(c: Claim, b: nat): nat
  {
    if c.batch == Some(b) then 1 else 0
  }

  /** The claim's amount when it references batch b, else 0. */
  function Share(c: Claim, b: nat): int
  {
    if c.batch == Some(b) then c.amount else 0
  }

  /** Number of claims whose batch is b. */
  function Count(cs: seq<Claim>, b: nat): (n: nat)
    ensures n <= |cs|
  {
    if |cs| == 0 then 0 else Count(cs[..|cs| - 1], b) + Ind(cs[|cs| - 1], b)
  }

  /** Sum of the amounts of the claims whose batch is b (an empty sum is 0). */
  function Amount(cs: seq<Claim>, b: nat): int
  {
    if |cs| == 0 then 0 else Amount(cs[..|cs| - 1], b) + Share(cs[|cs| - 1], b)
  }

  /** The claims whose batch is b, in claim order: what the cost model is given. */
  function Members(cs: seq<Claim>, b: nat): (ms: seq<Claim>)
    ensures |ms| == Count(cs, b)
    ensures forall k | 0 <= k < |ms| :: ms[k].batch == Some(b)
  {
    if |cs| == 0 then []
    else Members(cs[..|cs| - 1], b) + (if cs[|cs| - 1].batch == Some(b) then [cs[|cs| - 1]] else [])
  }

  /** Extending a prefix by one claim adds that claim's contribution. */
  lemma PrefixStep(cs: seq<Claim>, i: nat, b: nat)
    requires i < |cs|
    ensures Count(cs[..i + 1], b) == Count(cs[..i], b) + Ind(cs[i], b)
    ensures Amount(cs[..i + 1], b) == Amount(cs[..i], b) + Share(cs[i], b)
  {
    assert cs[..i + 1][..i] == cs[..i];
  }

  /** Replacing one claim changes the aggregates of batch b by exactly the two contributions. */
  lemma {:induction false} UpdateAt(cs: seq<Claim>, i: nat, c: Claim, b: nat)
    requires i < |cs|
    ensures Count(cs[i := c], b) == Count(cs, b) - Ind(cs[i], b) + Ind(c, b)
    ensures Amount(cs[i := c], b) == Amount(cs, b) - Share(cs[i], b) + Share(c, b)
  {
    var n := |cs|;
    var ds := cs[i := c];
    if i == n - 1 {
      assert ds[..n - 1] == cs[..n - 1];
    } else {
      assert ds[..n - 1] == cs[..n - 1][i := c];
      UpdateAt(cs[..n - 1], i, c, b);
    }
  }

  /** Appending a claim that is in no batch leaves every batch's aggregates alone. */
  lemma AppendUnbatched(cs: seq<Claim>, c: Claim, b: nat)
    requires c.batch == None
    ensures Count(cs + [c], b) == Count(cs, b)
    ensures Amount(cs + [c], b) == Amount(cs, b)
  {
    assert (cs + [c])[..|cs|] == cs;
  }

  /** A batch has no claims exactly when no claim references it. */
  lemma {:induction false} CountZero(cs: seq<Claim>, b: nat)
    ensures Count(cs, b) == 0 <==> forall k | 0 <= k < |cs| :: cs[k].batch != Some(b)
  {
    if |cs| > 0 {
      var n := |cs|;
      CountZero(cs[..n - 1], b);
      assert forall k | 0 <= k < n - 1 :: cs[..n - 1][k] == cs[k];
    }
  }

  /** Two claim lists that agree on every claim's batch and amount have the same aggregates. */
  lemma {:induction false} SameLinks(cs: seq<Claim>, ds: seq<Claim>, b: nat)
    requires |cs| == |ds|
    requires forall k | 0 <= k < |cs| :: cs[k].batch == ds[k].batch && cs[k].amount == ds[k].amount
    ensures Count(cs, b) == Count(ds, b) && Amount(cs, b) == Amount(ds, b)
  {
    if |cs| > 0 {
      var n := |cs|;
      SameLinks(cs[..n - 1], ds[..n - 1], b);
    }
  }
}
