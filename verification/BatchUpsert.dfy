/** Resilient delivery of one batch: a rejected batch is halved until the bad record stands
    alone, while outages and capacity blocks stop at once. */
module BatchUpsert {

  const BATCH_SIZE := 10

  /** `bad`: the service rejects every batch holding this record. */
  datatype Record = Record(key: string, bad: bool)

  /** Blocked: a transport outage or a capacity block, which is not about the records. */
  datatype Outcome = Done | Rejected | Blocked

  predicate AllGood(records: seq<Record>) { forall i | 0 <= i < |records| :: !records[i].bad }

  /** The length of the longest prefix without a bad record. */
  function GoodPrefix(records: seq<Record>): (n: nat)
    ensures n <= |records|
  {
    if records == [] || records[0].bad then 0 else 1 + GoodPrefix(records[1..])
  }

  lemma {:induction false} GoodPrefixIsLongest(records: seq<Record>)
    ensures var n := GoodPrefix(records);
      (forall i :: 0 <= i < n ==> !records[i].bad) && (n < |records| ==> records[n].bad)
  {
    if records != [] && !records[0].bad {
      GoodPrefixIsLongest(records[1..]);
      forall i | 0 < i < GoodPrefix(records) ensures !records[i].bad { assert records[i] == records[1..][i - 1]; }
    }
  }

  lemma {:induction false} GoodPrefixSplits(left: seq<Record>, right: seq<Record>)
    ensures GoodPrefix(left + right) == if GoodPrefix(left) == |left| then |left| + GoodPrefix(right) else GoodPrefix(left)
  {
    if left == [] {
      assert left + right == right;
    } else {
      assert (left + right)[1..] == left[1..] + right;
      if !left[0].bad { GoodPrefixSplits(left[1..], right); }
    }
  }

  /** What was sent of a split batch, seen as a prefix of the whole, and its good prefix. */
  lemma Splits(records: seq<Record>, midpoint: nat)
    requires midpoint <= |records|
    ensures var left, right := records[..midpoint], records[midpoint..];
      && GoodPrefix(records) == (if GoodPrefix(left) == midpoint then midpoint + GoodPrefix(right) else GoodPrefix(left))
      && (forall n :: 0 <= n <= midpoint ==> left[..n] == records[..n])
      && (forall n :: 0 <= n <= |right| ==> left + right[..n] == records[..midpoint + n])
  {
    assert records[..midpoint] + records[midpoint..] == records;
    GoodPrefixSplits(records[..midpoint], records[midpoint..]);
  }

  lemma AllGoodExactlyWhen(records: seq<Record>)
    ensures AllGood(records) <==> GoodPrefix(records) == |records|
  {
    GoodPrefixIsLongest(records);
  }

  function CeilLog2(n: nat): nat { if n <= 1 then 0 else 1 + CeilLog2((n + 1) / 2) }

  function Pow2(k: nat): nat { if k == 0 then 1 else 2 * Pow2(k - 1) }

  /** CeilLog2 is the least exponent whose power of two covers n. */
  lemma {:induction false} CeilLog2IsLeast(n: nat)
    requires n >= 1
    ensures n <= Pow2(CeilLog2(n)) && (n > 1 ==> Pow2(CeilLog2(n) - 1) < n)
  {
    if n > 1 {
      CeilLog2IsLeast((n + 1) / 2);
      if n > 2 { assert Pow2(CeilLog2(n) - 1) == 2 * Pow2(CeilLog2((n + 1) / 2) - 1); }
    }
  }

  lemma {:induction false} CeilLog2Grows(m: nat, n: nat)
    requires m <= n
    ensures CeilLog2(m) <= CeilLog2(n)
  {
    if m > 1 { CeilLog2Grows((m + 1) / 2, (n + 1) / 2); }
  }

  /** The request bound for a batch of n records whose good prefix has this length: one for a
      good batch, logarithmic for one with a bad record. */
  function Bound(n: nat, good: nat): nat { if good == n then 1 else 2 * CeilLog2(n) + 1 }

  lemma HalvesBound(l: nat, r: nat, goodLeft: nat, goodRight: nat)
    requires 0 < l <= r <= l + 1 && goodLeft <= l && goodRight <= r
    ensures goodLeft < l ==> Bound(l, goodLeft) + 1 <= Bound(l + r, goodLeft)
    ensures goodRight < r ==> Bound(l, l) + Bound(r, goodRight) + 1 <= Bound(l + r, l + goodRight)
  {
    HalfLog(l, r);
  }

  lemma HalfLog(l: nat, r: nat)
    requires 0 < l <= r <= l + 1
    ensures CeilLog2(l + r) == 1 + CeilLog2(r) && CeilLog2(l) <= CeilLog2(r)
  {
    CeilLog2Grows(l, r);
    assert (l + r + 1) / 2 == r;
  }

  class Airtable {
    var delivered: seq<Record>
    var requests: nat
    /** Which requests, counted from zero, meet an outage or a capacity block. */
    const blocked: set<nat>

    constructor (blocked: set<nat>)
      ensures delivered == [] && requests == 0 && this.blocked == blocked
    {
      delivered, requests, this.blocked := [], 0, blocked;
    }

    /** `_batch_upsert`: oversize batches are refused before any request is made. */
    method Upsert(records: seq<Record>) returns (out: Outcome)
      modifies this
      ensures records == [] ==> out == Done
      ensures |records| > BATCH_SIZE ==> out == Rejected && requests == old(requests)
      ensures 0 < |records| <= BATCH_SIZE ==>
        requests == old(requests) + 1
        && out == (if old(requests) in blocked then Blocked else if AllGood(records) then Done else Rejected)
      ensures requests <= old(requests) + 1
      ensures delivered == if out == Done then old(delivered) + records else old(delivered)
    {
      if records == [] { return Done; }
      if |records| > BATCH_SIZE { return Rejected; }
      out := if requests in blocked then Blocked else if AllGood(records) then Done else Rejected;
      requests := requests + 1;
      if out == Done { delivered := delivered + records; }
    }

    /** A blocked request is the last one sent, and makes the outcome. */
    ghost predicate NoLaterBlock(first: nat, after: nat, out: Outcome) {
      (out == Blocked ==> first < after && after - 1 in blocked)
      && forall k :: first <= k < after && k in blocked ==> out == Blocked && k == after - 1
    }

    /** `_resilient_batch_upsert`.  Done: everything was delivered.  Rejected: exactly the
        longest good prefix was, and a bad record follows it.  Blocked: a prefix of that.  A
        batch of n records within the size limit takes at most 2*ceil(log2 n)+1 requests, and
        nothing is sent after a block. */
    method ResilientUpsert(records: seq<Record>) returns (out: Outcome, ghost sent: nat)
      modifies this
      ensures sent <= GoodPrefix(records) && delivered == old(delivered) + records[..sent]
      ensures out == Done ==> sent == |records|
      ensures out == Rejected ==> sent == GoodPrefix(records) < |records|
      ensures old(requests) <= requests
      ensures NoLaterBlock(old(requests), requests, out)
      ensures |records| <= BATCH_SIZE ==> requests <= old(requests) + Bound(|records|, GoodPrefix(records))
      decreases |records|, 1
    {
      sent := 0;
      AllGoodExactlyWhen(records);
      if records == [] { return Done, 0; }
      out := Upsert(records);
      if out == Done { return Done, |records|; }
      if out == Blocked || |records| == 1 { return out, 0; }
      out, sent := SendHalves(records);
    }

    method SendHalves(records: seq<Record>) returns (out: Outcome, ghost sent: nat)
      requires |records| >= 2
      modifies this
      ensures sent <= GoodPrefix(records) && delivered == old(delivered) + records[..sent]
      ensures out == Done ==> sent == |records|
      ensures out == Rejected ==> sent == GoodPrefix(records) < |records|
      ensures old(requests) <= requests && NoLaterBlock(old(requests), requests, out)
      ensures |records| <= BATCH_SIZE && GoodPrefix(records) < |records| ==> requests + 1 <= old(requests) + Bound(|records|, GoodPrefix(records))
      decreases |records|, 0
    {
      var midpoint := |records| / 2;
      var left, right := records[..midpoint], records[midpoint..];
      Splits(records, midpoint);
      HalvesBound(midpoint, |records| - midpoint, GoodPrefix(left), GoodPrefix(right));
      out, sent := ResilientUpsert(left);
      if out != Done { return out, sent; }
      ghost var before, more := delivered, 0;
      assert before == old(delivered) + left;
      out, more := ResilientUpsert(right);
      sent := midpoint + more;
      assert delivered == old(delivered) + (left + right[..more]);
    }
  }
}
