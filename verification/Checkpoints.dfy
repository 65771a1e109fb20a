/** Checkpointed lead preparation: what a claim hands out, when a report of items is taken,
    and what `checkpoint_results` reads back, across generations. */
module Checkpoints {
  import opened Base
  import opened LeaseState
  import opened LeaseInvariant
  import opened LeaseRuns
  import opened Outcomes

  ghost predicate Checked(checks: map<CheckKey, CheckRow>, t: string, lead: Lead) {
    lead.Lead? && CheckKey(t, Sha256(lead.text)) in checks
  }

  // --------------------------------------------------------------- what is pending

  ghost predicate Increasing(xs: seq<nat>, bound: nat) {
    (forall i :: 0 <= i < |xs| ==> xs[i] < bound) && forall i, j :: 0 <= i < j < |xs| ==> xs[i] < xs[j]
  }

  /** A claim hands out exactly the leads without a checkpoint, each occurrence once and in
      payload order: pending and checkpointed positions partition the payload. */
  lemma {:induction false} PendingIsTheRest(checks: map<CheckKey, CheckRow>, t: string, leads: seq<Lead>) returns (kept: seq<nat>)
    ensures Increasing(kept, |leads|)
    ensures |kept| == |PendingLeads(checks, t, leads)|
    ensures forall i :: 0 <= i < |kept| ==> PendingLeads(checks, t, leads)[i] == leads[kept[i]]
    ensures forall j {:trigger leads[j]} :: 0 <= j < |leads| ==> (j in kept <==> !Checked(checks, t, leads[j]))
  {
    kept := [];
    if leads != [] {
      var n := |leads| - 1;
      var front := leads[..n];
      var before := PendingIsTheRest(checks, t, front);
      if Checked(checks, t, leads[n]) {
        kept := before;
      } else {
        kept := before + [n];
        assert kept[|before|] == n;
      }
      forall j | 0 <= j < n ensures j in kept <==> !Checked(checks, t, leads[j]) {
        assert front[j] == leads[j];
        assert j in kept <==> j in before;
      }
      assert n !in before;
    }
  }

  /** Resuming composes: what a later claim hands out is what the earlier one handed out, less
      the leads checkpointed in between. */
  lemma {:induction false} ResumeComposes(checks: map<CheckKey, CheckRow>, later: map<CheckKey, CheckRow>, t: string, leads: seq<Lead>)
    requires checks.Keys <= later.Keys
    ensures PendingLeads(later, t, leads) == PendingLeads(later, t, PendingLeads(checks, t, leads))
  {
    if leads != [] {
      var front, last := leads[..|leads| - 1], leads[|leads| - 1];
      ResumeComposes(checks, later, t, front);
      var before := PendingLeads(checks, t, front);
      if !Checked(checks, t, last) { assert (before + [last])[..|before|] == before; }
    }
  }

  /** Taking out checkpointed leads changes nothing exactly when none is checkpointed. */
  lemma {:induction false} NothingTakenOutExactlyWhen(checks: map<CheckKey, CheckRow>, t: string, leads: seq<Lead>)
    ensures |PendingLeads(checks, t, leads)| <= |leads|
    ensures PendingLeads(checks, t, leads) == leads <==> forall j :: 0 <= j < |leads| ==> !Checked(checks, t, leads[j])
  {
    if leads != [] {
      var front, last := leads[..|leads| - 1], leads[|leads| - 1];
      NothingTakenOutExactlyWhen(checks, t, front);
      var before := PendingLeads(checks, t, front);
      if Checked(checks, t, last) {
        assert |PendingLeads(checks, t, leads)| < |leads|;
      } else {
        assert leads == front + [last];
        assert before + [last] == leads <==> before == front by {
          if before + [last] == leads { assert before == (before + [last])[..|before|] == leads[..|front|]; }
        }
        forall j | 0 <= j < |front| ensures front[j] == leads[j] {}
      }
    }
  }

  /** The task that a claim leases and the leads it hands out with it. */
  ghost function HandedOut(s: State, step: Step): Option<(string, seq<Lead>)> {
    match step
    case DoClaim(w, lottery) =>
      var out := Claim(s, w, lottery).1;
      if out.Granted? && out.task in s.tasks then Some((out.task, WorkerLeads(s.checks, out.task, s.tasks[out.task].payload)))
      else None
    case DoClaimPhysical(lottery, order) =>
      var out := ClaimPhysical(s, lottery, order).1;
      if out.Granted? && out.task in s.tasks then Some((out.task, PhysicalLeads(s.tasks[out.task].payload)))
      else None
    case _ => None
  }

  /** A physical claim hands out the leads still to be done exactly when the work is not lead
      preparation or none of its leads has a checkpoint. */
  lemma PhysicalClaimResumesExactlyWhen(checks: map<CheckKey, CheckRow>, t: string, p: Payload)
    ensures PhysicalLeads(p) == WorkerLeads(checks, t, p)
            <==> !(p.work.LeadPrepare? && exists j :: 0 <= j < |p.work.leads| && Checked(checks, t, p.work.leads[j]))
  {
    if p.work.LeadPrepare? { NothingTakenOutExactlyWhen(checks, t, p.work.leads); }
  }

  /** Whatever generations lie between them, a later worker claim of a task hands out what the
      earlier claim handed out, less the leads checkpointed in between; a later physical claim
      does so exactly when no lead of the payload has a checkpoint by then. */
  lemma ClaimsResume(s: State, first: Step, steps: seq<Step>, later: Step)
    requires Inv(s) && Legal(s, first) && LegalRun(Apply(s, first), steps)
    requires HandedOut(s, first).Some? && HandedOut(Run(Apply(s, first), steps), later).Some?
    requires HandedOut(Run(Apply(s, first), steps), later).value.0 == HandedOut(s, first).value.0
    ensures var s' := Run(Apply(s, first), steps);
      var t := HandedOut(s, first).value.0;
      var rest := PendingLeads(s'.checks, t, HandedOut(s, first).value.1);
      && t in s'.tasks && s'.tasks[t].payload == s.tasks[t].payload
      && rest == WorkerLeads(s'.checks, t, s.tasks[t].payload)
      && (later.DoClaim? ==> HandedOut(s', later).value.1 == rest)
      && (later.DoClaimPhysical? ==> (HandedOut(s', later).value.1 == rest
            <==> !(s.tasks[t].payload.work.LeadPrepare?
                   && exists j :: 0 <= j < |s.tasks[t].payload.work.leads| && Checked(s'.checks, t, s.tasks[t].payload.work.leads[j]))))
  {
    var m := Apply(s, first);
    var s' := Run(m, steps);
    var t := HandedOut(s, first).value.0;
    var p := s.tasks[t].payload;
    StepGrows(s, first);
    StepKeepsInv(s, first);
    RunGrows(m, steps);
    assert TaskEv(s, m, t) && TaskEv(m, s', t);
    if p.work.LeadPrepare? { ResumeComposes(s.checks, s'.checks, t, p.work.leads); }
    PhysicalClaimResumesExactlyWhen(s'.checks, t, p);
  }

  // ------------------------------------------------------------- reporting items

  /** The key is the digest of this lead. */
  ghost predicate Names(key: Digest, lead: Lead) { lead.Lead? && key == Sha256(lead.text) }

  /** The item names a lead of the payload. */
  ghost predicate Belongs(leads: seq<Lead>, item: CheckItem) {
    item.CheckItem? && exists i :: 0 <= i < |leads| && Names(item.key, leads[i])
  }

  /** A repeated lead is indexed at its last occurrence. */
  lemma {:induction false} ItemIndexIsLast(leads: seq<Lead>, key: Digest)
    ensures var r := ItemIndex(leads, key);
      && (r.Some? ==> r.value < |leads| && Names(key, leads[r.value]) && forall j :: r.value < j < |leads| ==> !Names(key, leads[j]))
      && (r.None? ==> forall j :: 0 <= j < |leads| ==> !Names(key, leads[j]))
  {
    if leads != [] {
      var front := leads[..|leads| - 1];
      ItemIndexIsLast(front, key);
      forall j | 0 <= j < |front| ensures front[j] == leads[j] {}
    }
  }

  /** No item contradicts a stored row or an earlier item of the same report. */
  ghost predicate NoConflict(checks: map<CheckKey, CheckRow>, t: string, items: seq<CheckItem>) {
    && (forall i :: 0 <= i < |items| ==> items[i].CheckItem?)
    && (forall i :: 0 <= i < |items| && CheckKey(t, items[i].key) in checks ==>
          checks[CheckKey(t, items[i].key)].result == items[i].result)
    && (forall i, j :: 0 <= i < j < |items| && items[i].key == items[j].key ==> items[i].result == items[j].result)
  }

  /** Row k of the new table: kept as it was, or written for the items that name it. */
  ghost predicate RowIs(checks: map<CheckKey, CheckRow>, after: map<CheckKey, CheckRow>, t: string, leads: seq<Lead>,
                        items: seq<CheckItem>, w: string, g: nat, k: CheckKey)
  {
    && (k in after <==> k in checks || exists i :: 0 <= i < |items| && items[i].CheckItem? && k == CheckKey(t, items[i].key))
    && (k in checks ==> k in after && after[k] == checks[k])
    && (k in after && k !in checks ==>
          exists i :: 0 <= i < |items| && items[i].CheckItem? && k == CheckKey(t, items[i].key)
            && ItemIndex(leads, items[i].key).Some?
            && after[k] == CheckRow(ItemIndex(leads, items[i].key).value, items[i].result, w, g))
  }

  /** A report is taken exactly when every item names a lead of the payload and contradicts
      nothing; then the table gains exactly the rows of the items it did not hold. */
  lemma {:induction false} ItemsTakenExactlyWhen(checks: map<CheckKey, CheckRow>, t: string, leads: seq<Lead>,
                                                 items: seq<CheckItem>, w: string, g: nat)
    ensures var r := CheckpointItems(checks, t, leads, items, w, g);
      && (r.Some? <==> (forall i :: 0 <= i < |items| ==> Belongs(leads, items[i])) && NoConflict(checks, t, items))
      && (r.Some? ==> forall k :: RowIs(checks, r.value, t, leads, items, w, g, k))
  {
    if items != [] {
      var front, last := items[..|items| - 1], items[|items| - 1];
      assert items == front + [last];
      ItemsTakenExactlyWhen(checks, t, leads, front, w, g);
      if last.CheckItem? { ItemIndexIsLast(leads, last.key); }
      var before := CheckpointItems(checks, t, leads, front, w, g);
      if before.Some? { LastItem(checks, before.value, t, leads, front, last, w, g); }
    }
  }

  lemma LastItem(checks: map<CheckKey, CheckRow>, before: map<CheckKey, CheckRow>, t: string, leads: seq<Lead>,
                 front: seq<CheckItem>, last: CheckItem, w: string, g: nat)
    requires (forall i :: 0 <= i < |front| ==> Belongs(leads, front[i])) && NoConflict(checks, t, front)
    requires forall k :: RowIs(checks, before, t, leads, front, w, g, k)
    requires last.CheckItem? ==> (ItemIndex(leads, last.key).Some? <==> Belongs(leads, last))
    ensures var r, items := CheckpointOne(before, t, leads, last, w, g), front + [last];
      && (r.Some? <==> Belongs(leads, last) && NoConflict(checks, t, items))
      && (r.Some? ==> forall k :: RowIs(checks, r.value, t, leads, items, w, g, k))
  {
    var r, items := CheckpointOne(before, t, leads, last, w, g), front + [last];
    if Belongs(leads, last) {
      var key := CheckKey(t, last.key);
      assert RowIs(checks, before, t, leads, front, w, g, key);
      if key in before && key !in checks {
        var i :| 0 <= i < |front| && front[i].key == last.key
          && before[key] == CheckRow(ItemIndex(leads, last.key).value, front[i].result, w, g);
        assert items[i].key == items[|front|].key;
      }
      if r.Some? {
        assert items[|front|] == last;
        forall k ensures RowIs(checks, r.value, t, leads, items, w, g, k) {
          assert RowIs(checks, before, t, leads, front, w, g, k);
          if k in before && k !in checks {
            var i :| 0 <= i < |front| && k == CheckKey(t, front[i].key) && ItemIndex(leads, front[i].key).Some?
              && before[k] == CheckRow(ItemIndex(leads, front[i].key).value, front[i].result, w, g);
            assert items[i] == front[i];
          }
        }
      }
    }
  }

  /** So a report by the lease holder either stores everything or, when any item is foreign,
      malformed or contradicts what is stored, changes nothing at all. */
  lemma CheckpointIsAllOrNothing(s: State, w: string, t: string, token: string, items: seq<CheckItem>)
    ensures var (s', ok) := Checkpoint(s, w, t, token, items);
      && (ok <==> items != [] && LeaseOpen(s, t, w, token) && s.tasks[t].payload.work.LeadPrepare?
                  && (forall i :: 0 <= i < |items| ==> Belongs(s.tasks[t].payload.work.leads, items[i]))
                  && NoConflict(s.checks, t, items))
      && (!ok ==> s' == s)
      && (ok ==> s' == s.(checks := s'.checks)
                 && forall k :: RowIs(s.checks, s'.checks, t, s.tasks[t].payload.work.leads, items, w, s.tasks[t].generation, k))
      && (ok ==> forall i :: 0 <= i < |items| ==>
            CheckKey(t, items[i].key) in s'.checks && s'.checks[CheckKey(t, items[i].key)].result == items[i].result)
  {
    if ValidLease(s, w, t, token) && s.tasks[t].payload.work.LeadPrepare? {
      var leads, g := s.tasks[t].payload.work.leads, s.tasks[t].generation;
      ItemsTakenExactlyWhen(s.checks, t, leads, items, w, g);
      var r := CheckpointItems(s.checks, t, leads, items, w, g);
      if r.Some? {
        forall i | 0 <= i < |items|
          ensures CheckKey(t, items[i].key) in r.value && r.value[CheckKey(t, items[i].key)].result == items[i].result
        {
          assert RowIs(s.checks, r.value, t, leads, items, w, g, CheckKey(t, items[i].key));
        }
      }
    }
  }

  // ------------------------------------------------------------- reading results

  /** Every stored row belongs to a lead of its task and carries that lead's payload index. */
  ghost predicate ChecksOk(s: State) {
    forall k :: k in s.checks ==>
      && k.task in s.tasks && s.tasks[k.task].payload.work.LeadPrepare?
      && ItemIndex(s.tasks[k.task].payload.work.leads, k.item) == Some(s.checks[k].index)
  }

  lemma {:induction false} ItemsKeepIndexes(checks: map<CheckKey, CheckRow>, t: string, leads: seq<Lead>, items: seq<CheckItem>, w: string, g: nat)
    ensures var r := CheckpointItems(checks, t, leads, items, w, g);
      r.Some? ==> forall k :: k in r.value ==>
        (k in checks && r.value[k] == checks[k]) || (k.task == t && ItemIndex(leads, k.item) == Some(r.value[k].index))
  {
    if items != [] { ItemsKeepIndexes(checks, t, leads, items[..|items| - 1], w, g); }
  }

  lemma ClaimChecks(s: State, lottery: Lottery, order: int)
    ensures ClaimPhysical(s, lottery, order).0.checks == s.checks
  {}

  lemma OtherStepsKeepChecks(s: State, step: Step)
    requires !step.DoCheckpoint?
    ensures Apply(s, step).checks == s.checks
  {
    if !Reports(step) {
      match step
      case DoClaimPhysical(lottery, order) => ClaimChecks(s, lottery, order);
      case _ =>
    }
  }

  /** The index law holds in every reachable state. */
  lemma {:induction false} RunKeepsIndexes(s: State, steps: seq<Step>)
    requires Inv(s) && LegalRun(s, steps) && ChecksOk(s)
    ensures ChecksOk(Run(s, steps))
    decreases |steps|
  {
    if steps != [] {
      var step, s' := steps[0], Apply(s, steps[0]);
      StepGrows(s, step);
      StepKeepsInv(s, step);
      if step.DoCheckpoint? {
        if s' != s {
          ItemsKeepIndexes(s.checks, step.task, s.tasks[step.task].payload.work.leads, step.items, step.worker, s.tasks[step.task].generation);
        }
      } else {
        OtherStepsKeepChecks(s, step);
        forall k | k in s.checks ensures k.task in s'.tasks && s'.tasks[k.task].payload == s.tasks[k.task].payload {
          assert TaskEv(s, s', k.task);
        }
      }
      RunKeepsIndexes(s', steps[1..]);
    }
  }

  /** The results read off the payload: for each lead that is the last one with its key and
      has a stored non-null result, that result. */
  function ResultsInOrder(checks: map<CheckKey, CheckRow>, t: string, leads: seq<Lead>, n: nat): seq<string>
    requires n <= |leads|
  {
    if n == 0 then []
    else
      var before := ResultsInOrder(checks, t, leads, n - 1);
      var key := LeadKey(leads[n - 1]);
      if key.Some? && ItemIndex(leads, key.value) == Some(n - 1) && CheckKey(t, key.value) in checks
         && checks[CheckKey(t, key.value)].result.Some?
      then before + [checks[CheckKey(t, key.value)].result.value] else before
  }

  function NonNull(checks: map<CheckKey, CheckRow>, rows: seq<CheckKey>): seq<string>
    requires forall i :: 0 <= i < |rows| ==> rows[i] in checks
  {
    if rows == [] then []
    else
      var before := NonNull(checks, rows[..|rows| - 1]);
      var r := checks[rows[|rows| - 1]].result;
      if r.Some? then before + [r.value] else before
  }

  /** The rows of one task, each once, by ascending index. */
  ghost predicate ByIndex(checks: map<CheckKey, CheckRow>, t: string, rows: seq<CheckKey>) {
    && (forall k :: k in rows <==> k in checks && k.task == t)
    && (forall i, j :: 0 <= i < j < |rows| ==> rows[i] != rows[j] && checks[rows[i]].index <= checks[rows[j]].index)
  }

  /** The first p rows are those of payload indexes below n. */
  ghost predicate SplitAt(checks: map<CheckKey, CheckRow>, rows: seq<CheckKey>, n: nat, p: nat) {
    p <= |rows| && forall i :: 0 <= i < |rows| ==> rows[i] in checks && (checks[rows[i]].index < n <==> i < p)
  }

  /** The row at the split is the one of payload index n, and it is there exactly when that
      lead is the last with its key and is checkpointed. */
  lemma RowAtSplit(s: State, t: string, rows: seq<CheckKey>, n: nat, p: nat)
    requires ChecksOk(s) && ByIndex(s.checks, t, rows) && t in s.tasks && s.tasks[t].payload.work.LeadPrepare?
    requires n < |s.tasks[t].payload.work.leads| && SplitAt(s.checks, rows, n, p)
    ensures var key := LeadKey(s.tasks[t].payload.work.leads[n]);
      var here := p < |rows| && s.checks[rows[p]].index == n;
      && (here <==> key.Some? && ItemIndex(s.tasks[t].payload.work.leads, key.value) == Some(n) && CheckKey(t, key.value) in s.checks)
      && (here ==> rows[p] == CheckKey(t, key.value))
      && SplitAt(s.checks, rows, n + 1, if here then p + 1 else p)
  {
    var leads := s.tasks[t].payload.work.leads;
    var key := LeadKey(leads[n]);
    forall i | 0 <= i < |rows|
      ensures rows[i].task == t && ItemIndex(leads, rows[i].item) == Some(s.checks[rows[i]].index)
      ensures s.checks[rows[i]].index == n ==> key == Some(rows[i].item)
    {
      assert rows[i] in rows;
      ItemIndexIsLast(leads, rows[i].item);
    }
    forall i | p < i < |rows| ensures s.checks[rows[i]].index != n {
      assert rows[p] != rows[i] && s.checks[rows[p]].index <= s.checks[rows[i]].index;
    }
    if key.Some? && ItemIndex(leads, key.value) == Some(n) && CheckKey(t, key.value) in s.checks {
      assert CheckKey(t, key.value) in rows;
      var i :| 0 <= i < |rows| && rows[i] == CheckKey(t, key.value);
      assert i == p;
    }
  }

  lemma {:induction false} ResultsUpTo(s: State, t: string, rows: seq<CheckKey>, n: nat) returns (p: nat)
    requires ChecksOk(s) && ByIndex(s.checks, t, rows) && t in s.tasks && s.tasks[t].payload.work.LeadPrepare?
    requires n <= |s.tasks[t].payload.work.leads|
    ensures SplitAt(s.checks, rows, n, p)
    ensures NonNull(s.checks, rows[..p]) == ResultsInOrder(s.checks, t, s.tasks[t].payload.work.leads, n)
  {
    p := 0;
    if n == 0 {
      forall i | 0 <= i < |rows| ensures rows[i] in s.checks { assert rows[i] in rows; }
    } else {
      p := ResultsUpTo(s, t, rows, n - 1);
      RowAtSplit(s, t, rows, n - 1, p);
      if p < |rows| && s.checks[rows[p]].index == n - 1 {
        assert rows[..p + 1][..p] == rows[..p];
        p := p + 1;
      }
    }
  }

  /** `checkpoint_results`: whatever order the database returns equal indexes in, reading the
      rows by ascending index yields the non-null results in payload order. */
  lemma ResultsAreInPayloadOrder(s: State, t: string, rows: seq<CheckKey>)
    requires ChecksOk(s) && ByIndex(s.checks, t, rows) && t in s.tasks && s.tasks[t].payload.work.LeadPrepare?
    requires forall i :: 0 <= i < |rows| ==> rows[i] in s.checks
    ensures NonNull(s.checks, rows) == ResultsInOrder(s.checks, t, s.tasks[t].payload.work.leads, |s.tasks[t].payload.work.leads|)
  {
    var leads := s.tasks[t].payload.work.leads;
    var p := ResultsUpTo(s, t, rows, |leads|);
    if rows != [] {
      var last := rows[|rows| - 1];
      assert last in rows;
      ItemIndexIsLast(leads, last.item);
    }
    assert rows[..p] == rows;
  }
}
