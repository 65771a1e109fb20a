/** The lockstep invariant: task rows, attempt rows and participant rows agree in every
    reachable state. */
module LeaseInvariant {
  import opened Base
  import opened Failover
  import opened LeaseState

  /** A task counts its attempts by generation and points at the latest one; while it is
      leased that attempt is running or converged and carries the same worker and token. */
  ghost predicate TaskOk(tasks: map<string, Task>, attempts: map<string, Attempt>, t: string)
    requires t in tasks
  {
    var x := tasks[t];
    && x.attempts == x.generation
    && (x.attempt.None? <==> x.generation == 0)
    && (x.attempt.Some? ==>
          && x.attempt.value in attempts
          && var row := attempts[x.attempt.value];
             row.task == t && row.generation == x.generation
             && (x.status.Leased? ==>
                   && row.digest == Sha256(x.status.token) && row.worker == x.status.worker && x.status.token != ""
                   && (row.status == Running || (row.status == Finished && row.acceptance == Accepted)))
             && (x.status.Completed? ==>
                   && row.digest == x.status.leaseDigest && row.worker == x.status.doneBy && row.status == Finished
                   && x.status.resultDigest == Sha256(x.status.result)))
    && (!x.status.Queued? ==> x.attempt.Some?)
  }

  /** A running attempt is exactly what its task is leased on; verdicts match outcomes. */
  ghost predicate AttemptOk(tasks: map<string, Task>, attempts: map<string, Attempt>, a: string)
    requires a in attempts
  {
    var row := attempts[a];
    && row.task in tasks
    && 1 <= row.generation <= tasks[row.task].generation
    && (row.status == Running ==>
          row.acceptance == Pending && tasks[row.task].attempt == Some(a) && tasks[row.task].status.Leased?)
    && (row.acceptance == Rejected <==> row.status in {Failed, Expired})
    && (row.acceptance == Accepted ==> row.status in {Finished, Released})
  }

  ghost predicate PartOk(attempts: map<string, Attempt>, parts: map<PartKey, Participant>, k: PartKey)
    requires k in parts
  {
    && k.attempt in attempts
    && var row := attempts[k.attempt];
       parts[k].task == row.task && parts[k].generation == row.generation
       && (row.status == Running ==> LivePart(parts[k].status))
       && (row.acceptance == Accepted ==> parts[k].verified)
  }

  ghost predicate Unique(attempts: map<string, Attempt>) {
    forall a, b {:trigger attempts[a].digest, attempts[b].digest} :: a in attempts && b in attempts && a != b ==>
      attempts[a].digest != attempts[b].digest
      && (attempts[a].task != attempts[b].task || attempts[a].generation != attempts[b].generation)
  }

  ghost predicate Lockstep(tasks: map<string, Task>, attempts: map<string, Attempt>, parts: map<PartKey, Participant>) {
    && (forall t {:trigger TaskOk(tasks, attempts, t)} :: t in tasks ==> TaskOk(tasks, attempts, t))
    && (forall a {:trigger AttemptOk(tasks, attempts, a)} :: a in attempts ==> AttemptOk(tasks, attempts, a))
    && (forall k {:trigger PartOk(attempts, parts, k)} :: k in parts ==> PartOk(attempts, parts, k))
    && Unique(attempts)
  }

  ghost predicate Inv(s: State) { s.leaseSeconds > 0.0 && Lockstep(s.tasks, s.attempts, s.parts) }

  // --------------------------------------------------------------- consequences

  /** No task has two running attempts, and a running attempt of a task is the one its
      lease was taken with: same id, generation, worker and token digest. */
  lemma OneRunningAttempt(s: State, a: string, b: string)
    requires Inv(s) && a in s.attempts && b in s.attempts
    requires s.attempts[a].status == Running && s.attempts[b].status == Running
    requires s.attempts[a].task == s.attempts[b].task
    ensures a == b && s.attempts[a].task in s.tasks
    ensures var t := s.tasks[s.attempts[a].task];
      t.status.Leased? && t.attempt == Some(a) && t.generation == s.attempts[a].generation
      && s.attempts[a].digest == Sha256(t.status.token) && s.attempts[a].worker == t.status.worker
  {
    assert AttemptOk(s.tasks, s.attempts, a) && AttemptOk(s.tasks, s.attempts, b);
    assert TaskOk(s.tasks, s.attempts, s.attempts[a].task);
  }

  // ------------------------------------------------------------- preservation

  /** Only participant rows of attempt a change, and they keep their identity. */
  ghost predicate PartsFrame(old_: map<PartKey, Participant>, new_: map<PartKey, Participant>, a: string) {
    new_.Keys == old_.Keys
    && forall k :: k in old_ ==>
         (if k.attempt != a then new_[k] == old_[k]
          else new_[k].task == old_[k].task && new_[k].generation == old_[k].generation
               && (old_[k].verified ==> new_[k].verified))
  }

  lemma EndKeepsLockstep(tasks: map<string, Task>, attempts: map<string, Attempt>, parts: map<PartKey, Participant>,
                         t: string, a: string, status: TaskStatus, row: Attempt, parts': map<PartKey, Participant>)
    requires Lockstep(tasks, attempts, parts)
    requires t in tasks && a in attempts && tasks[t].status.Leased? && tasks[t].attempt == Some(a)
    requires PartsFrame(parts, parts', a)
    requires row.task == attempts[a].task && row.generation == attempts[a].generation && row.digest == attempts[a].digest
             && row.worker == attempts[a].worker && row.status != Running
             && (row.acceptance == Rejected <==> row.status in {Failed, Expired})
             && (row.acceptance == Accepted ==> row.status in {Finished, Released} && attempts[a].acceptance == Accepted)
    requires status.Queued? || (status.Completed? && row.status == Finished && row.digest == status.leaseDigest
                                && row.worker == status.doneBy && status.resultDigest == Sha256(status.result))
    ensures Lockstep(tasks[t := tasks[t].(status := status)], attempts[a := row], parts')
  {
    var tasks', attempts' := tasks[t := tasks[t].(status := status)], attempts[a := row];
    assert TaskOk(tasks, attempts, t) && AttemptOk(tasks, attempts, a);
    forall u | u in tasks' ensures TaskOk(tasks', attempts', u) { assert TaskOk(tasks, attempts, u); }
    forall b | b in attempts' ensures AttemptOk(tasks', attempts', b) { assert AttemptOk(tasks, attempts, b); }
    forall k | k in parts' ensures PartOk(attempts', parts', k) { assert PartOk(attempts, parts, k); }
  }

  /** One live participant of a running attempt moves on. */
  lemma MoveKeepsLockstep(tasks: map<string, Task>, attempts: map<string, Attempt>, parts: map<PartKey, Participant>,
                          k: PartKey, p: Participant)
    requires Lockstep(tasks, attempts, parts) && k in parts
    requires p.task == parts[k].task && p.generation == parts[k].generation
    requires LivePart(p.status) && (parts[k].verified ==> p.verified)
    ensures Lockstep(tasks, attempts, parts[k := p])
  {
    var parts' := parts[k := p];
    forall j | j in parts' ensures PartOk(attempts, parts', j) { assert PartOk(attempts, parts, j); }
  }

  /** Writing an attempt's endpoint, allocation or placement touches nothing else. */
  lemma NoteKeepsLockstep(tasks: map<string, Task>, attempts: map<string, Attempt>, parts: map<PartKey, Participant>,
                          a: string, row: Attempt)
    requires Lockstep(tasks, attempts, parts) && a in attempts
    requires row == attempts[a].(endpoint := row.endpoint, allocation := row.allocation, placement := row.placement)
    ensures Lockstep(tasks, attempts[a := row], parts)
  {
    var attempts' := attempts[a := row];
    forall u | u in tasks ensures TaskOk(tasks, attempts', u) { assert TaskOk(tasks, attempts, u); }
    forall b | b in attempts' ensures AttemptOk(tasks, attempts', b) { assert AttemptOk(tasks, attempts, b); }
    forall k | k in parts ensures PartOk(attempts', parts, k) { assert PartOk(attempts, parts, k); }
  }

  lemma LeaseKeepsInv(s: State, t: string, who: string, a: string, token: string)
    requires Inv(s) && t in s.tasks && s.tasks[t].status.Queued? && a !in s.attempts && token != ""
    requires forall b :: b in s.attempts ==> s.attempts[b].digest != Sha256(token)
    ensures Inv(LeaseTask(s, t, who, a, token))
  {
    var s' := LeaseTask(s, t, who, a, token);
    forall u | u in s'.tasks ensures TaskOk(s'.tasks, s'.attempts, u) { assert TaskOk(s.tasks, s.attempts, u); }
    forall b | b in s'.attempts ensures AttemptOk(s'.tasks, s'.attempts, b) {
      if b != a { assert AttemptOk(s.tasks, s.attempts, b); }
    }
    forall k | k in s'.parts ensures PartOk(s'.attempts, s'.parts, k) { assert PartOk(s.attempts, s.parts, k); }
    forall b | b in s.attempts ensures s.attempts[b].task != t || s.attempts[b].generation != s.tasks[t].generation + 1 {
      assert AttemptOk(s.tasks, s.attempts, b);
    }
  }

  lemma EnqueueKeepsInv(s: State, t: string, payload: Payload)
    requires Inv(s)
    ensures Inv(Enqueue(s, t, payload).0)
  {
    var s' := Enqueue(s, t, payload).0;
    forall u | u in s'.tasks ensures TaskOk(s'.tasks, s'.attempts, u) {
      if u in s.tasks { assert TaskOk(s.tasks, s.attempts, u); }
    }
    forall b | b in s'.attempts ensures AttemptOk(s'.tasks, s'.attempts, b) { assert AttemptOk(s.tasks, s.attempts, b); }
  }

  lemma ReleaseKeepsInv(s: State, w: string, t: string, token: string)
    requires Inv(s)
    ensures Inv(Release(s, w, t, token).0)
  {
    if ValidLease(s, w, t, token) {
      assert TaskOk(s.tasks, s.attempts, t);
      var a := s.tasks[t].attempt.value;
      assert AttemptOk(s.tasks, s.attempts, a);
      EndKeepsLockstep(s.tasks, s.attempts, s.parts, t, a, Queued, s.attempts[a].(status := Released),
                       SetParts(s.parts, a, PReleased));
    }
  }

  lemma CompleteKeepsInv(s: State, w: string, t: string, token: string, result: string)
    requires Inv(s)
    ensures Inv(Complete(s, w, t, token, result).0)
  {
    if ValidLease(s, w, t, token) {
      assert TaskOk(s.tasks, s.attempts, t);
      var a := s.tasks[t].attempt.value;
      var row := s.attempts[a];
      assert AttemptOk(s.tasks, s.attempts, a);
      EndKeepsLockstep(s.tasks, s.attempts, s.parts, t, a, Completed(w, Sha256(token), Sha256(result), result),
                       row.(status := Finished, acceptance := if row.acceptance == Accepted then Accepted else Pending),
                       SetParts(s.parts, a, PCompleted));
    }
  }

  lemma ExpireOneKeepsInv(s: State, t: string)
    requires Inv(s)
    ensures Inv(ExpireOne(s, t))
  {
    if Lapsed(s, t) {
      assert TaskOk(s.tasks, s.attempts, t);
      var a := s.tasks[t].attempt.value;
      var row := s.attempts[a];
      assert AttemptOk(s.tasks, s.attempts, a);
      if row.status == Finished {
        EndKeepsLockstep(s.tasks, s.attempts, s.parts, t, a, Queued, row, SettleParts(s.parts, a, row.generation));
        assert s.attempts[a := row] == s.attempts;
      } else {
        EndKeepsLockstep(s.tasks, s.attempts, s.parts, t, a, Queued, row.(status := Expired, acceptance := Rejected),
                         EndLiveParts(s.parts, a, row.generation, PExpired, s.now));
      }
    }
  }

  lemma {:induction false} ExpireAllKeepsInv(s: State, order: seq<string>)
    requires Inv(s)
    ensures Inv(ExpireAll(s, order))
  {
    if order != [] {
      ExpireAllKeepsInv(s, order[..|order| - 1]);
      ExpireOneKeepsInv(ExpireAll(s, order[..|order| - 1]), order[|order| - 1]);
    }
  }

  /** Fencing keeps lockstep even when one participant was just marked failed. */
  lemma FenceKeepsInv(s: State, parts: map<PartKey, Participant>, a: string)
    requires Inv(s) && Current(s, a) && PartsFrame(s.parts, parts, a)
    ensures Inv(FenceRows(s.(parts := parts), a))
    ensures Inv(FenceResources(FenceRows(s.(parts := parts), a), a))
  {
    var row := s.attempts[a];
    EndKeepsLockstep(s.tasks, s.attempts, s.parts, row.task, a, Queued, row.(status := Failed, acceptance := Rejected),
                     EndLiveParts(parts, a, row.generation, PFailed, s.now));
  }

  lemma {:induction false} ReconcileAllKeepsInv(s: State, order: seq<string>)
    requires Inv(s)
    ensures Inv(ReconcileAll(s, order))
  {
    if order != [] {
      ReconcileAllKeepsInv(s, order[..|order| - 1]);
      var m := ReconcileAll(s, order[..|order| - 1]);
      if Current(m, order[|order| - 1]) { FenceKeepsInv(m, m.parts, order[|order| - 1]); }
    }
  }

  /** A report on the current running generation fences it: the tables end as FenceRows leaves
      them, whatever happens to the rebind contract afterwards. */
  lemma RecoverFences(s: State, a: string, g: nat, c: string, path: PathReport, order: int)
    requires Current(s, a) && s.attempts[a].generation == g
    ensures var s', f := Recover(s, a, g, c, path, order).0, FenceRows(s, a);
      s'.tasks == f.tasks && s'.attempts == f.attempts && s'.parts == f.parts
      && s'.leaseSeconds == f.leaseSeconds && s'.now == f.now && s'.checks == f.checks
    ensures Recover(s, a, g, c, path, order).1 in {Requeued, RecoveryRaised}
  {
    var s', f := Recover(s, a, g, c, path, order).0, FenceRows(s, a);
    assert s' == f.(events := s'.events, allocs := s'.allocs, workers := s'.workers);
  }

  /** A report on any other generation only ever appends an event. */
  lemma RecoverOtherwiseOnlyRecords(s: State, a: string, g: nat, c: string, path: PathReport, order: int)
    requires Inv(s) && !(Current(s, a) && s.attempts[a].generation == g)
    ensures var s' := Recover(s, a, g, c, path, order).0; s' == s.(events := s'.events)
    ensures Recover(s, a, g, c, path, order).1 in {NoAttempt, Stale_, AlreadyFenced_}
  {
    if a in s.attempts { assert AttemptOk(s.tasks, s.attempts, a); }
  }

  lemma RecoverKeepsInv(s: State, parts: map<PartKey, Participant>, a: string, g: nat, c: string, path: PathReport, order: int)
    requires Inv(s)
    requires parts == s.parts || (Current(s, a) && s.attempts[a].generation == g && PartsFrame(s.parts, parts, a))
    ensures Inv(Recover(s.(parts := parts), a, g, c, path, order).0)
  {
    if Current(s, a) && s.attempts[a].generation == g {
      FenceKeepsInv(s, parts, a);
      RecoverFences(s.(parts := parts), a, g, c, path, order);
    } else {
      assert s == s.(parts := parts);
      RecoverOtherwiseOnlyRecords(s, a, g, c, path, order);
    }
  }

  lemma {:induction false} InsertedParts(s: State, t: string, a: string, g: nat, nodes: seq<string>, n: nat)
    requires n <= |nodes|
    ensures var parts := InsertParts(s, t, a, g, nodes, n);
      forall k :: (k in s.parts ==> k in parts) && (k in parts ==> (k in s.parts && parts[k] == s.parts[k]) || NewPart(parts[k], k, t, a, g))
  {
    if n > 0 { InsertedParts(s, t, a, g, nodes, n - 1); }
  }

  predicate NewPart(p: Participant, k: PartKey, t: string, a: string, g: nat) {
    k.attempt == a && p.task == t && p.generation == g && p.status == PBound && !p.verified
  }

  /** Ranks follow the node order: node i of the placement becomes rank i of |nodes|. */
  lemma {:induction false} InsertedRanks(s: State, t: string, a: string, g: nat, nodes: seq<string>, n: nat, i: nat)
    requires i < n <= |nodes| && Distinct(nodes)
    ensures var parts := InsertParts(s, t, a, g, nodes, n);
      PartKey(a, nodes[i]) in parts
      && parts[PartKey(a, nodes[i])] == Participant(t, g, AllocationId(t, a), i, |nodes|, PBound, s.now, false)
  {
    if i < n - 1 { InsertedRanks(s, t, a, g, nodes, n - 1, i); }
  }

  lemma BindKeepsInv(s: State, who: string, t: string, a: string, token: string, plan: Plan, rebind: Option<Rebind>)
    requires Inv(s) && a in s.attempts && s.attempts[a].task == t && s.attempts[a].status == Running
    ensures Inv(BindExecution(s, who, t, a, token, plan, rebind).0)
  {
    var id, g := AllocationId(t, a), s.attempts[a].generation;
    if plan.Raises? {
      ReleaseKeepsInv(s, who, t, token);
    } else {
      var s1 := s.(allocs := s.allocs[id := Reserved],
                   attempts := s.attempts[a := s.attempts[a].(placement := plan.placement)]);
      NoteKeepsLockstep(s.tasks, s.attempts, s.parts, a, s1.attempts[a]);
      var s2 := s1.(allocs := s1.allocs[id := Bound(t, a, g)]);
      if rebind.Some? && !(plan.placement.Some? && Validates(rebind.value, plan.placement.value)) {
        ReleaseKeepsInv(s1, who, t, token);
      } else if !plan.metadata {
        ReleaseKeepsInv(s2.(allocs := FreeAllocation(s2.allocs, Some(id), t, a, g)), who, t, token);
      } else {
        var s3 := s2.(attempts := s2.attempts[a := s2.attempts[a].(allocation := Some(id))]);
        NoteKeepsLockstep(s2.tasks, s2.attempts, s2.parts, a, s3.attempts[a]);
        BindTailKeepsInv(s3, who, t, a, token, plan.nodes);
      }
    }
  }

  /** Both ends of a binding: the participants are inserted, or the lease is given up. */
  lemma BindTailKeepsInv(s: State, who: string, t: string, a: string, token: string, nodes: seq<string>)
    requires Inv(s) && a in s.attempts && s.attempts[a].task == t && s.attempts[a].status == Running
    ensures Inv(FailBinding(s, who, t, a, token))
    ensures Inv(s.(parts := InsertParts(s, t, a, s.attempts[a].generation, nodes, |nodes|)))
  {
    ReleaseKeepsInv(FreeAttempt(s, a), who, t, token);
    var parts := InsertParts(s, t, a, s.attempts[a].generation, nodes, |nodes|);
    InsertedParts(s, t, a, s.attempts[a].generation, nodes, |nodes|);
    forall k | k in parts ensures PartOk(s.attempts, parts, k) {
      if k in s.parts { assert PartOk(s.attempts, s.parts, k); }
      assert AttemptOk(s.tasks, s.attempts, a);
    }
  }

  lemma ClaimKeepsInv(s: State, w: string, lottery: Lottery)
    requires Inv(s) && Legal(s, DoClaim(w, lottery))
    ensures Inv(Claim(s, w, lottery).0)
  {
    var s1 := ClaimScan(s, w, lottery);
    ExpireAllKeepsInv(ReapStale(s), lottery.order);
    ExpireAllFrame(ReapStale(s), lottery.order);
    if SlotFree(s1.workers, w) && lottery.pick.Chosen? {
      var t := lottery.pick.task;
      var s2 := LeaseTask(s1.(workers := TakeSlot(s1.workers, w)), t, w, lottery.attempt, lottery.token);
      LeaseKeepsInv(s1.(workers := TakeSlot(s1.workers, w)), t, w, lottery.attempt, lottery.token);
      var p := s2.tasks[t].payload;
      if (p.compute.Unparsable? || p.compute.Requirements?) && !(p.work.LeadPrepare? && !AllObjects(p.work.leads)) {
        var plan := if PinnedTo(p.compute, w) && lottery.plan.Placed? then lottery.plan.(placement := None) else Raises;
        BindKeepsInv(Advance(s2, lottery.elapsed), w, t, lottery.attempt, lottery.token, plan, None);
      }
    }
  }

  /** Expiry never adds, removes or re-identifies a row. */
  ghost predicate SameIdentities(s: State, s': State) {
    s'.attempts.Keys == s.attempts.Keys && s'.tasks.Keys == s.tasks.Keys && s'.workers.Keys == s.workers.Keys
    && s'.now == s.now && s'.leaseSeconds == s.leaseSeconds && s'.checks == s.checks && s'.events == s.events
    && (forall a :: a in s.attempts ==> s'.attempts[a].digest == s.attempts[a].digest)
    && (forall w :: w in s.workers ==> s'.workers[w].(load := 0) == s.workers[w].(load := 0))
  }

  lemma FenceResourcesFrame(s: State, a: string)
    requires a in s.attempts
    ensures SameIdentities(s, FenceResources(s, a))
  {}

  lemma ExpireAttemptFrame(s: State, a: string)
    requires a in s.attempts
    ensures SameIdentities(s, ExpireAttempt(s, a))
  {}

  lemma ExpireOneFrame(s: State, t: string)
    ensures SameIdentities(s, ExpireOne(s, t))
  {
    if Lapsed(s, t) {
      var s1 := Requeue(s, t);
      assert SameIdentities(s, s1);
      if s.tasks[t].attempt.Some? && s.tasks[t].attempt.value in s.attempts && s.attempts[s.tasks[t].attempt.value].task == t {
        var a := s.tasks[t].attempt.value;
        ExpireAttemptFrame(s1, a);
        FenceResourcesFrame(ExpireAttempt(s1, a), a);
      }
    }
  }

  lemma {:induction false} ExpireAllFrame(s: State, order: seq<string>)
    ensures SameIdentities(s, ExpireAll(s, order))
  {
    if order != [] {
      ExpireAllFrame(s, order[..|order| - 1]);
      ExpireOneFrame(ExpireAll(s, order[..|order| - 1]), order[|order| - 1]);
    }
  }

  lemma ClaimPhysicalKeepsInv(s: State, lottery: Lottery, order: int)
    requires Inv(s) && Legal(s, DoClaimPhysical(lottery, order))
    ensures Inv(ClaimPhysical(s, lottery, order).0)
  {
    var s1 := ExpireAll(s, lottery.order);
    ExpireAllKeepsInv(s, lottery.order);
    ExpireAllFrame(s, lottery.order);
    if lottery.pick.Chosen? {
      var t, a := lottery.pick.task, lottery.attempt;
      LeaseKeepsInv(s1, t, Identity(a), a, lottery.token);
      var s2 := Advance(LeaseTask(s1, t, Identity(a), a, lottery.token), lottery.elapsed);
      BindKeepsInv(s2, Identity(a), t, a, lottery.token, lottery.plan, PendingRebind(s2.events, t));
    }
  }

  lemma ExtendKeepsInv(s: State, t: string)
    requires Inv(s)
    ensures Inv(Extend(s, t))
  {
    var s' := Extend(s, t);
    forall u | u in s'.tasks ensures TaskOk(s'.tasks, s'.attempts, u) { assert TaskOk(s.tasks, s.attempts, u); }
    forall b | b in s'.attempts ensures AttemptOk(s'.tasks, s'.attempts, b) { assert AttemptOk(s.tasks, s.attempts, b); }
  }

  lemma ConvergeKeepsInv(s: State, a: string, g: nat, w: string, token: string, reconciled: bool)
    requires Inv(s)
    ensures Inv(Converge(s, a, g, w, token, reconciled).0)
  {
    var s' := Converge(s, a, g, w, token, reconciled).0;
    if s' != s {
      assert AttemptOk(s.tasks, s.attempts, a);
      forall u | u in s'.tasks ensures TaskOk(s'.tasks, s'.attempts, u) { assert TaskOk(s.tasks, s.attempts, u); }
      forall b | b in s'.attempts ensures AttemptOk(s'.tasks, s'.attempts, b) { assert AttemptOk(s.tasks, s.attempts, b); }
      forall k | k in s'.parts ensures PartOk(s'.attempts, s'.parts, k) { assert PartOk(s.attempts, s.parts, k); }
    }
  }

  lemma StateReportKeepsInv(s: State, a: string, g: nat, w: string, token: string, status: PartStatus, order: int)
    requires Inv(s)
    ensures Inv(ParticipantState(s, a, g, w, token, status, order).0)
  {
    if Reporting(s, a, g, w, token) {
      ReportingRows(s, a, g, w, token);
      var k := PartKey(a, w);
      var p := s.parts[k].(heartbeat := s.now, status := status);
      if LivePart(status) { MoveKeepsLockstep(s.tasks, s.attempts, s.parts, k, p); }
      else { RecoverKeepsInv(s, s.parts[k := p], a, g, "participant_failed", NoPath, order); }
    }
  }

  /** The rows behind an authorized report are in lockstep. */
  lemma ReportingRows(s: State, a: string, g: nat, w: string, token: string)
    requires Inv(s) && Reporting(s, a, g, w, token)
    ensures PartOk(s.attempts, s.parts, PartKey(a, w)) && AttemptOk(s.tasks, s.attempts, a)
    ensures TaskOk(s.tasks, s.attempts, s.attempts[a].task)
  {}

  lemma PartHeartbeatKeepsInv(s: State, a: string, g: nat, w: string, token: string)
    requires Inv(s)
    ensures Inv(ParticipantHeartbeat(s, a, g, w, token).0)
  {
    var s' := ParticipantHeartbeat(s, a, g, w, token).0;
    if s' != s {
      ReportingRows(s, a, g, w, token);
      var k := PartKey(a, w);
      var p := s.parts[k].(heartbeat := s.now, status := if s.parts[k].status == PRunning then PRunning else PActive);
      MoveKeepsLockstep(s.tasks, s.attempts, s.parts, k, p);
      ExtendKeepsInv(s.(parts := s.parts[k := p]), s.attempts[a].task);
    }
  }

  lemma VerifyKeepsInv(s: State, a: string, g: nat, w: string, token: string, collective: bool, evidence: bool)
    requires Inv(s)
    ensures Inv(Verify(s, a, g, w, token, collective, evidence).0)
  {
    var s' := Verify(s, a, g, w, token, collective, evidence).0;
    if s' != s {
      ReportingRows(s, a, g, w, token);
      var k := PartKey(a, w);
      var p := s.parts[k].(status := PRunning, heartbeat := s.now, verified := true);
      MoveKeepsLockstep(s.tasks, s.attempts, s.parts, k, p);
      ExtendKeepsInv(s.(parts := s.parts[k := p]), s.attempts[a].task);
    }
  }

  lemma BindEndpointKeepsInv(s: State, a: string, g: nat, token: string, endpoint: string)
    requires Inv(s)
    ensures Inv(BindEndpoint(s, a, g, token, endpoint).0)
  {
    var s' := BindEndpoint(s, a, g, token, endpoint).0;
    if s' != s { NoteKeepsLockstep(s.tasks, s.attempts, s.parts, a, s'.attempts[a]); }
  }

  lemma BindPhysicalKeepsInv(s: State, a: string, g: nat, token: string, id: AllocationId)
    requires Inv(s)
    ensures Inv(BindPhysical(s, a, g, token, id).0)
  {
    var s' := BindPhysical(s, a, g, token, id).0;
    if s' != s { NoteKeepsLockstep(s.tasks, s.attempts, s.parts, a, s'.attempts[a]); }
  }

  /** Every public step keeps the lockstep invariant. */
  lemma StepKeepsInv(s: State, step: Step)
    requires Inv(s) && Legal(s, step)
    ensures Inv(Apply(s, step))
  {
    match step
    case DoEnqueue(t, p) => EnqueueKeepsInv(s, t, p);
    case DoClaim(w, lottery) => ClaimKeepsInv(s, w, lottery);
    case DoClaimPhysical(lottery, order) => ClaimPhysicalKeepsInv(s, lottery, order);
    case DoComplete(w, t, token, result) => CompleteKeepsInv(s, w, t, token, result);
    case DoRelease(w, t, token) => ReleaseKeepsInv(s, w, t, token);
    case DoExpire(lapsed) => ExpireAllKeepsInv(s, lapsed);
    case DoReconcile(_, lost) => ReconcileAllKeepsInv(s, lost);
    case DoRecover(a, g, c, path, order) => RecoverKeepsInv(s, s.parts, a, g, c, path, order);
    case DoConverge(a, g, w, token, reconciled) => ConvergeKeepsInv(s, a, g, w, token, reconciled);
    case DoBindEndpoint(a, g, token, endpoint) => BindEndpointKeepsInv(s, a, g, token, endpoint);
    case DoBindPhysical(a, g, token, id) => BindPhysicalKeepsInv(s, a, g, token, id);
    case DoParticipantState(a, g, w, token, status, order) => StateReportKeepsInv(s, a, g, w, token, status, order);
    case DoParticipantHeartbeat(a, g, w, token) => PartHeartbeatKeepsInv(s, a, g, w, token);
    case DoVerify(a, g, w, token, collective, evidence) => VerifyKeepsInv(s, a, g, w, token, collective, evidence);
    case _ =>
  }

  lemma {:induction false} RunKeepsInv(s: State, steps: seq<Step>)
    requires Inv(s) && LegalRun(s, steps)
    ensures Inv(Run(s, steps))
    decreases |steps|
  {
    if steps != [] {
      StepKeepsInv(s, steps[0]);
      RunKeepsInv(Apply(s, steps[0]), steps[1..]);
    }
  }
}
