/** Conservation of physical allocations: what is still bound belongs to a live lease, and
    which calls break that. */
module Allocations {
  import opened Base
  import opened Failover
  import opened LeaseState
  import opened LeaseInvariant
  import opened LeaseRuns
  import opened Conservation

  /** A bound allocation belongs to the current attempt of a leased task, and that attempt
      knows it. */
  ghost predicate AllocOk(s: State, id: AllocationId)
    requires id in s.allocs
  {
    s.allocs[id].Bound? ==>
      (var t, a := s.allocs[id].task, s.allocs[id].attempt;
       id == AllocationId(t, a) && a in s.attempts && s.attempts[a].task == t
       && s.attempts[a].generation == s.allocs[id].generation && s.attempts[a].allocation == Some(id)
       && t in s.tasks && s.tasks[t].status.Leased? && s.tasks[t].attempt == Some(a))
  }

  ghost predicate AllocsMatch(s: State) {
    forall id {:trigger AllocOk(s, id)} :: id in s.allocs ==> AllocOk(s, id)
  }

  /** Leases, their attempts and the allocations these know are the same or newer. */
  ghost predicate SameHoldings(s: State, s': State) {
    && s'.allocs == s.allocs
    && (forall t :: t in s.tasks ==>
          t in s'.tasks && s'.tasks[t].attempt == s.tasks[t].attempt
          && (s.tasks[t].status.Leased? ==> s'.tasks[t].status.Leased?))
    && (forall a :: a in s.attempts ==>
          a in s'.attempts && s'.attempts[a].task == s.attempts[a].task
          && s'.attempts[a].generation == s.attempts[a].generation
          && (s.attempts[a].allocation.Some? ==> s'.attempts[a].allocation == s.attempts[a].allocation))
  }

  lemma SameHoldingsKeep(s: State, s': State)
    requires AllocsMatch(s) && SameHoldings(s, s')
    ensures AllocsMatch(s')
  {
    forall id | id in s'.allocs ensures AllocOk(s', id) { assert AllocOk(s, id); }
  }

  /** A lease of t by attempt a ended and a's allocation was freed. */
  ghost predicate HoldingEnded(s: State, s': State, t: string, a: string) {
    && t in s.tasks && a in s.attempts && s.tasks[t].attempt == Some(a) && s.attempts[a].task == t
    && s'.tasks.Keys == s.tasks.Keys && s'.attempts.Keys == s.attempts.Keys
    && (forall u :: u in s.tasks && u != t ==> s'.tasks[u] == s.tasks[u])
    && (forall b :: b in s.attempts && b != a ==> s'.attempts[b] == s.attempts[b])
    && s'.allocs == FreeAllocation(s.allocs, s.attempts[a].allocation, t, a, s.attempts[a].generation)
  }

  lemma HoldingEndedKeeps(s: State, s': State, t: string, a: string)
    requires AllocsMatch(s) && HoldingEnded(s, s', t, a)
    ensures AllocsMatch(s')
  {
    forall id | id in s'.allocs ensures AllocOk(s', id) { assert AllocOk(s, id); }
  }

  lemma ReleaseKeepsAllocs(s: State, w: string, t: string, token: string)
    requires Inv(s) && AllocsMatch(s)
    ensures AllocsMatch(Release(s, w, t, token).0)
  {
    if ValidLease(s, w, t, token) {
      assert TaskOk(s.tasks, s.attempts, t);
      HoldingEndedKeeps(s, Release(s, w, t, token).0, t, s.tasks[t].attempt.value);
    }
  }

  lemma CompleteKeepsAllocs(s: State, w: string, t: string, token: string, result: string)
    requires Inv(s) && AllocsMatch(s)
    ensures AllocsMatch(Complete(s, w, t, token, result).0)
  {
    if ValidLease(s, w, t, token) {
      assert TaskOk(s.tasks, s.attempts, t);
      HoldingEndedKeeps(s, Complete(s, w, t, token, result).0, t, s.tasks[t].attempt.value);
    }
  }

  lemma ExpireOneKeepsAllocs(s: State, t: string)
    requires Inv(s) && AllocsMatch(s)
    ensures AllocsMatch(ExpireOne(s, t))
  {
    if Lapsed(s, t) {
      assert TaskOk(s.tasks, s.attempts, t);
      var a := s.tasks[t].attempt.value;
      var m := ExpireAttempt(Requeue(s, t), a);
      assert m.attempts.Keys == s.attempts.Keys && m.attempts[a].allocation == s.attempts[a].allocation;
      HoldingEndedKeeps(s, FenceResources(m, a), t, a);
      assert ExpireOne(s, t) == FenceResources(m, a);
    }
  }

  lemma {:induction false} ExpireAllKeepsAllocs(s: State, order: seq<string>)
    requires Inv(s) && AllocsMatch(s)
    ensures AllocsMatch(ExpireAll(s, order))
  {
    if order != [] {
      ExpireAllKeepsAllocs(s, order[..|order| - 1]);
      ExpireAllKeepsInv(s, order[..|order| - 1]);
      ExpireOneKeepsAllocs(ExpireAll(s, order[..|order| - 1]), order[|order| - 1]);
    }
  }

  lemma FenceKeepsAllocs(s: State, parts: map<PartKey, Participant>, a: string)
    requires Inv(s) && AllocsMatch(s) && Current(s, a)
    ensures AllocsMatch(FenceResources(FenceRows(s.(parts := parts), a), a))
  {
    HoldingEndedKeeps(s, FenceResources(FenceRows(s.(parts := parts), a), a), s.attempts[a].task, a);
  }

  lemma {:induction false} ReconcileAllKeepsAllocs(s: State, order: seq<string>)
    requires Inv(s) && AllocsMatch(s)
    ensures AllocsMatch(ReconcileAll(s, order))
  {
    if order != [] {
      var m := ReconcileAll(s, order[..|order| - 1]);
      ReconcileAllKeepsAllocs(s, order[..|order| - 1]);
      ReconcileAllKeepsInv(s, order[..|order| - 1]);
      if Current(m, order[|order| - 1]) { FenceKeepsAllocs(m, m.parts, order[|order| - 1]); }
    }
  }

  /** A failure report will raise while the attempt still has a bound allocation. */
  ghost predicate RecoveryLeaks(s: State, a: string, g: nat, path: PathReport) {
    Current(s, a) && s.attempts[a].generation == g
    && ReportRaises(s, a, path)
    && s.attempts[a].allocation.Some? && s.attempts[a].allocation.value in s.allocs
    && s.allocs[s.attempts[a].allocation.value] == Bound(s.attempts[a].task, a, g)
  }

  lemma RecoverAllocs(s: State, parts: map<PartKey, Participant>, a: string, g: nat, c: string, path: PathReport, order: int)
    requires Inv(s) && AllocsMatch(s)
    requires parts == s.parts || (Current(s, a) && s.attempts[a].generation == g)
    ensures AllocsMatch(Recover(s.(parts := parts), a, g, c, path, order).0) <==> !RecoveryLeaks(s, a, g, path)
  {
    if Current(s, a) && s.attempts[a].generation == g {
      CurrentRecoverAllocs(s, parts, a, g, c, path, order);
    } else {
      assert s == s.(parts := parts);
      RecoverOtherwiseOnlyRecords(s, a, g, c, path, order);
      SameHoldingsKeep(s, Recover(s, a, g, c, path, order).0);
    }
  }

  lemma CurrentRecoverAllocs(s: State, parts: map<PartKey, Participant>, a: string, g: nat, c: string, path: PathReport, order: int)
    requires Inv(s) && AllocsMatch(s) && Current(s, a) && s.attempts[a].generation == g
    ensures AllocsMatch(Recover(s.(parts := parts), a, g, c, path, order).0) <==> !RecoveryLeaks(s, a, g, path)
  {
    var m := s.(parts := parts);
    var s' := Recover(m, a, g, c, path, order).0;
    RecoverFences(m, a, g, c, path, order);
    RecoverResources(m, a, g, c, path, order);
    RaisesExactlyWhen(m, a, path);
    if ReportRaises(s, a, path) {
      RaisedRecoveryAllocs(s, s', a, g, path);
    } else {
      FenceKeepsAllocs(s, parts, a);
      SameAllocRows(FenceResources(FenceRows(m, a), a), s');
    }
  }

  lemma SameAllocRows(s: State, s': State)
    requires AllocsMatch(s) && s'.tasks == s.tasks && s'.attempts == s.attempts && s'.allocs == s.allocs
    ensures AllocsMatch(s')
  {
    SameHoldingsKeep(s, s');
  }

  lemma RaisedRecoveryAllocs(s: State, s': State, a: string, g: nat, path: PathReport)
    requires Inv(s) && AllocsMatch(s) && Current(s, a) && s.attempts[a].generation == g
    requires ReportRaises(s, a, path)
    requires s'.allocs == s.allocs && s'.tasks == FenceRows(s, a).tasks && s'.attempts == FenceRows(s, a).attempts
    ensures AllocsMatch(s') <==> !RecoveryLeaks(s, a, g, path)
  {
    var t := s.attempts[a].task;
    if RecoveryLeaks(s, a, g, path) {
      assert !AllocOk(s', s.attempts[a].allocation.value);
    } else {
      forall id | id in s'.allocs ensures AllocOk(s', id) { assert AllocOk(s, id); }
    }
  }

  lemma LeaseKeepsAllocs(s: State, t: string, who: string, a: string, token: string)
    requires AllocsMatch(s) && t in s.tasks && s.tasks[t].status.Queued? && a !in s.attempts
    ensures AllocsMatch(LeaseTask(s, t, who, a, token))
    ensures AllocationId(t, a) in s.allocs ==> !s.allocs[AllocationId(t, a)].Bound?
  {
    var s' := LeaseTask(s, t, who, a, token);
    forall id | id in s'.allocs ensures AllocOk(s', id) { assert AllocOk(s, id); }
    if AllocationId(t, a) in s.allocs { assert AllocOk(s, AllocationId(t, a)); }
  }

  /** Every way a binding can end leaves no allocation bound without its lease. */
  lemma BindKeepsAllocs(s: State, who: string, t: string, a: string, token: string, plan: Plan, rebind: Option<Rebind>)
    requires Inv(s) && AllocsMatch(s) && a in s.attempts && s.attempts[a].task == t && s.attempts[a].status == Running
    requires s.attempts[a].allocation.None?
    ensures AllocsMatch(BindExecution(s, who, t, a, token, plan, rebind).0)
  {
    var id, g := AllocationId(t, a), s.attempts[a].generation;
    assert AttemptOk(s.tasks, s.attempts, a);
    if plan.Raises? {
      ReleaseKeepsAllocs(s, who, t, token);
    } else {
      var s1 := s.(allocs := s.allocs[id := Reserved],
                   attempts := s.attempts[a := s.attempts[a].(placement := plan.placement)]);
      NoteKeepsLockstep(s.tasks, s.attempts, s.parts, a, s1.attempts[a]);
      forall i | i in s1.allocs ensures AllocOk(s1, i) { if i != id { assert AllocOk(s, i); } }
      if rebind.Some? && !(plan.placement.Some? && Validates(rebind.value, plan.placement.value)) {
        ReleaseKeepsAllocs(s1, who, t, token);
      } else {
        BindTailKeepsAllocs(s1, who, t, a, token, plan);
      }
    }
  }

  lemma BindTailKeepsAllocs(s1: State, who: string, t: string, a: string, token: string, plan: Plan)
    requires Inv(s1) && AllocsMatch(s1) && a in s1.attempts && s1.attempts[a].task == t && s1.attempts[a].status == Running
    requires s1.attempts[a].allocation.None? && plan.Placed?
    ensures var id, g := AllocationId(t, a), s1.attempts[a].generation;
      var s2 := s1.(allocs := s1.allocs[id := Bound(t, a, g)]);
      var s3 := s2.(attempts := s2.attempts[a := s2.attempts[a].(allocation := Some(id))]);
      && AllocsMatch(Release(s2.(allocs := FreeAllocation(s2.allocs, Some(id), t, a, g)), who, t, token).0)
      && AllocsMatch(FailBinding(s3, who, t, a, token))
      && AllocsMatch(s3.(parts := InsertParts(s3, t, a, g, plan.nodes, |plan.nodes|)))
  {
    var id, g := AllocationId(t, a), s1.attempts[a].generation;
    assert AttemptOk(s1.tasks, s1.attempts, a);
    var s2 := s1.(allocs := s1.allocs[id := Bound(t, a, g)]);
    var f := s2.(allocs := FreeAllocation(s2.allocs, Some(id), t, a, g));
    forall i | i in f.allocs ensures AllocOk(f, i) { if i != id { assert AllocOk(s1, i); } }
    ReleaseKeepsAllocs(f, who, t, token);
    var s3 := s2.(attempts := s2.attempts[a := s2.attempts[a].(allocation := Some(id))]);
    NoteKeepsLockstep(s2.tasks, s2.attempts, s2.parts, a, s3.attempts[a]);
    forall i | i in s3.allocs ensures AllocOk(s3, i) { if i != id { assert AllocOk(s1, i); } }
    var h := FreeAttempt(s3, a);
    forall i | i in h.allocs ensures AllocOk(h, i) { assert AllocOk(s3, i); }
    ReleaseKeepsAllocs(h, who, t, token);
    SameHoldingsKeep(s3, s3.(parts := InsertParts(s3, t, a, g, plan.nodes, |plan.nodes|)));
  }

  lemma LeasedKeepsAllocs(m: State, t: string, who: string, lottery: Lottery, plan: Plan, rebind: Option<Rebind>)
    requires Inv(m) && AllocsMatch(m) && t in m.tasks && m.tasks[t].status.Queued?
    requires lottery.attempt !in m.attempts && lottery.token != ""
    requires forall b :: b in m.attempts ==> m.attempts[b].digest != Sha256(lottery.token)
    ensures var l := LeaseTask(m, t, who, lottery.attempt, lottery.token);
      AllocsMatch(l) && AllocsMatch(BindExecution(Advance(l, lottery.elapsed), who, t, lottery.attempt, lottery.token, plan, rebind).0)
  {
    var l := LeaseTask(m, t, who, lottery.attempt, lottery.token);
    LeaseKeepsAllocs(m, t, who, lottery.attempt, lottery.token);
    LeaseKeepsInv(m, t, who, lottery.attempt, lottery.token);
    SameHoldingsKeep(l, Advance(l, lottery.elapsed));
    BindKeepsAllocs(Advance(l, lottery.elapsed), who, t, lottery.attempt, lottery.token, plan, rebind);
  }

  lemma ClaimKeepsAllocs(s: State, w: string, lottery: Lottery)
    requires Inv(s) && AllocsMatch(s) && Legal(s, DoClaim(w, lottery))
    ensures AllocsMatch(Claim(s, w, lottery).0)
  {
    var s0, s1 := ReapStale(s), ClaimScan(s, w, lottery);
    SameHoldingsKeep(s, s0);
    ExpireAllKeepsAllocs(s0, lottery.order);
    ExpireAllKeepsInv(s0, lottery.order);
    ExpireAllFrame(s0, lottery.order);
    var s2 := s1.(workers := TakeSlot(s1.workers, w));
    SameHoldingsKeep(s1, s2);
    if SlotFree(s1.workers, w) && lottery.pick.Chosen? {
      LeasedKeepsAllocs(s2, lottery.pick.task, w, lottery, ClaimPlan(s2, lottery.pick.task, w, lottery), None);
    }
  }

  lemma ClaimPhysicalKeepsAllocs(s: State, lottery: Lottery, order: int)
    requires Inv(s) && AllocsMatch(s) && Legal(s, DoClaimPhysical(lottery, order))
    ensures AllocsMatch(ClaimPhysical(s, lottery, order).0)
  {
    var s1 := ExpireAll(s, lottery.order);
    ExpireAllKeepsAllocs(s, lottery.order);
    ExpireAllKeepsInv(s, lottery.order);
    ExpireAllFrame(s, lottery.order);
    if lottery.pick.Chosen? {
      var t, a := lottery.pick.task, lottery.attempt;
      var s2 := Advance(LeaseTask(s1, t, Identity(a), a, lottery.token), lottery.elapsed);
      LeasedKeepsAllocs(s1, t, Identity(a), lottery, lottery.plan, PendingRebind(s2.events, t));
      var s3 := BindExecution(s2, Identity(a), t, a, lottery.token, lottery.plan, PendingRebind(s2.events, t)).0;
      SameHoldingsKeep(s3, ClaimPhysical(s, lottery, order).0);
    }
  }

  lemma StateReportKeepsAllocs(s: State, a: string, g: nat, w: string, token: string, status: PartStatus, order: int)
    requires Inv(s) && AllocsMatch(s)
    ensures AllocsMatch(ParticipantState(s, a, g, w, token, status, order).0)
  {
    var k := PartKey(a, w);
    if Reporting(s, a, g, w, token) {
      assert AttemptOk(s.tasks, s.attempts, a) && TaskOk(s.tasks, s.attempts, s.attempts[a].task);
      var parts := s.parts[k := s.parts[k].(heartbeat := s.now, status := status)];
      SameHoldingsKeep(s, s.(parts := parts));
      RecoverAllocs(s, parts, a, g, "participant_failed", NoPath, order);
    }
  }

  lemma OthersKeepAllocs(s: State, step: Step)
    requires AllocsMatch(s)
    requires step.Tick? || step.DoEnqueue? || step.DoRegister? || step.DoWorkerHeartbeat? || step.DoSetStatus?
    ensures AllocsMatch(Apply(s, step))
  {
    SameHoldingsKeep(s, Apply(s, step));
  }

  lemma ExtendKeepsAllocs(s: State, t: string)
    requires AllocsMatch(s)
    ensures AllocsMatch(Extend(s, t))
  {
    SameHoldingsKeep(s, Extend(s, t));
  }

  lemma HeartbeatKeepsAllocs(s: State, a: string, g: nat, w: string, token: string)
    requires AllocsMatch(s)
    ensures AllocsMatch(ParticipantHeartbeat(s, a, g, w, token).0)
  {
    var s' := ParticipantHeartbeat(s, a, g, w, token).0;
    if s' != s {
      var m := s.(parts := s'.parts, workers := s'.workers);
      SameHoldingsKeep(s, m);
      ExtendKeepsAllocs(m, s.attempts[a].task);
      assert s' == Extend(m, s.attempts[a].task);
    }
  }

  lemma VerifyKeepsAllocs(s: State, a: string, g: nat, w: string, token: string, collective: bool, evidence: bool)
    requires AllocsMatch(s)
    ensures AllocsMatch(Verify(s, a, g, w, token, collective, evidence).0)
  {
    var s' := Verify(s, a, g, w, token, collective, evidence).0;
    if s' != s {
      var m := s.(parts := s'.parts);
      SameHoldingsKeep(s, m);
      ExtendKeepsAllocs(m, s.attempts[a].task);
    }
  }

  lemma ConvergeKeepsAllocs(s: State, a: string, g: nat, w: string, token: string, reconciled: bool)
    requires AllocsMatch(s)
    ensures AllocsMatch(Converge(s, a, g, w, token, reconciled).0)
  {
    SameHoldingsKeep(s, Converge(s, a, g, w, token, reconciled).0);
  }

  lemma EndpointKeepsAllocs(s: State, a: string, g: nat, token: string, endpoint: string)
    requires AllocsMatch(s)
    ensures AllocsMatch(BindEndpoint(s, a, g, token, endpoint).0)
  {
    SameHoldingsKeep(s, BindEndpoint(s, a, g, token, endpoint).0);
  }

  lemma BindPhysicalKeepsAllocs(s: State, a: string, g: nat, token: string, id: AllocationId)
    requires AllocsMatch(s)
    ensures AllocsMatch(BindPhysical(s, a, g, token, id).0)
  {
    SameHoldingsKeep(s, BindPhysical(s, a, g, token, id).0);
  }

  lemma CheckpointKeepsAllocs(s: State, w: string, t: string, token: string, items: seq<CheckItem>)
    requires AllocsMatch(s)
    ensures AllocsMatch(Checkpoint(s, w, t, token, items).0)
  {
    SameHoldingsKeep(s, Checkpoint(s, w, t, token, items).0);
  }

  /** Allocation conservation holds after a step except exactly when a failure report raises
      after its task is requeued and before the bound allocation is freed: its path entry is
      malformed, or the failed path's GPU pair has no durable route set. */
  lemma AllocationsKeptExactlyWhen(s: State, step: Step)
    requires Inv(s) && AllocsMatch(s) && Legal(s, step)
    ensures AllocsMatch(Apply(s, step))
            <==> !(step.DoRecover? && RecoveryLeaks(s, step.attempt, step.generation, step.path))
  {
    match step
    case DoRecover(a, g, c, path, order) => RecoverAllocs(s, s.parts, a, g, c, path, order);
    case DoClaim(w, lottery) => ClaimKeepsAllocs(s, w, lottery);
    case DoClaimPhysical(lottery, order) => ClaimPhysicalKeepsAllocs(s, lottery, order);
    case DoComplete(w, t, token, result) => CompleteKeepsAllocs(s, w, t, token, result);
    case DoRelease(w, t, token) => ReleaseKeepsAllocs(s, w, t, token);
    case DoExpire(lapsed) => ExpireAllKeepsAllocs(s, lapsed);
    case DoReconcile(_, lost) => ReconcileAllKeepsAllocs(s, lost);
    case DoParticipantState(a, g, w, token, status, order) => StateReportKeepsAllocs(s, a, g, w, token, status, order);
    case DoParticipantHeartbeat(a, g, w, token) => HeartbeatKeepsAllocs(s, a, g, w, token);
    case DoVerify(a, g, w, token, collective, evidence) => VerifyKeepsAllocs(s, a, g, w, token, collective, evidence);
    case DoConverge(a, g, w, token, reconciled) => ConvergeKeepsAllocs(s, a, g, w, token, reconciled);
    case DoBindEndpoint(a, g, token, endpoint) => EndpointKeepsAllocs(s, a, g, token, endpoint);
    case DoBindPhysical(a, g, token, id) => BindPhysicalKeepsAllocs(s, a, g, token, id);
    case DoCheckpoint(w, t, token, items) => CheckpointKeepsAllocs(s, w, t, token, items);
    case _ => OthersKeepAllocs(s, step);
  }

  ghost predicate NoLeakyReport(s: State, steps: seq<Step>)
    decreases |steps|
  {
    steps == [] || (!(steps[0].DoRecover? && RecoveryLeaks(s, steps[0].attempt, steps[0].generation, steps[0].path))
                    && NoLeakyReport(Apply(s, steps[0]), steps[1..]))
  }

  /** Over every run without such a report, whatever is still bound belongs to the current
      attempt of a leased task. */
  lemma {:induction false} RunKeepsAllocations(s: State, steps: seq<Step>)
    requires Inv(s) && AllocsMatch(s) && LegalRun(s, steps) && NoLeakyReport(s, steps)
    ensures AllocsMatch(Run(s, steps))
    decreases |steps|
  {
    if steps != [] {
      AllocationsKeptExactlyWhen(s, steps[0]);
      StepKeepsInv(s, steps[0]);
      RunKeepsAllocations(Apply(s, steps[0]), steps[1..]);
    }
  }

  // ---------------------------------------------------------- reservations left behind

  ghost predicate NoneReserved(s: State) { forall id :: id in s.allocs ==> s.allocs[id] != Reserved }

  /** A binding leaves its reservation behind exactly when a required standby was not
      activated: nothing is bound yet, so the exact-binding guard of the release refuses. */
  lemma BindReservations(s: State, who: string, t: string, a: string, token: string, plan: Plan, rebind: Option<Rebind>)
    requires NoneReserved(s) && a in s.attempts
    ensures NoneReserved(BindExecution(s, who, t, a, token, plan, rebind).0)
            <==> !(plan.Placed? && rebind.Some? && !(plan.placement.Some? && Validates(rebind.value, plan.placement.value)))
  {
    var id, g := AllocationId(t, a), s.attempts[a].generation;
    var end := BindExecution(s, who, t, a, token, plan, rebind).0;
    if plan.Raises? {
      ReleaseReservations(s, who, t, token);
    } else {
      var s1 := s.(allocs := s.allocs[id := Reserved],
                   attempts := s.attempts[a := s.attempts[a].(placement := plan.placement)]);
      if rebind.Some? && !(plan.placement.Some? && Validates(rebind.value, plan.placement.value)) {
        ReleaseReservations(s1, who, t, token);
        assert end == Release(s1, who, t, token).0 && end.allocs[id] == Reserved;
      } else {
        BindTailReservations(s1, who, t, a, token, plan);
      }
    }
  }

  lemma BindTailReservations(s1: State, who: string, t: string, a: string, token: string, plan: Plan)
    requires a in s1.attempts && plan.Placed?
    requires forall id :: id in s1.allocs && s1.allocs[id] == Reserved ==> id == AllocationId(t, a)
    ensures var id, g := AllocationId(t, a), s1.attempts[a].generation;
      var s2 := s1.(allocs := s1.allocs[id := Bound(t, a, g)]);
      var s3 := s2.(attempts := s2.attempts[a := s2.attempts[a].(allocation := Some(id))]);
      && NoneReserved(Release(s2.(allocs := FreeAllocation(s2.allocs, Some(id), t, a, g)), who, t, token).0)
      && NoneReserved(FailBinding(s3, who, t, a, token))
      && NoneReserved(s3.(parts := InsertParts(s3, t, a, g, plan.nodes, |plan.nodes|)))
  {
    var id, g := AllocationId(t, a), s1.attempts[a].generation;
    var s2 := s1.(allocs := s1.allocs[id := Bound(t, a, g)]);
    ReleaseReservations(s2.(allocs := FreeAllocation(s2.allocs, Some(id), t, a, g)), who, t, token);
    var s3 := s2.(attempts := s2.attempts[a := s2.attempts[a].(allocation := Some(id))]);
    ReleaseReservations(FreeAttempt(s3, a), who, t, token);
  }

  /** Releasing a lease never touches a reservation. */
  lemma ReleaseReservations(s: State, w: string, t: string, token: string)
    ensures var s' := Release(s, w, t, token).0;
      s'.allocs.Keys == s.allocs.Keys && forall id :: id in s.allocs ==> (s'.allocs[id] == Reserved <==> s.allocs[id] == Reserved)
  {}

  lemma {:induction false} ExpireReservations(s: State, order: seq<string>)
    requires NoneReserved(s)
    ensures NoneReserved(ExpireAll(s, order))
  {
    if order != [] {
      var m := ExpireAll(s, order[..|order| - 1]);
      var t := order[|order| - 1];
      ExpireReservations(s, order[..|order| - 1]);
      if Lapsed(m, t) && m.tasks[t].attempt.Some? && m.tasks[t].attempt.value in m.attempts
         && m.attempts[m.tasks[t].attempt.value].task == t {
        var e := ExpireAttempt(Requeue(m, t), m.tasks[t].attempt.value);
        assert NoneReserved(e);
        assert NoneReserved(FenceResources(e, m.tasks[t].attempt.value));
      }
    }
  }

  /** A physical claim whose fresh placement does not activate the selected standby leaves the
      fresh reservation reserved for good; every other physical claim leaves none. */
  lemma PhysicalClaimReservations(s: State, lottery: Lottery, order: int)
    requires Inv(s) && NoneReserved(s) && Legal(s, DoClaimPhysical(lottery, order))
    ensures NoneReserved(ClaimPhysical(s, lottery, order).0)
            <==> !(lottery.pick.Chosen? && lottery.plan.Placed?
                   && PendingRebind(s.events, lottery.pick.task).Some?
                   && !(lottery.plan.placement.Some?
                        && Validates(PendingRebind(s.events, lottery.pick.task).value, lottery.plan.placement.value)))
  {
    var s1 := ExpireAll(s, lottery.order);
    ExpireReservations(s, lottery.order);
    ExpireAllFrame(s, lottery.order);
    if lottery.pick.Chosen? {
      var t, a := lottery.pick.task, lottery.attempt;
      var s2 := Advance(LeaseTask(s1, t, Identity(a), a, lottery.token), lottery.elapsed);
      BindReservations(s2, Identity(a), t, a, lottery.token, lottery.plan, PendingRebind(s2.events, t));
      assert s2.events == s.events;
    }
  }
}
