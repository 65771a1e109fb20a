/** What each outcome of an attempt leaves behind: no live participant outlives its attempt, a
    report renews what it should, and a granted lease is a full one. */
module Settled {
  import opened Base
  import opened Failover
  import opened LeaseState
  import opened LeaseInvariant
  import opened LeaseRuns
  import opened FailoverRuns

  /** Participants are live only while their attempt runs. */
  ghost predicate NoneOutlives(attempts: map<string, Attempt>, parts: map<PartKey, Participant>) {
    forall k {:trigger parts[k]} :: k in parts && k.attempt in attempts && attempts[k.attempt].status != Running ==>
      !LivePart(parts[k].status)
  }

  ghost predicate SettledState(s: State) { NoneOutlives(s.attempts, s.parts) }

  // ------------------------------------------------------------- shapes of change

  /** Attempt a ended and took its participants along. */
  lemma EndSettles(attempts: map<string, Attempt>, parts: map<PartKey, Participant>, a: string, row: Attempt, parts': map<PartKey, Participant>)
    requires NoneOutlives(attempts, parts) && parts'.Keys == parts.Keys
    requires forall k :: k in parts && k.attempt != a ==> parts'[k] == parts[k]
    requires forall k :: k in parts && k.attempt == a ==> !LivePart(parts'[k].status)
    ensures NoneOutlives(attempts[a := row], parts')
  {
    forall k | k in parts' && k.attempt in attempts[a := row] && attempts[a := row][k.attempt].status != Running
      ensures !LivePart(parts'[k].status)
    {
      if k.attempt != a { assert !LivePart(parts[k].status); }
    }
  }

  /** Only participants of a running attempt changed, and no attempt stopped running. */
  lemma RunningMoves(s: State, s': State, a: string)
    requires SettledState(s) && a in s'.attempts && s'.attempts[a].status == Running && s.attempts.Keys <= s'.attempts.Keys
    requires forall b :: b in s'.attempts && b != a ==> b in s.attempts && s'.attempts[b].status == s.attempts[b].status
    requires forall k :: k in s'.parts && k.attempt != a ==> k in s.parts && s'.parts[k] == s.parts[k]
    ensures SettledState(s')
  {
    forall k | k in s'.parts && k.attempt in s'.attempts && s'.attempts[k.attempt].status != Running ensures !LivePart(s'.parts[k].status) {
      assert !LivePart(s.parts[k].status);
    }
  }

  lemma SameGeneration(s: State, a: string)
    requires Inv(s) && a in s.attempts
    ensures forall k :: k in s.parts && k.attempt == a ==> s.parts[k].generation == s.attempts[a].generation
  {
    forall k | k in s.parts && k.attempt == a ensures s.parts[k].generation == s.attempts[a].generation {
      assert PartOk(s.attempts, s.parts, k);
    }
  }

  // ------------------------------------------------------------------- steps

  lemma ReleaseSettles(s: State, w: string, t: string, token: string)
    requires SettledState(s)
    ensures SettledState(Release(s, w, t, token).0)
  {
    if ValidLease(s, w, t, token) && s.tasks[t].attempt.Some? && s.tasks[t].attempt.value in s.attempts {
      var a := s.tasks[t].attempt.value;
      EndSettles(s.attempts, s.parts, a, s.attempts[a].(status := Released), SetParts(s.parts, a, PReleased));
      var s' := Release(s, w, t, token).0;
      assert s'.attempts == s.attempts[a := s.attempts[a].(status := Released)] && s'.parts == SetParts(s.parts, a, PReleased);
    }
  }

  lemma CompleteSettles(s: State, w: string, t: string, token: string, result: string)
    requires SettledState(s)
    ensures SettledState(Complete(s, w, t, token, result).0)
  {
    if !(t in s.tasks && s.tasks[t].status.Completed?) && ValidLease(s, w, t, token) && s.tasks[t].attempt.Some?
       && s.tasks[t].attempt.value in s.attempts {
      var a := s.tasks[t].attempt.value;
      var s' := Complete(s, w, t, token, result).0;
      EndSettles(s.attempts, s.parts, a, s'.attempts[a], SetParts(s.parts, a, PCompleted));
      assert s'.attempts == s.attempts[a := s'.attempts[a]] && s'.parts == SetParts(s.parts, a, PCompleted);
    }
  }

  lemma ExpireOneSettles(s: State, t: string)
    requires Inv(s) && SettledState(s)
    ensures SettledState(ExpireOne(s, t))
  {
    if Lapsed(s, t) {
      assert TaskOk(s.tasks, s.attempts, t);
      var a := s.tasks[t].attempt.value;
      var row := s.attempts[a];
      SameGeneration(s, a);
      var m := ExpireAttempt(Requeue(s, t), a);
      if row.status == Finished {
        EndSettles(s.attempts, s.parts, a, row, SettleParts(s.parts, a, row.generation));
        assert s.attempts[a := row] == s.attempts == m.attempts;
      } else {
        EndSettles(s.attempts, s.parts, a, row.(status := Expired, acceptance := Rejected), EndLiveParts(s.parts, a, row.generation, PExpired, s.now));
      }
      assert ExpireOne(s, t) == FenceResources(m, a);
    }
  }

  lemma {:induction false} ExpireAllSettles(s: State, order: seq<string>)
    requires Inv(s) && SettledState(s)
    ensures SettledState(ExpireAll(s, order))
  {
    if order != [] {
      ExpireAllSettles(s, order[..|order| - 1]);
      ExpireAllKeepsInv(s, order[..|order| - 1]);
      ExpireOneSettles(ExpireAll(s, order[..|order| - 1]), order[|order| - 1]);
    }
  }

  lemma FenceSettles(s: State, parts: map<PartKey, Participant>, a: string)
    requires Inv(s) && SettledState(s) && a in s.attempts && PartsFrame(s.parts, parts, a)
    ensures SettledState(FenceRows(s.(parts := parts), a))
  {
    var row := s.attempts[a];
    SameGeneration(s, a);
    EndSettles(s.attempts, s.parts, a, row.(status := Failed, acceptance := Rejected), EndLiveParts(parts, a, row.generation, PFailed, s.now));
  }

  lemma {:induction false} ReconcileAllSettles(s: State, order: seq<string>)
    requires Inv(s) && SettledState(s)
    ensures SettledState(ReconcileAll(s, order))
  {
    if order != [] {
      ReconcileAllSettles(s, order[..|order| - 1]);
      ReconcileAllKeepsInv(s, order[..|order| - 1]);
      var m, a := ReconcileAll(s, order[..|order| - 1]), order[|order| - 1];
      if Current(m, a) { FenceSettles(m, m.parts, a); }
    }
  }

  lemma RecoverSettles(s: State, parts: map<PartKey, Participant>, a: string, g: nat, c: string, path: PathReport, order: int)
    requires Inv(s) && SettledState(s) && PartsFrame(s.parts, parts, a)
    requires parts == s.parts || (Current(s, a) && s.attempts[a].generation == g)
    ensures SettledState(Recover(s.(parts := parts), a, g, c, path, order).0)
  {
    var m := s.(parts := parts);
    if Current(m, a) && m.attempts[a].generation == g {
      RecoverFences(m, a, g, c, path, order);
      FenceSettles(s, parts, a);
    } else {
      RecoverOtherwiseOnlyRecords(s, a, g, c, path, order);
    }
  }

  lemma BindSettles(s: State, who: string, t: string, a: string, token: string, plan: Plan, rebind: Option<Rebind>)
    requires SettledState(s) && a in s.attempts && s.attempts[a].status == Running
    ensures SettledState(BindExecution(s, who, t, a, token, plan, rebind).0)
  {
    if plan.Raises? {
      ReleaseSettles(s, who, t, token);
    } else {
      var id, g := AllocationId(t, a), s.attempts[a].generation;
      var s1 := s.(allocs := s.allocs[id := Reserved], attempts := s.attempts[a := s.attempts[a].(placement := plan.placement)]);
      RunningMoves(s, s1, a);
      if rebind.Some? && !(plan.placement.Some? && Validates(rebind.value, plan.placement.value)) {
        ReleaseSettles(s1, who, t, token);
      } else {
        BindTailSettles(s1, who, t, a, token, plan);
      }
    }
  }

  lemma BindTailSettles(s1: State, who: string, t: string, a: string, token: string, plan: Plan)
    requires SettledState(s1) && a in s1.attempts && s1.attempts[a].status == Running && plan.Placed?
    ensures var id, g := AllocationId(t, a), s1.attempts[a].generation;
      var s2 := s1.(allocs := s1.allocs[id := Bound(t, a, g)]);
      var s3 := s2.(attempts := s2.attempts[a := s2.attempts[a].(allocation := Some(id))]);
      && SettledState(Release(s2.(allocs := FreeAllocation(s2.allocs, Some(id), t, a, g)), who, t, token).0)
      && SettledState(FailBinding(s3, who, t, a, token))
      && SettledState(s3.(parts := InsertParts(s3, t, a, g, plan.nodes, |plan.nodes|)))
  {
    var id, g := AllocationId(t, a), s1.attempts[a].generation;
    var s2 := s1.(allocs := s1.allocs[id := Bound(t, a, g)]);
    ReleaseSettles(s2.(allocs := FreeAllocation(s2.allocs, Some(id), t, a, g)), who, t, token);
    var s3 := s2.(attempts := s2.attempts[a := s2.attempts[a].(allocation := Some(id))]);
    RunningMoves(s1, s3, a);
    ReleaseSettles(FreeAttempt(s3, a), who, t, token);
    InsertedParts(s3, t, a, g, plan.nodes, |plan.nodes|);
    RunningMoves(s3, s3.(parts := InsertParts(s3, t, a, g, plan.nodes, |plan.nodes|)), a);
  }

  lemma LeasedSettles(m: State, t: string, who: string, lottery: Lottery, plan: Plan, rebind: Option<Rebind>)
    requires SettledState(m) && t in m.tasks && lottery.attempt !in m.attempts
    ensures var l := LeaseTask(m, t, who, lottery.attempt, lottery.token);
      SettledState(l) && SettledState(BindExecution(Advance(l, lottery.elapsed), who, t, lottery.attempt, lottery.token, plan, rebind).0)
  {
    var l := LeaseTask(m, t, who, lottery.attempt, lottery.token);
    RunningMoves(m, l, lottery.attempt);
    BindSettles(Advance(l, lottery.elapsed), who, t, lottery.attempt, lottery.token, plan, rebind);
  }

  lemma ClaimSettles(s: State, w: string, lottery: Lottery)
    requires Inv(s) && SettledState(s) && Legal(s, DoClaim(w, lottery))
    ensures SettledState(Claim(s, w, lottery).0)
  {
    var s1 := ClaimScan(s, w, lottery);
    ExpireAllSettles(ReapStale(s), lottery.order);
    ExpireAllFrame(ReapStale(s), lottery.order);
    ClaimEnds(s, w, lottery);
    var s2 := s1.(workers := TakeSlot(s1.workers, w));
    assert SettledState(s2);
    if lottery.pick.Chosen? && lottery.pick.task in s2.tasks {
      LeasedSettles(s2, lottery.pick.task, w, lottery, ClaimPlan(s2, lottery.pick.task, w, lottery), None);
    }
  }

  lemma ClaimPhysicalSettles(s: State, lottery: Lottery, order: int)
    requires Inv(s) && SettledState(s) && Legal(s, DoClaimPhysical(lottery, order))
    ensures SettledState(ClaimPhysical(s, lottery, order).0)
  {
    var s1 := ExpireAll(s, lottery.order);
    ExpireAllSettles(s, lottery.order);
    ExpireAllFrame(s, lottery.order);
    if lottery.pick.Chosen? {
      var t := lottery.pick.task;
      LeasedSettles(s1, t, Identity(lottery.attempt), lottery, lottery.plan, PendingRebind(s.events, t));
    }
  }

  lemma StateReportSettles(s: State, a: string, g: nat, w: string, token: string, status: PartStatus, order: int)
    requires Inv(s) && SettledState(s)
    ensures SettledState(ParticipantState(s, a, g, w, token, status, order).0)
  {
    var s' := ParticipantState(s, a, g, w, token, status, order).0;
    var k := PartKey(a, w);
    if s' != s {
      assert AttemptOk(s.tasks, s.attempts, a) && TaskOk(s.tasks, s.attempts, s.attempts[a].task);
      if LivePart(status) {
        RunningMoves(s, s', a);
      } else {
        RecoverSettles(s, s.parts[k := s.parts[k].(heartbeat := s.now, status := status)], a, g, "participant_failed", NoPath, order);
      }
    }
  }

  lemma HeartbeatSettles(s: State, a: string, g: nat, w: string, token: string)
    requires SettledState(s)
    ensures SettledState(ParticipantHeartbeat(s, a, g, w, token).0)
  {
    var s' := ParticipantHeartbeat(s, a, g, w, token).0;
    if s' != s { RunningMoves(s, s', a); }
  }

  lemma VerifySettles(s: State, a: string, g: nat, w: string, token: string, collective: bool, evidence: bool)
    requires SettledState(s)
    ensures SettledState(Verify(s, a, g, w, token, collective, evidence).0)
  {
    var s' := Verify(s, a, g, w, token, collective, evidence).0;
    if s' != s { RunningMoves(s, s', a); }
  }

  lemma ConvergeSettles(s: State, a: string, g: nat, w: string, token: string, reconciled: bool)
    requires Inv(s) && SettledState(s)
    ensures SettledState(Converge(s, a, g, w, token, reconciled).0)
  {
    var s' := Converge(s, a, g, w, token, reconciled).0;
    if s' != s {
      SameGeneration(s, a);
      EndSettles(s.attempts, s.parts, a, s'.attempts[a], s'.parts);
    }
  }

  lemma BindEndpointSettles(s: State, a: string, g: nat, token: string, endpoint: string)
    requires SettledState(s)
    ensures SettledState(BindEndpoint(s, a, g, token, endpoint).0)
  {
    var s' := BindEndpoint(s, a, g, token, endpoint).0;
    if s' != s { RunningMoves(s, s', a); }
  }

  lemma BindPhysicalSettles(s: State, a: string, g: nat, token: string, id: AllocationId)
    requires SettledState(s)
    ensures SettledState(BindPhysical(s, a, g, token, id).0)
  {
    var s' := BindPhysical(s, a, g, token, id).0;
    if s' != s { RunningMoves(s, s', a); }
  }

  lemma ReportSettles(s: State, step: Step)
    requires Inv(s) && SettledState(s) && Reports(step)
    ensures SettledState(Apply(s, step))
  {
    if step.DoParticipantState? {
      StateReportSettles(s, step.attempt, step.generation, step.worker, step.token, step.part, step.order);
    } else {
      OtherReportSettles(s, step);
    }
  }

  lemma OtherReportSettles(s: State, step: Step)
    requires Inv(s) && SettledState(s) && Reports(step) && !step.DoParticipantState?
    ensures SettledState(Apply(s, step))
  {
    match step
    case DoParticipantHeartbeat(a, g, w, token) => HeartbeatSettles(s, a, g, w, token);
    case DoVerify(a, g, w, token, collective, evidence) => VerifySettles(s, a, g, w, token, collective, evidence);
    case DoConverge(a, g, w, token, reconciled) => ConvergeSettles(s, a, g, w, token, reconciled);
    case DoBindEndpoint(a, g, token, endpoint) => BindEndpointSettles(s, a, g, token, endpoint);
    case DoBindPhysical(a, g, token, id) => BindPhysicalSettles(s, a, g, token, id);
    case DoCheckpoint(_, _, _, _) =>
  }

  lemma StepSettles(s: State, step: Step)
    requires Inv(s) && SettledState(s) && Legal(s, step)
    ensures SettledState(Apply(s, step))
  {
    if Reports(step) {
      ReportSettles(s, step);
    } else {
      match step
      case DoClaim(w, lottery) => ClaimSettles(s, w, lottery);
      case DoClaimPhysical(lottery, order) => ClaimPhysicalSettles(s, lottery, order);
      case DoComplete(w, t, token, result) => CompleteSettles(s, w, t, token, result);
      case DoRelease(w, t, token) => ReleaseSettles(s, w, t, token);
      case DoExpire(lapsed) => ExpireAllSettles(s, lapsed);
      case DoReconcile(_, lost) => ReconcileAllSettles(s, lost);
      case DoRecover(a, g, c, path, order) => RecoverSettles(s, s.parts, a, g, c, path, order);
      case _ =>
    }
  }

  /** In every reachable state, participants of an attempt that completed, converged, failed,
      expired or was released are themselves in a terminal status. */
  lemma {:induction false} RunSettles(s: State, steps: seq<Step>)
    requires Inv(s) && SettledState(s) && LegalRun(s, steps)
    ensures SettledState(Run(s, steps))
    decreases |steps|
  {
    if steps != [] {
      StepSettles(s, steps[0]);
      StepKeepsInv(s, steps[0]);
      RunSettles(Apply(s, steps[0]), steps[1..]);
    }
  }

  // ------------------------------------------------------------------ renewal

  /** An accepted participant heartbeat renews the lease for a full term and marks participant
      and worker fresh: until that term is over no expiry and, for longer timeouts, no
      reconciliation takes the attempt away on this participant's account. */
  lemma HeartbeatRenews(s: State, a: string, g: nat, w: string, token: string, elapsed: real, timeout: real)
    requires Inv(s) && ParticipantHeartbeat(s, a, g, w, token).1 && 0.0 <= elapsed < s.leaseSeconds && elapsed < timeout
    ensures var s', t := Advance(ParticipantHeartbeat(s, a, g, w, token).0, elapsed), s.attempts[a].task;
      && t in s'.tasks && s'.tasks[t].attempt == Some(a) && s'.tasks[t].status.Leased?
      && s'.now < s'.tasks[t].status.until == s.now + s.leaseSeconds
      && PartKey(a, w) in s'.parts && s'.parts[PartKey(a, w)].status in {PActive, PRunning}
      && s'.now < s'.parts[PartKey(a, w)].heartbeat + timeout
      && w in s'.workers && s'.now < s'.workers[w].heartbeat + timeout
  {
    assert AttemptOk(s.tasks, s.attempts, a);
  }

  /** A collective verification renews the lease as well; a single-device one records the
      evidence and leaves the lease where it was. */
  lemma VerificationRenews(s: State, a: string, g: nat, w: string, token: string, collective: bool, evidence: bool)
    requires Inv(s) && Verify(s, a, g, w, token, collective, evidence).1
    ensures var s', t, k := Verify(s, a, g, w, token, collective, evidence).0, s.attempts[a].task, PartKey(a, w);
      && evidence && (collective ==> s.attempts[a].endpoint.Some?)
      && k in s'.parts && s'.parts[k].status == PRunning && s'.parts[k].verified && s'.parts[k].heartbeat == s.now
      && t in s'.tasks && s'.tasks[t].status.Leased? && s'.now < s'.tasks[t].status.until
      && s'.tasks[t].status.until == (if collective then s.now + s.leaseSeconds else s.tasks[t].status.until)
  {}

  // -------------------------------------------------------------------- grants

  /** A granted worker claim is a full lease of the first supported task, under a new generation
      and a new running attempt, on a slot that was free. */
  lemma GrantedClaimIsALease(s: State, w: string, lottery: Lottery)
    requires Inv(s) && Legal(s, DoClaim(w, lottery)) && Claim(s, w, lottery).1.Granted?
    ensures var s1, s', t := ClaimScan(s, w, lottery), Claim(s, w, lottery).0, Claim(s, w, lottery).1.task;
      && lottery.pick == Chosen(t) && t in s1.tasks && Supported(s1.workers[w].caps, s1.tasks[t].payload)
      && t in s'.tasks && s'.tasks[t].status == Leased(w, lottery.token, s.now + s.leaseSeconds)
      && s'.tasks[t].generation == s1.tasks[t].generation + 1 && s'.tasks[t].attempt == Some(lottery.attempt)
      && lottery.attempt in s'.attempts && s'.attempts[lottery.attempt].status == Running && s'.attempts[lottery.attempt].worker == w
      && s1.workers[w].load == 0 && w in s'.workers && s'.workers[w].load == 1
  {
    ExpireAllFrame(ReapStale(s), lottery.order);
    var s2, plan, bound := GrantedClaimShape(s, w, lottery);
    if bound {
      var later := Advance(s2, lottery.elapsed);
      BindGrants(later, w, lottery.pick.task, lottery.attempt, lottery.token, plan, None);
      BoundKeepsWorkers(later, w, lottery.pick.task, lottery.attempt, lottery.token, plan, None);
    }
  }

  /** A granted claim ends with its lease write or with a successful binding after it. */
  lemma GrantedClaimShape(s: State, w: string, lottery: Lottery) returns (s2: State, plan: Plan, bound: bool)
    requires Claim(s, w, lottery).1.Granted?
    ensures var s1 := ClaimScan(s, w, lottery);
      lottery.pick.Chosen? && lottery.pick.task in s1.tasks && SlotFree(s1.workers, w) && Claim(s, w, lottery).1.task == lottery.pick.task
      && s2 == LeaseTask(s1.(workers := TakeSlot(s1.workers, w)), lottery.pick.task, w, lottery.attempt, lottery.token)
    ensures bound ==> BindExecution(Advance(s2, lottery.elapsed), w, lottery.pick.task, lottery.attempt, lottery.token, plan, None).1
    ensures Claim(s, w, lottery).0 == if bound
      then BindExecution(Advance(s2, lottery.elapsed), w, lottery.pick.task, lottery.attempt, lottery.token, plan, None).0 else s2
  {
    var s1, t := ClaimScan(s, w, lottery), lottery.pick.task;
    s2 := LeaseTask(s1.(workers := TakeSlot(s1.workers, w)), t, w, lottery.attempt, lottery.token);
    var p := s2.tasks[t].payload;
    bound := p.compute.Unparsable? || p.compute.Requirements?;
    plan := if PinnedTo(p.compute, w) && lottery.plan.Placed? then lottery.plan.(placement := None) else Raises;
  }

  lemma BoundKeepsWorkers(s: State, who: string, t: string, a: string, token: string, plan: Plan, rebind: Option<Rebind>)
    requires a in s.attempts && BindExecution(s, who, t, a, token, plan, rebind).1
    ensures BindExecution(s, who, t, a, token, plan, rebind).0.workers == s.workers
    ensures BindExecution(s, who, t, a, token, plan, rebind).0.allocs == s.allocs[AllocationId(t, a) := Bound(t, a, s.attempts[a].generation)]
  {}

  /** It has one bound participant per node, ranked in node order. */
  lemma GrantedParticipantsAreRanked(s: State, lottery: Lottery, order: int, i: nat)
    requires ClaimPhysical(s, lottery, order).1.Granted? && lottery.plan.Placed? && i < |lottery.plan.nodes|
    ensures var s', a := ClaimPhysical(s, lottery, order).0, lottery.attempt;
      && PartKey(a, lottery.plan.nodes[i]) in s'.parts
      && var p := s'.parts[PartKey(a, lottery.plan.nodes[i])];
         p.rank == i && p.worldSize == |lottery.plan.nodes| && p.status == PBound && !p.verified && p.heartbeat == s'.now
         && p.task == lottery.pick.task && p.generation == s'.attempts[a].generation && p.allocation == AllocationId(p.task, a)
  {
    var s3 := GrantedPhysicalShape(s, lottery, order);
    var s1, t, a := ExpireAll(s, lottery.order), lottery.pick.task, lottery.attempt;
    InsertedRanks(Advance(LeaseTask(s1, t, Identity(a), a, lottery.token), lottery.elapsed), t, a, s1.tasks[t].generation + 1,
                  lottery.plan.nodes, |lottery.plan.nodes|, i);
  }

  /** What a granted physical claim leaves in the tables. */
  lemma GrantedPhysicalShape(s: State, lottery: Lottery, order: int) returns (s3: State)
    requires ClaimPhysical(s, lottery, order).1.Granted?
    ensures lottery.plan.Placed? && Distinct(lottery.plan.nodes)
    ensures var s1, t, a := ExpireAll(s, lottery.order), lottery.pick.task, lottery.attempt;
      lottery.pick.Chosen? && t in s1.tasks && ClaimPhysical(s, lottery, order).1.task == t
      && var l := Advance(LeaseTask(s1, t, Identity(a), a, lottery.token), lottery.elapsed);
         var g := s1.tasks[t].generation + 1;
         && s3.tasks == l.tasks && s3.allocs == l.allocs[AllocationId(t, a) := Bound(t, a, g)]
         && s3.parts == InsertParts(l, t, a, g, lottery.plan.nodes, |lottery.plan.nodes|)
    ensures ClaimPhysical(s, lottery, order).0 == s3.(events := ClaimPhysical(s, lottery, order).0.events)
  {
    var s1, t, a := ExpireAll(s, lottery.order), lottery.pick.task, lottery.attempt;
    var l := Advance(LeaseTask(s1, t, Identity(a), a, lottery.token), lottery.elapsed);
    var rebind := PendingRebind(l.events, t);
    BindGrants(l, Identity(a), t, a, lottery.token, lottery.plan, rebind);
    BoundKeepsWorkers(l, Identity(a), t, a, lottery.token, lottery.plan, rebind);
    s3 := BindExecution(l, Identity(a), t, a, lottery.token, lottery.plan, rebind).0;
  }

  /** A granted physical claim is a full lease held by the fabric identity of a new attempt,
      with its allocation bound to exactly that execution; `after` is the state it leaves, up
      to the recorded events. */
  lemma GrantedPhysicalClaimIsALease(s: State, lottery: Lottery, order: int) returns (after: State, t: string)
    requires ClaimPhysical(s, lottery, order).1.Granted?
    ensures ClaimPhysical(s, lottery, order).0 == after.(events := ClaimPhysical(s, lottery, order).0.events)
    ensures ClaimPhysical(s, lottery, order).1 == Granted(t) && lottery.pick == Chosen(t) && t in ExpireAll(s, lottery.order).tasks
    ensures t in after.tasks && after.tasks[t].status == Leased(Identity(lottery.attempt), lottery.token, s.now + s.leaseSeconds)
    ensures after.tasks[t].generation == ExpireAll(s, lottery.order).tasks[t].generation + 1 && after.tasks[t].attempt == Some(lottery.attempt)
    ensures var id := AllocationId(t, lottery.attempt);
      id in after.allocs && after.allocs[id] == Bound(t, lottery.attempt, after.tasks[t].generation)
  {
    ExpireAllFrame(s, lottery.order);
    after := GrantedPhysicalShape(s, lottery, order);
    t := lottery.pick.task;
    LeaseWrites(ExpireAll(s, lottery.order), after, t, lottery);
  }

  /** What a lease write says about its task. */
  lemma LeaseWrites(s1: State, s3: State, t: string, lottery: Lottery)
    requires t in s1.tasks
    requires s3.tasks == Advance(LeaseTask(s1, t, Identity(lottery.attempt), lottery.attempt, lottery.token), lottery.elapsed).tasks
    ensures t in s3.tasks && s3.tasks[t].status == Leased(Identity(lottery.attempt), lottery.token, s1.now + s1.leaseSeconds)
    ensures s3.tasks[t].generation == s1.tasks[t].generation + 1 && s3.tasks[t].attempt == Some(lottery.attempt)
  {}

  /** An enqueued task waits as of now, without attempts, next to the tasks already there.
      Enqueueing is idempotent per task id: the same payload is accepted again without effect,
      another payload is refused. */
  lemma EnqueueIsIdempotent(s: State, t: string, payload: Payload, again: Payload)
    ensures var s' := Enqueue(s, t, payload).0;
      t in s'.tasks && Enqueue(s', t, again) == (s', again == s'.tasks[t].payload)
      && (t !in s.tasks ==> s' == s.(tasks := s.tasks[t := Task(payload, s.now, Queued, 0, None, 0)]))
      && (t in s.tasks ==> s' == s) && (Enqueue(s, t, payload).1 <==> s'.tasks[t].payload == payload)
  {}
}
