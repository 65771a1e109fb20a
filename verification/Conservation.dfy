/** Conservation of worker slots and physical allocations.

    The slot counters and allocation rows live beside the lease tables and are updated by
    every path that starts or ends a lease.  Each law is an exact one: it says which calls
    keep the ledger in step with the leases and which do not. */
module Conservation {
  import opened Base
  import opened Failover
  import opened LeaseState
  import opened LeaseInvariant
  import opened LeaseRuns

  // ------------------------------------------------------------------ worker slots

  function LeasedTo(tasks: map<string, Task>, w: string): set<string> {
    set t | t in tasks && tasks[t].status.Leased? && tasks[t].status.worker == w
  }

  /** The slot counter of every worker equals the number of tasks leased to it. */
  ghost predicate SlotsMatch(s: State) {
    forall w {:trigger LeasedTo(s.tasks, w)} :: w in s.workers && !FabricId(w) ==> s.workers[w].load == |LeasedTo(s.tasks, w)|
  }

  /** Leases name registered workers or physical identities, and only the latter ever carry
      a placement. */
  ghost predicate SlotBase(s: State) {
    && (forall t :: t in s.tasks && s.tasks[t].status.Leased? ==>
          FabricId(s.tasks[t].status.worker) || s.tasks[t].status.worker in s.workers)
    && (forall a :: a in s.attempts && s.attempts[a].placement.Some? ==> FabricId(s.attempts[a].worker))
  }

  ghost predicate SlotInv(s: State) { SlotBase(s) && SlotsMatch(s) }

  /** Leased tasks and slot counters of s' are those of s. */
  ghost predicate SameSlots(s: State, s': State) {
    && s'.workers.Keys >= s.workers.Keys
    && (forall w :: w in s'.workers ==> s'.workers[w].load == (if w in s.workers then s.workers[w].load else 0))
    && (forall w {:trigger LeasedTo(s'.tasks, w)} :: LeasedTo(s'.tasks, w) == LeasedTo(s.tasks, w))
    && (forall a :: a in s'.attempts && s'.attempts[a].placement.Some? ==>
          FabricId(s'.attempts[a].worker))
  }

  lemma SameSlotsKeep(s: State, s': State)
    requires SlotInv(s) && SameSlots(s, s')
    ensures SlotInv(s')
  {
    forall t | t in s'.tasks && s'.tasks[t].status.Leased?
      ensures FabricId(s'.tasks[t].status.worker) || s'.tasks[t].status.worker in s'.workers
    {
      assert t in LeasedTo(s'.tasks, s'.tasks[t].status.worker);
    }
    forall w | w in s'.workers && !FabricId(w) ensures s'.workers[w].load == |LeasedTo(s'.tasks, w)| {
      assert LeasedTo(s'.tasks, w) == LeasedTo(s.tasks, w);
      if w !in s.workers {
        assert forall t :: t in s.tasks && s.tasks[t].status.Leased? ==> s.tasks[t].status.worker != w;
        assert LeasedTo(s.tasks, w) == {};
      }
    }
  }

  /** The tables after a lease of t held by w has ended and w's slot was given back. */
  ghost predicate SlotEnded(s: State, s': State, t: string, w: string) {
    && t in s.tasks && s.tasks[t].status.Leased? && s.tasks[t].status.worker == w
    && s'.tasks.Keys == s.tasks.Keys && !s'.tasks[t].status.Leased?
    && (forall u :: u in s.tasks && u != t ==> s'.tasks[u].status == s.tasks[u].status)
    && s'.workers.Keys == s.workers.Keys
    && (forall v :: v in s.workers && (v != w || FabricId(w)) ==> FabricId(v) || s'.workers[v].load == s.workers[v].load)
    && (w in s.workers && !FabricId(w) ==> s'.workers[w].load == if s.workers[w].load == 0 then 0 else s.workers[w].load - 1)
    && s'.attempts.Keys == s.attempts.Keys
    && (forall a :: a in s.attempts ==> s'.attempts[a].worker == s.attempts[a].worker && s'.attempts[a].placement == s.attempts[a].placement)
  }

  lemma SlotEndedKeeps(s: State, s': State, t: string, w: string)
    requires SlotInv(s) && SlotEnded(s, s', t, w)
    ensures SlotInv(s')
  {
    assert LeasedTo(s'.tasks, w) == LeasedTo(s.tasks, w) - {t};
    forall v | v in s'.workers && !FabricId(v) ensures s'.workers[v].load == |LeasedTo(s'.tasks, v)| {
      if v == w { assert t in LeasedTo(s.tasks, w); }
      else { assert LeasedTo(s'.tasks, v) == LeasedTo(s.tasks, v); }
    }
  }

  lemma ReleaseKeepsSlots(s: State, w: string, t: string, token: string)
    requires Inv(s) && SlotInv(s)
    ensures SlotInv(Release(s, w, t, token).0)
  {
    if ValidLease(s, w, t, token) {
      assert TaskOk(s.tasks, s.attempts, t);
      SlotEndedKeeps(s, Release(s, w, t, token).0, t, w);
    }
  }

  lemma CompleteKeepsSlots(s: State, w: string, t: string, token: string, result: string)
    requires Inv(s) && SlotInv(s)
    ensures SlotInv(Complete(s, w, t, token, result).0)
  {
    if ValidLease(s, w, t, token) {
      assert TaskOk(s.tasks, s.attempts, t);
      SlotEndedKeeps(s, Complete(s, w, t, token, result).0, t, w);
    }
  }

  lemma ExpireAttemptSlots(s: State, a: string)
    requires a in s.attempts
    ensures var r := ExpireAttempt(s, a);
      r.attempts.Keys == s.attempts.Keys
      && forall b :: b in s.attempts ==>
           r.attempts[b].worker == s.attempts[b].worker && r.attempts[b].placement == s.attempts[b].placement
  {}

  lemma ExpireOneKeepsSlots(s: State, t: string)
    requires Inv(s) && SlotInv(s)
    ensures SlotInv(ExpireOne(s, t))
  {
    if Lapsed(s, t) {
      assert TaskOk(s.tasks, s.attempts, t);
      var a := s.tasks[t].attempt.value;
      var s1 := Requeue(s, t);
      ExpireAttemptSlots(s1, a);
      var m := ExpireAttempt(s1, a);
      var r := FenceResources(m, a);
      assert r.tasks == s1.tasks && r.attempts == m.attempts;
      assert r.workers == if FabricId(s.attempts[a].worker) then s.workers else GiveSlot(s.workers, s.attempts[a].worker);
      SlotEndedKeeps(s, r, t, s.tasks[t].status.worker);
      assert ExpireOne(s, t) == r;
    }
  }

  lemma {:induction false} ExpireAllKeepsSlots(s: State, order: seq<string>)
    requires Inv(s) && SlotInv(s)
    ensures SlotInv(ExpireAll(s, order))
  {
    if order != [] {
      ExpireAllKeepsSlots(s, order[..|order| - 1]);
      ExpireAllKeepsInv(s, order[..|order| - 1]);
      ExpireOneKeepsSlots(ExpireAll(s, order[..|order| - 1]), order[|order| - 1]);
    }
  }

  lemma FenceKeepsSlots(s: State, parts: map<PartKey, Participant>, a: string)
    requires Inv(s) && SlotInv(s) && Current(s, a)
    ensures SlotInv(FenceResources(FenceRows(s.(parts := parts), a), a))
  {
    var row := s.attempts[a];
    assert TaskOk(s.tasks, s.attempts, row.task);
    SlotEndedKeeps(s, FenceResources(FenceRows(s.(parts := parts), a), a), row.task, row.worker);
  }

  lemma {:induction false} ReconcileAllKeepsSlots(s: State, order: seq<string>)
    requires Inv(s) && SlotInv(s)
    ensures SlotInv(ReconcileAll(s, order))
  {
    if order != [] {
      var m := ReconcileAll(s, order[..|order| - 1]);
      ReconcileAllKeepsSlots(s, order[..|order| - 1]);
      ReconcileAllKeepsInv(s, order[..|order| - 1]);
      if Current(m, order[|order| - 1]) { FenceKeepsSlots(m, m.parts, order[|order| - 1]); }
    }
  }

  /** Where a report on the current running generation ends up. */
  lemma RecoverResources(s: State, a: string, g: nat, c: string, path: PathReport, order: int)
    requires Current(s, a) && s.attempts[a].generation == g
    ensures var r, f := Recover(s, a, g, c, path, order), FenceRows(s, a);
      if r.1 == RecoveryRaised then r.0.workers == s.workers && r.0.allocs == s.allocs
      else r.0.workers == FenceResources(f, a).workers && r.0.allocs == FenceResources(f, a).allocs
    ensures Recover(s, a, g, c, path, order).1 == RecoveryRaised <==> RebindFor(s, a, path) == Some(None)
  {
    var f := FenceRows(s, a);
    var event := Event(s.attempts[a].task, s.now, order, None);
    var s1 := Record(f, EventKey(a, g, c, Fenced), event);
    FencingIgnoresEvents(f, s1, a);
    match RebindFor(s, a, path)
    case None => assert Recover(s, a, g, c, path, order) == (FenceResources(s1, a), Requeued);
    case Some(None) => assert Recover(s, a, g, c, path, order) == (s1, RecoveryRaised);
    case Some(Some(rebind)) =>
      var s2 := Record(s1, EventKey(a, g, c, StandbySelected), Event(s.attempts[a].task, s.now, order, Some(rebind)));
      FencingIgnoresEvents(f, s2, a);
      assert Recover(s, a, g, c, path, order) == (FenceResources(s2, a), Requeued);
  }

  lemma FencingIgnoresEvents(f: State, s: State, a: string)
    requires a in f.attempts && s == f.(events := s.events)
    ensures FenceResources(s, a).workers == FenceResources(f, a).workers && FenceResources(s, a).allocs == FenceResources(f, a).allocs
  {}

  /** Reading the report raises between the committed fence and the release: its path entry is
      malformed, or it names a known path whose GPU pair has no durable route set. */
  ghost predicate ReportRaises(s: State, a: string, path: PathReport)
    requires a in s.attempts
  {
    path.MalformedPath?
    || (path.PathFailed? && s.attempts[a].placement.Some?
        && RouteSetMissing(s.attempts[a].placement.value, path.paths, path.failedId))
  }

  lemma RaisesExactlyWhen(s: State, a: string, path: PathReport)
    requires a in s.attempts
    ensures RebindFor(s, a, path) == Some(None) <==> ReportRaises(s, a, path)
  {
    if path.PathFailed? && s.attempts[a].placement.Some? {
      ContractRaisesExactlyWhen(s.attempts[a].placement.value, path.paths, path.health, path.failedId, a, s.attempts[a].generation);
    }
  }

  /** A failure report on a worker-held lease that raises before the slot is given back. */
  ghost predicate SlotLeaks(s: State, a: string, g: nat, path: PathReport) {
    Current(s, a) && s.attempts[a].generation == g && ReportRaises(s, a, path) && !FabricId(s.attempts[a].worker)
  }

  /** A recovery keeps the slots exactly when it does not raise on a worker-held lease.  Only
      physical leases carry a placement, so that takes a malformed path entry. */
  lemma RecoverSlots(s: State, parts: map<PartKey, Participant>, a: string, g: nat, c: string, path: PathReport, order: int)
    requires Inv(s) && SlotInv(s)
    requires parts == s.parts || (Current(s, a) && s.attempts[a].generation == g)
    ensures SlotBase(Recover(s.(parts := parts), a, g, c, path, order).0)
    ensures SlotsMatch(Recover(s.(parts := parts), a, g, c, path, order).0) <==> !SlotLeaks(s, a, g, path)
    ensures SlotLeaks(s, a, g, path) ==> path.MalformedPath?
  {
    var m := s.(parts := parts);
    var s' := Recover(m, a, g, c, path, order).0;
    if Current(s, a) && s.attempts[a].generation == g {
      RecoverFences(m, a, g, c, path, order);
      RecoverResources(m, a, g, c, path, order);
      RaisesExactlyWhen(m, a, path);
      FenceKeepsSlots(s, parts, a);
      var f := FenceResources(FenceRows(m, a), a);
      assert s'.tasks == f.tasks && s'.attempts == f.attempts;
      if SlotLeaks(s, a, g, path) {
        FenceWithoutRelease(s, s', a);
      } else {
        assert s'.workers == f.workers;
      }
    } else {
      assert s == m;
      RecoverOtherwiseOnlyRecords(s, a, g, c, path, order);
    }
  }

  /** A lease ended, its worker's counter did not move. */
  lemma FenceWithoutRelease(s: State, s': State, a: string)
    requires Inv(s) && SlotInv(s) && Current(s, a) && !FabricId(s.attempts[a].worker)
    requires s'.tasks == FenceRows(s, a).tasks && s'.attempts == FenceRows(s, a).attempts && s'.workers == s.workers
    ensures SlotBase(s') && !SlotsMatch(s')
  {
    var t, w := s.attempts[a].task, s.attempts[a].worker;
    assert TaskOk(s.tasks, s.attempts, t);
    assert LeasedTo(s'.tasks, w) == LeasedTo(s.tasks, w) - {t};
    assert s.workers[w].load == |LeasedTo(s.tasks, w)|;
  }

  /** Leasing a waiting task keeps the ledger when the holder's slot was taken for it; a
      physical identity has no slot to take. */
  lemma LeaseKeepsSlots(s: State, workers: map<string, Worker>, t: string, who: string, a: string, token: string)
    requires SlotInv(s) && t in s.tasks && s.tasks[t].status.Queued?
    requires FabricId(who) || who in s.workers
    requires (workers == s.workers && FabricId(who)) || workers == TakeSlot(s.workers, who)
    ensures SlotInv(LeaseTask(s.(workers := workers), t, who, a, token))
  {
    var s' := LeaseTask(s.(workers := workers), t, who, a, token);
    forall v | v in s'.workers && !FabricId(v) ensures s'.workers[v].load == |LeasedTo(s'.tasks, v)| {
      if v == who {
        assert LeasedTo(s'.tasks, v) == LeasedTo(s.tasks, v) + {t};
        assert t !in LeasedTo(s.tasks, v);
      } else {
        assert LeasedTo(s'.tasks, v) == LeasedTo(s.tasks, v);
      }
    }
  }

  lemma SameLeases(s: State, s': State)
    requires s'.tasks == s.tasks && s'.workers == s.workers
    requires forall a :: a in s'.attempts && s'.attempts[a].placement.Some? ==> FabricId(s'.attempts[a].worker)
    requires SlotInv(s)
    ensures SlotInv(s')
  {}

  /** The last part of a binding that fails. */
  lemma FailBindingKeepsSlots(s: State, who: string, t: string, a: string, token: string)
    requires Inv(s) && SlotInv(s) && a in s.attempts
    ensures SlotInv(FailBinding(s, who, t, a, token))
  {
    SameLeases(s, FreeAttempt(s, a));
    ReleaseKeepsSlots(FreeAttempt(s, a), who, t, token);
  }

  lemma NoteKeepsSlots(s: State, a: string, row: Attempt)
    requires Inv(s) && SlotInv(s) && a in s.attempts
    requires row == s.attempts[a].(allocation := row.allocation, placement := row.placement)
    requires row.placement.Some? ==> FabricId(row.worker)
    ensures Inv(s.(attempts := s.attempts[a := row])) && SlotInv(s.(attempts := s.attempts[a := row]))
  {
    SameLeases(s, s.(attempts := s.attempts[a := row]));
    NoteKeepsLockstep(s.tasks, s.attempts, s.parts, a, row);
  }

  lemma BindKeepsSlots(s: State, who: string, t: string, a: string, token: string, plan: Plan, rebind: Option<Rebind>)
    requires Inv(s) && SlotInv(s) && a in s.attempts && s.attempts[a].worker == who
    requires plan.Placed? && plan.placement.Some? ==> FabricId(who)
    ensures SlotInv(BindExecution(s, who, t, a, token, plan, rebind).0)
  {
    var id, g := AllocationId(t, a), s.attempts[a].generation;
    if plan.Raises? {
      ReleaseKeepsSlots(s, who, t, token);
    } else {
      NoteKeepsSlots(s, a, s.attempts[a].(placement := plan.placement));
      var s1 := s.(allocs := s.allocs[id := Reserved],
                   attempts := s.attempts[a := s.attempts[a].(placement := plan.placement)]);
      assert Inv(s1) && SlotInv(s1);
      if rebind.Some? && !(plan.placement.Some? && Validates(rebind.value, plan.placement.value)) {
        ReleaseKeepsSlots(s1, who, t, token);
      } else {
        BindTailKeepsSlots(s1, who, t, a, token, plan);
      }
    }
  }

  /** The three ends of a binding whose placement was accepted. */
  lemma BindTailKeepsSlots(s1: State, who: string, t: string, a: string, token: string, plan: Plan)
    requires Inv(s1) && SlotInv(s1) && a in s1.attempts && s1.attempts[a].worker == who && plan.Placed?
    requires s1.attempts[a].placement.Some? ==> FabricId(who)
    ensures var id, g := AllocationId(t, a), s1.attempts[a].generation;
      var s2 := s1.(allocs := s1.allocs[id := Bound(t, a, g)]);
      var s3 := s2.(attempts := s2.attempts[a := s2.attempts[a].(allocation := Some(id))]);
      && SlotInv(Release(s2.(allocs := FreeAllocation(s2.allocs, Some(id), t, a, g)), who, t, token).0)
      && SlotInv(FailBinding(s3, who, t, a, token))
      && SlotInv(s3.(parts := InsertParts(s3, t, a, g, plan.nodes, |plan.nodes|)))
  {
    var id, g := AllocationId(t, a), s1.attempts[a].generation;
    var s2 := s1.(allocs := s1.allocs[id := Bound(t, a, g)]);
    ReleaseKeepsSlots(s2.(allocs := FreeAllocation(s2.allocs, Some(id), t, a, g)), who, t, token);
    NoteKeepsSlots(s2, a, s2.attempts[a].(allocation := Some(id)));
    var s3 := s2.(attempts := s2.attempts[a := s2.attempts[a].(allocation := Some(id))]);
    FailBindingKeepsSlots(s3, who, t, a, token);
    SameLeases(s3, s3.(parts := InsertParts(s3, t, a, g, plan.nodes, |plan.nodes|)));
  }

  /** The scan ran into a malformed payload after the slot was taken. */
  ghost predicate PoisonedClaim(s: State, w: string, lottery: Lottery) {
    SlotFree(ClaimScan(s, w, lottery).workers, w) && lottery.pick.Poisoned?
  }

  /** Everything after a lease was written. */
  lemma LeasedKeepsSlots(m: State, workers: map<string, Worker>, t: string, who: string, lottery: Lottery, plan: Plan, rebind: Option<Rebind>)
    requires Inv(m) && SlotInv(m) && t in m.tasks && m.tasks[t].status.Queued?
    requires lottery.attempt !in m.attempts && lottery.token != ""
    requires forall b :: b in m.attempts ==> m.attempts[b].digest != Sha256(lottery.token)
    requires FabricId(who) || who in m.workers
    requires (workers == m.workers && FabricId(who)) || workers == TakeSlot(m.workers, who)
    requires plan.Placed? && plan.placement.Some? ==> FabricId(who)
    ensures var l := LeaseTask(m.(workers := workers), t, who, lottery.attempt, lottery.token);
      SlotInv(l) && SlotInv(BindExecution(Advance(l, lottery.elapsed), who, t, lottery.attempt, lottery.token, plan, rebind).0)
  {
    var a := lottery.attempt;
    var l := LeaseTask(m.(workers := workers), t, who, a, lottery.token);
    LeaseKeepsSlots(m, workers, t, who, a, lottery.token);
    LeaseKeepsInv(m.(workers := workers), t, who, a, lottery.token);
    var later := Advance(l, lottery.elapsed);
    SameLeases(l, later);
    BindKeepsSlots(later, who, t, a, lottery.token, plan, rebind);
  }

  lemma PoisonBreaksSlots(s: State, w: string)
    requires SlotInv(s) && w in s.workers
    ensures SlotBase(s.(workers := TakeSlot(s.workers, w)))
    ensures SlotsMatch(s.(workers := TakeSlot(s.workers, w))) <==> FabricId(w)
  {
    var s' := s.(workers := TakeSlot(s.workers, w));
    assert s'.workers[w].load == s.workers[w].load + 1 && LeasedTo(s'.tasks, w) == LeasedTo(s.tasks, w);
  }

  lemma ScanKeepsSlots(s: State, w: string, lottery: Lottery)
    requires Inv(s) && SlotInv(s)
    ensures Inv(ClaimScan(s, w, lottery)) && SlotInv(ClaimScan(s, w, lottery))
    ensures SameIdentities(ReapStale(s), ClaimScan(s, w, lottery))
  {
    SameSlotsKeep(s, ReapStale(s));
    ExpireAllKeepsSlots(ReapStale(s), lottery.order);
    ExpireAllKeepsInv(ReapStale(s), lottery.order);
    ExpireAllFrame(ReapStale(s), lottery.order);
  }

  lemma ClaimSlots(s: State, w: string, lottery: Lottery)
    requires Inv(s) && SlotInv(s) && Legal(s, DoClaim(w, lottery))
    ensures SlotBase(Claim(s, w, lottery).0)
    ensures SlotsMatch(Claim(s, w, lottery).0) <==> FabricId(w) || !PoisonedClaim(s, w, lottery)
  {
    var s1 := ClaimScan(s, w, lottery);
    ScanKeepsSlots(s, w, lottery);
    if SlotFree(s1.workers, w) {
      match lottery.pick
      case NoTask =>
      case Poisoned(_) => PoisonBreaksSlots(s1, w);
      case Chosen(t) =>
        LeasedKeepsSlots(s1, TakeSlot(s1.workers, w), t, w, lottery, ClaimPlan(s1, t, w, lottery), None);
    }
  }

  lemma ClaimPhysicalKeepsSlots(s: State, lottery: Lottery, order: int)
    requires Inv(s) && SlotInv(s) && Legal(s, DoClaimPhysical(lottery, order))
    ensures SlotInv(ClaimPhysical(s, lottery, order).0)
  {
    var s1 := ExpireAll(s, lottery.order);
    ExpireAllKeepsSlots(s, lottery.order);
    ExpireAllKeepsInv(s, lottery.order);
    ExpireAllFrame(s, lottery.order);
    if lottery.pick.Chosen? {
      var t, a := lottery.pick.task, lottery.attempt;
      var s2 := Advance(LeaseTask(s1, t, Identity(a), a, lottery.token), lottery.elapsed);
      assert s1 == s1.(workers := s1.workers);
      LeasedKeepsSlots(s1, s1.workers, t, Identity(a), lottery, lottery.plan, PendingRebind(s2.events, t));
      var s3 := BindExecution(s2, Identity(a), t, a, lottery.token, lottery.plan, PendingRebind(s2.events, t)).0;
      SameLeases(s3, ClaimPhysical(s, lottery, order).0);
    }
  }

  lemma HeartbeatSlots(s: State, w: string, load: nat)
    requires SlotInv(s)
    ensures SlotBase(WorkerHeartbeat(s, w, load).0)
    ensures SlotsMatch(WorkerHeartbeat(s, w, load).0)
            <==> w !in s.workers || load > 1 || FabricId(w) || load == |LeasedTo(s.tasks, w)|
  {
    var s' := WorkerHeartbeat(s, w, load).0;
    assert s'.tasks == s.tasks;
    if w in s.workers && load <= 1 && !FabricId(w) {
      assert s'.workers[w].load == load;
      assert LeasedTo(s'.tasks, w) == LeasedTo(s.tasks, w);
    }
  }

  lemma StateReportKeepsSlots(s: State, a: string, g: nat, w: string, token: string, status: PartStatus, order: int)
    requires Inv(s) && SlotInv(s)
    ensures SlotInv(ParticipantState(s, a, g, w, token, status, order).0)
  {
    if Reporting(s, a, g, w, token) {
      var k := PartKey(a, w);
      var p := s.parts[k].(heartbeat := s.now, status := status);
      assert AttemptOk(s.tasks, s.attempts, a) && TaskOk(s.tasks, s.attempts, s.attempts[a].task);
      RecoverSlots(s, s.parts[k := p], a, g, "participant_failed", NoPath, order);
    }
  }

  lemma ExtendKeepsSlots(s: State, t: string)
    requires SlotInv(s)
    ensures SlotInv(Extend(s, t))
  {
    var e := Extend(s, t);
    forall w ensures LeasedTo(e.tasks, w) == LeasedTo(s.tasks, w) {}
    SameSlotsKeep(s, e);
  }

  lemma PartHeartbeatKeepsSlots(s: State, a: string, g: nat, w: string, token: string)
    requires SlotInv(s)
    ensures SlotInv(ParticipantHeartbeat(s, a, g, w, token).0)
  {
    var s' := ParticipantHeartbeat(s, a, g, w, token).0;
    if s' != s {
      var m := s.(parts := s'.parts, workers := s'.workers);
      SameSlotsKeep(s, m);
      ExtendKeepsSlots(m, s.attempts[a].task);
      assert s' == Extend(m, s.attempts[a].task);
    }
  }

  lemma VerifyKeepsSlots(s: State, a: string, g: nat, w: string, token: string, collective: bool, evidence: bool)
    requires SlotInv(s)
    ensures SlotInv(Verify(s, a, g, w, token, collective, evidence).0)
  {
    var s' := Verify(s, a, g, w, token, collective, evidence).0;
    if s' != s {
      var m := s.(parts := s'.parts);
      SameSlotsKeep(s, m);
      ExtendKeepsSlots(m, s.attempts[a].task);
    }
  }

  lemma EnqueueKeepsSlots(s: State, t: string, payload: Payload)
    requires SlotInv(s)
    ensures SlotInv(Enqueue(s, t, payload).0)
  {
    var s' := Enqueue(s, t, payload).0;
    forall w ensures LeasedTo(s'.tasks, w) == LeasedTo(s.tasks, w) {}
    SameSlotsKeep(s, s');
  }

  lemma RegisterKeepsSlots(s: State, w: string, caps: set<string>)
    requires SlotInv(s)
    ensures SlotInv(RegisterWorker(s, w, caps))
  {
    SameSlotsKeep(s, RegisterWorker(s, w, caps));
  }

  lemma StatusKeepsSlots(s: State, w: string, status: WorkerStatus)
    requires SlotInv(s)
    ensures SlotInv(SetWorkerStatus(s, w, status).0)
  {
    SameSlotsKeep(s, SetWorkerStatus(s, w, status).0);
  }

  lemma TickKeepsSlots(s: State, elapsed: real)
    requires SlotInv(s)
    ensures SlotInv(Advance(s, elapsed))
  {
    SameSlotsKeep(s, Advance(s, elapsed));
  }

  lemma ConvergeKeepsSlots(s: State, a: string, g: nat, w: string, token: string, reconciled: bool)
    requires SlotInv(s)
    ensures SlotInv(Converge(s, a, g, w, token, reconciled).0)
  {
    SameLeases(s, Converge(s, a, g, w, token, reconciled).0);
  }

  lemma EndpointKeepsSlots(s: State, a: string, g: nat, token: string, endpoint: string)
    requires SlotInv(s)
    ensures SlotInv(BindEndpoint(s, a, g, token, endpoint).0)
  {
    SameLeases(s, BindEndpoint(s, a, g, token, endpoint).0);
  }

  lemma BindPhysicalKeepsSlots(s: State, a: string, g: nat, token: string, id: AllocationId)
    requires SlotInv(s)
    ensures SlotInv(BindPhysical(s, a, g, token, id).0)
  {
    SameLeases(s, BindPhysical(s, a, g, token, id).0);
  }

  lemma CheckpointKeepsSlots(s: State, w: string, t: string, token: string, items: seq<CheckItem>)
    requires SlotInv(s)
    ensures SlotInv(Checkpoint(s, w, t, token, items).0)
  {
    SameLeases(s, Checkpoint(s, w, t, token, items).0);
  }

  /** The calls that keep the slot ledger, decided before the call: a worker must report the
      load it really carries, its claim must not meet a malformed payload before a task it
      can run, and a failure report must not raise on its running attempt.  Workers named like a physical identity are outside the ledger. */
  ghost predicate SlotGuard(s: State, step: Step) {
    match step
    case DoWorkerHeartbeat(w, load) => w !in s.workers || load > 1 || FabricId(w) || load == |LeasedTo(s.tasks, w)|
    case DoClaim(w, lottery) => FabricId(w) || !PoisonedClaim(s, w, lottery)
    case DoRecover(a, g, _, path, _) => !SlotLeaks(s, a, g, path)
    case _ => true
  }

  /** Slot conservation holds after a step exactly when its guard held before it. */
  lemma SlotsKeptExactlyWhen(s: State, step: Step)
    requires Inv(s) && SlotInv(s) && Legal(s, step)
    ensures SlotBase(Apply(s, step))
    ensures SlotsMatch(Apply(s, step)) <==> SlotGuard(s, step)
  {
    match step
    case DoWorkerHeartbeat(w, load) => HeartbeatSlots(s, w, load);
    case DoClaim(w, lottery) => ClaimSlots(s, w, lottery);
    case DoClaimPhysical(lottery, order) => ClaimPhysicalKeepsSlots(s, lottery, order);
    case DoComplete(w, t, token, result) => CompleteKeepsSlots(s, w, t, token, result);
    case DoRelease(w, t, token) => ReleaseKeepsSlots(s, w, t, token);
    case DoExpire(lapsed) => ExpireAllKeepsSlots(s, lapsed);
    case DoReconcile(_, lost) => ReconcileAllKeepsSlots(s, lost);
    case DoRecover(a, g, c, path, order) => RecoverSlots(s, s.parts, a, g, c, path, order);
    case DoEnqueue(t, payload) => EnqueueKeepsSlots(s, t, payload);
    case DoRegister(w, caps) => RegisterKeepsSlots(s, w, caps);
    case DoParticipantState(a, g, w, token, status, order) => StateReportKeepsSlots(s, a, g, w, token, status, order);
    case DoParticipantHeartbeat(a, g, w, token) => PartHeartbeatKeepsSlots(s, a, g, w, token);
    case DoVerify(a, g, w, token, collective, evidence) => VerifyKeepsSlots(s, a, g, w, token, collective, evidence);
    case DoConverge(a, g, w, token, reconciled) => ConvergeKeepsSlots(s, a, g, w, token, reconciled);
    case DoBindEndpoint(a, g, token, endpoint) => EndpointKeepsSlots(s, a, g, token, endpoint);
    case DoBindPhysical(a, g, token, id) => BindPhysicalKeepsSlots(s, a, g, token, id);
    case DoCheckpoint(w, t, token, items) => CheckpointKeepsSlots(s, w, t, token, items);
    case DoSetStatus(w, status) => StatusKeepsSlots(s, w, status);
    case Tick(elapsed) => TickKeepsSlots(s, elapsed);
  }

  ghost predicate GuardedRun(s: State, steps: seq<Step>)
    decreases |steps|
  {
    steps == [] || (SlotGuard(s, steps[0]) && GuardedRun(Apply(s, steps[0]), steps[1..]))
  }

  /** Over a whole run of guarded calls, every worker's slot counter is the number of tasks
      leased to it, through completions, releases, failed bindings, expiry and recovery. */
  lemma {:induction false} RunKeepsSlots(s: State, steps: seq<Step>)
    requires Inv(s) && SlotInv(s) && LegalRun(s, steps) && GuardedRun(s, steps)
    ensures SlotInv(Run(s, steps))
    decreases |steps|
  {
    if steps != [] {
      SlotsKeptExactlyWhen(s, steps[0]);
      StepKeepsInv(s, steps[0]);
      RunKeepsSlots(Apply(s, steps[0]), steps[1..]);
    }
  }
}
