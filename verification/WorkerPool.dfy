/** The worker pool: what its own calls do, which calls move a worker's status, and when a barred
    worker stays barred. */
module WorkerPool {
  import opened Base
  import opened Failover
  import opened LeaseState
  import opened LeaseInvariant
  import opened LeaseRuns
  import opened Settled
  import opened Outcomes
  import opened Grants

  // ------------------------------------------------------------------ the pool's calls

  /** Registration makes a worker ready unless it is barred, without touching its slot. */
  lemma RegistrationKeepsSlots(s: State, w: string, caps: set<string>)
    ensures var s' := RegisterWorker(s, w, caps);
      && s' == s.(workers := s'.workers) && s'.workers.Keys == s.workers.Keys + {w}
      && (forall v :: v in s.workers && v != w ==> s'.workers[v] == s.workers[v])
      && s'.workers[w].caps == caps && s'.workers[w].heartbeat == s.now
      && s'.workers[w].load == (if w in s.workers then s.workers[w].load else 0)
      && (s'.workers[w].status != Ready <==> w in s.workers && (s.workers[w].status.Quarantined? || s.workers[w].status.Revoked?))
      && (w in s.workers && s'.workers[w].status != Ready ==> s'.workers[w].status == s.workers[w].status)
  {}

  /** A worker's heartbeat is taken exactly when the worker is known and reports at most one
      task.  It overwrites the slot counter, and brings a stale worker back but no barred one. */
  lemma WorkerHeartbeatTakenExactlyWhen(s: State, w: string, load: nat)
    ensures var (s', ok) := WorkerHeartbeat(s, w, load);
      && (ok <==> w in s.workers && load in {0, 1})
      && s' == if !ok then s else
           s.(workers := s.workers[w := s.workers[w].(heartbeat := s.now, load := load,
                                                      status := if s.workers[w].status.Stale? then Ready else s.workers[w].status)])
  {}

  /** Setting a status changes that and nothing else. */
  lemma StatusIsSetExactlyWhen(s: State, w: string, status: WorkerStatus)
    ensures var (s', ok) := SetWorkerStatus(s, w, status);
      && (ok <==> w in s.workers)
      && s' == if ok then s.(workers := s.workers[w := s.workers[w].(status := status)]) else s
  {}

  // --------------------------------------------------------------------- statuses

  /** Worker w was last heard of more than a lease ago. */
  ghost predicate Silent(s: State, w: string) { w in s.workers && s.workers[w].heartbeat + s.leaseSeconds < s.now }

  /** The status a step leaves a worker with: registering readies it unless it is barred, a taken
      heartbeat brings it back when it is stale, an administrator sets it, and any worker's claim
      marks the silent ones stale, whatever they were. */
  ghost function StatusAfter(s: State, step: Step, w: string): WorkerStatus
    requires w in s.workers
  {
    var status := s.workers[w].status;
    match step
    case DoRegister(v, _) => if v == w && !status.Quarantined? && !status.Revoked? then Ready else status
    case DoWorkerHeartbeat(v, load) => if v == w && status.Stale? && load in {0, 1} then Ready else status
    case DoParticipantHeartbeat(a, g, v, token) =>
      if v == w && status.Stale? && ParticipantHeartbeat(s, a, g, v, token).1 then Ready else status
    case DoSetStatus(v, set_) => if v == w then set_ else status
    case DoClaim(_, _) => if Silent(s, w) then Stale else status
    case _ => status
  }

  /** Same workers, with the same statuses. */
  ghost predicate SameStatuses(s: State, s': State) {
    s'.workers.Keys == s.workers.Keys && forall w :: w in s.workers ==> s'.workers[w].status == s.workers[w].status
  }

  lemma IdentitiesKeepStatuses(s: State, s': State)
    requires SameIdentities(s, s')
    ensures SameStatuses(s, s')
  {
    forall w | w in s.workers ensures s'.workers[w].status == s.workers[w].status {
      assert s'.workers[w].(load := 0).status == s'.workers[w].status;
    }
  }

  lemma BindKeepsStatuses(s: State, who: string, t: string, a: string, token: string, plan: Plan, rebind: Option<Rebind>)
    requires a in s.attempts
    ensures SameStatuses(s, BindExecution(s, who, t, a, token, plan, rebind).0)
  {
    if BindExecution(s, who, t, a, token, plan, rebind).1 {
      BoundKeepsWorkers(s, who, t, a, token, plan, rebind);
    } else {
      var m := FailedBindingEnds(s, who, t, a, token, plan, rebind);
      ReleaseKeepsStatuses(m, who, t, token);
    }
  }

  lemma GivingKeepsStatuses(s: State, s': State, w: string)
    requires s'.workers == s.workers || s'.workers == GiveSlot(s.workers, w)
    ensures SameStatuses(s, s')
  {}

  lemma ReleaseKeepsStatuses(s: State, w: string, t: string, token: string)
    ensures SameStatuses(s, Release(s, w, t, token).0)
  {
    GivingKeepsStatuses(s, Release(s, w, t, token).0, w);
  }

  lemma CompleteKeepsStatuses(s: State, w: string, t: string, token: string, result: string)
    ensures SameStatuses(s, Complete(s, w, t, token, result).0)
  {
    GivingKeepsStatuses(s, Complete(s, w, t, token, result).0, w);
  }

  lemma ThenSameStatuses(s: State, m: State, s': State)
    requires SameStatuses(s, m) && SameStatuses(m, s')
    ensures SameStatuses(s, s')
  {}

  lemma ClaimStatuses(s: State, w: string, lottery: Lottery)
    ensures SameStatuses(ReapStale(s), Claim(s, w, lottery).0)
  {
    ExpireAllFrame(ReapStale(s), lottery.order);
    IdentitiesKeepStatuses(ReapStale(s), ClaimScan(s, w, lottery));
    ClaimEnds(s, w, lottery);
    ClaimEndStatuses(ReapStale(s), ClaimScan(s, w, lottery), Claim(s, w, lottery).0, w, lottery);
  }

  lemma ClaimEndStatuses(s: State, s1: State, r: State, w: string, lottery: Lottery)
    requires SameStatuses(s, s1) && ClaimEnd(s1, r, w, lottery)
    ensures SameStatuses(s, r)
  {
    var s2 := s1.(workers := TakeSlot(s1.workers, w));
    assert SameStatuses(s1, s2);
    if lottery.pick.Chosen? && lottery.pick.task in s2.tasks {
      var t, a := lottery.pick.task, lottery.attempt;
      var later := Advance(LeaseTask(s2, t, w, a, lottery.token), lottery.elapsed);
      BindKeepsStatuses(later, w, t, a, lottery.token, ClaimPlan(s2, t, w, lottery), None);
    }
  }

  lemma PhysicalClaimStatuses(s: State, lottery: Lottery, order: int)
    ensures SameStatuses(s, ClaimPhysical(s, lottery, order).0)
  {
    ExpireAllFrame(s, lottery.order);
    IdentitiesKeepStatuses(s, ExpireAll(s, lottery.order));
    PhysicalEnds(s, lottery, order);
    PhysicalEndStatuses(s, ExpireAll(s, lottery.order), ClaimPhysical(s, lottery, order).0, lottery);
  }

  lemma PhysicalEndStatuses(s: State, s1: State, r: State, lottery: Lottery)
    requires SameStatuses(s, s1) && PhysicalEnd(s1, r, lottery)
    ensures SameStatuses(s, r)
  {
    if r != s1 {
      var t, a := lottery.pick.task, lottery.attempt;
      var l := Advance(LeaseTask(s1, t, Identity(a), a, lottery.token), lottery.elapsed);
      BindKeepsStatuses(l, Identity(a), t, a, lottery.token, lottery.plan, PendingRebind(l.events, t));
    }
  }

  lemma FencingKeepsStatuses(s: State, a: string)
    requires a in s.attempts
    ensures SameStatuses(s, FenceResources(s, a))
  {
    GivingKeepsStatuses(s, FenceResources(s, a), s.attempts[a].worker);
  }

  lemma {:induction false} ReconcileStatuses(s: State, order: seq<string>)
    ensures SameStatuses(s, ReconcileAll(s, order))
  {
    if order != [] {
      ReconcileStatuses(s, order[..|order| - 1]);
      var m, a := ReconcileAll(s, order[..|order| - 1]), order[|order| - 1];
      if Current(m, a) {
        FencingKeepsStatuses(FenceRows(m, a), a);
        ThenSameStatuses(s, FenceRows(m, a), ReconcileOne(m, a));
      }
    }
  }

  lemma FencedKeepsStatuses(s: State, s': State, a: string, kept: bool)
    requires AttemptFenced(s, s', a, kept)
    ensures SameStatuses(s, s')
  {}

  lemma RecoverStatuses(s: State, a: string, g: nat, c: string, path: PathReport, order: int)
    requires Inv(s)
    ensures SameStatuses(s, Recover(s, a, g, c, path, order).0)
  {
    FailureReportAnswers(s, a, g, c, path, order);
    var (s', out) := Recover(s, a, g, c, path, order);
    if out in {Requeued, RecoveryRaised} { FencedKeepsStatuses(s, s', a, out == RecoveryRaised); }
  }

  lemma StateReportStatuses(s: State, a: string, g: nat, w: string, token: string, status: PartStatus, order: int)
    requires Inv(s)
    ensures SameStatuses(s, ParticipantState(s, a, g, w, token, status, order).0)
  {
    StateTakenExactlyWhen(s, a, g, w, token, status, order);
    var (s', ok) := ParticipantState(s, a, g, w, token, status, order);
    if ok && status == PFailed { FencedKeepsStatuses(s, s', a, false); }
  }

  /** The calls that may change a status, beside a participant's heartbeat. */
  predicate PoolCall(step: Step) { step.DoRegister? || step.DoWorkerHeartbeat? || step.DoSetStatus? || step.DoClaim? }

  lemma ReportsKeepStatuses(s: State, step: Step)
    requires Inv(s) && Reports(step) && !step.DoParticipantHeartbeat?
    ensures SameStatuses(s, Apply(s, step))
  {
    match step
    case DoParticipantState(a, g, w, token, status, order) => StateReportStatuses(s, a, g, w, token, status, order);
    case _ =>
  }

  lemma OthersKeepStatuses(s: State, step: Step)
    requires Inv(s) && !PoolCall(step) && !Reports(step)
    ensures SameStatuses(s, Apply(s, step))
  {
    match step
    case DoClaimPhysical(lottery, order) => PhysicalClaimStatuses(s, lottery, order);
    case DoComplete(w, t, token, result) => CompleteKeepsStatuses(s, w, t, token, result);
    case DoRelease(w, t, token) => ReleaseKeepsStatuses(s, w, t, token);
    case DoExpire(lapsed) =>
      ExpireAllFrame(s, lapsed);
      IdentitiesKeepStatuses(s, ExpireAll(s, lapsed));
    case DoReconcile(_, lost) => ReconcileStatuses(s, lost);
    case DoRecover(a, g, c, path, order) => RecoverStatuses(s, a, g, c, path, order);
    case _ =>
  }

  lemma StatusIsMoved(s: State, step: Step, w: string)
    requires Inv(s) && w in s.workers && (step.DoParticipantHeartbeat? || PoolCall(step))
    ensures w in Apply(s, step).workers && Apply(s, step).workers[w].status == StatusAfter(s, step, w)
  {
    if step.DoParticipantHeartbeat? {
      HeartbeatTakenExactlyWhen(s, step.attempt, step.generation, step.worker, step.token);
    } else if step.DoClaim? {
      ClaimStatuses(s, step.worker, step.lottery);
    }
  }

  /** Every step leaves every known worker known, with exactly that status. */
  lemma StatusMoves(s: State, step: Step, w: string)
    requires Inv(s) && w in s.workers
    ensures w in Apply(s, step).workers && Apply(s, step).workers[w].status == StatusAfter(s, step, w)
  {
    if step.DoParticipantHeartbeat? || PoolCall(step) {
      StatusIsMoved(s, step, w);
    } else if Reports(step) {
      ReportsKeepStatuses(s, step);
    } else {
      OthersKeepStatuses(s, step);
    }
  }

  // --------------------------------------------------------------- barred workers

  /** Quarantined or revoked. */
  ghost predicate Barred(s: State, w: string) {
    w in s.workers && (s.workers[w].status.Quarantined? || s.workers[w].status.Revoked?)
  }

  /** The call lets a barred worker off: it sets another status, or is a claim while the worker has
      been silent for more than a lease. */
  ghost predicate LetsOff(s: State, step: Step, w: string) {
    (step.DoSetStatus? && step.worker == w && !step.status.Quarantined? && !step.status.Revoked?)
    || (step.DoClaim? && Silent(s, w))
  }

  /** A barred worker stays barred exactly when the call is neither. */
  lemma BarredExactlyWhen(s: State, step: Step, w: string)
    requires Inv(s) && Barred(s, w)
    ensures Barred(Apply(s, step), w) <==> !LetsOff(s, step, w)
  {
    StatusMoves(s, step, w);
  }

  ghost predicate NeverLetOff(s: State, steps: seq<Step>, w: string)
    decreases |steps|
  {
    steps == [] || (!LetsOff(s, steps[0], w) && NeverLetOff(Apply(s, steps[0]), steps[1..], w))
  }

  /** Over every run without such a call it stays barred and no claim of it is granted. */
  lemma {:induction false} BarredWorkersGetNothing(s: State, steps: seq<Step>, w: string, lottery: Lottery)
    requires Inv(s) && LegalRun(s, steps) && Barred(s, w) && NeverLetOff(s, steps, w)
    requires Legal(Run(s, steps), DoClaim(w, lottery))
    ensures Barred(Run(s, steps), w) && Claim(Run(s, steps), w, lottery).1 == Refused
    decreases |steps|
  {
    if steps != [] {
      BarredExactlyWhen(s, steps[0], w);
      StepKeepsInv(s, steps[0]);
      BarredWorkersGetNothing(Apply(s, steps[0]), steps[1..], w, lottery);
    } else {
      ScanSees(s, w, lottery);
    }
  }

  /** A barred worker that keeps silent for a lease is marked stale by anyone's claim, and its next
      heartbeat makes it ready. */
  lemma SilentBarredWorkerComesBack(s: State, w: string, anyone: string, lottery: Lottery)
    requires Inv(s) && Legal(s, DoClaim(anyone, lottery)) && Barred(s, w) && Silent(s, w)
    ensures var claimed := Claim(s, anyone, lottery).0;
      var (s', ok) := WorkerHeartbeat(claimed, w, 0);
      ok && w in s'.workers && s'.workers[w].status == Ready && s'.workers[w].load == 0
  {
    StatusMoves(s, DoClaim(anyone, lottery), w);
  }
}
