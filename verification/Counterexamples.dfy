/** Concrete runs from the empty database in which the code does not keep a law: the other
    side of the exact conditions proved in Conservation, Allocations, LeaseTheorems and
    Checkpoints. */
module Counterexamples {
  import opened Base
  import opened Failover
  import opened LeaseState
  import opened LeaseInvariant
  import opened Conservation
  import opened Allocations
  import opened LeaseRuns
  import opened LeaseTheorems
  import opened FailoverRuns
  import opened Checkpoints

  const MALFORMED := Payload("{\"required_capabilities\": 1}", Malformed, Absent, Other)
  const PHYSICAL := Payload("{\"compute_requirements\": {}}", Required({}), Requirements(None), Other)

  const LEADS := Payload("{\"kind\": \"lead_prepare\"}", Required({}), Requirements(None), LeadPrepare([Lead("lead")]))

  const IDLE := Worker({}, Ready, 0.0, 0)

  const EMPTY_PLACEMENT := Placement("p", [])
  const UNROUTED_PATH := PathFailed("x", [Path("x", "gpu0", "gpu1", None, None, false)], map[])

  /** One more step at the end of a run. */
  lemma {:induction false} OneMoreStep(s: State, steps: seq<Step>, step: Step)
    ensures Run(s, steps + [step]) == Apply(Run(s, steps), step)
    ensures LegalRun(s, steps + [step]) <==> LegalRun(s, steps) && Legal(Run(s, steps), step)
    decreases |steps|
  {
    if steps == [] {
      assert ([step] + [])[1..] == [] && steps + [step] == [step];
    } else {
      OneMoreStep(Apply(s, steps[0]), steps[1..], step);
      assert (steps + [step])[1..] == steps[1..] + [step];
    }
  }

  /** Make one more legal step at the end of a run that leads to s. */
  lemma Extended(s0: State, steps: seq<Step>, s: State, step: Step) returns (more: seq<Step>)
    requires LegalRun(s0, steps) && s == Run(s0, steps) && Legal(s, step)
    ensures more == steps + [step] && LegalRun(s0, more) && Run(s0, more) == Apply(s, step)
  {
    more := steps + [step];
    OneMoreStep(s0, steps, step);
  }

  lemma FirstStep(s: State, step: Step, rest: seq<Step>)
    ensures Run(s, [step] + rest) == Run(Apply(s, step), rest)
    ensures LegalRun(s, [step] + rest) <==> Legal(s, step) && LegalRun(Apply(s, step), rest)
  {
    assert ([step] + rest)[1..] == rest;
  }

  /** The scan of `claim` raises after the slot was reserved: the worker is charged for a task
      that nobody leased. */
  lemma PoisonedClaimLeaksItsSlot() returns (steps: seq<Step>)
    ensures var s0 := Initial(0.0, 30.0);
      LegalRun(s0, steps) && SlotInv(s0) && !SlotsMatch(Run(s0, steps))
    ensures var s := Run(Initial(0.0, 30.0), steps);
      "w" in s.workers && s.workers["w"].load == 1 && LeasedTo(s.tasks, "w") == {}
  {
    var s0 := Initial(0.0, 30.0);
    var lottery := Lottery("a", "token", [], Poisoned("t"), 0.0, Raises);
    var register, enqueue, claim := DoRegister("w", {}), DoEnqueue("t", MALFORMED), DoClaim("w", lottery);
    steps := [register] + ([enqueue] + ([claim] + []));
    var s1 := Apply(s0, register);
    assert s1 == s0.(workers := map["w" := Worker({}, Ready, 0.0, 0)]);
    var s2 := Apply(s1, enqueue);
    assert s2 == s1.(tasks := map["t" := Task(MALFORMED, 0.0, Queued, 0, None, 0)]);
    assert ReapStale(s2) == s2 == ClaimScan(s2, "w", lottery);
    TextLessTotal("t", "t");
    var s3 := Apply(s2, claim);
    assert s3 == s2.(workers := map["w" := Worker({}, Ready, 0.0, 1)]);
    FirstStep(s2, claim, []);
    FirstStep(s1, enqueue, [claim] + []);
    FirstStep(s0, register, [enqueue] + ([claim] + []));
    assert LeasedTo(s3.tasks, "w") == {};
  }

  // --------------------------------------------------------------- common prefixes

  /** One ready worker and one queued task. */
  function QueuedState(w: string, p: Payload): State {
    Initial(0.0, 30.0).(workers := map[w := IDLE], tasks := map["t" := Task(p, 0.0, Queued, 0, None, 0)])
  }

  lemma QueuedRun(w: string, p: Payload) returns (steps: seq<Step>)
    ensures LegalRun(Initial(0.0, 30.0), steps) && Run(Initial(0.0, 30.0), steps) == QueuedState(w, p)
  {
    var s0 := Initial(0.0, 30.0);
    steps := Extended(s0, [], s0, DoRegister(w, {}));
    var s1 := s0.(workers := map[w := IDLE]);
    assert RegisterWorker(s0, w, {}) == s1;
    steps := Extended(s0, steps, s1, DoEnqueue("t", p));
  }

  /** The environment's answers for a physical claim of t that is placed on worker n. */
  function FabricLottery(t: string, a: string, token: string, placement: Placement): Lottery {
    Lottery(a, token, [], Chosen(t), 0.0, Placed(Some(placement), ["n"], true, true))
  }

  /** t leased to the fabric under attempt a, bound to worker n. */
  function FabricLease(s: State, t: string, a: string, token: string, placement: Placement): State
    requires t in s.tasks
  {
    var g, id := s.tasks[t].generation + 1, AllocationId(t, a);
    s.(tasks := s.tasks[t := s.tasks[t].(status := Leased("fabric:" + a, token, s.now + s.leaseSeconds),
                                         attempts := s.tasks[t].attempts + 1, attempt := Some(a), generation := g)],
       attempts := s.attempts[a := Attempt(t, g, "fabric:" + a, Running, Sha256(token), Pending, None, Some(id), Some(placement))],
       parts := s.parts[PartKey(a, "n") := Participant(t, g, id, 0, 1, PBound, s.now, false)],
       allocs := s.allocs[id := Bound(t, a, g)])
  }

  /** t is the next task a physical claim takes, and nothing has lapsed. */
  ghost predicate NextPhysical(s: State, t: string) {
    && t in s.tasks && s.tasks[t].status.Queued? && s.tasks[t].payload.compute.Requirements?
    && (forall u :: u in s.tasks ==> !s.tasks[u].status.Queued? || u == t || !Before(s.tasks, u, t))
    && (forall u :: u in s.tasks ==> !Lapsed(s, u))
  }

  lemma PhysicalPick(s: State, t: string, a: string, token: string, plan: Plan)
    requires NextPhysical(s, t) && !Before(s.tasks, t, t)
    requires a !in s.attempts && token != "" && forall b :: b in s.attempts ==> s.attempts[b].digest != Sha256(token)
    ensures Legal(s, DoClaimPhysical(Lottery(a, token, [], Chosen(t), 0.0, plan), 0))
  {
    var before := set u | u in s.tasks && Waiting(s.tasks, u) && Mentions(s.tasks[u].payload) && Before(s.tasks, u, t);
    assert before == {};
    assert MentionedBefore(s.tasks, t) == |before| == 0;
    assert ExpireAll(s, []) == s;
  }

  lemma InsertOne(s: State, t: string, a: string, g: nat, n: string)
    ensures InsertParts(s, t, a, g, [n], 1) == s.parts[PartKey(a, n) := Participant(t, g, AllocationId(t, a), 0, 1, PBound, s.now, false)]
  {
    assert InsertParts(s, t, a, g, [n], 0) == s.parts;
  }

  lemma PhysicalGrant(s: State, t: string, a: string, token: string, placement: Placement)
    requires NextPhysical(s, t) && "n" in s.workers && s.workers["n"].status == Ready && PendingRebind(s.events, t).None?
    ensures ClaimPhysical(s, FabricLottery(t, a, token, placement), 0) == (FabricLease(s, t, a, token, placement), Granted(t))
  {
    var lottery := FabricLottery(t, a, token, placement);
    assert ExpireAll(s, []) == s;
    var g, id := s.tasks[t].generation + 1, AllocationId(t, a);
    var l := LeaseTask(s, t, Identity(a), a, token);
    assert Advance(l, 0.0) == l;
    var (b, ok) := BindExecution(l, Identity(a), t, a, token, lottery.plan, None);
    assert Bindable(l, lottery.plan);
    assert ok;
    var s1 := l.(allocs := l.allocs[id := Reserved], attempts := l.attempts[a := l.attempts[a].(placement := Some(placement))]);
    var s2 := s1.(allocs := s1.allocs[id := Bound(t, a, g)]);
    var s3 := s2.(attempts := s2.attempts[a := s2.attempts[a].(allocation := Some(id))]);
    InsertOne(s3, t, a, g, "n");
    assert b == s3.(parts := InsertParts(s3, t, a, g, ["n"], 1));
    assert b.parts == s.parts[PartKey(a, "n") := Participant(t, g, id, 0, 1, PBound, s.now, false)];
    assert b.allocs == s.allocs[id := Bound(t, a, g)];
    assert b == FabricLease(s, t, a, token, placement);
  }

  /** Let a physical claim lease t at the end of a run. */
  lemma FabricStep(s0: State, steps: seq<Step>, s: State, t: string, a: string, token: string, placement: Placement)
    returns (more: seq<Step>)
    requires LegalRun(s0, steps) && s == Run(s0, steps)
    requires NextPhysical(s, t) && "n" in s.workers && s.workers["n"].status == Ready && PendingRebind(s.events, t).None?
    requires a !in s.attempts && token != "" && forall b :: b in s.attempts ==> s.attempts[b].digest != Sha256(token)
    ensures LegalRun(s0, more) && Run(s0, more) == FabricLease(s, t, a, token, placement)
  {
    TextLessTotal(t, t);
    PhysicalPick(s, t, a, token, FabricLottery(t, a, token, placement).plan);
    PhysicalGrant(s, t, a, token, placement);
    more := Extended(s0, steps, s, DoClaimPhysical(FabricLottery(t, a, token, placement), 0));
  }

  /** A run that leases one physical task to the fabric. */
  lemma LeasedRun(placement: Placement) returns (steps: seq<Step>)
    ensures LegalRun(Initial(0.0, 30.0), steps)
    ensures Run(Initial(0.0, 30.0), steps) == FabricLease(QueuedState("n", PHYSICAL), "t", "a", "token", placement)
  {
    steps := QueuedRun("n", PHYSICAL);
    steps := FabricStep(Initial(0.0, 30.0), steps, QueuedState("n", PHYSICAL), "t", "a", "token", placement);
  }

  // ------------------------------------------------------------------ raising reports

  /** A failed path whose GPU pair has no durable route set: the recovery raises between the
      fence and the release, and the requeued task's allocation stays bound. */
  lemma RaisedRecoveryLeaksItsAllocation() returns (steps: seq<Step>)
    ensures var s0 := Initial(0.0, 30.0);
      LegalRun(s0, steps) && AllocsMatch(s0) && !AllocsMatch(Run(s0, steps))
    ensures var s := Run(Initial(0.0, 30.0), steps);
      "t" in s.tasks && s.tasks["t"].status.Queued?
      && AllocationId("t", "a") in s.allocs && s.allocs[AllocationId("t", "a")] == Bound("t", "a", 1)
  {
    steps := LeasedRun(EMPTY_PLACEMENT);
    var s := FabricLease(QueuedState("n", PHYSICAL), "t", "a", "token", EMPTY_PLACEMENT);
    steps := Extended(Initial(0.0, 30.0), steps, s, DoRecover("a", 1, "link_down", UNROUTED_PATH, 0));
    assert RebindFor(s, "a", UNROUTED_PATH) == Some(None);
    RecoverResources(s, "a", 1, "link_down", UNROUTED_PATH, 0);
    RecoverFences(s, "a", 1, "link_down", UNROUTED_PATH, 0);
    var s' := Recover(s, "a", 1, "link_down", UNROUTED_PATH, 0).0;
    assert !AllocOk(s', AllocationId("t", "a"));
  }

  // -------------------------------------------------------- runs of a worker-held lease

  /** The environment's answers for a claim of t by worker w, which binds its own resources. */
  function WorkerLottery(a: string, token: string, w: string): Lottery {
    Lottery(a, token, [], Chosen("t"), 0.0, Placed(None, [w], true, true))
  }

  /** t leased to worker w under attempt a, with its resources bound. */
  function WorkerLease(p: Payload, a: string, token: string, w: string): State {
    QueuedState(w, p).(
      workers := map[w := IDLE.(load := 1)],
      tasks := map["t" := Task(p, 0.0, Leased(w, token, 30.0), 1, Some(a), 1)],
      attempts := map[a := Attempt("t", 1, w, Running, Sha256(token), Pending, None, Some(AllocationId("t", a)), None)],
      parts := map[PartKey(a, w) := Participant("t", 1, AllocationId("t", a), 0, 1, PBound, 0.0, false)],
      allocs := map[AllocationId("t", a) := Bound("t", a, 1)])
  }

  lemma WorkerGrant(p: Payload, a: string, token: string, w: string)
    requires p.caps == Required({}) && p.compute == Requirements(None) && token != ""
    requires p.work.LeadPrepare? ==> AllObjects(p.work.leads)
    ensures Legal(QueuedState(w, p), DoClaim(w, WorkerLottery(a, token, w)))
    ensures Claim(QueuedState(w, p), w, WorkerLottery(a, token, w)) == (WorkerLease(p, a, token, w), Granted("t"))
  {
    var s, lottery := QueuedState(w, p), WorkerLottery(a, token, w);
    TextLessTotal("t", "t");
    assert ReapStale(s) == s == ClaimScan(s, w, lottery);
    var id := AllocationId("t", a);
    var l := LeaseTask(s.(workers := TakeSlot(s.workers, w)), "t", w, a, token);
    assert Advance(l, 0.0) == l;
    var s1 := l.(allocs := l.allocs[id := Reserved], attempts := l.attempts[a := l.attempts[a].(placement := None)]);
    var s2 := s1.(allocs := s1.allocs[id := Bound("t", a, 1)]);
    var s3 := s2.(attempts := s2.attempts[a := s2.attempts[a].(allocation := Some(id))]);
    InsertOne(s3, "t", a, 1, w);
    assert Bindable(s3, lottery.plan);
    assert BindExecution(l, w, "t", a, token, lottery.plan, None) == (s3.(parts := InsertParts(s3, "t", a, 1, [w], 1)), true);
    assert s3.(parts := InsertParts(s3, "t", a, 1, [w], 1)) == WorkerLease(p, a, token, w);
  }

  lemma WorkerLeasedRun(p: Payload) returns (steps: seq<Step>)
    requires p.caps == Required({}) && p.compute == Requirements(None)
    requires p.work.LeadPrepare? ==> AllObjects(p.work.leads)
    ensures LegalRun(Initial(0.0, 30.0), steps) && Run(Initial(0.0, 30.0), steps) == WorkerLease(p, "a", "token", "n")
  {
    steps := QueuedRun("n", p);
    WorkerGrant(p, "a", "token", "n");
    steps := Extended(Initial(0.0, 30.0), steps, QueuedState("n", p), DoClaim("n", WorkerLottery("a", "token", "n")));
  }

  /** A failure report whose path entry is not a mapping raises after the fence was committed:
      the task waits again, its worker is still charged for it and its allocation still bound. */
  lemma MalformedReportLeaksBoth() returns (steps: seq<Step>)
    ensures var s0, s := Initial(0.0, 30.0), Run(Initial(0.0, 30.0), steps);
      LegalRun(s0, steps) && SlotInv(s0) && !SlotsMatch(s) && AllocsMatch(s0) && !AllocsMatch(s)
    ensures var s := Run(Initial(0.0, 30.0), steps);
      && "t" in s.tasks && s.tasks["t"].status.Queued? && "n" in s.workers && s.workers["n"].load == 1
      && AllocationId("t", "a") in s.allocs && s.allocs[AllocationId("t", "a")] == Bound("t", "a", 1)
  {
    steps := WorkerLeasedRun(PHYSICAL);
    var s := WorkerLease(PHYSICAL, "a", "token", "n");
    steps := Extended(Initial(0.0, 30.0), steps, s, DoRecover("a", 1, "link_down", MalformedPath, 0));
    MalformedReport(s);
  }

  lemma MalformedReport(s: State)
    requires s == WorkerLease(PHYSICAL, "a", "token", "n")
    ensures var s' := Recover(s, "a", 1, "link_down", MalformedPath, 0).0;
      && !SlotsMatch(s') && !AllocsMatch(s') && s'.allocs == s.allocs && s'.workers == s.workers
      && "t" in s'.tasks && s'.tasks["t"].status.Queued?
  {
    RecoverFences(s, "a", 1, "link_down", MalformedPath, 0);
    RecoverResources(s, "a", 1, "link_down", MalformedPath, 0);
    var s' := Recover(s, "a", 1, "link_down", MalformedPath, 0).0;
    assert !AllocOk(s', AllocationId("t", "a"));
    assert LeasedTo(s'.tasks, "n") == {};
    assert s'.workers["n"].load == 1;
  }

  // ------------------------------------------------------- a checkpoint that is not resumed

  /** A physical claim hands a lead out again although an earlier worker lease checkpointed it. */
  lemma PhysicalClaimRepeatsCheckpointedLeads() returns (steps: seq<Step>, claim: Step)
    ensures var s := Run(Initial(0.0, 30.0), steps);
      LegalRun(Initial(0.0, 30.0), steps) && Legal(s, claim)
      && HandedOut(s, claim) == Some(("t", [Lead("lead")])) && PendingLeads(s.checks, "t", [Lead("lead")]) == []
  {
    var s3;
    steps, s3 := CheckpointedRun();
    claim := DoClaimPhysical(FabricLottery("t", "b", "next", EMPTY_PLACEMENT), 0);
    TextLessTotal("t", "t");
    PhysicalPick(s3, "t", "b", "next", FabricLottery("t", "b", "next", EMPTY_PLACEMENT).plan);
    PhysicalGrant(s3, "t", "b", "next", EMPTY_PLACEMENT);
    assert PendingLeads(s3.checks, "t", [Lead("lead")][..0]) == [];
  }

  lemma CheckpointedRun() returns (steps: seq<Step>, s: State)
    ensures LegalRun(Initial(0.0, 30.0), steps) && s == Run(Initial(0.0, 30.0), steps)
    ensures s.tasks == map["t" := Task(LEADS, 0.0, Queued, 1, Some("a"), 1)]
    ensures s.attempts.Keys == {"a"} && s.attempts["a"].digest == Sha256("token")
    ensures s.workers == map["n" := IDLE] && s.events == map[] && s.leaseSeconds == 30.0 && s.now == 0.0
    ensures s.checks == map[CheckKey("t", Sha256("lead")) := CheckRow(0, None, "n", 1)]
  {
    var s0 := Initial(0.0, 30.0);
    steps := WorkerLeasedRun(LEADS);
    var s1 := WorkerLease(LEADS, "a", "token", "n");
    steps := Extended(s0, steps, s1, DoCheckpoint("n", "t", "token", [CheckItem(Sha256("lead"), None)]));
    var s2 := s1.(checks := map[CheckKey("t", Sha256("lead")) := CheckRow(0, None, "n", 1)]);
    OneLead(s1);
    steps := Extended(s0, steps, s2, DoRelease("n", "t", "token"));
    s := Release(s2, "n", "t", "token").0;
    ReleasedTask(s2, s);
  }

  lemma OneLead(s: State)
    requires s == WorkerLease(LEADS, "a", "token", "n")
    ensures Checkpoint(s, "n", "t", "token", [CheckItem(Sha256("lead"), None)]).0
            == s.(checks := map[CheckKey("t", Sha256("lead")) := CheckRow(0, None, "n", 1)])
  {
    var items := [CheckItem(Sha256("lead"), None)];
    var leads := [Lead("lead")];
    assert ItemIndex(leads, Sha256("lead")) == Some(0);
    assert CheckpointItems(s.checks, "t", leads, items[..0], "n", 1) == Some(s.checks);
    assert CheckpointItems(s.checks, "t", leads, items, "n", 1)
        == Some(s.checks[CheckKey("t", Sha256("lead")) := CheckRow(0, None, "n", 1)]);
  }

  lemma ReleasedTask(s: State, s': State)
    requires s == WorkerLease(LEADS, "a", "token", "n").(checks := s.checks) && s' == Release(s, "n", "t", "token").0
    ensures s'.tasks == map["t" := Task(LEADS, 0.0, Queued, 1, Some("a"), 1)]
    ensures s'.attempts.Keys == {"a"} && s'.attempts["a"].digest == Sha256("token")
    ensures s'.workers == map["n" := IDLE] && s'.events == map[] && s'.checks == s.checks
    ensures s'.now == s.now && s'.leaseSeconds == s.leaseSeconds
  {}

  // ------------------------------------------------------------- a reservation left behind

  const ROUTED := Placement("p", [RouteSet("g0", "g1", "x", {"y"}, {"x", "y"})])
  const PATHS := [Path("x", "g0", "g1", Some({}), Some({"d0"}), false), Path("y", "g0", "g1", Some({}), Some({"d1"}), true)]
  const HEALTH := map["y" := Health(Finite(0.0), Finite(0.0), Finite(1.0), 1)]
  const TO_STANDBY := Rebind("a", 1, "g0", "g1", "x", Some("y"))

  lemma StandbySelection()
    ensures Contract(ROUTED, PATHS, HEALTH, "x", "a", 1) == Some(TO_STANDBY)
  {
    var failed, route := PATHS[0], ROUTED.routes[0];
    assert FindPath(PATHS, "x") == Some(failed) && FindRoute(ROUTED.routes, "g0", "g1") == Some(route);
    assert Independent(failed, PATHS[1]) && Eligible(PATHS[1], failed, route, HEALTH) && !Eligible(failed, failed, route, HEALTH);
    BestIsMinimal(PATHS, failed, route, HEALTH);
  }

  /** The next lease after a failover is placed without the selected standby: the binding is
      refused and the fresh reservation stays reserved. */
  lemma RefusedPlacementKeepsItsReservation() returns (steps: seq<Step>)
    ensures LegalRun(Initial(0.0, 30.0), steps) && NoneReserved(Initial(0.0, 30.0))
    ensures var s := Run(Initial(0.0, 30.0), steps);
      && AllocationId("t", "b") in s.allocs && s.allocs[AllocationId("t", "b")] == Reserved
      && "t" in s.tasks && s.tasks["t"].status.Queued?
  {
    var s0 := Initial(0.0, 30.0);
    steps := LeasedRun(ROUTED);
    var s1 := FabricLease(QueuedState("n", PHYSICAL), "t", "a", "token", ROUTED);
    var report := PathFailed("x", PATHS, HEALTH);
    steps := Extended(s0, steps, s1, DoRecover("a", 1, "link_down", report, 0));
    var s2 := Recover(s1, "a", 1, "link_down", report, 0).0;
    StandbyRecorded(s1, s2);
    var lottery := FabricLottery("t", "b", "next", EMPTY_PLACEMENT);
    TextLessTotal("t", "t");
    PhysicalPick(s2, "t", "b", "next", lottery.plan);
    steps := Extended(s0, steps, s2, DoClaimPhysical(lottery, 0));
    RefusedBinding(s2);
  }

  lemma StandbyRecorded(s: State, s': State)
    requires s == FabricLease(QueuedState("n", PHYSICAL), "t", "a", "token", ROUTED)
    requires s' == Recover(s, "a", 1, "link_down", PathFailed("x", PATHS, HEALTH), 0).0
    ensures s'.tasks == map["t" := Task(PHYSICAL, 0.0, Queued, 1, Some("a"), 1)]
    ensures s'.attempts.Keys == {"a"} && s'.attempts["a"].digest == Sha256("token")
    ensures s'.leaseSeconds == 30.0 && s'.now == 0.0
    ensures PendingRebind(s'.events, "t") == Some(TO_STANDBY)
  {
    RowsOfFence(s);
    RecoverFences(s, "a", 1, "link_down", PathFailed("x", PATHS, HEALTH), 0);
    StandbyEvents(s);
    OneSelection(s'.events);
  }

  lemma RowsOfFence(s: State)
    requires s == FabricLease(QueuedState("n", PHYSICAL), "t", "a", "token", ROUTED)
    ensures Current(s, "a") && s.attempts["a"].generation == 1
    ensures var f := FenceRows(s, "a");
      && f.tasks == map["t" := Task(PHYSICAL, 0.0, Queued, 1, Some("a"), 1)]
      && f.attempts.Keys == {"a"} && f.attempts["a"].digest == Sha256("token") && f.leaseSeconds == 30.0 && f.now == 0.0
  {}

  lemma StandbyEvents(s: State)
    requires Current(s, "a") && s.attempts["a"].generation == 1 && s.attempts["a"].task == "t"
    requires s.attempts["a"].placement == Some(ROUTED) && s.events == map[] && s.now == 0.0
    ensures Recover(s, "a", 1, "link_down", PathFailed("x", PATHS, HEALTH), 0).0.events
            == map[EventKey("a", 1, "link_down", Fenced) := Event("t", 0.0, 0, None),
                   EventKey("a", 1, "link_down", StandbySelected) := Event("t", 0.0, 0, Some(TO_STANDBY))]
  {
    StandbySelection();
    CurrentReportEvents(s, "a", 1, "link_down", PathFailed("x", PATHS, HEALTH), 0);
  }

  lemma OneSelection(events: map<EventKey, Event>)
    requires events == map[EventKey("a", 1, "link_down", Fenced) := Event("t", 0.0, 0, None),
                           EventKey("a", 1, "link_down", StandbySelected) := Event("t", 0.0, 0, Some(TO_STANDBY))]
    ensures PendingRebind(events, "t") == Some(TO_STANDBY)
  {
    var selected := EventKey("a", 1, "link_down", StandbySelected);
    assert NewestSelection(events, selected, "t");
    assert forall k :: NewestSelection(events, k, "t") ==> k == selected;
  }

  lemma RefusedBinding(s: State)
    requires NextPhysical(s, "t") && PendingRebind(s.events, "t") == Some(TO_STANDBY) && s.now < s.now + s.leaseSeconds
    requires "b" !in s.attempts
    ensures var s' := ClaimPhysical(s, FabricLottery("t", "b", "next", EMPTY_PLACEMENT), 0).0;
      && AllocationId("t", "b") in s'.allocs && s'.allocs[AllocationId("t", "b")] == Reserved
      && "t" in s'.tasks && s'.tasks["t"].status.Queued?
  {
    var lottery := FabricLottery("t", "b", "next", EMPTY_PLACEMENT);
    assert ExpireAll(s, []) == s;
    var l := LeaseTask(s, "t", Identity("b"), "b", "next");
    assert Advance(l, 0.0) == l;
    assert !Validates(TO_STANDBY, EMPTY_PLACEMENT);
    var s1 := l.(allocs := l.allocs[AllocationId("t", "b") := Reserved],
                 attempts := l.attempts["b" := l.attempts["b"].(placement := Some(EMPTY_PLACEMENT))]);
    assert BindExecution(l, Identity("b"), "t", "b", "next", lottery.plan, Some(TO_STANDBY))
        == (Release(s1, Identity("b"), "t", "next").0, false);
    assert ValidLease(s1, Identity("b"), "t", "next");
  }

  // ---------------------------------------------------------------- a shared endpoint

  /** Two tasks are leased; the first converges and keeps its lease; the second then binds the
      same endpoint. */
  lemma ConvergedHolderAndRunnerShareAnEndpoint() returns (steps: seq<Step>)
    ensures LegalRun(Initial(0.0, 30.0), steps) && HoldersDistinct(Initial(0.0, 30.0))
    ensures var s := Run(Initial(0.0, 30.0), steps);
      && Holds(s, "a") && Holds(s, "b")
      && s.attempts["a"].endpoint == s.attempts["b"].endpoint == Some("host:1") && !HoldersDistinct(s)
  {
    var s0 := Initial(0.0, 30.0);
    var leased, s3 := TwoLeasedRun();
    steps := ConvergedRun(s0, leased, s3);
    var s4 := Run(s0, steps);
    steps := Extended(s0, steps, s4, DoBindEndpoint("b", 1, "second", "host:1"));
    SecondBinding(s4);
  }

  lemma SecondBinding(s: State)
    requires BothLeased(s) && s.attempts["a"].status == Finished && s.attempts["a"].endpoint == Some("host:1")
    ensures var s' := BindEndpoint(s, "b", 1, "second", "host:1").0;
      && Holds(s', "a") && Holds(s', "b") && !HoldersDistinct(s')
      && s'.attempts["a"].endpoint == s'.attempts["b"].endpoint == Some("host:1")
  {
    assert !EndpointTaken(s, "b", "host:1");
    var s' := BindEndpoint(s, "b", 1, "second", "host:1").0;
    assert Holds(s', "a") && Holds(s', "b");
  }

  lemma TwoQueuedRun() returns (steps: seq<Step>, s: State)
    ensures LegalRun(Initial(0.0, 30.0), steps) && s == Run(Initial(0.0, 30.0), steps)
    ensures s == QueuedState("n", PHYSICAL).(tasks := map["t" := Task(PHYSICAL, 0.0, Queued, 0, None, 0), "u" := Task(PHYSICAL, 0.0, Queued, 0, None, 0)])
  {
    steps := QueuedRun("n", PHYSICAL);
    var q := QueuedState("n", PHYSICAL);
    steps := Extended(Initial(0.0, 30.0), steps, q, DoEnqueue("u", PHYSICAL));
    s := Enqueue(q, "u", PHYSICAL).0;
  }

  lemma TwoLeasedRun() returns (steps: seq<Step>, s: State)
    ensures LegalRun(Initial(0.0, 30.0), steps) && s == Run(Initial(0.0, 30.0), steps) && BothLeased(s) && BothRunning(s)
  {
    var queued, s1 := TwoQueuedRun();
    TextLessTotal("u", "t");
    steps := FabricStep(Initial(0.0, 30.0), queued, s1, "t", "a", "first", EMPTY_PLACEMENT);
    var s2 := FabricLease(s1, "t", "a", "first", EMPTY_PLACEMENT);
    NextIsSecond(s1, s2);
    steps := FabricStep(Initial(0.0, 30.0), steps, s2, "u", "b", "second", EMPTY_PLACEMENT);
    s := FabricLease(s2, "u", "b", "second", EMPTY_PLACEMENT);
  }

  lemma NextIsSecond(s1: State, s2: State)
    requires s1 == QueuedState("n", PHYSICAL).(tasks := map["t" := Task(PHYSICAL, 0.0, Queued, 0, None, 0), "u" := Task(PHYSICAL, 0.0, Queued, 0, None, 0)])
    requires s2 == FabricLease(s1, "t", "a", "first", EMPTY_PLACEMENT)
    ensures NextPhysical(s2, "u") && PendingRebind(s2.events, "u").None? && s2.attempts.Keys == {"a"}
    ensures var s := FabricLease(s2, "u", "b", "second", EMPTY_PLACEMENT); BothLeased(s) && BothRunning(s)
  {
    TextLessTotal("u", "u");
  }

  ghost predicate BothRunning(s: State) {
    && "a" in s.attempts && s.attempts["a"].status == Running && s.attempts["a"].endpoint == None
    && s.parts.Keys == {PartKey("a", "n"), PartKey("b", "n")}
    && var p := s.parts[PartKey("a", "n")]; p.generation == 1 && p.status == PBound && p.task == "t"
  }

  ghost predicate BothLeased(s: State) {
    && "t" in s.tasks && "u" in s.tasks && s.now == 0.0 && s.leaseSeconds == 30.0
    && s.tasks["t"].status == Leased("fabric:a", "first", 30.0) && s.tasks["t"].attempt == Some("a")
    && s.tasks["u"].status == Leased("fabric:b", "second", 30.0) && s.tasks["u"].attempt == Some("b")
    && s.attempts.Keys == {"a", "b"} && s.attempts["a"].task == "t" && s.attempts["b"].task == "u"
    && s.attempts["a"].generation == 1 && s.attempts["b"].generation == 1
    && s.attempts["a"].digest == Sha256("first") && s.attempts["b"].digest == Sha256("second")
    && s.attempts["b"].status == Running && s.attempts["b"].endpoint == None
  }

  /** Attempt a binds an endpoint, is verified and converges. */
  lemma ConvergedRun(s0: State, steps: seq<Step>, s: State) returns (more: seq<Step>)
    requires LegalRun(s0, steps) && s == Run(s0, steps) && BothLeased(s) && BothRunning(s)
    ensures LegalRun(s0, more) && BothLeased(Run(s0, more))
    ensures var s' := Run(s0, more); s'.attempts["a"].status == Finished && s'.attempts["a"].endpoint == Some("host:1")
  {
    var verified, v := VerifiedRun(s0, steps, s);
    more := Extended(s0, verified, v, DoConverge("a", 1, "n", "first", true));
    ConvergedPart(v);
  }

  ghost predicate ReadyToConverge(s: State) {
    && "a" in s.attempts && s.attempts["a"].status == Running && s.attempts["a"].endpoint == Some("host:1")
    && s.parts.Keys == {PartKey("a", "n"), PartKey("b", "n")}
    && var p := s.parts[PartKey("a", "n")]; p.generation == 1 && p.status == PRunning && p.verified && p.task == "t"
  }

  lemma VerifiedRun(s0: State, steps: seq<Step>, s: State) returns (more: seq<Step>, v: State)
    requires LegalRun(s0, steps) && s == Run(s0, steps) && BothLeased(s) && BothRunning(s)
    ensures LegalRun(s0, more) && v == Run(s0, more) && BothLeased(v) && ReadyToConverge(v)
  {
    more := Extended(s0, steps, s, DoBindEndpoint("a", 1, "first", "host:1"));
    var b := s.(attempts := s.attempts["a" := s.attempts["a"].(endpoint := Some("host:1"))]);
    FirstBinding(s);
    more := Extended(s0, more, b, DoVerify("a", 1, "n", "first", true, true));
    v := Verify(b, "a", 1, "n", "first", true, true).0;
    VerifiedPart(b, v);
  }

  lemma ConvergedPart(s: State)
    requires BothLeased(s) && ReadyToConverge(s)
    ensures var s' := Converge(s, "a", 1, "n", "first", true).0;
      BothLeased(s') && s'.attempts["a"].status == Finished && s'.attempts["a"].endpoint == Some("host:1")
  {
    assert AllVerified(s, "a", 1);
  }

  lemma FirstBinding(s: State)
    requires BothLeased(s) && BothRunning(s)
    ensures BindEndpoint(s, "a", 1, "first", "host:1").0 == s.(attempts := s.attempts["a" := s.attempts["a"].(endpoint := Some("host:1"))])
  {
    assert !EndpointTaken(s, "a", "host:1");
  }

  lemma VerifiedPart(s: State, s': State)
    requires BothLeased(s) && s.attempts["a"].status == Running && s.attempts["a"].endpoint.Some?
    requires PartKey("a", "n") in s.parts
    requires var p := s.parts[PartKey("a", "n")]; p.generation == 1 && p.status == PBound && p.task == "t"
    requires s' == Verify(s, "a", 1, "n", "first", true, true).0
    ensures BothLeased(s') && s'.attempts == s.attempts
    ensures s'.parts == s.parts[PartKey("a", "n") := s.parts[PartKey("a", "n")].(status := PRunning, heartbeat := s.now, verified := true)]
  {}
}
