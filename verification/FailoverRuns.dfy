/** Failover across generations: every selected standby was a safe choice, and every later
    physical lease of the task runs on the most recently selected one. */
module FailoverRuns {
  import opened Base
  import opened Failover
  import opened LeaseState
  import opened LeaseInvariant
  import opened LeaseRuns

  /** Key k records a standby selection that was made by this failure report in state s. */
  ghost predicate SelectedBy(s: State, step: Step, k: EventKey, e: Event) {
    && step.DoRecover? && step.attempt == k.attempt && step.generation == k.generation
    && Current(s, k.attempt) && s.attempts[k.attempt].generation == k.generation && s.attempts[k.attempt].task == e.task
    && e.rebind.Some? && RebindFor(s, k.attempt, step.path) == Some(e.rebind) && e.at == s.now
  }

  /** Nothing but a failure report ever records a standby selection. */
  lemma RecoverSelections(s: State, a: string, g: nat, c: string, path: PathReport, order: int, k: EventKey)
    requires Inv(s)
    requires k !in s.events && k in Recover(s, a, g, c, path, order).0.events && k.phase == StandbySelected
    ensures SelectedBy(s, DoRecover(a, g, c, path, order), k, Recover(s, a, g, c, path, order).0.events[k])
  {
    if Current(s, a) && s.attempts[a].generation == g {
      CurrentReportEvents(s, a, g, c, path, order);
    } else {
      RecoverOtherEvents(s, a, g, c, path, order, k);
    }
  }

  /** The events a report on the current generation appends. */
  lemma CurrentReportEvents(s: State, a: string, g: nat, c: string, path: PathReport, order: int)
    requires Current(s, a) && s.attempts[a].generation == g
    ensures var events := Recover(s, a, g, c, path, order).0.events;
      var fenced := Record(s, EventKey(a, g, c, Fenced), Event(s.attempts[a].task, s.now, order, None));
      match RebindFor(s, a, path)
      case Some(Some(r)) =>
        events == Record(fenced, EventKey(a, g, c, StandbySelected), Event(s.attempts[a].task, s.now, order, Some(r))).events
      case _ => events == fenced.events
  {
    var task := s.attempts[a].task;
    var f := FenceRows(s, a);
    assert RebindFor(f, a, path) == RebindFor(s, a, path);
    var s1 := Record(f, EventKey(a, g, c, Fenced), Event(task, s.now, order, None));
    match RebindFor(s, a, path)
    case None => assert Recover(s, a, g, c, path, order).0.events == s1.events;
    case Some(None) => assert Recover(s, a, g, c, path, order).0.events == s1.events;
    case Some(Some(r)) =>
      var s2 := Record(s1, EventKey(a, g, c, StandbySelected), Event(task, s.now, order, Some(r)));
      assert Recover(s, a, g, c, path, order).0.events == s2.events;
  }

  lemma RecoverOtherEvents(s: State, a: string, g: nat, c: string, path: PathReport, order: int, k: EventKey)
    requires Inv(s) && !(Current(s, a) && s.attempts[a].generation == g)
    requires k !in s.events && k in Recover(s, a, g, c, path, order).0.events
    ensures k.phase in {StaleGeneration, AlreadyFenced}
  {
    if a in s.attempts { assert AttemptOk(s.tasks, s.attempts, a); }
  }

  lemma StateReportSelections(s: State, a: string, g: nat, w: string, token: string, status: PartStatus, order: int, k: EventKey)
    requires Inv(s) && k !in s.events && k.phase == StandbySelected
    ensures k !in ParticipantState(s, a, g, w, token, status, order).0.events
  {
    if Reporting(s, a, g, w, token) {
      assert AttemptOk(s.tasks, s.attempts, a) && TaskOk(s.tasks, s.attempts, s.attempts[a].task);
      var p := PartKey(a, w);
      var m := s.(parts := s.parts[p := s.parts[p].(heartbeat := s.now, status := status)]);
      assert Current(m, a) && RebindFor(m, a, NoPath) == None;
      CurrentReportEvents(m, a, g, "participant_failed", NoPath, order);
    }
  }

  lemma StepSelections(s: State, step: Step, k: EventKey)
    requires Inv(s) && k !in s.events && k in Apply(s, step).events && k.phase == StandbySelected
    ensures SelectedBy(s, step, k, Apply(s, step).events[k])
  {
    match step
    case DoRecover(a, g, c, path, order) => RecoverSelections(s, a, g, c, path, order, k);
    case DoParticipantState(a, g, w, token, status, order) => StateReportSelections(s, a, g, w, token, status, order, k);
    case DoClaimPhysical(lottery, order) => PhysicalClaimEvents(s, lottery, order, k);
    case _ =>
  }

  lemma PhysicalClaimEvents(s: State, lottery: Lottery, order: int, k: EventKey)
    requires k !in s.events && k.phase == StandbySelected
    ensures k !in ClaimPhysical(s, lottery, order).0.events
  {}

  /** Every standby selection present after a run was made by one of its failure reports. */
  lemma {:induction false} SelectionsHaveReports(s: State, steps: seq<Step>, k: EventKey) returns (i: nat)
    requires Inv(s) && LegalRun(s, steps)
    requires k !in s.events && k in Run(s, steps).events && k.phase == StandbySelected
    ensures i < |steps| && Inv(Run(s, steps[..i]))
    ensures SelectedBy(Run(s, steps[..i]), steps[i], k, Run(s, steps).events[k])
    decreases |steps|
  {
    var m := Apply(s, steps[0]);
    StepKeepsInv(s, steps[0]);
    RunGrows(m, steps[1..]);
    if k in m.events {
      StepSelections(s, steps[0], k);
      i := 0;
    } else {
      var j := SelectionsHaveReports(m, steps[1..], k);
      i := j + 1;
      assert steps[..i][0] == steps[0] && steps[..i][1..] == steps[1..][..j];
    }
  }

  // ------------------------------------------------------------ the pending rebind

  lemma {:induction false} NewestExists(events: map<EventKey, Event>, keys: set<EventKey>) returns (best: EventKey)
    requires keys != {} && keys <= events.Keys
    ensures best in keys && forall j :: j in keys ==> Newer(events[best], events[j])
    decreases |keys|
  {
    var k :| k in keys;
    if keys == {k} {
      best := k;
    } else {
      var rest := NewestExists(events, keys - {k});
      best := if Newer(events[k], events[rest]) then k else rest;
    }
  }

  /** Event k selected a standby path for the task. */
  ghost predicate NamesStandby(events: map<EventKey, Event>, k: EventKey, t: string) {
    k in events && k.phase == StandbySelected && events[k].task == t
    && exists r, path :: events[k].rebind == Some(r) && r.toPath == Some(path) && path != ""
  }

  /** It did so, and no event that did is later or, at the same time, has a larger recovery id. */
  ghost predicate LatestSelection(events: map<EventKey, Event>, k: EventKey, t: string) {
    NamesStandby(events, k, t) && forall j :: NamesStandby(events, j, t) ==>
      events[j].at <= events[k].at && (events[j].at == events[k].at ==> events[j].order <= events[k].order)
  }

  lemma SelectsExactlyWhen(events: map<EventKey, Event>, k: EventKey, t: string)
    ensures SelectsFor(events, k, t) <==> NamesStandby(events, k, t)
  {
    if SelectsFor(events, k, t) {
      var r := events[k].rebind.value;
      assert events[k].rebind == Some(r) && r.toPath == Some(r.toPath.value) && r.toPath.value != "";
    }
  }

  /** A rebind is pending exactly when some standby was selected for the task, and it is then
      the newest of the selections. */
  lemma PendingIsNewest(events: map<EventKey, Event>, t: string)
    ensures PendingRebind(events, t).Some? <==> exists k :: NamesStandby(events, k, t)
    ensures PendingRebind(events, t).Some? ==>
      exists k :: NewestSelection(events, k, t) && events[k].rebind == PendingRebind(events, t)
    ensures forall k :: NewestSelection(events, k, t) ==> LatestSelection(events, k, t)
  {
    forall k ensures SelectsFor(events, k, t) <==> NamesStandby(events, k, t) { SelectsExactlyWhen(events, k, t); }
    if k :| SelectsFor(events, k, t) {
      var candidates := set j | j in events && SelectsFor(events, j, t);
      assert k in candidates;
      var best := NewestExists(events, candidates);
      assert NewestSelection(events, best, t);
    }
    forall k | NewestSelection(events, k, t) ensures LatestSelection(events, k, t) {
      SelectsExactlyWhen(events, k, t);
      forall j | NamesStandby(events, j, t)
        ensures events[j].at <= events[k].at && (events[j].at == events[k].at ==> events[j].order <= events[k].order)
      {
        SelectsExactlyWhen(events, j, t);
      }
    }
  }

  // --------------------------------------------------------------------- main result

  /** A granted physical lease of a task with a pending rebind runs on a placement whose
      active route for that GPU pair is exactly the selected standby. */
  lemma GrantedOnStandby(s: State, lottery: Lottery, order: int)
    requires Inv(s) && Legal(s, DoClaimPhysical(lottery, order))
    requires ClaimPhysical(s, lottery, order).1.Granted?
    ensures var (s', out) := ClaimPhysical(s, lottery, order);
      var t := out.task;
      && lottery.pick == Chosen(t) && lottery.attempt in s'.attempts && LeasedOn(s', lottery.attempt, t)
      && s'.attempts[lottery.attempt].placement == lottery.plan.placement
      && (PendingRebind(s.events, t).Some? ==>
            lottery.plan.placement.Some? && Validates(PendingRebind(s.events, t).value, lottery.plan.placement.value))
  {
    var s1 := ExpireAll(s, lottery.order);
    ExpireAllFrame(s, lottery.order);
    var t, a := lottery.pick.task, lottery.attempt;
    var s2 := Advance(LeaseTask(s1, t, Identity(a), a, lottery.token), lottery.elapsed);
    BindGrants(s2, Identity(a), t, a, lottery.token, lottery.plan, PendingRebind(s2.events, t));
  }

  /** Task t is leased on attempt a. */
  predicate LeasedOn(s: State, a: string, t: string) {
    t in s.tasks && s.tasks[t].status.Leased? && s.tasks[t].attempt == Some(a)
  }

  /** What a successful binding leaves behind. */
  lemma BindGrants(s: State, who: string, t: string, a: string, token: string, plan: Plan, rebind: Option<Rebind>)
    requires a in s.attempts && BindExecution(s, who, t, a, token, plan, rebind).1
    ensures var s' := BindExecution(s, who, t, a, token, plan, rebind).0;
      && plan.Placed? && Bindable(s, plan)
      && s'.tasks == s.tasks && s'.attempts.Keys == s.attempts.Keys
      && s'.attempts[a] == s.attempts[a].(placement := plan.placement, allocation := Some(AllocationId(t, a)))
      && s'.parts == InsertParts(s, t, a, s.attempts[a].generation, plan.nodes, |plan.nodes|)
      && (rebind.Some? ==> plan.placement.Some? && Validates(rebind.value, plan.placement.value))
  {
    var id, g := AllocationId(t, a), s.attempts[a].generation;
    var s1 := s.(allocs := s.allocs[id := Reserved],
                 attempts := s.attempts[a := s.attempts[a].(placement := plan.placement)]);
    var s2 := s1.(allocs := s1.allocs[id := Bound(t, a, g)]);
    var s3 := s2.(attempts := s2.attempts[a := s2.attempts[a].(allocation := Some(id))]);
    SameInserts(s, s3, t, a, g, plan.nodes, |plan.nodes|);
    assert BindExecution(s, who, t, a, token, plan, rebind).0 == s3.(parts := InsertParts(s3, t, a, g, plan.nodes, |plan.nodes|));
  }

  lemma {:induction false} SameInserts(s: State, s': State, t: string, a: string, g: nat, nodes: seq<string>, n: nat)
    requires n <= |nodes| && s.parts == s'.parts && s.now == s'.now
    ensures InsertParts(s, t, a, g, nodes, n) == InsertParts(s', t, a, g, nodes, n)
  {
    if n > 0 { SameInserts(s, s', t, a, g, nodes, n - 1); }
  }

  /** Failover is safe across generations.  After any run from a database without events, a
      granted physical lease of a task for which a standby was ever selected activates, on the
      failed GPU pair, the path named by a newest selection; and that selection was made by a
      failure report of the run, for a path that was in the failed generation's standby and
      verified sets, measured, failure-domain independent of the failed path and no worse than
      any other such path. */
  lemma FailoverIsSafe(s0: State, steps: seq<Step>, lottery: Lottery, order: int) returns (k: EventKey, i: nat)
    requires Inv(s0) && s0.events == map[] && LegalRun(s0, steps)
    requires Legal(Run(s0, steps), DoClaimPhysical(lottery, order))
    requires ClaimPhysical(Run(s0, steps), lottery, order).1.Granted?
    requires exists j :: NamesStandby(Run(s0, steps).events, j, ClaimPhysical(Run(s0, steps), lottery, order).1.task)
    ensures var s := Run(s0, steps);
      var t := ClaimPhysical(s, lottery, order).1.task;
      && LatestSelection(s.events, k, t)
      && var r := s.events[k].rebind.value;
         lottery.plan.placement.Some?
         && var route := FindRoute(lottery.plan.placement.value.routes, r.source, r.destination);
            route.Some? && route.value.active == r.toPath.value && r.toPath.value in route.value.verified
    ensures i < |steps| && steps[i].DoRecover? && steps[i].attempt == k.attempt && steps[i].path.PathFailed?
    ensures var s := Run(s0, steps);
      var r := s.events[k].rebind.value;
      var before, path := Run(s0, steps[..i]), steps[i].path;
      && k.attempt in before.attempts && before.attempts[k.attempt].placement.Some?
      && var failed := FindPath(path.paths, path.failedId);
         failed.Some?
         && var route := FindRoute(before.attempts[k.attempt].placement.value.routes, failed.value.source, failed.value.destination);
            route.Some? && r.source == failed.value.source && r.destination == failed.value.destination
            && SafeStandby(r.toPath.value, failed.value, route.value, path.paths, path.health)
  {
    var s := Run(s0, steps);
    var t := ClaimPhysical(s, lottery, order).1.task;
    RunKeepsInv(s0, steps);
    k := PendingSelection(s.events, t);
    GrantedOnStandby(s, lottery, order);
    i := SelectionsHaveReports(s0, steps, k);
    SelectedIsSafe(Run(s0, steps[..i]), steps[i], k, s.events[k]);
  }

  lemma PendingSelection(events: map<EventKey, Event>, t: string) returns (k: EventKey)
    requires exists j :: NamesStandby(events, j, t)
    ensures LatestSelection(events, k, t) && SelectsFor(events, k, t) && events[k].rebind == PendingRebind(events, t)
  {
    PendingIsNewest(events, t);
    var j :| NamesStandby(events, j, t);
    SelectsExactlyWhen(events, j, t);
    k :| NewestSelection(events, k, t) && events[k].rebind == PendingRebind(events, t);
  }

  /** A selection that names a path was safe when its report made it. */
  lemma SelectedIsSafe(before: State, step: Step, k: EventKey, e: Event)
    requires SelectedBy(before, step, k, e) && e.rebind.value.toPath.Some?
    ensures step.path.PathFailed? && k.attempt in before.attempts && before.attempts[k.attempt].placement.Some?
    ensures var r, path, failed := e.rebind.value, step.path, FindPath(step.path.paths, step.path.failedId);
      failed.Some?
      && var route := FindRoute(before.attempts[k.attempt].placement.value.routes, failed.value.source, failed.value.destination);
         route.Some? && r.source == failed.value.source && r.destination == failed.value.destination
         && SafeStandby(r.toPath.value, failed.value, route.value, path.paths, path.health)
  {
    var placement, path := before.attempts[k.attempt].placement.value, step.path;
    assert FindPath(path.paths, path.failedId).Some?;
    ContractIsSafe(placement, path.paths, path.health, path.failedId, k.attempt, before.attempts[k.attempt].generation);
  }

  // -------------------------------------------------------- recording a selection

  /** Selections are about attempts that are over. */
  ghost predicate SelectionsOver(s: State) {
    forall k :: k in s.events && k.phase == StandbySelected ==> k.attempt in s.attempts && s.attempts[k.attempt].status != Running
  }

  lemma StepKeepsSelectionsOver(s: State, step: Step)
    requires Inv(s) && Legal(s, step) && SelectionsOver(s)
    ensures SelectionsOver(Apply(s, step))
  {
    StepGrows(s, step);
    var s' := Apply(s, step);
    forall k | k in s'.events && k.phase == StandbySelected
      ensures k.attempt in s'.attempts && s'.attempts[k.attempt].status != Running
    {
      if k in s.events {
        assert AttemptEv(s, s', k.attempt);
      } else {
        StepSelections(s, step, k);
        RecoverFences(s, step.attempt, step.generation, step.failureClass, step.path, step.order);
      }
    }
  }

  /** In every run from a database without events. */
  lemma {:induction false} RunKeepsSelectionsOver(s: State, steps: seq<Step>)
    requires Inv(s) && LegalRun(s, steps) && SelectionsOver(s)
    ensures SelectionsOver(Run(s, steps))
    decreases |steps|
  {
    if steps != [] {
      StepKeepsSelectionsOver(s, steps[0]);
      StepKeepsInv(s, steps[0]);
      RunKeepsSelectionsOver(Apply(s, steps[0]), steps[1..]);
    }
  }

  /** A failure report on a running attempt, about a path the inventory knows and a GPU pair
      with a route set, records a selection: of a safe standby whenever some path qualifies,
      and otherwise of none. */
  lemma SelectionIsRecorded(s: State, a: string, g: nat, c: string, path: PathReport, order: int)
    requires Inv(s) && SelectionsOver(s) && a in s.attempts && s.attempts[a].status == Running && s.attempts[a].generation == g
    requires path.PathFailed? && s.attempts[a].placement.Some? && FindPath(path.paths, path.failedId).Some?
    requires var failed := FindPath(path.paths, path.failedId).value;
      FindRoute(s.attempts[a].placement.value.routes, failed.source, failed.destination).Some?
    ensures var (s', out) := Recover(s, a, g, c, path, order);
      var failed, k := FindPath(path.paths, path.failedId).value, EventKey(a, g, c, StandbySelected);
      var route := FindRoute(s.attempts[a].placement.value.routes, failed.source, failed.destination).value;
      && out == Requeued && k in s'.events && s'.events[k].task == s.attempts[a].task
      && s'.events[k].at == s.now && s'.events[k].order == order && s'.events[k].rebind.Some?
      && var r := s'.events[k].rebind.value;
         && r.source == failed.source && r.destination == failed.destination && r.attempt == a && r.generation == g
         && (r.toPath.Some? <==> exists q :: q in path.paths && Qualifies(q, failed, route, path.health))
         && (r.toPath.Some? ==> SafeStandby(r.toPath.value, failed, route, path.paths, path.health))
  {
    assert AttemptOk(s.tasks, s.attempts, a) && TaskOk(s.tasks, s.attempts, s.attempts[a].task);
    var placement := s.attempts[a].placement.value;
    ContractIsSafe(placement, path.paths, path.health, path.failedId, a, g);
    CurrentReportEvents(s, a, g, c, path, order);
    RequeuedUnlessRaised(s, a, g, c, path, order);
  }

  lemma RequeuedUnlessRaised(s: State, a: string, g: nat, c: string, path: PathReport, order: int)
    requires Current(s, a) && s.attempts[a].generation == g && RebindFor(s, a, path) != Some(None)
    ensures Recover(s, a, g, c, path, order).1 == Requeued
  {
    match RebindFor(s, a, path)
    case None =>
    case Some(rebind) =>
  }

}
