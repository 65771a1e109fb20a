/** The coordinator as it runs: one object whose lock-held methods update the tables in place.
    Each method is proved to take exactly the step that the state machine of LeaseState takes,
    so every property of runs holds of sequences of these calls. */
module Coordinator {
  import opened Base
  import opened Failover
  import opened LeaseState
  import opened LeaseInvariant
  import opened FailoverRuns
  import opened Queries
  import opened Sorting
  import opened Batches
  import opened Checkpoints
  import opened Recovery
  import opened Outcomes

  /** Every standby selection has its own recovery id. */
  ghost predicate DistinctSelections(events: map<EventKey, Event>, t: string) {
    forall j, k :: SelectsFor(events, j, t) && SelectsFor(events, k, t) && Newer(events[j], events[k]) && Newer(events[k], events[j])
      ==> j == k
  }

  /** The rows of a query without ORDER BY, in whatever order the database returns them. */
  method Enumerate(keep: set<string>) returns (rows: seq<string>)
    ensures Distinct(rows) && forall x :: x in rows <==> x in keep
  {
    rows := [];
    var rest := keep;
    while rest != {}
      invariant rest <= keep && Distinct(rows) && forall x :: x in rows <==> x in keep - rest
      decreases rest
    {
      var x :| x in rest;
      assert x !in rows;
      rows := rows + [x];
      rest := rest - {x};
    }
  }

  /** `ORDER BY item_index`. */
  function IndexOf(checks: map<CheckKey, CheckRow>, k: CheckKey): nat { if k in checks then checks[k].index else 0 }

  class ComputeCoordinator {
    const leaseSeconds: real
    var now: real
    var tasks: map<string, Task>
    var attempts: map<string, Attempt>
    var parts: map<PartKey, Participant>
    var workers: map<string, Worker>
    var allocs: map<AllocationId, AllocationState>
    var events: map<EventKey, Event>
    var checks: map<CheckKey, CheckRow>

    function View(): State
      reads this
    {
      State(now, leaseSeconds, tasks, attempts, parts, workers, allocs, events, checks)
    }

    constructor (now: real, leaseSeconds: real)
      ensures View() == Initial(now, leaseSeconds)
    {
      this.now, this.leaseSeconds := now, leaseSeconds;
      tasks, attempts, parts, workers := map[], map[], map[], map[];
      allocs, events, checks := map[], map[], map[];
    }

    /** Time passes between calls. */
    method Tick(elapsed: real)
      modifies this`now
      ensures View() == Advance(old(View()), elapsed)
    {
      now := now + elapsed;
    }

    method Enqueue(t: string, payload: Payload) returns (ok: bool)
      modifies this
      ensures (View(), ok) == LeaseState.Enqueue(old(View()), t, payload)
      ensures t in tasks && (ok <==> tasks[t].payload == payload) && (t in old(tasks) ==> View() == old(View()))
    {
      if t in tasks { return tasks[t].payload == payload; }
      tasks := tasks[t := Task(payload, now, Queued, 0, None, 0)];
      ok := true;
    }

    // ------------------------------------------------------------------ the pool

    method ReserveTaskSlot(w: string) returns (ok: bool)
      modifies this`workers
      ensures ok == SlotFree(old(workers), w)
      ensures workers == if ok then TakeSlot(old(workers), w) else old(workers)
    {
      ok := SlotFree(workers, w);
      if ok { workers := workers[w := workers[w].(load := workers[w].load + 1)]; }
    }

    method ReleaseTaskSlot(w: string)
      modifies this`workers
      ensures workers == GiveSlot(old(workers), w)
    {
      if w in workers && workers[w].load > 0 {
        workers := workers[w := workers[w].(load := workers[w].load - 1)];
      } else if w in workers {
        workers := workers[w := workers[w].(load := 0)];
      }
    }

    method ReleasePhysicalAllocation(row: Snapshot)
      modifies this`allocs
      ensures allocs == FreeRow(old(allocs), row)
    {
      if row.Some? && row.value.1.allocation.Some? {
        var id := row.value.1.allocation.value;
        if id in allocs && allocs[id] == Bound(row.value.1.task, row.value.0, row.value.1.generation) {
          allocs := allocs[id := Freed];
        }
      }
    }

    // ------------------------------------------------------------ ending a lease

    method Complete(w: string, t: string, token: string, result: string) returns (ok: bool)
      modifies this
      ensures (View(), ok) == LeaseState.Complete(old(View()), w, t, token, result)
      ensures if ok then t in tasks && tasks[t].status.Completed? && tasks[t].status.doneBy == w
                         && tasks[t].status.leaseDigest == Sha256(token) && tasks[t].status.resultDigest == Sha256(result)
              else View() == old(View())
      ensures !(t in old(tasks) && old(tasks)[t].status.Completed?) ==>
        (ok <==> LeaseOpen(old(View()), t, w, token))
        && (ok ==> tasks == old(tasks)[t := old(tasks)[t].(status := Completed(w, Sha256(token), Sha256(result), result))])
    {
      if t in tasks && tasks[t].status.Completed? {
        var done := tasks[t].status;
        return done.doneBy == w && done.leaseDigest == Sha256(token) && done.resultDigest == Sha256(result);
      }
      if !ValidLease(View(), w, t, token) { return false; }
      var attempt := tasks[t].attempt;
      tasks := tasks[t := tasks[t].(status := Completed(w, Sha256(token), Sha256(result), result))];
      if attempt.Some? && attempt.value in attempts {
        var a, row := attempt.value, attempts[attempt.value];
        attempts := attempts[a := row.(status := Finished, acceptance := if row.acceptance == Accepted then Accepted else Pending)];
        parts := SetParts(parts, a, PCompleted);
        ReleasePhysicalAllocation(Some((a, row)));
      }
      ReleaseTaskSlot(w);
      ok := true;
    }

    method Release(w: string, t: string, token: string) returns (ok: bool)
      modifies this
      ensures (View(), ok) == LeaseState.Release(old(View()), w, t, token)
    {
      if !ValidLease(View(), w, t, token) { return false; }
      var attempt := tasks[t].attempt;
      tasks := tasks[t := tasks[t].(status := Queued)];
      if attempt.Some? && attempt.value in attempts {
        var a, row := attempt.value, attempts[attempt.value];
        attempts := attempts[a := row.(status := Released)];
        parts := SetParts(parts, a, PReleased);
        ReleasePhysicalAllocation(Some((a, row)));
      }
      ReleaseTaskSlot(w);
      ok := true;
    }

    // ------------------------------------------------------------------ recovery

    /** What a recovery pass does after its commit: give back what the recovered attempts held. */
    method GiveBack(recovered: seq<Snapshot>)
      modifies this`allocs, this`workers
      ensures allocs == FreeRows(old(allocs), recovered) && workers == GiveRows(old(workers), recovered)
    {
      var i := 0;
      while i < |recovered|
        invariant 0 <= i <= |recovered|
        invariant allocs == FreeRows(old(allocs), recovered[..i]) && workers == GiveRows(old(workers), recovered[..i])
      {
        assert recovered[..i + 1][..i] == recovered[..i];
        ReleasePhysicalAllocation(recovered[i]);
        if recovered[i].Some? && !FabricId(recovered[i].value.1.worker) { ReleaseTaskSlot(recovered[i].value.1.worker); }
        i := i + 1;
      }
      assert recovered[..i] == recovered;
    }

    /** First every lapsed row is requeued and its attempt expired; after that commit, what the
        attempts held is given back. */
    method RecoverExpiredTasks() returns (count: nat, ghost rows: seq<string>)
      modifies this
      ensures EnumeratesLapsed(old(View()), rows)
      ensures View() == ExpireAll(old(View()), rows) && count == |rows|
      ensures forall t :: t in rows <==> t in old(tasks) && old(tasks)[t].status.Leased? && old(tasks)[t].status.until <= old(now)
    {
      var lapsed := Enumerate(set t | t in tasks && Lapsed(View(), t));
      var recovered := RequeueAllLapsed(lapsed);
      ExpireAllGivesBack(old(View()), lapsed, recovered);
      GiveBack(recovered);
      count, rows := |recovered|, lapsed;
    }

    /** The transaction of `recover_expired_tasks`. */
    method RequeueAllLapsed(lapsed: seq<string>) returns (recovered: seq<Snapshot>)
      requires EnumeratesLapsed(View(), lapsed)
      modifies this`tasks, this`attempts, this`parts
      ensures View() == ExpireAll(old(View()), lapsed).(allocs := allocs, workers := workers)
      ensures |recovered| == |lapsed| && forall j :: 0 <= j < |lapsed| ==> recovered[j] == AttemptOf(old(View()), lapsed[j])
    {
      recovered := [];
      var i := 0;
      while i < |lapsed|
        invariant 0 <= i <= |lapsed| && |recovered| == i
        invariant View() == ExpireAll(old(View()), lapsed[..i]).(allocs := allocs, workers := workers)
        invariant forall j :: 0 <= j < i ==> recovered[j] == AttemptOf(old(View()), lapsed[j])
      {
        var t := lapsed[i];
        assert t in lapsed;
        ExpireNext(old(View()), lapsed, i);
        ExpireRowsOnly(ExpireAll(old(View()), lapsed[..i]), View(), t);
        var row := AttemptOf(View(), t);
        RequeueLapsed(t, row);
        recovered := recovered + [row];
        i := i + 1;
      }
      assert lapsed[..i] == lapsed;
    }

    /** The row updates for one lapsed task. */
    method RequeueLapsed(t: string, row: Snapshot)
      requires Lapsed(View(), t) && row == AttemptOf(View(), t)
      modifies this`tasks, this`attempts, this`parts
      ensures View() == ExpireOne(old(View()), t).(allocs := old(allocs), workers := old(workers))
    {
      tasks := tasks[t := tasks[t].(status := Queued)];
      if row.Some? {
        var a, attempt := row.value.0, row.value.1;
        if attempt.status == Finished {
          parts := SettleParts(parts, a, attempt.generation);
        } else if attempt.status == Running {
          attempts := attempts[a := attempt.(status := Expired, acceptance := Rejected)];
          parts := EndLiveParts(parts, a, attempt.generation, PExpired, now);
        }
      }
    }

    /** Fence the running attempts with a participant that is not live, or that was silent for the
        timeout, or whose worker was, then give back what they held.  A timeout that is not positive
        raises. */
    method ReconcileFabric(timeout: real) returns (count: Option<nat>, ghost rows: seq<string>)
      requires Inv(View())
      modifies this
      ensures timeout <= 0.0 ==> count == None && View() == old(View())
      ensures timeout > 0.0 ==>
        EnumeratesLost(old(View()), timeout, rows) && View() == ReconcileAll(old(View()), rows) && count == Some(|rows|)
      ensures timeout > 0.0 ==> (forall a :: a in rows <==> Silent(old(View()), a, timeout)) && AllHeard(View(), timeout)
    {
      if timeout <= 0.0 { return None, []; }
      ghost var s0 := View();
      var lost := Enumerate(set a | a in attempts && Unhealthy(View(), a, timeout));
      var reconciled := FenceLost(timeout, lost);
      ReconcileAllGivesBack(s0, timeout, lost, reconciled);
      GiveBack(reconciled);
      ReconciliationSettles(s0, timeout, lost);
      assert View() == ReconcileAll(s0, lost);
      count, rows := Some(|reconciled|), lost;
    }

    /** The transaction of `reconcile_fabric`.  Its rollback branch is never reached. */
    method FenceLost(ghost timeout: real, lost: seq<string>) returns (reconciled: seq<Snapshot>)
      requires Inv(View()) && EnumeratesLost(View(), timeout, lost)
      modifies this`tasks, this`attempts, this`parts
      ensures View() == ReconcileAll(old(View()), lost).(allocs := allocs, workers := workers)
      ensures |reconciled| == |lost|
      ensures forall j :: 0 <= j < |lost| ==> lost[j] in old(attempts) && reconciled[j] == Some((lost[j], old(attempts)[lost[j]]))
    {
      reconciled := [];
      var i := 0;
      while i < |lost|
        invariant 0 <= i <= |lost| && |reconciled| == i
        invariant View() == ReconcileAll(old(View()), lost[..i]).(allocs := allocs, workers := workers)
        invariant forall j :: 0 <= j < i ==> lost[j] in old(attempts) && reconciled[j] == Some((lost[j], old(attempts)[lost[j]]))
      {
        var a := lost[i];
        ReconcileNext(old(View()), timeout, lost, i);
        ghost var m := ReconcileAll(old(View()), lost[..i]);
        ReconcileRowsOnly(m, View(), a);
        ghost var c := View();
        assert m.attempts == attempts;
        var row := attempts[a];
        var t := row.task;
        if t in tasks && tasks[t].status.Leased? && tasks[t].attempt == Some(a) && tasks[t].generation == row.generation {
          tasks := tasks[t := tasks[t].(status := Queued)];
          if attempts[a].status == Running {
            attempts := attempts[a := row.(status := Failed, acceptance := Rejected)];
            parts := EndLiveParts(parts, a, row.generation, PFailed, now);
            reconciled := reconciled + [Some((a, row))];
          } else {
            // Here the whole transaction would be rolled back, earlier attempts included.
            assert false;
          }
        }
        assert View() == FenceRows(c, a);
        i := i + 1;
      }
      assert lost[..i] == lost;
    }

    static lemma ReconcileNext(s: State, timeout: real, order: seq<string>, i: nat)
      requires Inv(s) && EnumeratesLost(s, timeout, order) && i < |order|
      ensures var m := ReconcileAll(s, order[..i]);
        ReconcileAll(s, order[..i + 1]) == ReconcileOne(m, order[i])
        && Current(m, order[i]) && order[i] in s.attempts && m.attempts[order[i]] == s.attempts[order[i]]
    {
      assert order[..i + 1][..i] == order[..i];
      forall a | a in order ensures Current(s, a) { assert Unhealthy(s, a, timeout); }
      assert order[i] in order && Current(s, order[i]);
      ReconcileAllEffects(s, timeout, order[..i]);
      ReconcileAllLocal(s, order[..i], order[i]);
    }

    static lemma {:induction false} ReconcileAllGivesBack(s: State, timeout: real, order: seq<string>, rows: seq<Snapshot>, n: nat := |order|)
      requires Inv(s) && EnumeratesLost(s, timeout, order) && |rows| == |order| && n <= |order|
      requires forall j :: 0 <= j < |order| ==> order[j] in s.attempts && rows[j] == Some((order[j], s.attempts[order[j]]))
      ensures ReconcileAll(s, order[..n]).allocs == FreeRows(s.allocs, rows[..n])
      ensures ReconcileAll(s, order[..n]).workers == GiveRows(s.workers, rows[..n])
      ensures order[..|order|] == order && rows[..|rows|] == rows
      decreases n
    {
      if n > 0 {
        ReconcileAllGivesBack(s, timeout, order, rows, n - 1);
        ReconcileNext(s, timeout, order, n - 1);
        ReconcileOneGivesBack(ReconcileAll(s, order[..n - 1]), order[n - 1]);
        assert rows[..n][..n - 1] == rows[..n - 1];
      }
    }

    method RecordEvent(key: EventKey, event: Event)
      modifies this`events
      ensures View() == Record(old(View()), key, event)
    {
      if key !in events { events := events[key := event]; }
    }

    /** Requeue the task, fail and reject the attempt, fail its live participants. */
    method FenceAttempt(a: string)
      requires a in attempts && attempts[a].task in tasks
      modifies this`tasks, this`attempts, this`parts
      ensures View() == FenceRows(old(View()), a)
    {
      var row := attempts[a];
      tasks := tasks[row.task := tasks[row.task].(status := Queued)];
      attempts := attempts[a := row.(status := Failed, acceptance := Rejected)];
      parts := EndLiveParts(parts, a, row.generation, PFailed, now);
    }

    /** Row updates commit before the path entry is read and the rebind contract is computed,
        and either may raise before anything is given back. */
    method RecoverFabricAttempt(a: string, g: nat, failureClass: string, path: PathReport, order: int) returns (out: LeaseState.Recovery)
      modifies this
      ensures (View(), out) == Recover(old(View()), a, g, failureClass, path, order)
    {
      if a !in attempts || attempts[a].task !in tasks { return NoAttempt; }
      var row := attempts[a];
      var t := row.task;
      var event := Event(t, now, order, None);
      if row.generation != g || tasks[t].attempt != Some(a) || tasks[t].generation != g {
        RecordEvent(EventKey(a, row.generation, failureClass, StaleGeneration), event);
        return Stale_;
      }
      if !tasks[t].status.Leased? || row.status != Running {
        RecordEvent(EventKey(a, g, failureClass, AlreadyFenced), event);
        return AlreadyFenced_;
      }
      FenceAttempt(a);
      RecordEvent(EventKey(a, g, failureClass, Fenced), event);
      if path.MalformedPath? { return RecoveryRaised; }
      if path.PathFailed? && row.placement.Some? {
        var rebind := Contract(row.placement.value, path.paths, path.health, path.failedId, a, g);
        if rebind.None? { return RecoveryRaised; }
        RecordEvent(EventKey(a, g, failureClass, StandbySelected), Event(t, now, order, rebind));
      }
      ReleasePhysicalAllocation(Some((a, row)));
      if !FabricId(row.worker) { ReleaseTaskSlot(row.worker); }
      out := Requeued;
    }

    // ------------------------------------------------------------------- binding

    /** `bind_execution_participants`: one row per node, ranked in node order. */
    method InsertParticipants(t: string, a: string, g: nat, nodes: seq<string>)
      modifies this`parts
      ensures parts == InsertParts(old(View()), t, a, g, nodes, |nodes|)
    {
      var rank := 0;
      while rank < |nodes|
        invariant 0 <= rank <= |nodes| && parts == InsertParts(old(View()), t, a, g, nodes, rank)
      {
        parts := parts[PartKey(a, nodes[rank]) :=
          Participant(t, g, AllocationId(t, a), rank, |nodes|, PBound, now, false)];
        rank := rank + 1;
      }
    }

    /** What both claims do once the lease is committed: reserve, check the pending rebind, bind
        the allocation, bind the attempt to it, insert the participants. */
    method Bind(who: string, t: string, a: string, token: string, plan: Plan, rebind: Option<Rebind>) returns (ok: bool)
      requires a in attempts
      modifies this
      ensures (View(), ok) == BindExecution(old(View()), who, t, a, token, plan, rebind)
    {
      var id, g := AllocationId(t, a), attempts[a].generation;
      if plan.Raises? {
        var _ := Release(who, t, token);
        return false;
      }
      allocs := allocs[id := Reserved];
      attempts := attempts[a := attempts[a].(placement := plan.placement)];
      if rebind.Some? && !(plan.placement.Some? && Validates(rebind.value, plan.placement.value)) {
        // The allocation is only reserved, so the release that names its binding finds nothing.
        var _ := Release(who, t, token);
        return false;
      }
      allocs := allocs[id := Bound(t, a, g)];
      if !plan.metadata {
        allocs := FreeAllocation(allocs, Some(id), t, a, g);
        var _ := Release(who, t, token);
        return false;
      }
      attempts := attempts[a := attempts[a].(allocation := Some(id))];
      ok := Bindable(View(), plan);
      if ok {
        InsertParticipants(t, a, g, plan.nodes);
      } else {
        ReleasePhysicalAllocation(Some((a, attempts[a])));
        var _ := Release(who, t, token);
      }
    }

    /** The lease write of a claim: a new generation of the task, held by a new attempt. */
    method Lease(t: string, who: string, a: string, token: string)
      requires t in tasks
      modifies this`tasks, this`attempts
      ensures View() == LeaseTask(old(View()), t, who, a, token)
    {
      var g := tasks[t].generation + 1;
      tasks := tasks[t := tasks[t].(status := Leased(who, token, now + leaseSeconds),
                                    attempts := tasks[t].attempts + 1, attempt := Some(a), generation := g)];
      attempts := attempts[a := Attempt(t, g, who, Running, Sha256(token), Pending, None, None, None)];
    }

    // -------------------------------------------------------------------- claims

    method ReapStaleWorkers()
      modifies this`workers
      ensures View() == ReapStale(old(View()))
    {
      workers := map w | w in workers ::
        if workers[w].heartbeat < now - leaseSeconds then workers[w].(status := Stale) else workers[w];
    }

    /** `_claim_checkpointed_payload`: the leads without a checkpoint, in payload order; None
        when a lead is not an object, which raises. */
    method PendingPayload(t: string, leads: seq<Lead>) returns (pending: Option<seq<Lead>>)
      ensures pending == if AllObjects(leads) then Some(PendingLeads(checks, t, leads)) else None
    {
      var kept: seq<Lead> := [];
      var i := 0;
      while i < |leads|
        invariant 0 <= i <= |leads| && kept == PendingLeads(checks, t, leads[..i])
        invariant forall j :: 0 <= j < i ==> leads[j].Lead?
      {
        assert leads[..i + 1][..i] == leads[..i];
        if leads[i].NotAnObject? { return None; }
        if CheckKey(t, Sha256(leads[i].text)) !in checks { kept := kept + [leads[i]]; }
        i := i + 1;
      }
      assert leads[..i] == leads;
      pending := Some(kept);
    }

    /** `claim`, up to the committed lease: recover, reserve the slot, scan the queue. */
    method ReserveAndScan(w: string) returns (pick: Option<Pick>, ghost lapsed: seq<string>)
      modifies this
      ensures EnumeratesLapsed(ReapStale(old(View())), lapsed)
      ensures var s1 := ExpireAll(ReapStale(old(View())), lapsed);
        if !SlotFree(s1.workers, w) then pick == None && View() == s1
        else pick.Some? && View() == s1.(workers := TakeSlot(s1.workers, w))
             && PickIs(s1.tasks, s1.workers[w].caps, pick.value)
    {
      ReapStaleWorkers();
      var _, rows := RecoverExpiredTasks();
      lapsed := rows;
      if w !in workers { return None, rows; }
      var caps := workers[w].caps;
      var reserved := ReserveTaskSlot(w);
      if !reserved { return None, rows; }
      var found := ScanQueue(tasks, caps);
      pick := Some(found);
    }

    /** `claim`: lease the first supported queued task to a worker with a free slot and, when
        the task asks for physical resources, bind them. */
    method Claim(w: string, attempt: string, token: string, elapsed: real, plan: Plan)
      returns (out: ClaimOutcome, leads: seq<Lead>, ghost in_: Lottery)
      modifies this
      ensures in_ == Lottery(attempt, token, in_.order, in_.pick, elapsed, plan)
      ensures (View(), out) == LeaseState.Claim(old(View()), w, in_)
      ensures EnumeratesLapsed(ReapStale(old(View())), in_.order)
      ensures var s1 := ClaimScan(old(View()), w, in_);
        SlotFree(s1.workers, w) ==> PickIs(s1.tasks, s1.workers[w].caps, in_.pick)
      ensures var s1 := ClaimScan(old(View()), w, in_);
        out.Granted? ==> out.task in s1.tasks && leads == WorkerLeads(s1.checks, out.task, s1.tasks[out.task].payload)
    {
      leads := [];
      var pick, lapsed := ReserveAndScan(w);
      in_ := Lottery(attempt, token, lapsed, if pick.Some? then pick.value else NoTask, elapsed, plan);
      if pick.None? { return Refused, [], in_; }
      match pick.value {
        case NoTask =>
          ghost var s1 := ClaimScan(old(View()), w, in_);
          assert GiveSlot(TakeSlot(s1.workers, w), w) == s1.workers;
          ReleaseTaskSlot(w);
          out := Refused;
        case Poisoned(_) =>
          // The exception leaves the reserved slot taken.
          out := Raised;
        case Chosen(t) =>
          out, leads := Grant(w, t, attempt, token, elapsed, plan);
      }
    }

    /** The rest of `claim` once a task is selected. */
    method Grant(w: string, t: string, attempt: string, token: string, elapsed: real, plan: Plan)
      returns (out: ClaimOutcome, leads: seq<Lead>)
      requires t in tasks
      modifies this
      ensures (View(), out) == Granting(old(View()), w, t, attempt, token, elapsed, plan)
      ensures out.Granted? ==> out.task == t
      ensures out.Granted? ==> leads == WorkerLeads(old(checks), t, old(tasks)[t].payload)
    {
      leads := [];
      Lease(t, w, attempt, token);
      var payload := tasks[t].payload;
      if payload.work.LeadPrepare? {
        var pending := PendingPayload(t, payload.work.leads);
        if pending.None? { return Raised, []; }
        leads := pending.value;
      }
      var bound := BindRequested(w, t, attempt, token, elapsed, plan, payload.compute);
      out := if bound then Granted(t) else Refused;
    }

    /** A worker-local claim binds physical resources only when the payload asks for them, and
        then only on the claiming worker. */
    method BindRequested(w: string, t: string, a: string, token: string, elapsed: real, plan: Plan, compute: ComputeSpec) returns (ok: bool)
      requires a in attempts
      modifies this
      ensures (View(), ok) == Requested(old(View()), w, t, a, token, elapsed, plan, compute)
    {
      if !(compute.Unparsable? || compute.Requirements?) { return true; }
      now := now + elapsed;
      ok := Bind(w, t, a, token, if PinnedTo(compute, w) && plan.Placed? then plan.(placement := None) else Raises, None);
    }

    static function Requested(s: State, w: string, t: string, a: string, token: string, elapsed: real, plan: Plan, compute: ComputeSpec)
      : (State, bool)
      requires a in s.attempts
    {
      if !(compute.Unparsable? || compute.Requirements?) then (s, true)
      else BindExecution(Advance(s, elapsed), w, t, a, token,
             if PinnedTo(compute, w) && plan.Placed? then plan.(placement := None) else Raises, None)
    }

    /** What a claim does to a selected task once its slot is taken. */
    static function Granting(s: State, w: string, t: string, attempt: string, token: string, elapsed: real, plan: Plan): (State, ClaimOutcome)
      requires t in s.tasks
    {
      var s2 := LeaseTask(s, t, w, attempt, token);
      var p := s2.tasks[t].payload;
      if p.work.LeadPrepare? && !AllObjects(p.work.leads) then (s2, Raised)
      else
        var (s3, ok) := Requested(s2, w, t, attempt, token, elapsed, plan, p.compute);
        (s3, if ok then Granted(t) else Refused)
    }

    /** `_pending_fabric_rebind`: the newest recorded selection for the task that names a path. */
    method PendingFabricRebind(t: string) returns (rebind: Option<Rebind>)
      requires DistinctSelections(events, t)
      ensures rebind == PendingRebind(events, t)
    {
      rebind := None;
      var rest := set k | k in events && SelectsFor(events, k, t);
      ghost var all := rest;
      ghost var best: Option<EventKey> := None;
      var newest: Option<Event> := None;
      while rest != {}
        invariant rest <= all
        invariant best.None? ==> rest == all && newest == None
        invariant best.Some? ==> best.value in all - rest && newest == Some(events[best.value])
        invariant best.Some? ==> forall j :: j in all - rest ==> Newer(events[best.value], events[j])
        decreases rest
      {
        var k :| k in rest;
        if newest.None? || !Newer(newest.value, events[k]) {
          best, newest := Some(k), Some(events[k]);
        }
        rest := rest - {k};
      }
      rebind := if newest.Some? then newest.value.rebind else None;
      if best.Some? {
        assert NewestSelection(events, best.value, t);
        forall k | NewestSelection(events, k, t) ensures k == best.value {
          assert Newer(events[k], events[best.value]) && Newer(events[best.value], events[k]);
        }
      } else {
        assert forall k :: SelectsFor(events, k, t) ==> k in all;
      }
    }

    /** `claim_physical`: lease the next physically schedulable task to the fabric and bind it
        to the resources the scheduler reserves.  The stored payload is handed out whole. */
    method ClaimPhysical(attempt: string, token: string, elapsed: real, plan: Plan, order: int)
      returns (out: ClaimOutcome, leads: seq<Lead>, ghost in_: Lottery)
      requires forall t :: DistinctSelections(events, t)
      modifies this
      ensures in_ == Lottery(attempt, token, in_.order, in_.pick, elapsed, plan)
      ensures (View(), out) == LeaseState.ClaimPhysical(old(View()), in_, order)
      ensures EnumeratesLapsed(old(View()), in_.order)
      ensures PhysicalPickIs(ExpireAll(old(View()), in_.order).tasks, in_.pick)
      ensures var s1 := ExpireAll(old(View()), in_.order);
        out.Granted? ==> out.task in s1.tasks && leads == PhysicalLeads(s1.tasks[out.task].payload)
    {
      var _, rows := RecoverExpiredTasks();
      var pick := PickPhysical(tasks);
      in_ := Lottery(attempt, token, rows, pick, elapsed, plan);
      if !pick.Chosen? { return Refused, [], in_; }
      leads := PhysicalLeads(tasks[pick.task].payload);
      out := GrantPhysical(pick.task, attempt, token, elapsed, plan, order);
    }

    /** The lease write of a physical claim, and the time until its binding. */
    method LeaseFrom(t: string, a: string, token: string, elapsed: real)
      requires t in tasks
      modifies this
      ensures View() == Advance(LeaseTask(old(View()), t, Identity(a), a, token), elapsed)
    {
      Lease(t, Identity(a), a, token);
      now := now + elapsed;
    }

    method GrantPhysical(t: string, a: string, token: string, elapsed: real, plan: Plan, order: int) returns (out: ClaimOutcome)
      requires t in tasks && DistinctSelections(events, t)
      modifies this
      ensures (View(), out) == GrantingPhysical(old(View()), t, a, token, elapsed, plan, order)
    {
      LeaseFrom(t, a, token, elapsed);
      var ok := BindPending(t, a, token, plan, order);
      out := if ok then Granted(t) else Refused;
    }

    /** Bind the leased attempt; a pending rebind of the task must be carried out by it. */
    method BindPending(t: string, a: string, token: string, plan: Plan, order: int) returns (ok: bool)
      requires a in attempts && DistinctSelections(events, t)
      modifies this
      ensures (View(), ok) == PendingBinding(old(View()), t, a, token, plan, order)
    {
      var rebind := PendingFabricRebind(t);
      ok := Bind(Identity(a), t, a, token, plan, rebind);
      Activate(t, ok, rebind, order);
    }

    static ghost function PendingBinding(s: State, t: string, a: string, token: string, plan: Plan, order: int): (State, bool)
      requires a in s.attempts
    {
      var rebind := PendingRebind(s.events, t);
      var (s3, ok) := BindExecution(s, Identity(a), t, a, token, plan, rebind);
      (Activated(s3, t, ok, rebind, order), ok)
    }

    /** A lease that carried out a pending rebind records that it did. */
    method Activate(t: string, bound: bool, rebind: Option<Rebind>, order: int)
      modifies this`events
      ensures View() == Activated(old(View()), t, bound, rebind, order)
    {
      if bound && rebind.Some? {
        RecordEvent(EventKey(rebind.value.attempt, rebind.value.generation, "exact_path_failover", StandbyActivated),
                    Event(t, now, order, rebind));
      }
    }

    static function Activated(s: State, t: string, bound: bool, rebind: Option<Rebind>, order: int): State {
      if bound && rebind.Some? then
        Record(s, EventKey(rebind.value.attempt, rebind.value.generation, "exact_path_failover", StandbyActivated),
               Event(t, s.now, order, rebind))
      else s
    }

    static ghost function GrantingPhysical(s: State, t: string, a: string, token: string, elapsed: real, plan: Plan, order: int)
      : (State, ClaimOutcome)
      requires t in s.tasks
    {
      var s2 := Advance(LeaseTask(s, t, Identity(a), a, token), elapsed);
      var (s3, ok) := PendingBinding(s2, t, a, token, plan, order);
      (s3, if ok then Granted(t) else Refused)
    }

    // ------------------------------------------------------- participant reports

    method ExecutionParticipantState(a: string, g: nat, w: string, token: string, status: PartStatus, order: int) returns (changed: bool)
      modifies this
      ensures (View(), changed) == ParticipantState(old(View()), a, g, w, token, status, order)
    {
      var k := PartKey(a, w);
      changed := (LivePart(status) || status == PFailed) && Reporting(View(), a, g, w, token)
        && parts[k].task == attempts[a].task && MoveAllowed(parts[k].status, status);
      if changed {
        parts := parts[k := parts[k].(heartbeat := now, status := status)];
        if status == PFailed { var _ := RecoverFabricAttempt(a, g, "participant_failed", NoPath, order); }
      }
    }

    /** Push the task's unexpired lease out to a full lease from now. */
    method ExtendLease(t: string)
      modifies this`tasks
      ensures View() == Extend(old(View()), t)
    {
      if Unexpired(View(), t) { tasks := tasks[t := tasks[t].(status := tasks[t].status.(until := now + leaseSeconds))]; }
    }

    method HeartbeatExecutionParticipant(a: string, g: nat, w: string, token: string) returns (ok: bool)
      modifies this
      ensures (View(), ok) == ParticipantHeartbeat(old(View()), a, g, w, token)
    {
      var k := PartKey(a, w);
      if !(Reporting(View(), a, g, w, token) && LivePart(parts[k].status) && parts[k].heartbeat > now - leaseSeconds) { return false; }
      if w !in workers { return false; }
      var row := workers[w];
      if row.load > 1 { return false; }
      workers := workers[w := row.(heartbeat := now, load := row.load, status := if row.status in {Ready, Stale} then Ready else row.status)];
      parts := parts[k := parts[k].(heartbeat := now, status := if parts[k].status == PRunning then PRunning else PActive)];
      ExtendLease(attempts[a].task);
      ok := true;
    }

    /** Attempt a has an endpoint and a full lease from now. */
    predicate Rendezvoused(a: string)
      reads this
    {
      a in attempts && attempts[a].endpoint.Some? && attempts[a].task in tasks
      && tasks[attempts[a].task].attempt == Some(a) && tasks[attempts[a].task].status.Leased?
      && tasks[attempts[a].task].status.until == now + leaseSeconds
    }

    /** The state part of recording a participant's verification; `evidence` is the verdict of
        the evidence checks. */
    method RecordVerification(a: string, g: nat, w: string, token: string, collective: bool, evidence: bool) returns (ok: bool)
      modifies this
      ensures (View(), ok) == Verify(old(View()), a, g, w, token, collective, evidence)
      ensures if ok then PartKey(a, w) in parts && parts[PartKey(a, w)].status == PRunning && parts[PartKey(a, w)].verified
              else View() == old(View())
      ensures ok && collective ==> Rendezvoused(a)
    {
      var k := PartKey(a, w);
      if !(Reporting(View(), a, g, w, token) && LivePart(parts[k].status) && evidence) { return false; }
      if collective && !(attempts[a].endpoint.Some? && tasks[attempts[a].task].attempt == Some(a)) { return false; }
      parts := parts[k := parts[k].(status := PRunning, heartbeat := now, verified := true)];
      if collective { ExtendLease(attempts[a].task); }
      ok := true;
    }

    method ConvergeFabricExecution(a: string, g: nat, w: string, token: string, reconciled: bool) returns (out: Convergence)
      modifies this
      ensures (View(), out) == Converge(old(View()), a, g, w, token, reconciled)
      ensures out.Converged? ==> a in attempts && attempts[a].status == Finished && attempts[a].acceptance == Accepted
      ensures if out == Converged(false)
              then forall k :: k in parts && k.attempt == a && parts[k].generation == g ==> parts[k].status == PCompleted && parts[k].verified
              else View() == old(View())
    {
      var k := PartKey(a, w);
      if !(a in attempts && attempts[a].generation == g && attempts[a].digest == Sha256(token)
           && k in parts && parts[k].generation == g && Unexpired(View(), parts[k].task)) { return Rejected_; }
      if attempts[a].status == Finished && attempts[a].acceptance == Accepted { return Converged(true); }
      if attempts[a].status != Running || parts[k].status !in {PRunning, PCompleted} { return Waiting_; }
      if !AllVerified(View(), a, g) || !reconciled { return Waiting_; }
      attempts := attempts[a := attempts[a].(status := Finished, acceptance := Accepted)];
      parts := map j | j in parts ::
        if j.attempt == a && parts[j].generation == g && parts[j].status == PRunning
        then parts[j].(status := PCompleted, heartbeat := now) else parts[j];
      out := Converged(false);
    }

    /** `_bind_rendezvous_endpoint`; false when it raises. */
    method BindRendezvousEndpoint(a: string, g: nat, token: string, endpoint: string) returns (ok: bool)
      modifies this
      ensures (View(), ok) == BindEndpoint(old(View()), a, g, token, endpoint)
      ensures if ok then a in attempts && attempts[a].endpoint == Some(endpoint) else View() == old(View())
      ensures ok && old(attempts)[a].endpoint.None? ==>
        forall b :: RunningLive(View(), b) && attempts[b].endpoint == Some(endpoint) ==> b == a
    {
      if endpoint == "" || !Authorized(View(), a, g, token) || tasks[attempts[a].task].attempt != Some(a) { return false; }
      if attempts[a].endpoint.Some? { return attempts[a].endpoint.value == endpoint; }
      if EndpointTaken(View(), a, endpoint) { return false; }
      attempts := attempts[a := attempts[a].(endpoint := Some(endpoint))];
      ok := true;
    }

    method BindPhysicalAllocation(a: string, g: nat, token: string, id: AllocationId) returns (ok: bool)
      modifies this
      ensures (View(), ok) == BindPhysical(old(View()), a, g, token, id)
      ensures if ok then a in attempts && attempts[a].allocation == Some(id) && attempts[a].status == Running
              else View() == old(View())
    {
      if a !in attempts || attempts[a].task !in tasks || tasks[attempts[a].task].attempt != Some(a)
         || attempts[a].generation != g || attempts[a].status != Running || attempts[a].digest != Sha256(token) { return false; }
      if attempts[a].allocation.Some? { return attempts[a].allocation.value == id; }
      attempts := attempts[a := attempts[a].(allocation := Some(id))];
      ok := true;
    }

    // -------------------------------------------------------------- checkpoints

    /** The dictionary from item key to payload index. */
    static method IndexItems(leads: seq<Lead>) returns (index: map<Digest, nat>)
      ensures forall key :: (if key in index then Some(index[key]) else None) == ItemIndex(leads, key)
    {
      index := map[];
      var i := 0;
      while i < |leads|
        invariant 0 <= i <= |leads|
        invariant forall key :: (if key in index then Some(index[key]) else None) == ItemIndex(leads[..i], key)
      {
        assert leads[..i + 1][..i] == leads[..i];
        if leads[i].Lead? { index := index[Sha256(leads[i].text) := i]; }
        i := i + 1;
      }
      assert leads[..i] == leads;
    }

    /** Items are stored one by one; a foreign, malformed or conflicting item raises, which
        leaves the transaction uncommitted. */
    method CheckpointLeadPrepare(w: string, t: string, token: string, items: seq<CheckItem>) returns (ok: bool, fresh_: nat, already: nat)
      modifies this
      ensures (View(), ok) == Checkpoint(old(View()), w, t, token, items)
      ensures ok ==> fresh_ + already == |items| && |checks| == |old(checks)| + fresh_
    {
      fresh_, already := 0, 0;
      if items == [] || !ValidLease(View(), w, t, token) || !tasks[t].payload.work.LeadPrepare? { return false, 0, 0; }
      var leads, g, saved := tasks[t].payload.work.leads, tasks[t].generation, checks;
      var index := IndexItems(leads);
      var i := 0;
      ok := true;
      while i < |items| && ok
        invariant 0 <= i <= |items|
        invariant View() == old(View()).(checks := checks)
        invariant ok ==> CheckpointItems(saved, t, leads, items[..i], w, g) == Some(checks)
        invariant ok ==> fresh_ + already == i && |checks| == |saved| + fresh_
        invariant !ok ==> i > 0 && CheckpointItems(saved, t, leads, items[..i], w, g) == None
      {
        assert items[..i + 1][..i] == items[..i];
        var item := items[i];
        if item.NotAnItem? || item.key !in index {
          assert item.CheckItem? ==> ItemIndex(leads, item.key) == None;
          ok := false;
        } else {
          assert ItemIndex(leads, item.key) == Some(index[item.key]);
          var k := CheckKey(t, item.key);
          if k in checks {
            if checks[k].result != item.result { ok := false; } else { already := already + 1; }
          } else {
            checks := checks[k := CheckRow(index[item.key], item.result, w, g)];
            fresh_ := fresh_ + 1;
          }
        }
        i := i + 1;
      }
      if !ok {
        NoneStays(saved, t, leads, items, w, g, i);
        checks := saved;
      } else {
        assert items[..i] == items;
      }
    }

    static lemma NoneStays(checks: map<CheckKey, CheckRow>, t: string, leads: seq<Lead>, items: seq<CheckItem>, w: string, g: nat, i: nat)
      requires i <= |items| && CheckpointItems(checks, t, leads, items[..i], w, g) == None
      ensures CheckpointItems(checks, t, leads, items, w, g) == None
      decreases |items| - i
    {
      if i < |items| {
        assert items[..i + 1][..i] == items[..i];
        NoneStays(checks, t, leads, items, w, g, i + 1);
      } else {
        assert items[..i] == items;
      }
    }

    /** `SELECT ... WHERE task_id=t ORDER BY item_index`. */
    method RowsByIndex(t: string) returns (rows: seq<CheckKey>)
      ensures ByIndex(checks, t, rows)
      ensures |rows| == |set k | k in checks && k.task == t|
    {
      var keep := set k | k in checks && k.task == t;
      var rest := keep;
      var found: seq<CheckKey> := [];
      while rest != {}
        invariant rest <= keep && |found| == |keep| - |rest|
        invariant forall k :: k in found <==> k in keep - rest
        invariant forall i, j :: 0 <= i < j < |found| ==> found[i] != found[j]
        decreases rest
      {
        var k :| k in rest;
        assert k !in found;
        found := found + [k];
        rest := rest - {k};
      }
      var table := checks;
      var less := (a: CheckKey, b: CheckKey) => IndexOf(table, a) < IndexOf(table, b);
      rows := Sorted(less, found);
      SortedIsSorted(less, found);
      SameElements(rows, found);
      NoRepeats(found, rows);
      forall i, j | 0 <= i < j < |rows| ensures rows[i] in checks && rows[j] in checks && checks[rows[i]].index <= checks[rows[j]].index {
        assert rows[i] in found && rows[j] in found && !less(rows[j], rows[i]);
      }
    }

    /** `checkpoint_results`: the rows of the task by ascending index, null results dropped.
        Any id is answered; without a known lead-preparation task there are no rows. */
    method CheckpointResults(t: string) returns (completed: nat, results: seq<string>)
      requires ChecksOk(View())
      ensures completed == |set k | k in checks && k.task == t|
      ensures if t in tasks && tasks[t].payload.work.LeadPrepare?
              then results == ResultsInOrder(checks, t, tasks[t].payload.work.leads, |tasks[t].payload.work.leads|)
              else completed == 0 && results == []
    {
      var rows := RowsByIndex(t);
      completed, results := |rows|, [];
      forall j | 0 <= j < |rows| ensures rows[j] in checks { assert rows[j] in rows; }
      var i := 0;
      while i < |rows|
        invariant 0 <= i <= |rows| && results == NonNull(checks, rows[..i])
      {
        assert rows[..i + 1][..i] == rows[..i];
        if checks[rows[i]].result.Some? { results := results + [checks[rows[i]].result.value]; }
        i := i + 1;
      }
      assert rows[..i] == rows;
      if t in tasks && tasks[t].payload.work.LeadPrepare? {
        ResultsAreInPayloadOrder(View(), t, rows);
      } else {
        assert (set k | k in checks && k.task == t) == {};
      }
    }
  }
}
