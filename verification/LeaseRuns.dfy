/** What no continuation of a run can undo: completions, verdicts, endpoints, checkpoints,
    lapsed leases, and the progress of participants. */
module LeaseRuns {
  import opened Base
  import opened Failover
  import opened LeaseState
  import opened LeaseInvariant

  /** The generation of attempt a still owns its task's unexpired lease. */
  predicate Holds(s: State, a: string) {
    a in s.attempts && Unexpired(s, s.attempts[a].task) && s.tasks[s.attempts[a].task].attempt == Some(a)
  }

  function Rank(p: PartStatus): nat {
    match p
    case PBound => 0
    case PLaunching => 1
    case PActive => 2
    case PRunning => 3
    case _ => 4
  }

  /** A task row only moves forward, and a completed one never changes again. */
  ghost predicate TaskEv(s: State, s': State, t: string)
    requires t in s.tasks
  {
    && t in s'.tasks
    && s'.tasks[t].payload == s.tasks[t].payload && s'.tasks[t].createdAt == s.tasks[t].createdAt
    && s.tasks[t].generation <= s'.tasks[t].generation
    && (s.tasks[t].status.Completed? ==> s'.tasks[t] == s.tasks[t])
  }

  ghost predicate AttemptEv(s: State, s': State, a: string)
    requires a in s.attempts
  {
    && a in s'.attempts
    && var row, row' := s.attempts[a], s'.attempts[a];
       && row'.task == row.task && row'.generation == row.generation && row'.worker == row.worker && row'.digest == row.digest
       && (row.endpoint.Some? ==> row'.endpoint == row.endpoint)
       && (row.acceptance != Pending ==> row'.acceptance == row.acceptance)
       && (row.status != Running ==> row'.status != Running)
       && (!Holds(s, a) ==> !Holds(s', a))
  }

  ghost predicate PartEv(s: State, s': State, k: PartKey)
    requires k in s.parts
  {
    && k in s'.parts
    && s'.parts[k].task == s.parts[k].task && s'.parts[k].generation == s.parts[k].generation
    && (s.parts[k].verified ==> s'.parts[k].verified)
    && (k.attempt in s.attempts && k.attempt in s'.attempts && s'.attempts[k.attempt].status == Running ==>
          Rank(s.parts[k].status) <= Rank(s'.parts[k].status))
  }

  ghost predicate Evolves(s: State, s': State) {
    && s.now <= s'.now && s.leaseSeconds == s'.leaseSeconds
    && (forall t {:trigger TaskEv(s, s', t)} :: t in s.tasks ==> TaskEv(s, s', t))
    && (forall a {:trigger AttemptEv(s, s', a)} :: a in s.attempts ==> AttemptEv(s, s', a))
    && (forall k {:trigger PartEv(s, s', k)} :: k in s.parts ==> PartEv(s, s', k))
    && (forall c :: c in s.checks ==> c in s'.checks && s'.checks[c] == s.checks[c])
    && (forall e :: e in s.events ==> e in s'.events && s'.events[e] == s.events[e])
  }

  /** Endpoints are written by `_bind_rendezvous_endpoint` alone, and only convergence accepts. */
  ghost predicate Untouched(s: State, s': State) {
    forall a {:trigger s'.attempts[a]} :: a in s'.attempts ==>
      s'.attempts[a].endpoint == (if a in s.attempts then s.attempts[a].endpoint else None)
      && (s'.attempts[a].acceptance == Accepted ==> a in s.attempts && s.attempts[a].acceptance == Accepted)
  }

  /** Generation g of task t has an attempt. */
  ghost predicate Made(s: State, t: string, g: nat) {
    exists a :: a in s.attempts && s.attempts[a].task == t && s.attempts[a].generation == g
  }

  /** Every generation a task has counted has its attempt. */
  ghost predicate Covered(s: State) {
    forall t, g {:trigger Made(s, t, g)} :: t in s.tasks && 1 <= g <= s.tasks[t].generation ==> Made(s, t, g)
  }

  ghost predicate Grows(s: State, s': State) { Evolves(s, s') && (Covered(s) ==> Covered(s')) }

  ghost predicate Quiet(s: State, s': State) { Grows(s, s') && Untouched(s, s') }

  lemma CoverPersists(s: State, s': State)
    requires Evolves(s, s')
    requires forall t :: t in s'.tasks ==>
      || s'.tasks[t].generation == 0
      || (t in s.tasks && s'.tasks[t].generation == s.tasks[t].generation)
      || (t in s.tasks && s'.tasks[t].generation == s.tasks[t].generation + 1 && Made(s', t, s'.tasks[t].generation))
    ensures Grows(s, s')
  {
    if Covered(s) {
      forall t, g: nat | t in s'.tasks && 1 <= g <= s'.tasks[t].generation ensures Made(s', t, g) {
        if g <= s.tasks[t].generation {
          assert Made(s, t, g);
          var a :| a in s.attempts && s.attempts[a].task == t && s.attempts[a].generation == g;
          assert AttemptEv(s, s', a);
        }
      }
    }
  }

  lemma EvolvesTransitive(s: State, m: State, s': State)
    requires Evolves(s, m) && Evolves(m, s')
    ensures Evolves(s, s')
    ensures Untouched(s, m) && Untouched(m, s') ==> Untouched(s, s')
    ensures Grows(s, m) && Grows(m, s') ==> Grows(s, s')
  {
    forall t | t in s.tasks ensures TaskEv(s, s', t) { assert TaskEv(s, m, t) && TaskEv(m, s', t); }
    forall a | a in s.attempts ensures AttemptEv(s, s', a) { assert AttemptEv(s, m, a) && AttemptEv(m, s', a); }
    forall k | k in s.parts ensures PartEv(s, s', k) {
      assert PartEv(s, m, k) && PartEv(m, s', k);
      if k.attempt in s.attempts { assert AttemptEv(s, m, k.attempt) && AttemptEv(m, s', k.attempt); }
    }
  }

  /** Tables other than tasks, attempts, participants and the clock do not matter. */
  ghost predicate SameRows(s: State, s': State) {
    s'.tasks == s.tasks && s'.attempts == s.attempts && s'.parts == s.parts && s'.leaseSeconds == s.leaseSeconds
    && s.now <= s'.now
    && (forall c :: c in s.checks ==> c in s'.checks && s'.checks[c] == s.checks[c])
    && (forall e :: e in s.events ==> e in s'.events && s'.events[e] == s.events[e])
  }

  lemma SameRowsQuiet(s: State, s': State)
    requires SameRows(s, s')
    ensures Quiet(s, s')
  {
    CoverPersists(s, s');
  }

  /** Ending a task's lease together with its attempt. */
  lemma EndQuiet(s: State, t: string, a: string, status: TaskStatus, row: Attempt, parts': map<PartKey, Participant>)
    requires Inv(s) && t in s.tasks && s.tasks[t].status.Leased? && s.tasks[t].attempt == Some(a) && a in s.attempts
    requires PartsFrame(s.parts, parts', a) && !status.Leased? && row.status != Running
    requires row == s.attempts[a].(status := row.status, acceptance := row.acceptance)
    requires s.attempts[a].acceptance != Pending ==> row.acceptance == s.attempts[a].acceptance
    requires row.acceptance == Accepted ==> s.attempts[a].acceptance == Accepted
    ensures Quiet(s, s.(tasks := s.tasks[t := s.tasks[t].(status := status)], attempts := s.attempts[a := row], parts := parts'))
  {
    var s' := s.(tasks := s.tasks[t := s.tasks[t].(status := status)], attempts := s.attempts[a := row], parts := parts');
    forall u | u in s.tasks ensures TaskEv(s, s', u) {}
    forall b | b in s.attempts ensures AttemptEv(s, s', b) {}
    forall k | k in s.parts ensures PartEv(s, s', k) {}
    CoverPersists(s, s');
  }

  lemma ReleaseQuiet(s: State, w: string, t: string, token: string)
    requires Inv(s)
    ensures Quiet(s, Release(s, w, t, token).0)
  {
    if ValidLease(s, w, t, token) {
      assert TaskOk(s.tasks, s.attempts, t);
      var a := s.tasks[t].attempt.value;
      var row := s.attempts[a].(status := Released);
      EndQuiet(s, t, a, Queued, row, SetParts(s.parts, a, PReleased));
      var m := s.(tasks := s.tasks[t := s.tasks[t].(status := Queued)], attempts := s.attempts[a := row],
                  parts := SetParts(s.parts, a, PReleased));
      SameRowsQuiet(m, Release(s, w, t, token).0);
      EvolvesTransitive(s, m, Release(s, w, t, token).0);
    } else {
      SameRowsQuiet(s, s);
    }
  }

  lemma CompleteQuiet(s: State, w: string, t: string, token: string, result: string)
    requires Inv(s)
    ensures Quiet(s, Complete(s, w, t, token, result).0)
  {
    if ValidLease(s, w, t, token) {
      assert TaskOk(s.tasks, s.attempts, t);
      var a := s.tasks[t].attempt.value;
      assert AttemptOk(s.tasks, s.attempts, a);
      var old_ := s.attempts[a];
      var row := old_.(status := Finished, acceptance := if old_.acceptance == Accepted then Accepted else Pending);
      var done := Completed(w, Sha256(token), Sha256(result), result);
      EndQuiet(s, t, a, done, row, SetParts(s.parts, a, PCompleted));
      var m := s.(tasks := s.tasks[t := s.tasks[t].(status := done)], attempts := s.attempts[a := row],
                  parts := SetParts(s.parts, a, PCompleted));
      SameRowsQuiet(m, Complete(s, w, t, token, result).0);
      EvolvesTransitive(s, m, Complete(s, w, t, token, result).0);
    } else {
      SameRowsQuiet(s, s);
    }
  }

  lemma ExpireOneQuiet(s: State, t: string)
    requires Inv(s)
    ensures Quiet(s, ExpireOne(s, t))
  {
    if Lapsed(s, t) {
      assert TaskOk(s.tasks, s.attempts, t);
      var a := s.tasks[t].attempt.value;
      var row := s.attempts[a];
      assert AttemptOk(s.tasks, s.attempts, a);
      var m := ExpireAttempt(Requeue(s, t), a);
      if row.status == Finished {
        EndQuiet(s, t, a, Queued, row, SettleParts(s.parts, a, row.generation));
        assert s.attempts == s.attempts[a := row];
      } else {
        EndQuiet(s, t, a, Queued, row.(status := Expired, acceptance := Rejected),
                 EndLiveParts(s.parts, a, row.generation, PExpired, s.now));
      }
      FenceResourcesQuiet(m, a);
      EvolvesTransitive(s, m, FenceResources(m, a));
    } else {
      SameRowsQuiet(s, s);
    }
  }

  lemma FenceResourcesQuiet(s: State, a: string)
    requires a in s.attempts
    ensures Quiet(s, FenceResources(s, a))
  {
    SameRowsQuiet(s, FenceResources(s, a));
  }

  lemma {:induction false} ExpireAllQuiet(s: State, order: seq<string>)
    requires Inv(s)
    ensures Quiet(s, ExpireAll(s, order))
  {
    if order == [] {
      SameRowsQuiet(s, s);
    } else {
      var m := ExpireAll(s, order[..|order| - 1]);
      ExpireAllQuiet(s, order[..|order| - 1]);
      ExpireAllKeepsInv(s, order[..|order| - 1]);
      ExpireOneQuiet(m, order[|order| - 1]);
      EvolvesTransitive(s, m, ExpireAll(s, order));
    }
  }

  lemma FenceQuiet(s: State, parts: map<PartKey, Participant>, a: string)
    requires Inv(s) && Current(s, a) && PartsFrame(s.parts, parts, a)
    ensures Quiet(s, FenceRows(s.(parts := parts), a))
  {
    var row := s.attempts[a];
    assert AttemptOk(s.tasks, s.attempts, a);
    EndQuiet(s, row.task, a, Queued, row.(status := Failed, acceptance := Rejected),
             EndLiveParts(parts, a, row.generation, PFailed, s.now));
  }

  lemma {:induction false} ReconcileAllQuiet(s: State, order: seq<string>)
    requires Inv(s)
    ensures Quiet(s, ReconcileAll(s, order))
  {
    if order == [] {
      SameRowsQuiet(s, s);
    } else {
      var a := order[|order| - 1];
      var m := ReconcileAll(s, order[..|order| - 1]);
      ReconcileAllQuiet(s, order[..|order| - 1]);
      ReconcileAllKeepsInv(s, order[..|order| - 1]);
      if Current(m, a) {
        FenceQuiet(m, m.parts, a);
        var f := FenceRows(m, a);
        SameRowsQuiet(f, FenceResources(f, a));
        EvolvesTransitive(m, f, FenceResources(f, a));
        EvolvesTransitive(s, m, FenceResources(f, a));
      }
    }
  }

  /** Reports of failures keep every event already recorded. */
  lemma RecoverEvents(s: State, a: string, g: nat, c: string, path: PathReport, order: int)
    ensures var s' := Recover(s, a, g, c, path, order).0;
      forall e :: e in s.events ==> e in s'.events && s'.events[e] == s.events[e]
  {
    if Current(s, a) && s.attempts[a].generation == g {
      var task := s.attempts[a].task;
      var s1 := Record(FenceRows(s, a), EventKey(a, g, c, Fenced), Event(task, s.now, order, None));
      match RebindFor(s, a, path)
      case None => assert Recover(s, a, g, c, path, order).0.events == s1.events;
      case Some(None) => assert Recover(s, a, g, c, path, order).0.events == s1.events;
      case Some(Some(r)) =>
        var s2 := Record(s1, EventKey(a, g, c, StandbySelected), Event(task, s.now, order, Some(r)));
        assert Recover(s, a, g, c, path, order).0.events == s2.events;
    }
  }

  lemma RecoverQuiet(s: State, parts: map<PartKey, Participant>, a: string, g: nat, c: string, path: PathReport, order: int)
    requires Inv(s)
    requires parts == s.parts || (Current(s, a) && s.attempts[a].generation == g && PartsFrame(s.parts, parts, a))
    ensures Quiet(s, Recover(s.(parts := parts), a, g, c, path, order).0)
  {
    var m := s.(parts := parts);
    var s' := Recover(m, a, g, c, path, order).0;
    RecoverEvents(m, a, g, c, path, order);
    if Current(s, a) && s.attempts[a].generation == g {
      FenceQuiet(s, parts, a);
      RecoverFences(m, a, g, c, path, order);
      var f := FenceRows(m, a);
      SameRowsQuiet(f, s');
      EvolvesTransitive(s, f, s');
    } else {
      assert s == m;
      RecoverOtherwiseOnlyRecords(s, a, g, c, path, order);
      SameRowsQuiet(s, s');
    }
  }

  lemma LeaseQuiet(s: State, t: string, who: string, a: string, token: string)
    requires Inv(s) && t in s.tasks && s.tasks[t].status.Queued? && a !in s.attempts
    ensures Quiet(s, LeaseTask(s, t, who, a, token))
  {
    var s' := LeaseTask(s, t, who, a, token);
    forall b | b in s.attempts ensures AttemptEv(s, s', b) {}
    forall u | u in s.tasks ensures TaskEv(s, s', u) {}
    forall k | k in s.parts ensures PartEv(s, s', k) { assert PartOk(s.attempts, s.parts, k); }
    assert s'.attempts[a].task == t && s'.attempts[a].generation == s'.tasks[t].generation;
    assert Made(s', t, s'.tasks[t].generation);
    CoverPersists(s, s');
  }

  lemma NoteQuiet(s: State, a: string, row: Attempt)
    requires a in s.attempts && row == s.attempts[a].(allocation := row.allocation, placement := row.placement)
    ensures Quiet(s, s.(attempts := s.attempts[a := row]))
  {
    var s' := s.(attempts := s.attempts[a := row]);
    forall b | b in s.attempts ensures AttemptEv(s, s', b) {}
    CoverPersists(s, s');
  }

  /** Participants are only ever inserted for an attempt that has none. */
  lemma InsertQuiet(s: State, t: string, a: string, g: nat, nodes: seq<string>)
    requires forall k :: k in s.parts ==> k.attempt != a
    ensures Quiet(s, s.(parts := InsertParts(s, t, a, g, nodes, |nodes|)))
  {
    var s' := s.(parts := InsertParts(s, t, a, g, nodes, |nodes|));
    InsertedParts(s, t, a, g, nodes, |nodes|);
    forall k | k in s.parts ensures PartEv(s, s', k) {}
    CoverPersists(s, s');
  }

  lemma BindQuiet(s: State, who: string, t: string, a: string, token: string, plan: Plan, rebind: Option<Rebind>)
    requires Inv(s) && a in s.attempts && s.attempts[a].task == t && s.attempts[a].status == Running
    requires forall k :: k in s.parts ==> k.attempt != a
    ensures Quiet(s, BindExecution(s, who, t, a, token, plan, rebind).0)
  {
    var id, g := AllocationId(t, a), s.attempts[a].generation;
    var end := BindExecution(s, who, t, a, token, plan, rebind).0;
    if plan.Raises? {
      ReleaseQuiet(s, who, t, token);
    } else {
      var s1 := s.(allocs := s.allocs[id := Reserved],
                   attempts := s.attempts[a := s.attempts[a].(placement := plan.placement)]);
      NoteQuiet(s, a, s1.attempts[a]);
      NoteKeepsLockstep(s.tasks, s.attempts, s.parts, a, s1.attempts[a]);
      SameRowsQuiet(s.(attempts := s1.attempts), s1);
      EvolvesTransitive(s, s.(attempts := s1.attempts), s1);
      var s2 := s1.(allocs := s1.allocs[id := Bound(t, a, g)]);
      SameRowsQuiet(s1, s2);
      EvolvesTransitive(s, s1, s2);
      if rebind.Some? && !(plan.placement.Some? && Validates(rebind.value, plan.placement.value)) {
        ReleaseQuiet(s1, who, t, token);
        EvolvesTransitive(s, s1, end);
      } else if !plan.metadata {
        var f := s2.(allocs := FreeAllocation(s2.allocs, Some(id), t, a, g));
        SameRowsQuiet(s2, f);
        ReleaseQuiet(f, who, t, token);
        EvolvesTransitive(s2, f, end);
        EvolvesTransitive(s, s2, end);
      } else {
        BindTailQuiet(s, s2, who, t, a, token, plan);
      }
    }
  }

  /** The last part of a binding, once the inventory holds the allocation for the attempt. */
  lemma BindTailQuiet(s: State, s2: State, who: string, t: string, a: string, token: string, plan: Plan)
    requires Inv(s2) && Quiet(s, s2) && a in s2.attempts && s2.attempts[a].task == t && s2.attempts[a].status == Running
    requires plan.Placed? && forall k :: k in s2.parts ==> k.attempt != a
    ensures var s3 := s2.(attempts := s2.attempts[a := s2.attempts[a].(allocation := Some(AllocationId(t, a)))]);
      && Quiet(s, FailBinding(s3, who, t, a, token))
      && Quiet(s, s3.(parts := InsertParts(s3, t, a, s2.attempts[a].generation, plan.nodes, |plan.nodes|)))
  {
    var s3 := s2.(attempts := s2.attempts[a := s2.attempts[a].(allocation := Some(AllocationId(t, a)))]);
    NoteQuiet(s2, a, s3.attempts[a]);
    NoteKeepsLockstep(s2.tasks, s2.attempts, s2.parts, a, s3.attempts[a]);
    EvolvesTransitive(s, s2, s3);
    var f := FreeAttempt(s3, a);
    SameRowsQuiet(s3, f);
    ReleaseQuiet(f, who, t, token);
    EvolvesTransitive(s3, f, FailBinding(s3, who, t, a, token));
    EvolvesTransitive(s, s3, FailBinding(s3, who, t, a, token));
    InsertQuiet(s3, t, a, s2.attempts[a].generation, plan.nodes);
    EvolvesTransitive(s, s3, s3.(parts := InsertParts(s3, t, a, s2.attempts[a].generation, plan.nodes, |plan.nodes|)));
  }

  /** How a claim ends: with the scan, the reserved slot, the lease, or the binding. */
  ghost predicate ClaimEnd(s1: State, r: State, w: string, lottery: Lottery) {
    var s2, t, a := s1.(workers := TakeSlot(s1.workers, w)), lottery.pick, lottery.attempt;
    || r == s1
    || (SlotFree(s1.workers, w) && r == s2)
    || (SlotFree(s1.workers, w) && t.Chosen? && t.task in s2.tasks && r == LeaseTask(s2, t.task, w, a, lottery.token))
    || (SlotFree(s1.workers, w) && t.Chosen? && t.task in s2.tasks
        && r == BindExecution(Advance(LeaseTask(s2, t.task, w, a, lottery.token), lottery.elapsed), w, t.task, a, lottery.token,
                              ClaimPlan(s2, t.task, w, lottery), None).0)
  }

  lemma ClaimEnds(s: State, w: string, lottery: Lottery)
    ensures ClaimEnd(ClaimScan(s, w, lottery), Claim(s, w, lottery).0, w, lottery)
  {}

  lemma ClaimQuiet(s: State, w: string, lottery: Lottery)
    requires Inv(s) && Legal(s, DoClaim(w, lottery))
    ensures Quiet(s, Claim(s, w, lottery).0)
  {
    ScanQuiet(s, w, lottery);
    ClaimEnds(s, w, lottery);
    ClaimEndQuiet(s, ClaimScan(s, w, lottery), Claim(s, w, lottery).0, w, lottery);
  }

  lemma ClaimEndQuiet(s: State, s1: State, r: State, w: string, lottery: Lottery)
    requires Inv(s1) && Quiet(s, s1) && Quiet(s, s1.(workers := TakeSlot(s1.workers, w))) && ClaimEnd(s1, r, w, lottery)
    requires Fresh(s1, lottery) && (lottery.pick.Chosen? && SlotFree(s1.workers, w) ==> Waiting(s1.tasks, lottery.pick.task))
    ensures Quiet(s, r)
  {
    if SlotFree(s1.workers, w) && lottery.pick.Chosen? {
      var t := lottery.pick.task;
      var s2 := s1.(workers := TakeSlot(s1.workers, w));
      LeasedQuiet(s, s2, t, w, lottery, ClaimPlan(s2, t, w, lottery), None);
    }
  }

  /** Recovery and the reserved slot. */
  lemma ScanQuiet(s: State, w: string, lottery: Lottery)
    requires Inv(s)
    ensures var s1 := ClaimScan(s, w, lottery);
      && Inv(s1) && SameIdentities(ReapStale(s), s1)
      && Quiet(s, s1) && Quiet(s, s1.(workers := TakeSlot(s1.workers, w)))
  {
    var s0 := ReapStale(s);
    SameRowsQuiet(s, s0);
    var s1 := ClaimScan(s, w, lottery);
    ExpireAllKeepsInv(s0, lottery.order);
    ExpireAllFrame(s0, lottery.order);
    ExpireAllQuiet(s0, lottery.order);
    EvolvesTransitive(s, s0, s1);
    var s2 := s1.(workers := TakeSlot(s1.workers, w));
    SameRowsQuiet(s1, s2);
    EvolvesTransitive(s, s1, s2);
  }

  function ClaimPlan(s: State, t: string, w: string, lottery: Lottery): Plan
    requires t in s.tasks
  {
    if PinnedTo(s.tasks[t].payload.compute, w) && lottery.plan.Placed? then lottery.plan.(placement := None) else Raises
  }

  /** Leasing a waiting task and binding its resources, after a quiet prefix. */
  lemma LeasedQuiet(s: State, m: State, t: string, who: string, lottery: Lottery, plan: Plan, rebind: Option<Rebind>)
    requires Inv(m) && Quiet(s, m) && t in m.tasks && m.tasks[t].status.Queued?
    requires lottery.attempt !in m.attempts && lottery.token != "" && lottery.elapsed >= 0.0
    requires forall b :: b in m.attempts ==> m.attempts[b].digest != Sha256(lottery.token)
    ensures var l := LeaseTask(m, t, who, lottery.attempt, lottery.token);
      Quiet(s, l) && Quiet(s, BindExecution(Advance(l, lottery.elapsed), who, t, lottery.attempt, lottery.token, plan, rebind).0)
  {
    var a := lottery.attempt;
    var l := LeaseTask(m, t, who, a, lottery.token);
    LeaseQuiet(m, t, who, a, lottery.token);
    LeaseKeepsInv(m, t, who, a, lottery.token);
    EvolvesTransitive(s, m, l);
    var later := Advance(l, lottery.elapsed);
    SameRowsQuiet(l, later);
    EvolvesTransitive(s, l, later);
    forall k | k in later.parts ensures k.attempt != a { assert PartOk(m.attempts, m.parts, k); }
    BindQuiet(later, who, t, a, lottery.token, plan, rebind);
    EvolvesTransitive(s, later, BindExecution(later, who, t, a, lottery.token, plan, rebind).0);
  }

  /** How a physical claim ends: with the recovery, or with the binding, events apart. */
  ghost predicate PhysicalEnd(s1: State, r: State, lottery: Lottery) {
    || r == s1
    || (lottery.pick.Chosen? && lottery.pick.task in s1.tasks
        && var t, a := lottery.pick.task, lottery.attempt;
           var l := Advance(LeaseTask(s1, t, Identity(a), a, lottery.token), lottery.elapsed);
           r == BindExecution(l, Identity(a), t, a, lottery.token, lottery.plan, PendingRebind(l.events, t)).0.(events := r.events)
           && forall e :: e in s1.events ==> e in r.events && r.events[e] == s1.events[e])
  }

  lemma PhysicalEnds(s: State, lottery: Lottery, order: int)
    ensures PhysicalEnd(ExpireAll(s, lottery.order), ClaimPhysical(s, lottery, order).0, lottery)
  {}

  lemma ClaimPhysicalQuiet(s: State, lottery: Lottery, order: int)
    requires Inv(s) && Legal(s, DoClaimPhysical(lottery, order))
    ensures Quiet(s, ClaimPhysical(s, lottery, order).0)
  {
    ExpireAllKeepsInv(s, lottery.order);
    ExpireAllFrame(s, lottery.order);
    ExpireAllQuiet(s, lottery.order);
    PhysicalEnds(s, lottery, order);
    PhysicalEndQuiet(s, ExpireAll(s, lottery.order), ClaimPhysical(s, lottery, order).0, lottery);
  }

  lemma PhysicalEndQuiet(s: State, s1: State, r: State, lottery: Lottery)
    requires Inv(s1) && Quiet(s, s1) && PhysicalEnd(s1, r, lottery)
    requires Fresh(s1, lottery) && (lottery.pick.Chosen? ==> Waiting(s1.tasks, lottery.pick.task))
    ensures Quiet(s, r)
  {
    if r != s1 {
      var t, a := lottery.pick.task, lottery.attempt;
      var l := Advance(LeaseTask(s1, t, Identity(a), a, lottery.token), lottery.elapsed);
      var rebind := PendingRebind(l.events, t);
      LeasedQuiet(s, s1, t, Identity(a), lottery, lottery.plan, rebind);
      var s3 := BindExecution(l, Identity(a), t, a, lottery.token, lottery.plan, rebind).0;
      assert SameRows(s3, r);
      SameRowsQuiet(s3, r);
      EvolvesTransitive(s, s3, r);
    }
  }

  /** A participant row moves forward. */
  lemma MoveQuiet(s: State, k: PartKey, p: Participant)
    requires k in s.parts && p.task == s.parts[k].task && p.generation == s.parts[k].generation
    requires (s.parts[k].verified ==> p.verified) && Rank(s.parts[k].status) <= Rank(p.status)
    ensures Quiet(s, s.(parts := s.parts[k := p]))
  {
    var m := s.(parts := s.parts[k := p]);
    forall j | j in s.parts ensures PartEv(s, m, j) {}
    forall b | b in s.attempts ensures AttemptEv(s, m, b) {}
    CoverPersists(s, m);
  }

  /** Extending a lease revives nothing: only an unexpired one is extended. */
  lemma ExtendQuiet(s: State, t: string)
    ensures Quiet(s, Extend(s, t))
  {
    if Unexpired(s, t) {
      var e := s.(tasks := s.tasks[t := s.tasks[t].(status := s.tasks[t].status.(until := s.now + s.leaseSeconds))]);
      assert Extend(s, t) == e;
      forall b | b in s.attempts ensures AttemptEv(s, e, b) {}
      forall u | u in s.tasks ensures TaskEv(s, e, u) {}
      CoverPersists(s, e);
    } else {
      SameRowsQuiet(s, s);
    }
  }

  lemma MoveAndExtendQuiet(s: State, k: PartKey, p: Participant, t: string)
    requires k in s.parts && p.task == s.parts[k].task && p.generation == s.parts[k].generation
    requires (s.parts[k].verified ==> p.verified) && Rank(s.parts[k].status) <= Rank(p.status)
    ensures Quiet(s, Extend(s.(parts := s.parts[k := p]), t))
  {
    MoveQuiet(s, k, p);
    ExtendQuiet(s.(parts := s.parts[k := p]), t);
    EvolvesTransitive(s, s.(parts := s.parts[k := p]), Extend(s.(parts := s.parts[k := p]), t));
  }

  lemma StateReportQuiet(s: State, a: string, g: nat, w: string, token: string, status: PartStatus, order: int)
    requires Inv(s)
    ensures Quiet(s, ParticipantState(s, a, g, w, token, status, order).0)
  {
    SameRowsQuiet(s, s);
    var k := PartKey(a, w);
    if Reporting(s, a, g, w, token) && MoveAllowed(s.parts[k].status, status) {
      var p := s.parts[k].(heartbeat := s.now, status := status);
      assert AttemptOk(s.tasks, s.attempts, a) && TaskOk(s.tasks, s.attempts, s.attempts[a].task);
      if LivePart(status) { MoveQuiet(s, k, p); } else { RecoverQuiet(s, s.parts[k := p], a, g, "participant_failed", NoPath, order); }
    }
  }

  lemma HeartbeatQuiet(s: State, a: string, g: nat, w: string, token: string)
    requires Inv(s)
    ensures Quiet(s, ParticipantHeartbeat(s, a, g, w, token).0)
  {
    SameRowsQuiet(s, s);
    var k := PartKey(a, w);
    var s' := ParticipantHeartbeat(s, a, g, w, token).0;
    if s' != s {
      var p := s.parts[k].(heartbeat := s.now, status := if s.parts[k].status == PRunning then PRunning else PActive);
      MoveAndExtendQuiet(s, k, p, s.attempts[a].task);
      var e := Extend(s.(parts := s.parts[k := p]), s.attempts[a].task);
      assert s' == e.(workers := s'.workers);
      SameRowsQuiet(e, s');
      EvolvesTransitive(s, e, s');
    }
  }

  lemma VerifyQuiet(s: State, a: string, g: nat, w: string, token: string, collective: bool, evidence: bool)
    requires Inv(s)
    ensures Quiet(s, Verify(s, a, g, w, token, collective, evidence).0)
  {
    SameRowsQuiet(s, s);
    var k := PartKey(a, w);
    if Reporting(s, a, g, w, token) && LivePart(s.parts[k].status) {
      var p := s.parts[k].(status := PRunning, heartbeat := s.now, verified := true);
      MoveQuiet(s, k, p);
      MoveAndExtendQuiet(s, k, p, s.attempts[a].task);
    }
  }

  lemma ConvergeGrows(s: State, a: string, g: nat, w: string, token: string, reconciled: bool)
    requires Inv(s)
    ensures Grows(s, Converge(s, a, g, w, token, reconciled).0)
  {
    SameRowsQuiet(s, s);
    var s' := Converge(s, a, g, w, token, reconciled).0;
    if s' != s {
      assert AttemptOk(s.tasks, s.attempts, a);
      ConvergedGrows(s, s', a, g);
    }
  }

  /** What a convergence writes. */
  lemma ConvergedGrows(s: State, s': State, a: string, g: nat)
    requires a in s.attempts && s.attempts[a].acceptance == Pending
    requires s' == s.(attempts := s.attempts[a := s.attempts[a].(status := Finished, acceptance := Accepted)], parts := s'.parts)
    requires s'.parts.Keys == s.parts.Keys && forall k :: k in s.parts ==>
               s'.parts[k] == s.parts[k] || (k.attempt == a && s'.parts[k] == s.parts[k].(status := PCompleted, heartbeat := s.now))
    ensures Grows(s, s')
  {
    forall b | b in s.attempts ensures AttemptEv(s, s', b) {}
    forall k | k in s.parts ensures PartEv(s, s', k) {}
    forall u | u in s.tasks ensures TaskEv(s, s', u) {}
    CoverPersists(s, s');
  }

  lemma BindEndpointGrows(s: State, a: string, g: nat, token: string, endpoint: string)
    ensures Grows(s, BindEndpoint(s, a, g, token, endpoint).0)
  {
    SameRowsQuiet(s, s);
    var s' := BindEndpoint(s, a, g, token, endpoint).0;
    if s' != s {
      forall b | b in s.attempts ensures AttemptEv(s, s', b) {}
      CoverPersists(s, s');
    }
  }

  /** Checkpoint rows are only ever added. */
  lemma {:induction false} CheckpointsWriteOnce(checks: map<CheckKey, CheckRow>, t: string, leads: seq<Lead>, items: seq<CheckItem>, w: string, g: nat)
    ensures var r := CheckpointItems(checks, t, leads, items, w, g);
      r.Some? ==> forall c :: c in checks ==> c in r.value && r.value[c] == checks[c]
  {
    if items != [] {
      CheckpointsWriteOnce(checks, t, leads, items[..|items| - 1], w, g);
    }
  }

  lemma EnqueueQuiet(s: State, t: string, p: Payload)
    requires Inv(s)
    ensures Quiet(s, Enqueue(s, t, p).0)
  {
    if t in s.tasks {
      SameRowsQuiet(s, s);
    } else {
      var s' := s.(tasks := s.tasks[t := Task(p, s.now, Queued, 0, None, 0)]);
      forall u | u in s.tasks ensures TaskEv(s, s', u) {}
      forall a | a in s.attempts ensures AttemptEv(s, s', a) { assert AttemptOk(s.tasks, s.attempts, a); }
      CoverPersists(s, s');
    }
  }

  lemma CheckpointQuiet(s: State, w: string, t: string, token: string, items: seq<CheckItem>)
    ensures Quiet(s, Checkpoint(s, w, t, token, items).0)
  {
    var s' := Checkpoint(s, w, t, token, items).0;
    if s' != s { CheckpointsWriteOnce(s.checks, t, s.tasks[t].payload.work.leads, items, w, s.tasks[t].generation); }
    SameRowsQuiet(s, s');
  }

  lemma BindPhysicalQuiet(s: State, a: string, g: nat, token: string, id: AllocationId)
    ensures Quiet(s, BindPhysical(s, a, g, token, id).0)
  {
    SameRowsQuiet(s, s);
    var s' := BindPhysical(s, a, g, token, id).0;
    if s' != s { NoteQuiet(s, a, s'.attempts[a]); }
  }

  lemma StepGrows(s: State, step: Step)
    requires Inv(s) && Legal(s, step)
    ensures Grows(s, Apply(s, step))
    ensures !step.DoConverge? && !step.DoBindEndpoint? ==> Untouched(s, Apply(s, step))
  {
    if Reports(step) {
      ReportGrows(s, step);
    } else {
      match step
      case DoClaim(w, lottery) => ClaimQuiet(s, w, lottery);
      case DoClaimPhysical(lottery, order) => ClaimPhysicalQuiet(s, lottery, order);
      case DoComplete(w, t, token, result) => CompleteQuiet(s, w, t, token, result);
      case DoRelease(w, t, token) => ReleaseQuiet(s, w, t, token);
      case DoExpire(lapsed) => ExpireAllQuiet(s, lapsed);
      case DoReconcile(_, lost) => ReconcileAllQuiet(s, lost);
      case DoRecover(a, g, c, path, order) => RecoverQuiet(s, s.parts, a, g, c, path, order);
      case DoEnqueue(t, p) => EnqueueQuiet(s, t, p);
      case _ => SameRowsQuiet(s, Apply(s, step));
    }
  }

  lemma ReportGrows(s: State, step: Step)
    requires Inv(s) && Reports(step)
    ensures Grows(s, Apply(s, step))
    ensures !step.DoConverge? && !step.DoBindEndpoint? ==> Untouched(s, Apply(s, step))
  {
    if step.DoParticipantState? {
      StateReportQuiet(s, step.attempt, step.generation, step.worker, step.token, step.part, step.order);
    } else {
      OtherReportGrows(s, step);
    }
  }

  lemma OtherReportGrows(s: State, step: Step)
    requires Inv(s) && Reports(step) && !step.DoParticipantState?
    ensures Grows(s, Apply(s, step))
    ensures !step.DoConverge? && !step.DoBindEndpoint? ==> Untouched(s, Apply(s, step))
  {
    match step
    case DoParticipantHeartbeat(a, g, w, token) => HeartbeatQuiet(s, a, g, w, token);
    case DoVerify(a, g, w, token, collective, evidence) => VerifyQuiet(s, a, g, w, token, collective, evidence);
    case DoConverge(a, g, w, token, reconciled) => ConvergeGrows(s, a, g, w, token, reconciled);
    case DoBindEndpoint(a, g, token, endpoint) => BindEndpointGrows(s, a, g, token, endpoint);
    case DoBindPhysical(a, g, token, id) => BindPhysicalQuiet(s, a, g, token, id);
    case DoCheckpoint(w, t, token, items) => CheckpointQuiet(s, w, t, token, items);
  }

  /** Every continuation of a run keeps the invariant and only evolves the state. */
  lemma {:induction false} RunGrows(s: State, steps: seq<Step>)
    requires Inv(s) && LegalRun(s, steps)
    ensures Inv(Run(s, steps)) && Grows(s, Run(s, steps))
    decreases |steps|
  {
    if steps == [] {
      SameRowsQuiet(s, s);
    } else {
      var m := Apply(s, steps[0]);
      StepGrows(s, steps[0]);
      StepKeepsInv(s, steps[0]);
      RunGrows(m, steps[1..]);
      EvolvesTransitive(s, m, Run(m, steps[1..]));
    }
  }
}
