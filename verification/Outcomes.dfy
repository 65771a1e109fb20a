/** When the coordinator's calls take effect and what they leave in the tables.  Conditions and
    effects are written on the columns, so that a call that refuses what it should accept, or
    writes another row, has no place here. */
module Outcomes {
  import opened Base
  import opened Failover
  import opened LeaseState
  import opened LeaseInvariant
  import opened Conservation
  import opened FailoverRuns

  /** Task t is leased to w under this token until some later time. */
  ghost predicate LeaseOpen(s: State, t: string, w: string, token: string) {
    t in s.tasks && s.tasks[t].status.Leased? && s.tasks[t].status.worker == w && s.tasks[t].status.token == token
    && token != "" && s.now < s.tasks[t].status.until
  }

  /** The task of attempt a is leased until some later time. */
  ghost predicate TaskOpen(s: State, a: string) {
    a in s.attempts && s.attempts[a].task in s.tasks
    && s.tasks[s.attempts[a].task].status.Leased? && s.now < s.tasks[s.attempts[a].task].status.until
  }

  /** Attempt a of generation g runs under this token, and the lease of its task is open. */
  ghost predicate RunningOpen(s: State, a: string, g: nat, token: string) {
    a in s.attempts && s.attempts[a].status == Running && s.attempts[a].generation == g && s.attempts[a].digest == Sha256(token)
    && TaskOpen(s, a)
  }

  /** Attempt a is the one its task points at. */
  ghost predicate Latest(s: State, a: string) {
    a in s.attempts && s.attempts[a].task in s.tasks && s.tasks[s.attempts[a].task].attempt == Some(a)
  }

  /** One logical slot fewer is taken at w, and nothing else changed in the pool. */
  ghost predicate SlotGivenBack(before: map<string, Worker>, after: map<string, Worker>, w: string) {
    && after.Keys == before.Keys
    && forall v :: v in before ==>
         after[v] == if v == w && before[v].load > 0 then before[v].(load := before[v].load - 1) else before[v]
  }

  /** The allocation of attempt a is free if it was bound to exactly that execution. */
  ghost predicate AllocationFreed(s: State, s': State, a: string)
    requires a in s.attempts
  {
    && s'.allocs.Keys == s.allocs.Keys
    && forall id :: id in s.allocs ==>
         s'.allocs[id] == if s.attempts[a].allocation == Some(id) && s.allocs[id] == Bound(s.attempts[a].task, a, s.attempts[a].generation)
                          then Freed else s.allocs[id]
  }

  /** The lease of t has ended with this task status: its attempt ended with `outcome` and its
      participants with `part`, the slot of w and the allocation are given back, and nothing else
      has changed. */
  ghost predicate LeaseEnded(s: State, s': State, t: string, w: string, status: TaskStatus, outcome: AttemptStatus, part: PartStatus)
    requires t in s.tasks
  {
    && s.tasks[t].attempt.Some? && s.tasks[t].attempt.value in s.attempts
    && var a := s.tasks[t].attempt.value;
       && s'.tasks == s.tasks[t := s.tasks[t].(status := status)]
       && s'.attempts == s.attempts[a := s.attempts[a].(status := outcome)]
       && s'.parts.Keys == s.parts.Keys
       && (forall k :: k in s.parts ==> s'.parts[k] == if k.attempt == a then s.parts[k].(status := part) else s.parts[k])
       && SlotGivenBack(s.workers, s'.workers, w) && AllocationFreed(s, s', a)
       && s' == s.(tasks := s'.tasks, attempts := s'.attempts, parts := s'.parts, workers := s'.workers, allocs := s'.allocs)
  }

  // -------------------------------------------------------------- ending a lease

  /** The holder of an open lease completes its task, and nobody else does: the row keeps worker,
      both digests and the result, and what the attempt held is given back. */
  lemma CompletesExactlyWhen(s: State, w: string, t: string, token: string, result: string)
    requires Inv(s) && !(t in s.tasks && s.tasks[t].status.Completed?)
    ensures var (s', ok) := Complete(s, w, t, token, result);
      && (ok <==> LeaseOpen(s, t, w, token))
      && (if ok then LeaseEnded(s, s', t, w, Completed(w, Sha256(token), Sha256(result), result), Finished, PCompleted) else s' == s)
  {
    if t in s.tasks {
      assert TaskOk(s.tasks, s.attempts, t);
      if s.tasks[t].status.Leased? { assert AttemptOk(s.tasks, s.attempts, s.tasks[t].attempt.value); }
    }
  }

  /** The holder of an open lease can hand it back, and nobody else can. */
  lemma ReleasesExactlyWhen(s: State, w: string, t: string, token: string)
    requires Inv(s)
    ensures var (s', ok) := Release(s, w, t, token);
      && (ok <==> LeaseOpen(s, t, w, token))
      && (if ok then LeaseEnded(s, s', t, w, Queued, Released, PReleased) else s' == s)
  {
    if t in s.tasks { assert TaskOk(s.tasks, s.attempts, t); }
  }

  // ------------------------------------------------------------ participant reports

  /** A participant's heartbeat is taken exactly while its attempt runs under an open lease, its
      last one is less than a lease old, and its worker is known with a load the pool accepts.
      Participant and worker are then fresh and the lease is a full one again. */
  lemma HeartbeatTakenExactlyWhen(s: State, a: string, g: nat, w: string, token: string)
    requires Inv(s)
    ensures var (s', ok), k := ParticipantHeartbeat(s, a, g, w, token), PartKey(a, w);
      && (ok <==> RunningOpen(s, a, g, token) && k in s.parts && s.now < s.parts[k].heartbeat + s.leaseSeconds
                  && w in s.workers && s.workers[w].load in {0, 1})
      && s' == if !ok then s else
           var t := s.attempts[a].task;
           s.(parts := s.parts[k := s.parts[k].(heartbeat := s.now, status := if s.parts[k].status.PRunning? then PRunning else PActive)],
              workers := s.workers[w := s.workers[w].(heartbeat := s.now,
                                                      status := if s.workers[w].status.Stale? then Ready else s.workers[w].status)],
              tasks := s.tasks[t := s.tasks[t].(status := s.tasks[t].status.(until := s.now + s.leaseSeconds))])
  {
    if a in s.attempts { assert AttemptOk(s.tasks, s.attempts, a); }
    if PartKey(a, w) in s.parts { assert PartOk(s.attempts, s.parts, PartKey(a, w)); }
  }

  /** Evidence is recorded exactly while the attempt runs under an open lease, and collective
      evidence only once the attempt has an endpoint; the participant then runs and is verified. */
  lemma EvidenceTakenExactlyWhen(s: State, a: string, g: nat, w: string, token: string, collective: bool, evidence: bool)
    requires Inv(s)
    ensures var (s', ok), k := Verify(s, a, g, w, token, collective, evidence), PartKey(a, w);
      && (ok <==> RunningOpen(s, a, g, token) && k in s.parts && evidence && (collective ==> s.attempts[a].endpoint.Some?))
      && s' == if !ok then s else
           var t := s.attempts[a].task;
           s.(parts := s.parts[k := s.parts[k].(status := PRunning, heartbeat := s.now, verified := true)],
              tasks := if collective then s.tasks[t := s.tasks[t].(status := s.tasks[t].status.(until := s.now + s.leaseSeconds))]
                       else s.tasks)
  {
    if a in s.attempts { assert AttemptOk(s.tasks, s.attempts, a); }
    if PartKey(a, w) in s.parts { assert PartOk(s.attempts, s.parts, PartKey(a, w)); }
  }

  /** A participant moves one stage at a time, may repeat its stage and may fail at any. */
  lemma StateTakenExactlyWhen(s: State, a: string, g: nat, w: string, token: string, status: PartStatus, order: int)
    requires Inv(s)
    ensures var (s', ok), k := ParticipantState(s, a, g, w, token, status, order), PartKey(a, w);
      && (ok <==> RunningOpen(s, a, g, token) && k in s.parts
                  && (status == s.parts[k].status || status == PFailed
                      || (s.parts[k].status, status) in {(PBound, PLaunching), (PLaunching, PActive), (PActive, PRunning)}))
      && (!ok ==> s' == s)
      && (ok && status != PFailed ==> s' == s.(parts := s.parts[k := s.parts[k].(status := status, heartbeat := s.now)]))
      && (ok && status == PFailed ==> AttemptFenced(s, s', a, false) && Noted(s, s', EventKey(a, g, "participant_failed", Fenced), order))
  {
    var k := PartKey(a, w);
    if a in s.attempts {
      assert AttemptOk(s.tasks, s.attempts, a);
      assert TaskOk(s.tasks, s.attempts, s.attempts[a].task);
    }
    if k in s.parts { assert PartOk(s.attempts, s.parts, k); }
    if ParticipantState(s, a, g, w, token, status, order).1 && status == PFailed {
      ReportFences(s, s.parts[k := s.parts[k].(heartbeat := s.now, status := PFailed)], a, g, "participant_failed", NoPath, order);
    }
  }

  // -------------------------------------------------------------- failure reports

  /** Attempt a has failed with its verdict rejected, its task waits again and all its
      participants failed just now.  What it held is given back, which for a physical lease is
      its allocation alone; `kept`: nothing is. */
  ghost predicate AttemptFenced(s: State, s': State, a: string, kept: bool) {
    && a in s.attempts && s.attempts[a].task in s.tasks
    && var row := s.attempts[a];
       && s'.tasks == s.tasks[row.task := s.tasks[row.task].(status := Queued)]
       && s'.attempts == s.attempts[a := row.(status := Failed, acceptance := Rejected)]
       && s'.parts.Keys == s.parts.Keys
       && (forall k :: k in s.parts ==>
             s'.parts[k] == if k.attempt == a then s.parts[k].(status := PFailed, heartbeat := s.now) else s.parts[k])
       && (if kept then s'.allocs == s.allocs else AllocationFreed(s, s', a))
       && (if kept || "fabric:" <= row.worker then s'.workers == s.workers else SlotGivenBack(s.workers, s'.workers, row.worker))
       && s' == s.(tasks := s'.tasks, attempts := s'.attempts, parts := s'.parts, workers := s'.workers, allocs := s'.allocs,
                   events := s'.events)
  }

  /** The event is on record: as of now, unless the same one already was; no other is lost. */
  ghost predicate Noted(s: State, s': State, key: EventKey, order: int) {
    && (forall k :: k in s.events ==> k in s'.events && s'.events[k] == s.events[k])
    && key in s'.events
    && (key !in s.events ==> key.attempt in s.attempts && s'.events[key] == Event(s.attempts[key.attempt].task, s.now, order, None))
  }

  lemma FenceEffects(s: State, parts: map<PartKey, Participant>, a: string, s': State)
    requires Inv(s) && Current(s, a) && parts.Keys == s.parts.Keys
    requires forall k :: k in s.parts ==>
      parts[k] == s.parts[k] || (k.attempt == a && parts[k] == s.parts[k].(status := PFailed, heartbeat := s.now))
    requires var f := FenceRows(s.(parts := parts), a);
      s'.tasks == f.tasks && s'.attempts == f.attempts && s'.parts == f.parts
    ensures var row := s.attempts[a];
      && s'.tasks == s.tasks[row.task := s.tasks[row.task].(status := Queued)]
      && s'.attempts == s.attempts[a := row.(status := Failed, acceptance := Rejected)]
      && s'.parts.Keys == s.parts.Keys
      && (forall k :: k in s.parts ==>
            s'.parts[k] == if k.attempt == a then s.parts[k].(status := PFailed, heartbeat := s.now) else s.parts[k])
  {
    forall k | k in s.parts && k.attempt == a ensures s'.parts[k] == s.parts[k].(status := PFailed, heartbeat := s.now) {
      assert PartOk(s.attempts, s.parts, k);
    }
  }

  lemma FenceReturns(f: State, s: State, a: string)
    requires a in s.attempts && a in f.attempts && f.allocs == s.allocs && f.workers == s.workers
    requires f.attempts[a].task == s.attempts[a].task && f.attempts[a].worker == s.attempts[a].worker
             && f.attempts[a].generation == s.attempts[a].generation && f.attempts[a].allocation == s.attempts[a].allocation
    ensures var s' := FenceResources(f, a);
      AllocationFreed(s, s', a)
      && if "fabric:" <= s.attempts[a].worker then s'.workers == s.workers else SlotGivenBack(s.workers, s'.workers, s.attempts[a].worker)
  {}

  /** A failure report on a running attempt fences it, also when the reporting participant was
      just marked failed. */
  lemma ReportFences(s: State, parts: map<PartKey, Participant>, a: string, g: nat, c: string, path: PathReport, order: int)
    requires Inv(s) && Current(s, a) && s.attempts[a].generation == g && parts.Keys == s.parts.Keys
    requires forall k :: k in s.parts ==>
      parts[k] == s.parts[k] || (k.attempt == a && parts[k] == s.parts[k].(status := PFailed, heartbeat := s.now))
    ensures var (s', out) := Recover(s.(parts := parts), a, g, c, path, order);
      && out == (if ReportRaises(s, a, path) then RecoveryRaised else Requeued)
      && AttemptFenced(s, s', a, ReportRaises(s, a, path)) && Noted(s, s', EventKey(a, g, c, Fenced), order)
  {
    var m := s.(parts := parts);
    FenceIsNoted(m, a, g, c, path, order);
    FenceOutcome(m, a, g, c, path, order);
    var s' := Recover(m, a, g, c, path, order).0;
    FenceEffects(s, parts, a, s');
    FenceReturns(FenceRows(m, a), s, a);
  }

  lemma FenceIsNoted(s: State, a: string, g: nat, c: string, path: PathReport, order: int)
    requires Current(s, a) && s.attempts[a].generation == g
    ensures Noted(s, Recover(s, a, g, c, path, order).0, EventKey(a, g, c, Fenced), order)
  {
    CurrentReportEvents(s, a, g, c, path, order);
  }

  lemma FenceOutcome(s: State, a: string, g: nat, c: string, path: PathReport, order: int)
    requires Current(s, a) && s.attempts[a].generation == g
    ensures var (s', out) := Recover(s, a, g, c, path, order);
      var f := FenceRows(s, a);
      && out == (if ReportRaises(s, a, path) then RecoveryRaised else Requeued)
      && s' == s.(tasks := f.tasks, attempts := f.attempts, parts := f.parts, workers := s'.workers, allocs := s'.allocs, events := s'.events)
      && (if ReportRaises(s, a, path) then s'.workers == s.workers && s'.allocs == s.allocs
          else s'.workers == FenceResources(f, a).workers && s'.allocs == FenceResources(f, a).allocs)
  {
    RecoverFences(s, a, g, c, path, order);
    RecoverResources(s, a, g, c, path, order);
    RaisesExactlyWhen(s, a, path);
  }

  /** A failure report fences exactly a running attempt of the generation it names.  Reports on an
      attempt that is over, or on another generation, are answered as such and only recorded. */
  lemma FailureReportAnswers(s: State, a: string, g: nat, c: string, path: PathReport, order: int)
    requires Inv(s)
    ensures var (s', out) := Recover(s, a, g, c, path, order);
      if a !in s.attempts then out == NoAttempt && s' == s
      else if s.attempts[a].generation == g && s.attempts[a].status == Running then
        && out == (if ReportRaises(s, a, path) then RecoveryRaised else Requeued)
        && AttemptFenced(s, s', a, out == RecoveryRaised) && Noted(s, s', EventKey(a, g, c, Fenced), order)
      else
        var stale := s.attempts[a].generation != g || !Latest(s, a);
        && out == (if stale then Stale_ else AlreadyFenced_)
        && s' == s.(events := s'.events)
        && Noted(s, s', EventKey(a, s.attempts[a].generation, c, if stale then StaleGeneration else AlreadyFenced), order)
  {
    if a in s.attempts {
      assert AttemptOk(s.tasks, s.attempts, a);
      assert TaskOk(s.tasks, s.attempts, s.attempts[a].task);
      if s.attempts[a].generation == g && s.attempts[a].status == Running {
        ReportFences(s, s.parts, a, g, c, path, order);
        assert s.(parts := s.parts) == s;
      }
    }
  }

  // ------------------------------------------------------------ convergence, bindings

  /** An attempt converges exactly while it runs under an open lease, every participant of it runs
      and is verified and the paths reconcile; it is then accepted and all its participants are
      complete.  Asked again under a lease of the task, it answers that it already has. */
  lemma ConvergesExactlyWhen(s: State, a: string, g: nat, w: string, token: string, reconciled: bool)
    requires Inv(s)
    ensures var (s', out), k := Converge(s, a, g, w, token, reconciled), PartKey(a, w);
      && (out == Converged(false) <==>
            RunningOpen(s, a, g, token) && k in s.parts && reconciled
            && forall j :: j in s.parts && j.attempt == a ==> s.parts[j].status == PRunning && s.parts[j].verified)
      && (out == Converged(false) ==>
            && s'.attempts == s.attempts[a := s.attempts[a].(status := Finished, acceptance := Accepted)]
            && s'.parts.Keys == s.parts.Keys
            && (forall j :: j in s.parts ==>
                  s'.parts[j] == if j.attempt == a then s.parts[j].(status := PCompleted, heartbeat := s.now) else s.parts[j])
            && s' == s.(attempts := s'.attempts, parts := s'.parts))
      && (out != Converged(false) ==> s' == s)
      && (out == Rejected_ <==>
            !(a in s.attempts && s.attempts[a].generation == g && s.attempts[a].digest == Sha256(token) && k in s.parts
              && TaskOpen(s, a)))
      && (out == Converged(true) <==> out != Rejected_ && s.attempts[a].status == Finished && s.attempts[a].acceptance == Accepted)
  {
    if a in s.attempts { assert AttemptOk(s.tasks, s.attempts, a); }
    forall j | j in s.parts && j.attempt == a ensures a in s.attempts && PartOk(s.attempts, s.parts, j) { assert PartOk(s.attempts, s.parts, j); }
  }

  /** Attempt b runs under an open lease and has this endpoint. */
  ghost predicate HasEndpoint(s: State, b: string, endpoint: string) {
    TaskOpen(s, b) && s.attempts[b].status == Running && s.attempts[b].endpoint == Some(endpoint)
  }

  /** An endpoint is bound exactly while its attempt runs under an open lease and no other such
      attempt has it; once bound, only the same endpoint is confirmed. */
  lemma EndpointBoundExactlyWhen(s: State, a: string, g: nat, token: string, endpoint: string)
    requires Inv(s)
    ensures var (s', ok) := BindEndpoint(s, a, g, token, endpoint);
      && (ok <==> RunningOpen(s, a, g, token) && endpoint != ""
                  && (s.attempts[a].endpoint.Some? ==> s.attempts[a].endpoint == Some(endpoint))
                  && (s.attempts[a].endpoint.None? ==> !(exists b :: b != a && HasEndpoint(s, b, endpoint))))
      && s' == if ok then s.(attempts := s.attempts[a := s.attempts[a].(endpoint := Some(endpoint))]) else s
  {
    forall b ensures HasEndpoint(s, b, endpoint) <==> RunningLive(s, b) && s.attempts[b].endpoint == Some(endpoint) {
      if HasEndpoint(s, b, endpoint) { assert AttemptOk(s.tasks, s.attempts, b); }
    }
    if a in s.attempts { assert AttemptOk(s.tasks, s.attempts, a); }
  }

  /** An allocation is bound to a running attempt, lapsed lease or not, and only once. */
  lemma AllocationBoundExactlyWhen(s: State, a: string, g: nat, token: string, id: AllocationId)
    requires Inv(s)
    ensures var (s', ok) := BindPhysical(s, a, g, token, id);
      && (ok <==> a in s.attempts && s.attempts[a].status == Running && s.attempts[a].generation == g
                  && s.attempts[a].digest == Sha256(token) && s.attempts[a].allocation in {None, Some(id)})
      && s' == if ok then s.(attempts := s.attempts[a := s.attempts[a].(allocation := Some(id))]) else s
  {
    if a in s.attempts { assert AttemptOk(s.tasks, s.attempts, a); }
  }
}
