/** The safety properties of the leased-task protocol over every run. */
module LeaseTheorems {
  import opened Base
  import opened Failover
  import opened LeaseState
  import opened LeaseInvariant
  import opened LeaseRuns
  import opened Outcomes

  lemma InitialInv(now: real, leaseSeconds: real)
    requires leaseSeconds > 0.0
    ensures Inv(Initial(now, leaseSeconds)) && Covered(Initial(now, leaseSeconds))
  {}

  // ------------------------------------------------------ lockstep, generations

  ghost predicate MadeBy(s: State, t: string, g: nat, a: string) {
    a in s.attempts && s.attempts[a].task == t && s.attempts[a].generation == g
  }

  /** In every run from the empty database, a task's attempts carry the generations
      1..generation exactly once each, and `attempts` counts them. */
  lemma GenerationsExactlyOnce(now: real, leaseSeconds: real, steps: seq<Step>, t: string, g: nat)
    requires leaseSeconds > 0.0 && LegalRun(Initial(now, leaseSeconds), steps)
    requires t in Run(Initial(now, leaseSeconds), steps).tasks
    ensures var s := Run(Initial(now, leaseSeconds), steps);
      && s.tasks[t].attempts == s.tasks[t].generation
      && (1 <= g <= s.tasks[t].generation <==> Made(s, t, g))
      && forall a, b :: MadeBy(s, t, g, a) && MadeBy(s, t, g, b) ==> a == b
  {
    InitialInv(now, leaseSeconds);
    RunGrows(Initial(now, leaseSeconds), steps);
    var s := Run(Initial(now, leaseSeconds), steps);
    assert TaskOk(s.tasks, s.attempts, t);
    if Made(s, t, g) {
      var a :| a in s.attempts && s.attempts[a].task == t && s.attempts[a].generation == g;
      assert AttemptOk(s.tasks, s.attempts, a);
    }
  }

  /** A running attempt never has a participant that failed, expired or was let go. */
  lemma RunningAttemptsAreWhole(s: State, k: PartKey)
    requires Inv(s) && k in s.parts && k.attempt in s.attempts && s.attempts[k.attempt].status == Running
    ensures LivePart(s.parts[k].status)
  {
    assert PartOk(s.attempts, s.parts, k);
  }

  // ------------------------------------------------------ lapsed leases, fencing

  /** Only the generation that holds a lease can present its token. */
  lemma TokenHolder(s: State, a: string, w: string, t: string, token: string)
    requires Inv(s) && a in s.attempts && s.attempts[a].digest == Sha256(token) && ValidLease(s, w, t, token)
    ensures Holds(s, a) && s.attempts[a].task == t
  {
    assert TaskOk(s.tasks, s.attempts, t);
    assert s.attempts[s.tasks[t].attempt.value].digest == s.attempts[a].digest;
  }

  /** A generation that has lost its lease, by expiry, release, failure or completion, never
      gets it back: in every continuation each operation presenting its token is refused and
      changes nothing, apart from a repeated `complete` being answered from the record. */
  lemma LapsedLeaseNeverRevives(s: State, steps: seq<Step>, a: string, token: string,
                                w: string, t: string, g: nat, status: PartStatus, order: int, collective: bool,
                                evidence: bool, reconciled: bool, endpoint: string, result: string, items: seq<CheckItem>)
    requires Inv(s) && LegalRun(s, steps)
    requires a in s.attempts && !Holds(s, a) && s.attempts[a].digest == Sha256(token)
    ensures var s' := Run(s, steps);
      && a in s'.attempts && !Holds(s', a)
      && ParticipantHeartbeat(s', a, g, w, token) == (s', false)
      && Verify(s', a, g, w, token, collective, evidence) == (s', false)
      && ParticipantState(s', a, g, w, token, status, order) == (s', false)
      && BindEndpoint(s', a, g, token, endpoint) == (s', false)
      && Checkpoint(s', w, t, token, items) == (s', false)
      && Release(s', w, t, token) == (s', false)
      && Converge(s', a, g, w, token, reconciled).0 == s'
      && Complete(s', w, t, token, result).0 == s'
      && (Complete(s', w, t, token, result).1 ==> t in s'.tasks && s'.tasks[t].status.Completed?)
  {
    RunGrows(s, steps);
    var s' := Run(s, steps);
    assert AttemptEv(s, s', a);
    assert AttemptOk(s'.tasks, s'.attempts, a);
    if ValidLease(s', w, t, token) { TokenHolder(s', a, w, t, token); }
    if PartKey(a, w) in s'.parts { assert PartOk(s'.attempts, s'.parts, PartKey(a, w)); }
  }

  /** Once an attempt stopped running, a late report about it can at most append an event. */
  lemma StaleReportsOnlyRecord(s: State, steps: seq<Step>, a: string, g: nat, c: string, path: PathReport, order: int)
    requires Inv(s) && LegalRun(s, steps) && a in s.attempts && s.attempts[a].status != Running
    ensures var s' := Run(s, steps);
      var after := Recover(s', a, g, c, path, order).0;
      after == s'.(events := after.events) && forall e :: e in s'.events ==> e in after.events && after.events[e] == s'.events[e]
  {
    RunGrows(s, steps);
    var s' := Run(s, steps);
    assert AttemptEv(s, s', a);
    RecoverOtherwiseOnlyRecords(s', a, g, c, path, order);
    RecoverEvents(s', a, g, c, path, order);
  }

  /** A report that names another generation than the running one is such a report too. */
  lemma WrongGenerationOnlyRecords(s: State, a: string, g: nat, c: string, path: PathReport, order: int)
    requires Inv(s) && a in s.attempts && s.attempts[a].generation != g
    ensures var r := Recover(s, a, g, c, path, order); r.0 == s.(events := r.0.events) && r.1 == Stale_
  {
    assert AttemptOk(s.tasks, s.attempts, a);
    RecoverOtherwiseOnlyRecords(s, a, g, c, path, order);
  }

  // ---------------------------------------------------------- exactly-once result

  /** A completed task's row never changes, and `complete` answers true afterwards exactly
      for the worker, lease and result that completed it. */
  lemma CompletedForever(s: State, steps: seq<Step>, t: string, w: string, token: string, result: string)
    requires Inv(s) && LegalRun(s, steps) && t in s.tasks && s.tasks[t].status.Completed?
    ensures var s' := Run(s, steps);
      var done := s.tasks[t].status;
      && t in s'.tasks && s'.tasks[t] == s.tasks[t]
      && Complete(s', w, t, token, result)
         == (s', w == done.doneBy && Sha256(token) == done.leaseDigest && result == done.result)
  {
    RunGrows(s, steps);
    assert TaskEv(s, Run(s, steps), t);
    assert TaskOk(s.tasks, s.attempts, t);
  }

  /** So the holder of an open lease completes its task, and that completion is confirmed to it and
      to nobody else, for good; whoever holds no open lease on it changes nothing. */
  lemma CompletionIsExactlyOnce(s: State, w: string, t: string, token: string, result: string, steps: seq<Step>,
                                w': string, token': string, result': string)
    requires Inv(s) && t in s.tasks && !s.tasks[t].status.Completed?
    requires LegalRun(Complete(s, w, t, token, result).0, steps)
    ensures var (done, ok) := Complete(s, w, t, token, result);
      var s' := Run(done, steps);
      if LeaseOpen(s, t, w, token) then
        ok && Complete(s', w', t, token', result') == (s', w' == w && token' == token && result' == result)
      else !ok && done == s
  {
    CompletesExactlyWhen(s, w, t, token, result);
    CompleteKeepsInv(s, w, t, token, result);
    if LeaseOpen(s, t, w, token) { CompletedForever(Complete(s, w, t, token, result).0, steps, t, w', token', result'); }
  }

  // ------------------------------------------------------------ verdicts, progress

  /** An accepted or rejected attempt keeps its verdict in every continuation. */
  lemma VerdictsNeverFlip(s: State, steps: seq<Step>, a: string)
    requires Inv(s) && LegalRun(s, steps) && a in s.attempts && s.attempts[a].acceptance != Pending
    ensures a in Run(s, steps).attempts && Run(s, steps).attempts[a].acceptance == s.attempts[a].acceptance
  {
    RunGrows(s, steps);
    assert AttemptEv(s, Run(s, steps), a);
  }

  /** An attempt turns accepted only in a convergence reported by one of its participants,
      at a moment when it runs under an unexpired lease and every one of its participants is
      running with a stored verification. */
  lemma AcceptedOnlyByFullConvergence(s: State, step: Step, a: string)
    requires Inv(s) && Legal(s, step)
    requires a in Apply(s, step).attempts && Apply(s, step).attempts[a].acceptance == Accepted
    requires !(a in s.attempts && s.attempts[a].acceptance == Accepted)
    ensures step.DoConverge? && step.attempt == a && step.reconciled
    ensures Holds(s, a) && s.attempts[a].status == Running && PartKey(a, step.worker) in s.parts
    ensures forall k :: k in s.parts && k.attempt == a ==> s.parts[k].status == PRunning && s.parts[k].verified
    ensures var s' := Apply(s, step);
      forall k :: k in s'.parts && k.attempt == a ==> s'.parts[k].status == PCompleted && s'.parts[k].verified
  {
    StepGrows(s, step);
    assert AttemptOk(s.tasks, s.attempts, a);
    assert PartOk(s.attempts, s.parts, PartKey(a, step.worker));
    forall k | k in s.parts && k.attempt == a ensures s.parts[k].generation == s.attempts[a].generation {
      assert PartOk(s.attempts, s.parts, k);
    }
  }

  /** While its attempt runs, a participant never goes back and never loses its evidence. */
  lemma ParticipantsOnlyAdvance(s: State, steps: seq<Step>, k: PartKey)
    requires Inv(s) && LegalRun(s, steps) && k in s.parts
    ensures var s' := Run(s, steps);
      && k in s'.parts && (s.parts[k].verified ==> s'.parts[k].verified)
      && (k.attempt in s'.attempts && s'.attempts[k.attempt].status == Running ==>
            LivePart(s'.parts[k].status) && Rank(s.parts[k].status) <= Rank(s'.parts[k].status))
  {
    RunGrows(s, steps);
    var s' := Run(s, steps);
    assert PartOk(s.attempts, s.parts, k) && PartEv(s, s', k);
    assert PartOk(s'.attempts, s'.parts, k);
  }

  // ------------------------------------------------------------------- endpoints

  ghost predicate EndpointsDistinct(s: State) {
    forall a, b {:trigger RunningLive(s, a), RunningLive(s, b)} ::
      RunningLive(s, a) && RunningLive(s, b) && a != b && s.attempts[a].endpoint.Some? ==>
        s.attempts[a].endpoint != s.attempts[b].endpoint
  }

  lemma StillRunningLive(s: State, s': State, a: string)
    requires Evolves(s, s') && a in s.attempts && RunningLive(s', a)
    ensures RunningLive(s, a)
  {
    assert AttemptEv(s, s', a);
  }

  /** Endpoints are those of s; new attempts have none. */
  ghost predicate SameEndpoints(s: State, s': State) {
    forall a :: a in s'.attempts ==> s'.attempts[a].endpoint == if a in s.attempts then s.attempts[a].endpoint else None
  }

  lemma OnlyBindingWritesEndpoints(s: State, step: Step)
    requires Inv(s) && Legal(s, step) && !step.DoBindEndpoint?
    ensures Evolves(s, Apply(s, step)) && SameEndpoints(s, Apply(s, step))
  {
    StepGrows(s, step);
    if step.DoConverge? {
      var s' := Converge(s, step.attempt, step.generation, step.worker, step.token, step.reconciled).0;
      assert SameEndpoints(s, s');
    }
  }

  lemma SameEndpointsKeep(s: State, s': State)
    requires Evolves(s, s') && SameEndpoints(s, s') && EndpointsDistinct(s)
    ensures EndpointsDistinct(s')
  {
    forall a, b | RunningLive(s', a) && RunningLive(s', b) && a != b && s'.attempts[a].endpoint.Some?
      ensures s'.attempts[a].endpoint != s'.attempts[b].endpoint
    {
      if a in s.attempts { StillRunningLive(s, s', a); }
      if b in s.attempts { StillRunningLive(s, s', b); }
    }
  }

  lemma BindingKeepsEndpoints(s: State, a: string, g: nat, token: string, endpoint: string)
    requires EndpointsDistinct(s)
    ensures EndpointsDistinct(BindEndpoint(s, a, g, token, endpoint).0)
  {
    var s' := BindEndpoint(s, a, g, token, endpoint).0;
    if s' != s {
      assert !EndpointTaken(s, a, endpoint);
      forall b | RunningLive(s', b) ensures RunningLive(s, b) {}
    }
  }

  lemma StepKeepsEndpoints(s: State, step: Step)
    requires Inv(s) && Legal(s, step) && EndpointsDistinct(s)
    ensures EndpointsDistinct(Apply(s, step))
  {
    if step.DoBindEndpoint? {
      BindingKeepsEndpoints(s, step.attempt, step.generation, step.token, step.endpoint);
    } else {
      OnlyBindingWritesEndpoints(s, step);
      SameEndpointsKeep(s, Apply(s, step));
    }
  }

  /** In every run, attempts running under live leases have pairwise distinct endpoints. */
  lemma {:induction false} RunKeepsEndpoints(s: State, steps: seq<Step>)
    requires Inv(s) && LegalRun(s, steps) && EndpointsDistinct(s)
    ensures EndpointsDistinct(Run(s, steps))
    decreases |steps|
  {
    if steps != [] {
      StepKeepsEndpoints(s, steps[0]);
      StepKeepsInv(s, steps[0]);
      RunKeepsEndpoints(Apply(s, steps[0]), steps[1..]);
    }
  }

  /** Lease holders, running or converged, have pairwise distinct endpoints. */
  ghost predicate HoldersDistinct(s: State) {
    forall a, b {:trigger Holds(s, a), Holds(s, b)} ::
      Holds(s, a) && Holds(s, b) && a != b && s.attempts[a].endpoint.Some? ==>
        s.attempts[a].endpoint != s.attempts[b].endpoint
  }

  /** With running attempts apart, holders share an endpoint exactly when one of the two has
      already converged. */
  lemma SharedEndpointMeansConverged(s: State)
    requires Inv(s) && EndpointsDistinct(s)
    ensures !HoldersDistinct(s) <==> exists a, b {:trigger Holds(s, a), Holds(s, b)} ::
      Holds(s, a) && Holds(s, b) && a != b && s.attempts[a].acceptance == Accepted
      && s.attempts[a].endpoint.Some? && s.attempts[a].endpoint == s.attempts[b].endpoint
  {
    if !HoldersDistinct(s) {
      var a, b :| Holds(s, a) && Holds(s, b) && a != b && s.attempts[a].endpoint.Some? && s.attempts[a].endpoint == s.attempts[b].endpoint;
      HolderRunsOrConverged(s, a);
      HolderRunsOrConverged(s, b);
      assert Holds(s, b) && Holds(s, a) && !(RunningLive(s, a) && RunningLive(s, b));
    }
  }

  /** The call binds a first endpoint that an attempt which has converged, but still holds its
      lease, already has. */
  ghost predicate MeetsConvergedHolder(s: State, step: Step) {
    step.DoBindEndpoint? && RunningLive(s, step.attempt)
    && Authorized(s, step.attempt, step.generation, step.token)
    && step.endpoint != "" && s.attempts[step.attempt].endpoint.None?
    && exists b :: Holds(s, b) && s.attempts[b].acceptance == Accepted && s.attempts[b].endpoint == Some(step.endpoint)
  }

  lemma HolderRunsOrConverged(s: State, a: string)
    requires Inv(s) && Holds(s, a)
    ensures RunningLive(s, a) || s.attempts[a].acceptance == Accepted
    ensures !(RunningLive(s, a) && s.attempts[a].acceptance == Accepted)
  {
    assert TaskOk(s.tasks, s.attempts, s.attempts[a].task) && AttemptOk(s.tasks, s.attempts, a);
  }

  /** The conflict check compares with running attempts only, so a step keeps the endpoints of
      lease holders distinct except exactly when it binds one of a converged holder. */
  lemma HoldersStayDistinctExactlyWhen(s: State, step: Step)
    requires Inv(s) && Legal(s, step) && HoldersDistinct(s)
    ensures HoldersDistinct(Apply(s, step)) <==> !MeetsConvergedHolder(s, step)
  {
    if step.DoBindEndpoint? {
      if MeetsConvergedHolder(s, step) {
        ConvergedHolderSharesItsEndpoint(s, step.attempt, step.generation, step.token, step.endpoint);
      } else {
        OtherBindingsKeepDistinct(s, step.attempt, step.generation, step.token, step.endpoint);
      }
    } else {
      OnlyBindingWritesEndpoints(s, step);
      SameEndpointsStayDistinct(s, Apply(s, step));
    }
  }

  lemma SameEndpointsStayDistinct(s: State, s': State)
    requires Evolves(s, s') && SameEndpoints(s, s') && HoldersDistinct(s)
    ensures HoldersDistinct(s')
  {
    forall a, b | Holds(s', a) && Holds(s', b) && a != b && s'.attempts[a].endpoint.Some?
      ensures s'.attempts[a].endpoint != s'.attempts[b].endpoint
    {
      if a in s.attempts { assert AttemptEv(s, s', a); }
      if b in s.attempts { assert AttemptEv(s, s', b); }
    }
  }

  /** A converged holder does not block its endpoint. */
  lemma ConvergedHolderSharesItsEndpoint(s: State, a: string, g: nat, token: string, endpoint: string)
    requires Inv(s) && HoldersDistinct(s) && MeetsConvergedHolder(s, DoBindEndpoint(a, g, token, endpoint))
    ensures BindEndpoint(s, a, g, token, endpoint) == (s.(attempts := s.attempts[a := s.attempts[a].(endpoint := Some(endpoint))]), true)
    ensures !HoldersDistinct(BindEndpoint(s, a, g, token, endpoint).0)
  {
    var b :| Holds(s, b) && s.attempts[b].acceptance == Accepted && s.attempts[b].endpoint == Some(endpoint);
    HolderRunsOrConverged(s, b);
    forall c | c in s.attempts && RunningLive(s, c) ensures s.attempts[c].endpoint != Some(endpoint) {
      HolderRunsOrConverged(s, c);
      assert Holds(s, c);
    }
    assert !EndpointTaken(s, a, endpoint);
    var s' := BindEndpoint(s, a, g, token, endpoint).0;
    assert Holds(s', a) && Holds(s', b);
  }

  lemma OtherBindingsKeepDistinct(s: State, a: string, g: nat, token: string, endpoint: string)
    requires Inv(s) && HoldersDistinct(s) && !MeetsConvergedHolder(s, DoBindEndpoint(a, g, token, endpoint))
    ensures HoldersDistinct(BindEndpoint(s, a, g, token, endpoint).0)
  {
    var s' := BindEndpoint(s, a, g, token, endpoint).0;
    if s' != s {
      forall b | Holds(s', b) && b != a ensures s'.attempts[b].endpoint != Some(endpoint) {
        assert Holds(s, b);
        HolderRunsOrConverged(s, b);
      }
      forall b | Holds(s', b) ensures Holds(s, b) {}
    }
  }

  ghost predicate NoSharedBinding(s: State, steps: seq<Step>)
    decreases |steps|
  {
    steps == [] || (!MeetsConvergedHolder(s, steps[0]) && NoSharedBinding(Apply(s, steps[0]), steps[1..]))
  }

  /** So over every run without such a binding all lease holders have distinct endpoints. */
  lemma {:induction false} RunKeepsHolders(s: State, steps: seq<Step>)
    requires Inv(s) && LegalRun(s, steps) && HoldersDistinct(s) && NoSharedBinding(s, steps)
    ensures HoldersDistinct(Run(s, steps))
    decreases |steps|
  {
    if steps != [] {
      HoldersStayDistinctExactlyWhen(s, steps[0]);
      StepKeepsInv(s, steps[0]);
      RunKeepsHolders(Apply(s, steps[0]), steps[1..]);
    }
  }

  /** An endpoint is written once. */
  lemma EndpointsWriteOnce(s: State, steps: seq<Step>, a: string)
    requires Inv(s) && LegalRun(s, steps) && a in s.attempts && s.attempts[a].endpoint.Some?
    ensures a in Run(s, steps).attempts && Run(s, steps).attempts[a].endpoint == s.attempts[a].endpoint
  {
    RunGrows(s, steps);
    assert AttemptEv(s, Run(s, steps), a);
  }
}
