/** Recovery settles: expiry followed by reconciliation leaves only healthy leases, and a
    controller cycle's schedule survives until its end. */
module Recovery {
  import opened Base
  import opened Failover
  import opened LeaseState
  import opened LeaseInvariant
  import opened LeaseRuns
  import opened FailoverRuns
  import opened Queries

  // --------------------------------------------------------------------- expiry

  /** Expiry of task t leaves every other task's lease row alone. */
  lemma ExpireOneTasks(s: State, t: string)
    requires Inv(s)
    ensures ExpireOne(s, t).tasks == if Lapsed(s, t) then s.tasks[t := s.tasks[t].(status := Queued)] else s.tasks
    ensures ExpireOne(s, t).now == s.now
  {
    if Lapsed(s, t) {
      assert TaskOk(s.tasks, s.attempts, t);
      var a := s.tasks[t].attempt.value;
      var m := ExpireAttempt(Requeue(s, t), a);
      assert ExpireOne(s, t) == FenceResources(m, a);
    }
  }

  /** Expiring a list of lapsed tasks requeues exactly those. */
  lemma {:induction false} ExpireAllTasks(s: State, order: seq<string>)
    requires Inv(s) && Distinct(order) && forall t :: t in order ==> Lapsed(s, t)
    ensures ExpireAll(s, order).tasks == map t | t in s.tasks :: if t in order then s.tasks[t].(status := Queued) else s.tasks[t]
    ensures ExpireAll(s, order).now == s.now
  {
    if order != [] {
      var front, t := order[..|order| - 1], order[|order| - 1];
      assert order == front + [t];
      ExpireAllTasks(s, front);
      ExpireAllKeepsInv(s, front);
      ExpireOneTasks(ExpireAll(s, front), t);
    }
  }

  /** The attempt a task of the list points at. */
  ghost predicate Ending(s: State, order: seq<string>, a: string) {
    a in s.attempts && s.attempts[a].task in order && s.attempts[a].task in s.tasks && s.tasks[s.attempts[a].task].attempt == Some(a)
  }

  /** What the leases of these tasks ran has ended: a running attempt expired with its verdict
      rejected and its participants expired just now, a converged one kept its verdict and its
      participants are complete.  No other attempt or participant is touched. */
  ghost predicate LapsedEnded(s: State, s': State, order: seq<string>) {
    && s'.attempts.Keys == s.attempts.Keys && s'.parts.Keys == s.parts.Keys
    && (forall a :: a in s.attempts ==>
          s'.attempts[a] == if Ending(s, order, a) && s.attempts[a].status.Running?
                            then s.attempts[a].(status := Expired, acceptance := Rejected) else s.attempts[a])
    && (forall k :: k in s.parts ==>
          s'.parts[k] == if !Ending(s, order, k.attempt) || s.parts[k].status in {PFailed, PExpired} then s.parts[k]
                         else if s.attempts[k.attempt].status.Running? then s.parts[k].(status := PExpired, heartbeat := s.now)
                         else s.parts[k].(status := PCompleted))
  }

  /** Expiry ends what the lapsed leases ran. */
  lemma {:induction false} ExpiryEndsAttempts(s: State, order: seq<string>)
    requires Inv(s) && Distinct(order) && forall t :: t in order ==> Lapsed(s, t)
    ensures LapsedEnded(s, ExpireAll(s, order), order)
  {
    if order != [] {
      var front, t := order[..|order| - 1], order[|order| - 1];
      assert order == front + [t];
      assert t in order && Lapsed(s, t);
      ExpiryEndsAttempts(s, front);
      ExpireAllTasks(s, front);
      ExpireAllKeepsInv(s, front);
      var m := ExpireAll(s, front);
      assert TaskOk(s.tasks, s.attempts, t) && m.tasks[t] == s.tasks[t] && Lapsed(m, t);
      ExpireOneRows(m, t);
      OneMoreEnded(s, m, ExpireOne(m, t), front, t);
    }
  }

  lemma OneMoreEnded(s: State, m: State, s': State, front: seq<string>, t: string)
    requires t !in front && t in s.tasks && s.tasks[t].attempt.Some?
    requires var a := s.tasks[t].attempt.value; a in s.attempts && s.attempts[a].task == t
    requires m.now == s.now && LapsedEnded(s, m, front) && AttemptEnded(m, s', s.tasks[t].attempt.value)
    ensures LapsedEnded(s, s', front + [t])
  {
    var a := s.tasks[t].attempt.value;
    forall b ensures Ending(s, front + [t], b) <==> Ending(s, front, b) || b == a {}
    assert !Ending(s, front, a) && m.attempts[a] == s.attempts[a];
  }

  /** The same for one attempt. */
  ghost predicate AttemptEnded(s: State, s': State, a: string) {
    && a in s.attempts
    && s'.attempts == (if s.attempts[a].status.Running? then s.attempts[a := s.attempts[a].(status := Expired, acceptance := Rejected)]
                       else s.attempts)
    && s'.parts.Keys == s.parts.Keys
    && (forall k :: k in s.parts ==>
          s'.parts[k] == if k.attempt != a || s.parts[k].status in {PFailed, PExpired} then s.parts[k]
                         else if s.attempts[a].status.Running? then s.parts[k].(status := PExpired, heartbeat := s.now)
                         else s.parts[k].(status := PCompleted))
  }

  /** The tasks whose lease lapsed wait again and what they ran has ended; every other task, and
      so every lease that is left, is untouched. */
  lemma ExpirySettles(s: State, lapsed: seq<string>)
    requires Inv(s) && EnumeratesLapsed(s, lapsed)
    ensures forall t :: t in lapsed <==> t in s.tasks && s.tasks[t].status.Leased? && s.tasks[t].status.until <= s.now
    ensures var s' := ExpireAll(s, lapsed);
      && Inv(s') && s'.now == s.now && s'.tasks.Keys == s.tasks.Keys
      && (forall t :: t in s.tasks ==> s'.tasks[t] == (if t in lapsed then s.tasks[t].(status := Queued) else s.tasks[t]))
      && (forall t :: t in s'.tasks && s'.tasks[t].status.Leased? ==> s.now < s'.tasks[t].status.until)
      && LapsedEnded(s, s', lapsed)
  {
    ExpireAllTasks(s, lapsed);
    ExpireAllKeepsInv(s, lapsed);
    ExpiryEndsAttempts(s, lapsed);
  }

  lemma ExpireOneRows(s: State, t: string)
    requires Inv(s) && Lapsed(s, t)
    ensures s.tasks[t].attempt.Some? && AttemptEnded(s, ExpireOne(s, t), s.tasks[t].attempt.value)
  {
    assert TaskOk(s.tasks, s.attempts, t);
    var a := s.tasks[t].attempt.value;
    var m := ExpireAttempt(Requeue(s, t), a);
    assert ExpireOne(s, t) == FenceResources(m, a);
    forall k | k in s.parts && k.attempt == a ensures PartOk(s.attempts, s.parts, k) {}
  }

  // -------------------------------------------------------------- reconciliation

  /** Participant k is live, and both it and its worker were heard of less than `timeout` ago. */
  ghost predicate Heard(s: State, k: PartKey, timeout: real)
    requires k in s.parts
  {
    && s.parts[k].status in {PBound, PLaunching, PActive, PRunning} && s.parts[k].heartbeat + timeout > s.now
    && k.worker in s.workers && s.workers[k.worker].heartbeat + timeout > s.now
  }

  /** Attempt a runs and some participant of it was not. */
  ghost predicate Silent(s: State, a: string, timeout: real) {
    a in s.attempts && s.attempts[a].status.Running? && exists k :: k in s.parts && k.attempt == a && !Heard(s, k, timeout)
  }

  /** Every participant of every running attempt was. */
  ghost predicate AllHeard(s: State, timeout: real) {
    forall k :: k in s.parts && k.attempt in s.attempts && s.attempts[k.attempt].status.Running? ==> Heard(s, k, timeout)
  }

  /** Reconciliation selects exactly the running attempts with a silent participant. */
  lemma LostExactlyWhen(s: State, a: string, timeout: real)
    requires Inv(s)
    ensures Unhealthy(s, a, timeout) <==> Silent(s, a, timeout)
  {
    if a in s.attempts {
      assert AttemptOk(s.tasks, s.attempts, a);
      if s.attempts[a].status.Running? { assert TaskOk(s.tasks, s.attempts, s.attempts[a].task); }
    }
    forall k | k in s.parts && k.attempt == a ensures a in s.attempts && s.parts[k].generation == s.attempts[a].generation {
      assert PartOk(s.attempts, s.parts, k);
    }
  }

  lemma HealthyIsHeard(s: State, timeout: real)
    requires Inv(s) && forall a :: !Unhealthy(s, a, timeout)
    ensures AllHeard(s, timeout)
  {
    forall k | k in s.parts && k.attempt in s.attempts && s.attempts[k.attempt].status.Running? ensures Heard(s, k, timeout) {
      LostExactlyWhen(s, k.attempt, timeout);
    }
  }

  /** What a whole pass selects and leaves behind. */
  lemma ReconciliationSettles(s: State, timeout: real, lost: seq<string>)
    requires Inv(s) && EnumeratesLost(s, timeout, lost)
    ensures forall a :: a in lost <==> Silent(s, a, timeout)
    ensures AllHeard(ReconcileAll(s, lost), timeout) && AllFenced(s, ReconcileAll(s, lost), lost) && Inv(ReconcileAll(s, lost))
  {
    forall a ensures a in lost <==> Silent(s, a, timeout) { LostExactlyWhen(s, a, timeout); }
    forall a | a in lost ensures Current(s, a) { assert Unhealthy(s, a, timeout); }
    ReconcileAllEffects(s, timeout, lost);
    ReconciliationFences(s, timeout, lost);
    var s' := ReconcileAll(s, lost);
    forall a ensures !Unhealthy(s', a, timeout) {
      if a in lost { assert !Current(s', a); } else { assert !Unhealthy(s, a, timeout); }
    }
    HealthyIsHeard(s', timeout);
  }

  /** These attempts have failed with their verdicts rejected and all their participants failed
      just now; no other attempt or participant is touched. */
  ghost predicate AllFenced(s: State, s': State, order: seq<string>) {
    && s'.attempts.Keys == s.attempts.Keys && s'.parts.Keys == s.parts.Keys
    && (forall a :: a in s.attempts ==>
          s'.attempts[a] == if a in order then s.attempts[a].(status := Failed, acceptance := Rejected) else s.attempts[a])
    && (forall k :: k in s.parts ==>
          s'.parts[k] == if k.attempt in order then s.parts[k].(status := PFailed, heartbeat := s.now) else s.parts[k])
  }

  lemma FenceOneRows(s: State, a: string)
    requires Inv(s) && Current(s, a)
    ensures AllFenced(s, ReconcileOne(s, a), [a])
  {
    forall k | k in s.parts && k.attempt == a ensures LivePart(s.parts[k].status) && s.parts[k].generation == s.attempts[a].generation {
      assert PartOk(s.attempts, s.parts, k);
    }
    var f := FenceRows(s, a);
    assert ReconcileOne(s, a) == FenceResources(f, a);
  }

  /** Reconciliation fences every attempt of the list. */
  lemma {:induction false} ReconciliationFences(s: State, timeout: real, order: seq<string>)
    requires Inv(s) && Distinct(order) && forall a :: a in order ==> Current(s, a)
    ensures AllFenced(s, ReconcileAll(s, order), order)
  {
    if order != [] {
      var front, a := order[..|order| - 1], order[|order| - 1];
      assert order == front + [a];
      ReconciliationFences(s, timeout, front);
      ReconcileAllEffects(s, timeout, front);
      var m := ReconcileAll(s, front);
      assert Current(m, a);
      FenceOneRows(m, a);
      OneMoreFenced(s, m, ReconcileOne(m, a), front, a);
    }
  }

  lemma OneMoreFenced(s: State, m: State, s': State, front: seq<string>, a: string)
    requires a !in front && m.now == s.now && AllFenced(s, m, front) && AllFenced(m, s', [a])
    ensures AllFenced(s, s', front + [a])
  {}

  /** Fencing attempt a touches no other attempt, task, participant or worker heartbeat. */
  ghost predicate FencedApart(s: State, s': State, a: string) {
    && a in s.attempts && s.attempts[a].task in s.tasks
    && s'.now == s.now && s'.leaseSeconds == s.leaseSeconds
    && s'.tasks == s.tasks[s.attempts[a].task := s.tasks[s.attempts[a].task].(status := Queued)]
    && s'.attempts.Keys == s.attempts.Keys && s'.attempts[a].status == Failed
    && (forall b :: b in s.attempts && b != a ==> s'.attempts[b] == s.attempts[b])
    && s'.parts.Keys == s.parts.Keys && (forall k :: k in s.parts && k.attempt != a ==> s'.parts[k] == s.parts[k])
    && s'.workers.Keys == s.workers.Keys && (forall w :: w in s.workers ==> s'.workers[w].heartbeat == s.workers[w].heartbeat)
  }

  lemma ReconcileOneApart(s: State, a: string)
    requires Current(s, a)
    ensures FencedApart(s, ReconcileOne(s, a), a)
  {
    var f := FenceRows(s, a);
    var r := FenceResources(f, a);
    assert r.workers.Keys == s.workers.Keys && forall w :: w in s.workers ==> r.workers[w].heartbeat == s.workers[w].heartbeat;
  }

  /** A different attempt is as current and as healthy after the fencing as before. */
  lemma FencingIsLocal(s: State, s': State, a: string, b: string, timeout: real)
    requires Inv(s) && Inv(s') && FencedApart(s, s', a) && Current(s, a) && b != a
    ensures Current(s', b) <==> Current(s, b)
    ensures Unhealthy(s', b, timeout) <==> Unhealthy(s, b, timeout)
  {
    if Current(s, b) || Current(s', b) {
      assert AttemptOk(s.tasks, s.attempts, a) && AttemptOk(s.tasks, s.attempts, b);
    }
    if Unhealthy(s, b, timeout) {
      var k :| k in s.parts && k.attempt == b && s.parts[k].generation == s.attempts[b].generation && LostPart(s, k, timeout);
      assert k in s'.parts && LostPart(s', k, timeout);
    }
    if Unhealthy(s', b, timeout) {
      var k :| k in s'.parts && k.attempt == b && s'.parts[k].generation == s'.attempts[b].generation && LostPart(s', k, timeout);
      assert k in s.parts && LostPart(s, k, timeout);
    }
  }

  /** Reconciling a list of unhealthy attempts meets each of them still current, so no row of
      the loop is skipped or rolled back, and exactly their tasks are requeued. */
  lemma {:induction false} ReconcileAllEffects(s: State, timeout: real, order: seq<string>)
    requires Inv(s) && Distinct(order) && forall a :: a in order ==> Current(s, a)
    ensures var s' := ReconcileAll(s, order);
      && Inv(s') && s'.now == s.now
      && (forall a :: a in order ==> !Current(s', a))
      && (forall b :: b !in order ==> (Current(s', b) <==> Current(s, b)) && (Unhealthy(s', b, timeout) <==> Unhealthy(s, b, timeout)))
      && s'.tasks == map t | t in s.tasks ::
           if s.tasks[t].attempt.Some? && s.tasks[t].attempt.value in order then s.tasks[t].(status := Queued) else s.tasks[t]
  {
    ReconcileAllKeepsInv(s, order);
    if order == [] {
      assert s.tasks == map t | t in s.tasks :: s.tasks[t];
    } else {
      var front, a := order[..|order| - 1], order[|order| - 1];
      assert order == front + [a];
      ReconcileAllEffects(s, timeout, front);
      var m := ReconcileAll(s, front);
      assert Current(m, a);
      ReconcileOneApart(m, a);
      var s' := ReconcileAll(s, order);
      forall b | b != a ensures (Current(s', b) <==> Current(m, b)) && (Unhealthy(s', b, timeout) <==> Unhealthy(m, b, timeout)) {
        FencingIsLocal(m, s', a, b, timeout);
      }
      ReconcileAllQuiet(s, front);
      assert AttemptEv(s, m, a);
      TasksAfterFence(s, m, s', front, a);
    }
  }

  lemma TasksAfterFence(s: State, m: State, s': State, front: seq<string>, a: string)
    requires Inv(s) && Current(s, a) && FencedApart(m, s', a) && a !in front && m.attempts.Keys >= {a}
    requires m.attempts[a].task == s.attempts[a].task
    requires m.tasks == map t | t in s.tasks ::
               if s.tasks[t].attempt.Some? && s.tasks[t].attempt.value in front then s.tasks[t].(status := Queued) else s.tasks[t]
    ensures s'.tasks == map t | t in s.tasks ::
              if s.tasks[t].attempt.Some? && s.tasks[t].attempt.value in front + [a] then s.tasks[t].(status := Queued) else s.tasks[t]
  {
    forall t | t in s.tasks && s.tasks[t].attempt == Some(a) ensures t == s.attempts[a].task { assert TaskOk(s.tasks, s.attempts, t); }
  }

  /** The tasks whose lease was taken away between two states. */
  function RequeuedBetween(s: State, s': State): set<string> {
    set t | t in s.tasks && t in s'.tasks && s.tasks[t].status.Leased? && s'.tasks[t].status.Queued?
  }

  /** From any reachable state, expiry recovery followed, after some time, by reconciliation:
      every lease left was unexpired, and is untouched, as of the first clock reading; every
      participant of a running attempt is live as of the second, and it and its worker were heard of
      less than the timeout before; and a lease that is not unexpired any more lapsed between the
      two. */
  lemma RecoverySettles(s: State, lapsed: seq<string>, between: real, timeout: real, lost: seq<string>)
    requires Inv(s) && EnumeratesLapsed(s, lapsed) && between >= 0.0
    requires EnumeratesLost(Advance(ExpireAll(s, lapsed), between), timeout, lost)
    ensures var s' := ReconcileAll(Advance(ExpireAll(s, lapsed), between), lost);
      && Inv(s') && s'.now == s.now + between && s'.tasks.Keys == s.tasks.Keys
      && (forall t :: t in s'.tasks && s'.tasks[t].status.Leased? ==> s.now < s'.tasks[t].status.until && s'.tasks[t] == s.tasks[t])
      && AllHeard(s', timeout) && (forall a :: a in lost <==> Silent(Advance(ExpireAll(s, lapsed), between), a, timeout))
      && (forall t :: t in s'.tasks && s'.tasks[t].status.Leased? ==>
            s'.now < s'.tasks[t].status.until || s.now < s'.tasks[t].status.until <= s.now + between)
  {
    var m := Advance(ExpireAll(s, lapsed), between);
    ExpirySettles(s, lapsed);
    assert Inv(m);
    forall a | a in lost ensures Current(m, a) { assert Unhealthy(m, a, timeout); }
    ReconcileAllEffects(m, timeout, lost);
    ReconciliationSettles(m, timeout, lost);
    var s' := ReconcileAll(m, lost);
    forall t | t in s'.tasks && s'.tasks[t].status.Leased? ensures s.now < s'.tasks[t].status.until && s'.tasks[t] == s.tasks[t] {
      assert s'.tasks[t] == m.tasks[t];
      assert t in ExpireAll(s, lapsed).tasks;
    }
  }

  /** The two counts the passes return add up to the number of tasks requeued, and no task
      without a lease is touched. */
  lemma RecoveryCounts(s: State, lapsed: seq<string>, between: real, timeout: real, lost: seq<string>)
    requires Inv(s) && EnumeratesLapsed(s, lapsed) && EnumeratesLost(Advance(ExpireAll(s, lapsed), between), timeout, lost)
    ensures var s' := ReconcileAll(Advance(ExpireAll(s, lapsed), between), lost);
      && |RequeuedBetween(s, s')| == |lapsed| + |lost|
      && forall t :: t in s.tasks && !s.tasks[t].status.Leased? ==> t in s'.tasks && s'.tasks[t] == s.tasks[t]
  {
    var m := Advance(ExpireAll(s, lapsed), between);
    ExpirySettles(s, lapsed);
    assert Inv(m);
    forall a | a in lost ensures Current(m, a) { assert Unhealthy(m, a, timeout); }
    ReconcileAllEffects(m, timeout, lost);
    var s' := ReconcileAll(m, lost);
    CountRequeued(s, m, s', lapsed, lost);
    forall t | t in s.tasks && !s.tasks[t].status.Leased? ensures t in s'.tasks && s'.tasks[t] == s.tasks[t] {
      assert !Lapsed(s, t);
      assert TaskOk(m.tasks, m.attempts, t);
      assert m.tasks[t].attempt.Some? ==> !Current(m, m.tasks[t].attempt.value);
    }
  }

  lemma CountRequeued(s: State, m: State, s': State, lapsed: seq<string>, lost: seq<string>)
    requires Inv(m) && Distinct(lapsed) && Distinct(lost) && forall a :: a in lost ==> Current(m, a)
    requires m.tasks.Keys == s.tasks.Keys && forall t :: t in lapsed ==> Lapsed(s, t)
    requires forall t :: t in s.tasks ==> m.tasks[t] == (if t in lapsed then s.tasks[t].(status := Queued) else s.tasks[t])
    requires s'.tasks == map t | t in m.tasks ::
               if m.tasks[t].attempt.Some? && m.tasks[t].attempt.value in lost then m.tasks[t].(status := Queued) else m.tasks[t]
    ensures |RequeuedBetween(s, s')| == |lapsed| + |lost|
  {
    var lostTasks := LostTasks(m, lost);
    LostTasksDistinct(m, lost);
    var requeued := RequeuedBetween(s, s');
    forall t ensures t in requeued <==> t in lapsed + lostTasks {
      if t in lapsed { assert Lapsed(s, t); }
      if t in m.tasks {
        assert TaskOk(m.tasks, m.attempts, t);
        assert t in lostTasks <==> m.tasks[t].attempt.Some? && m.tasks[t].attempt.value in lost;
      }
    }
    forall t | t in lapsed ensures t !in lostTasks {
      assert Lapsed(s, t) && !m.tasks[t].status.Leased?;
    }
    DistinctCount(lapsed + lostTasks, requeued);
  }

  function LostTasks(m: State, lost: seq<string>): (r: seq<string>)
    requires forall i :: 0 <= i < |lost| ==> Current(m, lost[i])
  {
    seq(|lost|, i requires 0 <= i < |lost| && Current(m, lost[i]) => m.attempts[lost[i]].task)
  }

  /** Different running attempts belong to different leased tasks. */
  lemma LostTasksDistinct(m: State, lost: seq<string>)
    requires Inv(m) && Distinct(lost) && forall i :: 0 <= i < |lost| ==> Current(m, lost[i])
    ensures Distinct(LostTasks(m, lost))
    ensures forall t :: t in LostTasks(m, lost) <==>
      t in m.tasks && m.tasks[t].status.Leased? && m.tasks[t].attempt.Some? && m.tasks[t].attempt.value in lost
  {
    var ts := LostTasks(m, lost);
    forall i, j | 0 <= i < j < |lost| ensures ts[i] != ts[j] { assert Current(m, lost[i]) && Current(m, lost[j]); }
    forall t ensures t in ts <==> t in m.tasks && m.tasks[t].status.Leased? && m.tasks[t].attempt.Some? && m.tasks[t].attempt.value in lost {
      if t in ts {
        var i :| 0 <= i < |ts| && ts[i] == t;
        assert Current(m, lost[i]);
      }
      if t in m.tasks && m.tasks[t].attempt.Some? && m.tasks[t].attempt.value in lost {
        var i :| 0 <= i < |lost| && lost[i] == m.tasks[t].attempt.value;
        assert TaskOk(m.tasks, m.attempts, t) && ts[i] == t;
      }
    }
  }

  // --------------------------------------------------------------- controller cycle

  /** A task scheduled by a controller cycle: leased on this attempt until a full lease after
      the time it was claimed. */
  datatype Assignment = Assignment(task: string, attempt: string, claimedAt: real)

  ghost predicate StillScheduled(s: State, x: Assignment) {
    x.task in s.tasks && x.attempt in s.attempts && s.attempts[x.attempt].task == x.task
    && s.tasks[x.task].attempt == Some(x.attempt) && s.tasks[x.task].status.Leased?
    && s.tasks[x.task].status.until == x.claimedAt + s.leaseSeconds
  }

  ghost predicate ScheduleOk(s: State, xs: seq<Assignment>) {
    (forall i :: 0 <= i < |xs| ==> StillScheduled(s, xs[i]))
    && forall i, j :: 0 <= i < j < |xs| ==> xs[i].task != xs[j].task && xs[i].attempt != xs[j].attempt
  }

  /** One more physical claim within the lease of the earlier ones keeps all of them, and the
      task it grants is none of them. */
  lemma ClaimKeepsSchedule(s: State, s': State, out: ClaimOutcome, lottery: Lottery, order: int, xs: seq<Assignment>)
    requires (s', out) == ClaimPhysical(s, lottery, order)
    requires Inv(s) && Legal(s, DoClaimPhysical(lottery, order)) && ScheduleOk(s, xs)
    requires forall i :: 0 <= i < |xs| ==> s.now < xs[i].claimedAt + s.leaseSeconds
    ensures ScheduleOk(s', if out.Granted? then xs + [Assignment(out.task, lottery.attempt, s.now)] else xs)
  {
    var s1 := ExpireAll(s, lottery.order);
    ExpirySettles(s, lottery.order);
    ExpireAllQuiet(s, lottery.order);
    ExpireAllFrame(s, lottery.order);
    forall i | 0 <= i < |xs| ensures StillScheduled(s1, xs[i]) {
      assert xs[i].task !in lottery.order;
      assert AttemptEv(s, s1, xs[i].attempt);
    }
    if lottery.pick.Chosen? {
      PhysicalClaimFrame(s, lottery, order);
      FrameKeepsSchedule(s1, s', lottery.pick.task, lottery.attempt, out.Granted?, xs);
    }
  }

  /** A claim of task t under attempt a leaves every other lease alone; granted, it leaves t
      leased on a for a full lease from s1's time. */
  ghost predicate ClaimFrame(s1: State, s': State, t: string, a: string, granted: bool) {
    && s'.leaseSeconds == s1.leaseSeconds
    && (forall u :: u in s1.tasks && u != t ==> u in s'.tasks && s'.tasks[u] == s1.tasks[u])
    && (forall b :: b in s1.attempts ==> b in s'.attempts && s'.attempts[b].task == s1.attempts[b].task)
    && (granted ==> StillScheduled(s', Assignment(t, a, s1.now)))
  }

  lemma FrameKeepsSchedule(s1: State, s': State, t: string, a: string, granted: bool, xs: seq<Assignment>)
    requires ScheduleOk(s1, xs) && Waiting(s1.tasks, t) && a !in s1.attempts && ClaimFrame(s1, s', t, a, granted)
    ensures ScheduleOk(s', if granted then xs + [Assignment(t, a, s1.now)] else xs)
  {
    forall i | 0 <= i < |xs| ensures StillScheduled(s', xs[i]) && xs[i].task != t && xs[i].attempt != a {
      assert StillScheduled(s1, xs[i]);
    }
  }

  lemma PhysicalClaimFrame(s: State, lottery: Lottery, order: int)
    requires var s1 := ExpireAll(s, lottery.order);
      lottery.pick.Chosen? && Waiting(s1.tasks, lottery.pick.task) && lottery.attempt !in s1.attempts
    ensures var (s', out) := ClaimPhysical(s, lottery, order);
      && (out.Granted? ==> out.task == lottery.pick.task)
      && ClaimFrame(ExpireAll(s, lottery.order), s', lottery.pick.task, lottery.attempt, out.Granted?)
  {
    var s1, t, a := ExpireAll(s, lottery.order), lottery.pick.task, lottery.attempt;
    var s2 := Advance(LeaseTask(s1, t, Identity(a), a, lottery.token), lottery.elapsed);
    var rebind := PendingRebind(s2.events, t);
    BindTasks(s2, Identity(a), t, a, lottery.token, lottery.plan, rebind);
    var (s3, ok) := BindExecution(s2, Identity(a), t, a, lottery.token, lottery.plan, rebind);
    if ok { BindGrants(s2, Identity(a), t, a, lottery.token, lottery.plan, rebind); }
    assert ClaimFrame(s1, s3, t, a, ok);
    var (s', out) := ClaimPhysical(s, lottery, order);
    assert s' == s3.(events := s'.events) && out == if ok then Granted(t) else Refused;
  }

  /** A binding, failed or not, touches no task but its own and keeps attempt identities. */
  lemma BindTasks(s: State, who: string, t: string, a: string, token: string, plan: Plan, rebind: Option<Rebind>)
    requires a in s.attempts
    ensures OnlyTask(s, BindExecution(s, who, t, a, token, plan, rebind).0, t)
  {
    var id, g := AllocationId(t, a), s.attempts[a].generation;
    if plan.Raises? {
      ReleaseTasks(s, who, t, token);
    } else {
      var s1 := s.(allocs := s.allocs[id := Reserved],
                   attempts := s.attempts[a := s.attempts[a].(placement := plan.placement)]);
      assert OnlyTask(s, s1, t);
      if rebind.Some? && !(plan.placement.Some? && Validates(rebind.value, plan.placement.value)) {
        ReleaseTasks(s1, who, t, token);
      } else {
        BindTailTasks(s1, who, t, a, token, plan);
      }
    }
  }

  ghost predicate OnlyTask(s: State, s': State, t: string) {
    && s'.tasks.Keys == s.tasks.Keys && (forall u :: u in s.tasks && u != t ==> s'.tasks[u] == s.tasks[u])
    && s'.attempts.Keys == s.attempts.Keys
    && (forall b :: b in s.attempts ==> s'.attempts[b].task == s.attempts[b].task && s'.attempts[b].digest == s.attempts[b].digest)
    && s'.leaseSeconds == s.leaseSeconds
  }

  lemma BindTailTasks(s1: State, who: string, t: string, a: string, token: string, plan: Plan)
    requires a in s1.attempts && plan.Placed?
    ensures var id, g := AllocationId(t, a), s1.attempts[a].generation;
      var s2 := s1.(allocs := s1.allocs[id := Bound(t, a, g)]);
      var s3 := s2.(attempts := s2.attempts[a := s2.attempts[a].(allocation := Some(id))]);
      && OnlyTask(s1, Release(s2.(allocs := FreeAllocation(s2.allocs, Some(id), t, a, g)), who, t, token).0, t)
      && OnlyTask(s1, FailBinding(s3, who, t, a, token), t)
      && OnlyTask(s1, s3.(parts := InsertParts(s3, t, a, g, plan.nodes, |plan.nodes|)), t)
  {
    var id, g := AllocationId(t, a), s1.attempts[a].generation;
    var s2 := s1.(allocs := s1.allocs[id := Bound(t, a, g)]);
    ReleaseTasks(s2.(allocs := FreeAllocation(s2.allocs, Some(id), t, a, g)), who, t, token);
    var s3 := s2.(attempts := s2.attempts[a := s2.attempts[a].(allocation := Some(id))]);
    ReleaseTasks(FreeAttempt(s3, a), who, t, token);
  }

  lemma ReleaseTasks(s: State, w: string, t: string, token: string)
    ensures OnlyTask(s, Release(s, w, t, token).0, t)
  {
    var s1 := Requeue(s, t);
    assert OnlyTask(s, s1, t);
    if ValidLease(s, w, t, token) && s.tasks[t].attempt.Some? && s.tasks[t].attempt.value in s.attempts {
      var a := s.tasks[t].attempt.value;
      var s2 := s1.(attempts := s1.attempts[a := s.attempts[a].(status := Released)], parts := SetParts(s1.parts, a, PReleased));
      assert OnlyTask(s, s2, t);
      var r := Release(s, w, t, token).0;
      assert r == s2.(allocs := r.allocs, workers := r.workers);
    }
  }
}
