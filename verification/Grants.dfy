/** Exactly when a claim is granted, and what a claim whose binding fails leaves, in terms of the
    tables before the call. */
module Grants {
  import opened Base
  import opened Failover
  import opened LeaseState
  import opened LeaseInvariant
  import opened FailoverRuns
  import opened Queries
  import opened Recovery
  import opened Settled
  import opened Outcomes

  /** Task t waits, or will once the claim has recovered its lapsed lease. */
  ghost predicate Waits(s: State, t: string) {
    t in s.tasks && (s.tasks[t].status.Queued? || (s.tasks[t].status.Leased? && s.tasks[t].status.until <= s.now))
  }

  /** The lapsed leases of a worker. */
  ghost function LapsedOf(s: State, w: string): set<string> {
    set t | t in s.tasks && s.tasks[t].status.Leased? && s.tasks[t].status.worker == w && s.tasks[t].status.until <= s.now
  }

  /** Worker w is ready, was heard of within a lease, and its one slot is free once its lapsed
      leases are recovered; a physical identity gets none back. */
  ghost predicate HasRoom(s: State, w: string) {
    w in s.workers && s.workers[w].status.Ready? && s.now <= s.workers[w].heartbeat + s.leaseSeconds
    && s.workers[w].load <= if "fabric:" <= w then 0 else |LapsedOf(s, w)|
  }

  /** Everything waiting before t asks, in good form, for a capability that is missing from caps. */
  ghost predicate OthersUnsuited(s: State, t: string, caps: set<string>)
    requires t in s.tasks
  {
    forall u :: Waits(s, u) && CreatedBefore(s.tasks, u, t) ==> s.tasks[u].payload.caps.Required? && !(s.tasks[u].payload.caps.names <= caps)
  }

  /** Task t is the first waiting one that stops the scan for w, because w suits it. */
  ghost predicate FirstSuited(s: State, w: string, t: string)
    requires w in s.workers
  {
    Waits(s, t) && s.tasks[t].payload.caps.Required? && s.tasks[t].payload.caps.names <= s.workers[w].caps
    && OthersUnsuited(s, t, s.workers[w].caps)
  }

  /** The scheduler placed the task on distinct ready nodes and described them in full.  A worker's
      claim first marks the nodes stale that were silent for a lease. */
  ghost predicate PlacedOnReady(s: State, plan: Plan, reaps: bool) {
    plan.Placed? && plan.metadata && plan.resources && plan.nodes != []
    && (forall i, j :: 0 <= i < j < |plan.nodes| ==> plan.nodes[i] != plan.nodes[j])
    && forall i :: 0 <= i < |plan.nodes| ==> 
         && plan.nodes[i] in s.workers && s.workers[plan.nodes[i]].status.Ready?
         && (reaps ==> s.now <= s.workers[plan.nodes[i]].heartbeat + s.leaseSeconds)
  }

  /** The payload can be handed to worker w: its leads, if any, are objects, and physical
      resources, if it asks for them, are asked of w alone and were placed. */
  ghost predicate CanHand(s: State, w: string, p: Payload, plan: Plan) {
    && (p.work.LeadPrepare? ==> forall i :: 0 <= i < |p.work.leads| ==> p.work.leads[i].Lead?)
    && match p.compute
       case Unparsable => false
       case Requirements(nodes) => (nodes.Some? ==> nodes.value != [] && forall x :: x in nodes.value ==> x == w) && PlacedOnReady(s, plan, true)
       case _ => true
  }

  // -------------------------------------------------------------- what a scan sees

  ghost function HeldIn(s: State, order: seq<string>, w: string): set<string> {
    set t | t in order && t in s.tasks && s.tasks[t].status.Leased? && s.tasks[t].status.worker == w
  }

  /** Every worker's counter falls by one for each of its lapsed leases, and stops at zero. */
  lemma {:induction false} ExpiryFreesSlots(s: State, order: seq<string>, w: string)
    requires Inv(s) && Distinct(order) && w in s.workers && forall t :: t in order ==> Lapsed(s, t)
    ensures var mine := HeldIn(s, order, w);
      w in ExpireAll(s, order).workers && ExpireAll(s, order).workers[w] ==
        s.workers[w].(load := if "fabric:" <= w then s.workers[w].load
                              else if s.workers[w].load <= |mine| then 0 else s.workers[w].load - |mine|)
  {
    var mine := HeldIn(s, order, w);
    if order == [] {
      assert mine == {};
    } else {
      var front, t := order[..|order| - 1], order[|order| - 1];
      assert order == front + [t];
      assert t in order && Lapsed(s, t);
      ExpiryFreesSlots(s, front, w);
      ExpireAllTasks(s, front);
      ExpireAllKeepsInv(s, front);
      var m := ExpireAll(s, front);
      assert m.tasks[t] == s.tasks[t] && Lapsed(m, t);
      var before := HeldIn(s, front, w);
      assert mine == if s.tasks[t].status.worker == w then before + {t} else before;
      assert t !in before;
      ExpireOneFrees(m, t, w);
    }
  }

  lemma ExpireOneFrees(s: State, t: string, w: string)
    requires Inv(s) && Lapsed(s, t) && w in s.workers
    ensures var s' := ExpireOne(s, t);
      w in s'.workers && s'.workers[w] ==
        if s.tasks[t].status.worker != w || "fabric:" <= w || s.workers[w].load == 0 then s.workers[w]
        else s.workers[w].(load := s.workers[w].load - 1)
  {
    assert TaskOk(s.tasks, s.attempts, t);
    var a := s.tasks[t].attempt.value;
    assert ExpireOne(s, t) == FenceResources(ExpireAttempt(Requeue(s, t), a), a);
  }

  /** The scan of a claim sees the waiting tasks, and the worker's slot free exactly when it has
      room. */
  lemma ScanSees(s: State, w: string, lottery: Lottery)
    requires Inv(s) && EnumeratesLapsed(ReapStale(s), lottery.order)
    ensures var s1 := ClaimScan(s, w, lottery);
      && s1.now == s.now && s1.leaseSeconds == s.leaseSeconds && Inv(s1) && s1.attempts.Keys == s.attempts.Keys
      && SameQueue(s, s1) && (SlotFree(s1.workers, w) <==> HasRoom(s, w))
      && SamePool(ReapStale(s), s1)
  {
    var r := ReapStale(s);
    assert Inv(r);
    ExpirySettles(r, lottery.order);
    ExpireAllFrame(r, lottery.order);
    if w in s.workers {
      ExpiryFreesSlots(r, lottery.order, w);
      assert LapsedOf(s, w) == HeldIn(r, lottery.order, w);
    }
  }

  /** The queue of s1 holds the tasks that wait in s. */
  ghost predicate SameQueue(s: State, s1: State) {
    s1.tasks.Keys == s.tasks.Keys
    && forall t :: t in s.tasks ==> s1.tasks[t] == if Waits(s, t) then s.tasks[t].(status := Queued) else s.tasks[t]
  }

  ghost predicate SamePool(s: State, s1: State) {
    s1.workers.Keys == s.workers.Keys && forall w :: w in s.workers ==> s1.workers[w].(load := 0) == s.workers[w].(load := 0)
  }

  lemma QueueOrder(s: State, s1: State, u: string, t: string)
    requires SameQueue(s, s1) && u in s.tasks && t in s.tasks
    ensures Before(s1.tasks, u, t) <==> CreatedBefore(s.tasks, u, t)
    ensures Waiting(s1.tasks, u) <==> Waits(s, u)
    ensures s1.tasks[u].payload == s.tasks[u].payload
  {}

  /** No two tasks are both the first suited one. */
  lemma PickedExactlyWhen(s: State, s1: State, w: string, pick: Pick, t: string)
    requires SameQueue(s, s1) && w in s.workers && PickIs(s1.tasks, s.workers[w].caps, pick)
    ensures pick == Chosen(t) <==> FirstSuited(s, w, t)
  {
    forall u, v | u in s.tasks && v in s.tasks
      ensures (Before(s1.tasks, u, v) <==> CreatedBefore(s.tasks, u, v)) && (Waiting(s1.tasks, u) <==> Waits(s, u))
    {
      QueueOrder(s, s1, u, v);
    }
    if FirstSuited(s, w, t) && !pick.NoTask? {
      var u := if pick.Chosen? then pick.task else pick.bad;
      BeforeIsStrict(s1.tasks, t, u, t);
    }
  }

  // ------------------------------------------------------------------- the binding

  /** The placement's route set for the failed GPU pair has the selected standby as its active
      path and lists it as verified. */
  ghost predicate Activates(p: Placement, r: Rebind) {
    r.source != "" && r.destination != ""
    && exists i :: 0 <= i < |p.routes| && Joins(p.routes[i], r.source, r.destination)
         && (forall j :: 0 <= j < i ==> !Joins(p.routes[j], r.source, r.destination))
         && r.toPath == Some(p.routes[i].active) && p.routes[i].active != "" && p.routes[i].active in p.routes[i].verified
  }

  lemma ValidatesExactlyWhen(r: Rebind, p: Placement)
    ensures Validates(r, p) <==> Activates(p, r)
  {
    FoundRoute(p.routes, r.source, r.destination);
  }

  /** A binding succeeds exactly when the placement is complete, on ready nodes, and carries out
      the pending rebind. */
  lemma BindsExactlyWhen(s: State, who: string, t: string, a: string, token: string, plan: Plan, rebind: Option<Rebind>)
    requires a in s.attempts
    ensures BindExecution(s, who, t, a, token, plan, rebind).1
            <==> PlacedOnReady(s, plan, false) && (rebind.Some? ==> plan.placement.Some? && Activates(plan.placement.value, rebind.value))
  {
    if plan.Placed? && rebind.Some? && plan.placement.Some? { ValidatesExactlyWhen(rebind.value, plan.placement.value); }
  }

  /** A binding that fails while its lease lasts hands the task back and releases its attempt; one
      that fails after the lease lapsed leaves both as they are. */
  lemma FailedBindingReturns(s: State, who: string, t: string, a: string, token: string, plan: Plan, rebind: Option<Rebind>)
    requires a in s.attempts && t in s.tasks && s.tasks[t].attempt == Some(a)
    requires s.tasks[t].status.Leased? && s.tasks[t].status.worker == who && s.tasks[t].status.token == token && token != ""
    requires !BindExecution(s, who, t, a, token, plan, rebind).1
    ensures var s', lasts := BindExecution(s, who, t, a, token, plan, rebind).0, s.now < s.tasks[t].status.until;
      HandedBack(s, s', t, a, who, lasts)
  {
    var m := FailedBindingEnds(s, who, t, a, token, plan, rebind);
    ReleaseHandsBack(m, who, t, a, token);
  }

  /** Task t waits again and its attempt is released, or nothing happened to either. */
  ghost predicate HandedBack(s: State, s': State, t: string, a: string, who: string, lasts: bool)
    requires t in s.tasks && a in s.attempts
  {
    && s'.tasks == (if lasts then s.tasks[t := s.tasks[t].(status := Queued)] else s.tasks)
    && a in s'.attempts && s'.attempts[a].status == (if lasts then Released else s.attempts[a].status)
    && (forall b :: b in s.attempts && b != a ==> b in s'.attempts && s'.attempts[b] == s.attempts[b])
    && (if lasts then SlotGivenBack(s.workers, s'.workers, who) else s'.workers == s.workers)
  }

  lemma ReleaseHandsBack(s: State, who: string, t: string, a: string, token: string)
    requires a in s.attempts && t in s.tasks && s.tasks[t].attempt == Some(a)
    requires s.tasks[t].status.Leased? && s.tasks[t].status.worker == who && s.tasks[t].status.token == token && token != ""
    ensures HandedBack(s, Release(s, who, t, token).0, t, a, who, s.now < s.tasks[t].status.until)
  {}

  /** Every failing binding ends with a release, after notes on its own attempt and allocation. */
  lemma FailedBindingEnds(s: State, who: string, t: string, a: string, token: string, plan: Plan, rebind: Option<Rebind>)
    returns (m: State)
    requires a in s.attempts && !BindExecution(s, who, t, a, token, plan, rebind).1
    ensures BindExecution(s, who, t, a, token, plan, rebind).0 == Release(m, who, t, token).0
    ensures m == s.(attempts := m.attempts, allocs := m.allocs) && a in m.attempts
    ensures m.attempts == s.attempts[a := m.attempts[a]] && m.attempts[a].status == s.attempts[a].status
  {
    var id, g := AllocationId(t, a), s.attempts[a].generation;
    m := s;
    if plan.Placed? {
      m := s.(allocs := s.allocs[id := Reserved], attempts := s.attempts[a := s.attempts[a].(placement := plan.placement)]);
      if !(rebind.Some? && !(plan.placement.Some? && Validates(rebind.value, plan.placement.value))) {
        m := m.(allocs := m.allocs[id := Bound(t, a, g)]);
        if !plan.metadata {
          m := m.(allocs := FreeAllocation(m.allocs, Some(id), t, a, g));
        } else {
          m := FreeAttempt(m.(attempts := m.attempts[a := m.attempts[a].(allocation := Some(id))]), a);
        }
      }
    }
  }

  // -------------------------------------------------------------- worker claims

  /** Task b is the first waiting one that stops the scan for w, because its required capabilities
      are malformed. */
  ghost predicate FirstMalformed(s: State, w: string, b: string)
    requires w in s.workers
  {
    Waits(s, b) && s.tasks[b].payload.caps.Malformed? && OthersUnsuited(s, b, s.workers[w].caps)
  }

  lemma PoisonedExactlyWhen(s: State, s1: State, w: string, pick: Pick, b: string)
    requires SameQueue(s, s1) && w in s.workers && PickIs(s1.tasks, s.workers[w].caps, pick)
    ensures pick == Poisoned(b) <==> FirstMalformed(s, w, b)
  {
    forall u, v | u in s.tasks && v in s.tasks
      ensures (Before(s1.tasks, u, v) <==> CreatedBefore(s.tasks, u, v)) && (Waiting(s1.tasks, u) <==> Waits(s, u))
    {
      QueueOrder(s, s1, u, v);
    }
    if FirstMalformed(s, w, b) && !pick.NoTask? {
      var u := if pick.Chosen? then pick.task else pick.bad;
      BeforeIsStrict(s1.tasks, b, u, b);
    }
  }

  /** What a claim does with the task its scan chose. */
  lemma ChosenOutcome(s: State, w: string, lottery: Lottery)
    requires lottery.pick.Chosen? && lottery.pick.task in s.tasks && lottery.pick.task in ClaimScan(s, w, lottery).tasks
    requires SamePool(ReapStale(s), ClaimScan(s, w, lottery)) && SlotFree(ClaimScan(s, w, lottery).workers, w)
    requires ClaimScan(s, w, lottery).tasks[lottery.pick.task].payload == s.tasks[lottery.pick.task].payload
    ensures var p := s.tasks[lottery.pick.task].payload;
      Claim(s, w, lottery).1 == if BadLeads(p) then Raised else if CanHand(s, w, p, lottery.plan) then Granted(lottery.pick.task) else Refused
  {
    var s1, t := ClaimScan(s, w, lottery), lottery.pick.task;
    WorkerBinds(s1, w, lottery, t);
    ReapedNodes(s, s1, lottery.plan);
  }

  /** When the binding of the chosen task succeeds. */
  lemma WorkerBinds(s1: State, w: string, lottery: Lottery, t: string)
    requires t in s1.tasks
    ensures var p := s1.tasks[t].payload;
      var s2 := Advance(LeaseTask(s1.(workers := TakeSlot(s1.workers, w)), t, w, lottery.attempt, lottery.token), lottery.elapsed);
      var plan := if PinnedTo(p.compute, w) && lottery.plan.Placed? then lottery.plan.(placement := None) else Raises;
      BindExecution(s2, w, t, lottery.attempt, lottery.token, plan, None).1 <==> PinnedTo(p.compute, w) && PlacedOnReady(s1, lottery.plan, false)
  {
    var p := s1.tasks[t].payload;
    var s2 := Advance(LeaseTask(s1.(workers := TakeSlot(s1.workers, w)), t, w, lottery.attempt, lottery.token), lottery.elapsed);
    var plan := if PinnedTo(p.compute, w) && lottery.plan.Placed? then lottery.plan.(placement := None) else Raises;
    BindsExactlyWhen(s2, w, t, lottery.attempt, lottery.token, plan, None);
    SameReady(s1, s2, lottery.plan);
  }

  lemma ReapedNodes(s: State, s1: State, plan: Plan)
    requires SamePool(ReapStale(s), s1)
    ensures PlacedOnReady(s1, plan, false) <==> PlacedOnReady(s, plan, true)
  {
    forall w ensures w in s1.workers && s1.workers[w].status.Ready?
                     <==> w in s.workers && s.workers[w].status.Ready? && s.now <= s.workers[w].heartbeat + s.leaseSeconds
    {
      if w in s.workers { assert s1.workers[w].(load := 0).status == s1.workers[w].status; }
    }
  }

  /** A claim is granted task t exactly when the worker has room, t is the first task the scan
      stops at and suits it, and t can be handed to it; and it raises exactly when the worker has
      room and the scan stops at a malformed row or at a task whose leads are not all objects. */
  lemma ClaimGrantsExactlyWhen(s: State, w: string, lottery: Lottery, t: string)
    requires Inv(s) && Legal(s, DoClaim(w, lottery))
    ensures Claim(s, w, lottery).1 == Granted(t)
            <==> HasRoom(s, w) && FirstSuited(s, w, t) && CanHand(s, w, s.tasks[t].payload, lottery.plan)
    ensures Claim(s, w, lottery).1 == Raised
            <==> HasRoom(s, w) && ((exists b :: FirstMalformed(s, w, b)) || exists u :: FirstSuited(s, w, u) && BadLeads(s.tasks[u].payload))
  {
    var s1 := ClaimScan(s, w, lottery);
    ScanSees(s, w, lottery);
    if HasRoom(s, w) {
      forall u ensures (lottery.pick == Chosen(u) <==> FirstSuited(s, w, u)) && (lottery.pick == Poisoned(u) <==> FirstMalformed(s, w, u)) {
        PickedExactlyWhen(s, s1, w, lottery.pick, u);
        PoisonedExactlyWhen(s, s1, w, lottery.pick, u);
      }
      if lottery.pick.Chosen? { ChosenOutcome(s, w, lottery); }
    }
  }

  /** Lead preparation with an entry that is not an object. */
  ghost predicate BadLeads(p: Payload) {
    p.work.LeadPrepare? && exists i :: 0 <= i < |p.work.leads| && p.work.leads[i].NotAnObject?
  }

  /** After a claim leased t and could not bind what it asks for: while the lease lasts, the task
      waits again and the attempt is released; otherwise the lapsed lease is still in the tables. */
  ghost predicate ClaimUndone(s: State, s': State, t: string, who: string, lottery: Lottery)
    requires t in s.tasks
  {
    && t in s'.tasks && lottery.attempt in s'.attempts
    && s'.tasks[t].generation == s.tasks[t].generation + 1 && s'.tasks[t].attempt == Some(lottery.attempt)
    && (if lottery.elapsed < s.leaseSeconds
        then s'.tasks[t].status == Queued && s'.attempts[lottery.attempt].status == Released
        else s'.tasks[t].status == Leased(who, lottery.token, s.now + s.leaseSeconds) && s'.attempts[lottery.attempt].status == Running)
  }

  lemma LeaseUndone(s: State, s1: State, t: string, who: string, lottery: Lottery, plan: Plan, rebind: Option<Rebind>)
    requires t in s.tasks && t in s1.tasks && s1.tasks[t].generation == s.tasks[t].generation && lottery.token != ""
    requires s1.now == s.now && s1.leaseSeconds == s.leaseSeconds
    requires var m := Advance(LeaseTask(s1, t, who, lottery.attempt, lottery.token), lottery.elapsed);
      !BindExecution(m, who, t, lottery.attempt, lottery.token, plan, rebind).1
    ensures var m := Advance(LeaseTask(s1, t, who, lottery.attempt, lottery.token), lottery.elapsed);
      ClaimUndone(s, BindExecution(m, who, t, lottery.attempt, lottery.token, plan, rebind).0, t, who, lottery)
  {
    var m := Advance(LeaseTask(s1, t, who, lottery.attempt, lottery.token), lottery.elapsed);
    FailedBindingReturns(m, who, t, lottery.attempt, lottery.token, plan, rebind);
  }

  /** A claim that is refused although its scan chose a task is undone. */
  lemma RefusedClaimReturns(s: State, w: string, lottery: Lottery, t: string)
    requires Inv(s) && Legal(s, DoClaim(w, lottery)) && HasRoom(s, w) && FirstSuited(s, w, t)
    requires Claim(s, w, lottery).1 == Refused
    ensures ClaimUndone(s, Claim(s, w, lottery).0, t, w, lottery)
  {
    var s1 := ClaimScan(s, w, lottery);
    ScanSees(s, w, lottery);
    PickedExactlyWhen(s, s1, w, lottery.pick, t);
    var p := s1.tasks[t].payload;
    var plan := if PinnedTo(p.compute, w) && lottery.plan.Placed? then lottery.plan.(placement := None) else Raises;
    LeaseUndone(s, s1.(workers := TakeSlot(s1.workers, w)), t, w, lottery, plan, None);
  }

  // ------------------------------------------------------------- physical claims

  /** The waiting tasks before t whose payload mentions compute requirements. */
  ghost function MentioningBefore(s: State, t: string): set<string>
    requires t in s.tasks
  {
    set u | u in s.tasks && Waits(s, u) && !s.tasks[u].payload.compute.Absent? && CreatedBefore(s.tasks, u, t)
  }

  /** Task t is the first waiting one with readable requirements, within a window of a hundred
      that mention any. */
  ghost predicate FirstPhysical(s: State, t: string) {
    Waits(s, t) && s.tasks[t].payload.compute.Requirements? && |MentioningBefore(s, t)| < 100
    && forall u :: Waits(s, u) && CreatedBefore(s.tasks, u, t) ==> !s.tasks[u].payload.compute.Requirements?
  }

  lemma SameMentions(s: State, s1: State, t: string)
    requires SameQueue(s, s1) && t in s.tasks
    ensures MentionedBefore(s1.tasks, t) == |MentioningBefore(s, t)|
  {
    forall u | u in s.tasks ensures (Before(s1.tasks, u, t) <==> CreatedBefore(s.tasks, u, t)) && (Waiting(s1.tasks, u) <==> Waits(s, u)) {
      QueueOrder(s, s1, u, t);
    }
    assert MentioningBefore(s, t)
        == set u | u in s1.tasks && Waiting(s1.tasks, u) && Mentions(s1.tasks[u].payload) && Before(s1.tasks, u, t);
  }

  lemma PhysicalPickedExactlyWhen(s: State, s1: State, pick: Pick, t: string)
    requires SameQueue(s, s1) && PhysicalPickIs(s1.tasks, pick)
    ensures pick == Chosen(t) <==> FirstPhysical(s, t)
  {
    forall u, v | u in s.tasks && v in s.tasks
      ensures (Before(s1.tasks, u, v) <==> CreatedBefore(s.tasks, u, v)) && (Waiting(s1.tasks, u) <==> Waits(s, u))
    {
      QueueOrder(s, s1, u, v);
    }
    if t in s.tasks { SameMentions(s, s1, t); }
    if pick.Chosen? && FirstPhysical(s, t) { BeforeIsStrict(s1.tasks, t, pick.task, t); }
  }

  /** A physical claim is granted task t exactly when t is the first task with readable
      requirements in the window, the scheduler places it on ready nodes, and the placement carries
      out the rebind that is pending for it, if one is. */
  lemma PhysicalClaimGrantsExactlyWhen(s: State, lottery: Lottery, order: int, t: string)
    requires Inv(s) && Legal(s, DoClaimPhysical(lottery, order))
    ensures ClaimPhysical(s, lottery, order).1 == Granted(t)
            <==> FirstPhysical(s, t) && PlacedOnReady(s, lottery.plan, false)
                 && (PendingRebind(s.events, t).Some? ==>
                       lottery.plan.placement.Some? && Activates(lottery.plan.placement.value, PendingRebind(s.events, t).value))
  {
    var s1 := ExpireAll(s, lottery.order);
    ExpirySettles(s, lottery.order);
    ExpireAllFrame(s, lottery.order);
    assert SameQueue(s, s1);
    PhysicalPickedExactlyWhen(s, s1, lottery.pick, t);
    if lottery.pick.Chosen? {
      PhysicalBinds(s1, lottery);
      SameReady(s, s1, lottery.plan);
    }
  }

  /** When the binding of the chosen task succeeds. */
  lemma PhysicalBinds(s1: State, lottery: Lottery)
    requires lottery.pick.Chosen? && lottery.pick.task in s1.tasks
    ensures var u, a := lottery.pick.task, lottery.attempt;
      var s2 := Advance(LeaseTask(s1, u, Identity(a), a, lottery.token), lottery.elapsed);
      var rebind := PendingRebind(s2.events, u);
      BindExecution(s2, Identity(a), u, a, lottery.token, lottery.plan, rebind).1
      <==> PlacedOnReady(s1, lottery.plan, false)
           && (rebind.Some? ==> lottery.plan.placement.Some? && Activates(lottery.plan.placement.value, rebind.value))
  {
    var u, a := lottery.pick.task, lottery.attempt;
    var s2 := Advance(LeaseTask(s1, u, Identity(a), a, lottery.token), lottery.elapsed);
    BindsExactlyWhen(s2, Identity(a), u, a, lottery.token, lottery.plan, PendingRebind(s2.events, u));
    SameReady(s1, s2, lottery.plan);
  }

  lemma SameReady(s: State, s2: State, plan: Plan)
    requires SamePool(s, s2)
    ensures PlacedOnReady(s2, plan, false) <==> PlacedOnReady(s, plan, false)
  {
    forall w | w in s.workers ensures s2.workers[w].status == s.workers[w].status {
      assert s2.workers[w].(load := 0).status == s2.workers[w].status;
    }
  }

  lemma RefusedPhysicalClaimReturns(s: State, lottery: Lottery, order: int, t: string)
    requires Inv(s) && Legal(s, DoClaimPhysical(lottery, order)) && FirstPhysical(s, t) && ClaimPhysical(s, lottery, order).1 == Refused
    ensures ClaimUndone(s, ClaimPhysical(s, lottery, order).0, t, "fabric:" + lottery.attempt, lottery)
  {
    var s1 := ExpireAll(s, lottery.order);
    ExpirySettles(s, lottery.order);
    ExpireAllFrame(s, lottery.order);
    PhysicalPickedExactlyWhen(s, s1, lottery.pick, t);
    LeaseUndone(s, s1, t, Identity(lottery.attempt), lottery, lottery.plan, PendingRebind(s1.events, t));
  }
}
