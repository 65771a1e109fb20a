/** One cycle of the fabric controller as a client of the coordinator: recover, reconcile, then
    claim physical work until the batch is full or nothing can be scheduled. */
module Controller {
  import opened Base
  import opened LeaseState
  import opened LeaseInvariant
  import opened LeaseRuns
  import opened FailoverRuns
  import opened Recovery
  import opened Coordinator

  /** What the environment supplies to one claim of the cycle: fresh identities, the time that
      passes before and within the call, and the scheduler's answer. */
  datatype Slot = Slot(attempt: string, token: string, pause: real, elapsed: real, plan: Plan, order: int)

  function Duration(slots: seq<Slot>): real {
    if slots == [] then 0.0 else Duration(slots[..|slots| - 1]) + slots[|slots| - 1].pause + slots[|slots| - 1].elapsed
  }

  ghost predicate FreshSlot(s: State, slot: Slot) {
    slot.token != "" && slot.pause >= 0.0 && slot.elapsed >= 0.0 && slot.attempt !in s.attempts
    && forall a :: a in s.attempts ==> s.attempts[a].digest != Sha256(slot.token)
  }

  /** Identities never repeat, neither those in the table nor those of the cycle. */
  ghost predicate FreshSlots(s: State, slots: seq<Slot>) {
    (forall i :: 0 <= i < |slots| ==> FreshSlot(s, slots[i]))
    && forall i, j :: 0 <= i < j < |slots| ==> slots[i].attempt != slots[j].attempt && slots[i].token != slots[j].token
  }

  lemma {:induction false} DurationGrows(slots: seq<Slot>, i: nat)
    requires i <= |slots| && forall k :: 0 <= k < |slots| ==> slots[k].pause >= 0.0 && slots[k].elapsed >= 0.0
    ensures Duration(slots[..i]) <= Duration(slots)
    decreases |slots|
  {
    if i == |slots| {
      assert slots[..i] == slots;
    } else {
      var front := slots[..|slots| - 1];
      DurationGrows(front, i);
      assert front[..i] == slots[..i];
    }
  }

  lemma NextSlot(slots: seq<Slot>, i: nat)
    requires i < |slots| && forall k :: 0 <= k < |slots| ==> slots[k].pause >= 0.0 && slots[k].elapsed >= 0.0
    ensures slots[i..] != [] && slots[i..][0] == slots[i] && slots[i..][1..] == slots[i + 1..]
    ensures Duration(slots[..i + 1]) == Duration(slots[..i]) + slots[i].pause + slots[i].elapsed <= Duration(slots)
  {
    assert slots[..i + 1][..i] == slots[..i];
    DurationGrows(slots, i + 1);
  }

  /** A physical claim adds at most its own attempt, under its own token, and takes no longer
      than its elapsed time. */
  ghost predicate ClaimAdds(s: State, s': State, lottery: Lottery) {
    && s'.attempts.Keys <= s.attempts.Keys + {lottery.attempt}
    && (forall b :: b in s'.attempts ==>
          s'.attempts[b].digest == (if b in s.attempts then s.attempts[b].digest else Sha256(lottery.token)))
    && s.now <= s'.now <= s.now + lottery.elapsed && s'.leaseSeconds == s.leaseSeconds
  }

  lemma PhysicalClaimAdds(s: State, lottery: Lottery, order: int)
    requires lottery.elapsed >= 0.0 && lottery.attempt !in s.attempts
    ensures ClaimAdds(s, ClaimPhysical(s, lottery, order).0, lottery)
  {
    var s1, a := ExpireAll(s, lottery.order), lottery.attempt;
    ExpireAllFrame(s, lottery.order);
    if lottery.pick.Chosen? && lottery.pick.task in s1.tasks {
      var t := lottery.pick.task;
      var s2 := Advance(LeaseTask(s1, t, Identity(a), a, lottery.token), lottery.elapsed);
      var rebind := PendingRebind(s2.events, t);
      BindTasks(s2, Identity(a), t, a, lottery.token, lottery.plan, rebind);
      var s3 := BindExecution(s2, Identity(a), t, a, lottery.token, lottery.plan, rebind).0;
      assert ClaimAdds(s, s3, lottery);
      var s' := ClaimPhysical(s, lottery, order).0;
      assert s' == s3.(events := s'.events);
    }
  }

  lemma SelectionKept(s: State, lottery: Lottery, order: int, k: EventKey)
    requires k.phase == StandbySelected
    ensures var e := ClaimPhysical(s, lottery, order).0.events;
      (k in e <==> k in s.events) && (k in s.events ==> e[k] == s.events[k])
  {}

  /** Physical claims record no standby selections. */
  lemma ClaimKeepsSelections(s: State, lottery: Lottery, order: int)
    requires forall t :: DistinctSelections(s.events, t)
    ensures forall t :: DistinctSelections(ClaimPhysical(s, lottery, order).0.events, t)
  {
    var s' := ClaimPhysical(s, lottery, order).0;
    forall k, t ensures SelectsFor(s'.events, k, t) ==> SelectsFor(s.events, k, t) && s'.events[k] == s.events[k] {
      if SelectsFor(s'.events, k, t) { SelectionKept(s, lottery, order, k); }
    }
    forall t ensures DistinctSelections(s'.events, t) { assert DistinctSelections(s.events, t); }
  }

  class ComputeFabricController {
    const coordinator: ComputeCoordinator

    constructor (coordinator: ComputeCoordinator)
      ensures this.coordinator == coordinator
    {
      this.coordinator := coordinator;
    }

    /** `cycle` with a batch of |slots| allocations; a batch below one raises.  `between` passes
        between the two recovery passes, each of which reads the clock; `settled` is the state
        they leave behind. */
    method Cycle(slots: seq<Slot>, between: real)
      returns (recovered: Option<nat>, reconciled: nat, scheduled: seq<Assignment>, ghost settled: State)
      requires Inv(coordinator.View()) && FreshSlots(coordinator.View(), slots)
      requires forall t :: DistinctSelections(coordinator.events, t)
      requires Duration(slots) < coordinator.leaseSeconds && between >= 0.0
      modifies coordinator
      ensures slots == [] ==> recovered == None && coordinator.View() == old(coordinator.View())
      ensures Inv(coordinator.View())
      ensures forall t :: slots != [] && t in settled.tasks && settled.tasks[t].status.Leased? ==>
        old(coordinator.now) < settled.tasks[t].status.until && t in old(coordinator.tasks) && settled.tasks[t] == old(coordinator.tasks)[t]
      ensures slots != [] ==> settled.now == old(coordinator.now) + between
      ensures slots != [] ==> AllHeard(settled, coordinator.leaseSeconds)
      ensures slots != [] ==> recovered.Some? && |RequeuedBetween(old(coordinator.View()), settled)| == recovered.value + reconciled
      ensures |scheduled| <= |slots| && ScheduleOk(coordinator.View(), scheduled)
      ensures forall i :: 0 <= i < |scheduled| ==> LeaseLasts(coordinator.View(), scheduled[i].task)
    {
      scheduled, settled, reconciled := [], coordinator.View(), 0;
      if slots == [] { return None, 0, [], settled; }
      ghost var s0 := coordinator.View();
      var count, lapsed := coordinator.RecoverExpiredTasks();
      ExpirySettles(s0, lapsed);
      ExpireAllFrame(s0, lapsed);
      coordinator.Tick(between);
      ghost var s1 := coordinator.View();
      assert s1 == Advance(ExpireAll(s0, lapsed), between) && Inv(s1);
      var fenced, lost := coordinator.ReconcileFabric(coordinator.leaseSeconds);
      RecoverySettles(s0, lapsed, between, coordinator.leaseSeconds, lost);
      RecoveryCounts(s0, lapsed, between, coordinator.leaseSeconds, lost);
      ReconcileAllFrame(s1, lost);
      settled := coordinator.View();
      recovered, reconciled := Some(count), fenced.value;
      scheduled := Fill(slots);
    }

    /** The claiming loop of a cycle. */
    method Fill(slots: seq<Slot>) returns (scheduled: seq<Assignment>)
      requires Inv(coordinator.View()) && FreshSlots(coordinator.View(), slots)
      requires forall t :: DistinctSelections(coordinator.events, t)
      requires Duration(slots) < coordinator.leaseSeconds
      modifies coordinator
      ensures Inv(coordinator.View())
      ensures |scheduled| <= |slots| && ScheduleOk(coordinator.View(), scheduled)
      ensures forall i :: 0 <= i < |scheduled| ==> LeaseLasts(coordinator.View(), scheduled[i].task)
    {
      scheduled := [];
      ghost var start := coordinator.now;
      var i := 0;
      assert slots[0..] == slots;
      forall k | 0 <= k < |slots| ensures slots[k].pause >= 0.0 && slots[k].elapsed >= 0.0 { assert FreshSlot(coordinator.View(), slots[k]); }
      while i < |slots|
        invariant 0 <= i <= |slots| && |scheduled| <= i
        invariant Filling(coordinator.View(), slots[i..], scheduled, start, Duration(slots[..i]))
      {
        NextSlot(slots, i);
        var next := ClaimNext(slots[i], slots[i..], scheduled, start, Duration(slots[..i]));
        i := i + 1;
        if next.None? { break; }
        scheduled := scheduled + [next.value];
      }
      DurationGrows(slots, i);
      FillingEnds(coordinator.View(), slots[i..], scheduled, start, Duration(slots[..i]));
    }

    method ClaimNext(slot: Slot, ghost rest: seq<Slot>, ghost scheduled: seq<Assignment>, ghost start: real, ghost spent: real)
      returns (next: Option<Assignment>)
      requires Filling(coordinator.View(), rest, scheduled, start, spent) && rest != [] && slot == rest[0]
      requires spent + slot.pause + slot.elapsed < coordinator.leaseSeconds
      modifies coordinator
      ensures Filling(coordinator.View(), rest[1..], if next.Some? then scheduled + [next.value] else scheduled,
                      start, spent + slot.pause + slot.elapsed)
    {
      assert FreshSlot(coordinator.View(), rest[0]);
      coordinator.Tick(slot.pause);
      ghost var s := coordinator.View();
      var claimedAt := coordinator.now;
      TickKeeps(old(coordinator.View()), slot.pause, rest, scheduled, start, spent);
      var out, _, in_ := coordinator.ClaimPhysical(slot.attempt, slot.token, slot.elapsed, slot.plan, slot.order);
      next := if out.Granted? then Some(Assignment(out.task, slot.attempt, claimedAt)) else None;
      SlotFilled(s, coordinator.View(), out, rest, in_, slot.order, scheduled, start, spent + slot.pause);
    }
  }

  /** Where the claiming loop stands: `rest` is unused, `scheduled` is leased, and at most
      `spent` has passed since `start`. */
  ghost predicate Filling(s: State, rest: seq<Slot>, scheduled: seq<Assignment>, start: real, spent: real) {
    && Inv(s) && FreshSlots(s, rest) && (forall t :: DistinctSelections(s.events, t))
    && start <= s.now <= start + spent
    && ScheduleOk(s, scheduled) && (forall k :: 0 <= k < |scheduled| ==> start <= scheduled[k].claimedAt)
  }

  /** Task t is leased until some later time. */
  ghost predicate LeaseLasts(s: State, t: string) {
    t in s.tasks && s.tasks[t].status.Leased? && s.now < s.tasks[t].status.until
  }

  /** Less than a lease after the start everything scheduled is unexpired. */
  lemma FillingEnds(s: State, rest: seq<Slot>, scheduled: seq<Assignment>, start: real, spent: real)
    requires Filling(s, rest, scheduled, start, spent) && spent < s.leaseSeconds
    ensures forall i :: 0 <= i < |scheduled| ==> LeaseLasts(s, scheduled[i].task)
  {
    forall i | 0 <= i < |scheduled| ensures LeaseLasts(s, scheduled[i].task) { assert StillScheduled(s, scheduled[i]); }
  }

  lemma TickKeeps(s: State, pause: real, rest: seq<Slot>, scheduled: seq<Assignment>, start: real, spent: real)
    requires Filling(s, rest, scheduled, start, spent) && pause >= 0.0
    ensures Filling(Advance(s, pause), rest, scheduled, start, spent + pause)
  {
    var s' := Advance(s, pause);
    forall i | 0 <= i < |rest| ensures FreshSlot(s', rest[i]) { assert FreshSlot(s, rest[i]); }
    forall i | 0 <= i < |scheduled| ensures StillScheduled(s', scheduled[i]) { assert StillScheduled(s, scheduled[i]); }
  }

  /** After a claim the loop stands one slot further. */
  lemma SlotFilled(s: State, s': State, out: ClaimOutcome, rest: seq<Slot>, lottery: Lottery, order: int, scheduled: seq<Assignment>,
                   start: real, spent: real)
    requires Filling(s, rest, scheduled, start, spent) && rest != [] && spent < s.leaseSeconds
    requires lottery == Lottery(rest[0].attempt, rest[0].token, lottery.order, lottery.pick, rest[0].elapsed, rest[0].plan)
    requires EnumeratesLapsed(s, lottery.order) && PhysicalPickIs(ExpireAll(s, lottery.order).tasks, lottery.pick)
    requires (s', out) == ClaimPhysical(s, lottery, order)
    ensures Filling(s', rest[1..], if out.Granted? then scheduled + [Assignment(out.task, rest[0].attempt, s.now)] else scheduled,
                    start, spent + rest[0].elapsed)
  {
    SlotIsLegal(s, rest, lottery, order);
    LegalClaimKeeps(s, s', rest, lottery, order);
    ClaimKeepsSchedule(s, s', out, lottery, order, scheduled);
    FilledFrom(s, s', rest, lottery, scheduled,
               if out.Granted? then scheduled + [Assignment(out.task, rest[0].attempt, s.now)] else scheduled, start, spent);
  }

  lemma FilledFrom(s: State, s': State, rest: seq<Slot>, lottery: Lottery, scheduled: seq<Assignment>, next: seq<Assignment>, start: real, spent: real)
    requires Filling(s, rest, scheduled, start, spent) && rest != [] && lottery.elapsed == rest[0].elapsed
    requires Inv(s') && FreshSlots(s', rest[1..]) && ClaimAdds(s, s', lottery) && (forall t :: DistinctSelections(s'.events, t))
    requires ScheduleOk(s', next)
    requires next == scheduled || exists x :: next == scheduled + [x] && x.claimedAt == s.now
    ensures Filling(s', rest[1..], next, start, spent + rest[0].elapsed)
  {}

  lemma SlotIsLegal(s: State, slots: seq<Slot>, lottery: Lottery, order: int)
    requires FreshSlots(s, slots) && slots != []
    requires lottery == Lottery(slots[0].attempt, slots[0].token, lottery.order, lottery.pick, slots[0].elapsed, slots[0].plan)
    requires EnumeratesLapsed(s, lottery.order) && PhysicalPickIs(ExpireAll(s, lottery.order).tasks, lottery.pick)
    ensures Legal(s, DoClaimPhysical(lottery, order))
  {
    assert FreshSlot(s, slots[0]);
  }

  /** What one claim of the loop keeps. */
  lemma LegalClaimKeeps(s: State, s': State, slots: seq<Slot>, lottery: Lottery, order: int)
    requires Inv(s) && Legal(s, DoClaimPhysical(lottery, order)) && s' == ClaimPhysical(s, lottery, order).0
    requires FreshSlots(s, slots) && slots != [] && lottery.attempt == slots[0].attempt && lottery.token == slots[0].token
    requires forall t :: DistinctSelections(s.events, t)
    ensures Inv(s') && FreshSlots(s', slots[1..]) && ClaimAdds(s, s', lottery) && forall t :: DistinctSelections(s'.events, t)
  {
    ClaimPhysicalKeepsInv(s, lottery, order);
    PhysicalClaimAdds(s, lottery, order);
    ClaimKeepsSelections(s, lottery, order);
    LaterSlotsFresh(s, s', slots, lottery);
  }

  lemma LaterSlotsFresh(s: State, s': State, slots: seq<Slot>, lottery: Lottery)
    requires slots != [] && FreshSlots(s, slots) && ClaimAdds(s, s', lottery)
    requires lottery.attempt == slots[0].attempt && lottery.token == slots[0].token
    ensures FreshSlots(s', slots[1..])
  {
    forall i | 0 <= i < |slots| - 1 ensures FreshSlot(s', slots[1..][i]) {
      assert FreshSlot(s, slots[i + 1]) && slots[1..][i] == slots[i + 1];
      assert slots[0].attempt != slots[i + 1].attempt && slots[0].token != slots[i + 1].token;
    }
  }

  lemma {:induction false} ReconcileAllFrame(s: State, order: seq<string>)
    ensures SameIdentities(s, ReconcileAll(s, order))
  {
    if order != [] {
      ReconcileAllFrame(s, order[..|order| - 1]);
      var m, a := ReconcileAll(s, order[..|order| - 1]), order[|order| - 1];
      if Current(m, a) { FenceResourcesFrame(FenceRows(m, a), a); }
    }
  }
}
