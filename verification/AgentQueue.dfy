/** The specialist work queue on its dictionary-backed path: a lease queue with priorities,
    per-agent concurrency caps and deduplication. */
module AgentQueue {
  import opened Base
  import opened Sorting

  datatype Status = Queued | Running(worker: string, until: int) | Complete | Failed

  /** `stage` is the qualification stage a verification payload carries. */
  datatype Task = Task(id: string, agent: string, status: Status, priority: int, dedupe: string, stage: string,
                       createdAt: int, attempts: nat)

  datatype Spec = Spec(agent: string, priority: int, dedupe: string, stage: string)

  /** A dictionary of tasks in insertion order. */
  datatype Items = Items(tasks: map<string, Task>, order: seq<string>)

  predicate Active(t: Task) { t.status.Queued? || t.status.Running? }

  ghost predicate Valid(items: Items) {
    && (forall i, j :: 0 <= i < j < |items.order| ==> items.order[i] != items.order[j])
    && (forall id :: id in items.tasks <==> id in items.order)
    && (forall id :: id in items.tasks ==> items.tasks[id].id == id)
  }

  // ------------------------------------------------------------- specification

  function Recovered(items: Items, now: int): Items {
    items.(tasks := map id | id in items.tasks ::
      if items.tasks[id].status.Running? && items.tasks[id].status.until <= now
      then items.tasks[id].(status := Queued) else items.tasks[id])
  }

  /** The first active task with this agent and key. */
  function FindDuplicate(items: Items, n: nat, agent: string, key: string): Option<Task>
    requires n <= |items.order|
  {
    if n == 0 then None
    else
      var before := FindDuplicate(items, n - 1, agent, key);
      var id := items.order[n - 1];
      if before.Some? then before
      else if id in items.tasks && items.tasks[id].agent == agent && items.tasks[id].dedupe == key && Active(items.tasks[id])
      then Some(items.tasks[id]) else None
  }

  /** The incoming stage is read off the wrapper around the payload, so it is always empty. */
  predicate Suppressed(items: Items, spec: Spec) {
    spec.dedupe != ""
    && var d := FindDuplicate(items, |items.order|, spec.agent, spec.dedupe);
       d.Some? && (spec.agent == "verification" ==> d.value.stage == "")
  }

  function EnqueueOne(items: Items, spec: Spec, id: string, now: int): Items {
    if Suppressed(items, spec) then items
    else Items(items.tasks[id := Task(id, spec.agent, Queued, spec.priority, spec.dedupe, spec.stage, now, 0)], items.order + [id])
  }

  function EnqueueAll(items: Items, specs: seq<Spec>, ids: seq<string>, now: int): Items
    requires |ids| == |specs|
  {
    if specs == [] then items
    else
      var n := |specs| - 1;
      EnqueueOne(EnqueueAll(items, specs[..n], ids[..n], now), specs[n], ids[n], now)
  }

  /** `sort(key=(-priority, created_at))`. */
  predicate Better(a: Task, b: Task) { a.priority > b.priority || (a.priority == b.priority && a.createdAt < b.createdAt) }

  function Candidates(items: Items, n: nat, agent: string): seq<Task>
    requires n <= |items.order|
  {
    if n == 0 then []
    else
      var before := Candidates(items, n - 1, agent);
      var id := items.order[n - 1];
      if id in items.tasks && items.tasks[id].agent == agent && items.tasks[id].status.Queued? then before + [items.tasks[id]] else before
  }

  function RunningOf(items: Items, agent: string): set<string> {
    set id | id in items.tasks && items.tasks[id].agent == agent && items.tasks[id].status.Running?
  }

  /** The free places: the smaller of limit and cap, less what runs. */
  function Available(items: Items, agent: string, limit: nat, cap: nat): nat {
    var capacity := if limit < cap then limit else cap;
    if capacity <= |RunningOf(items, agent)| then 0 else capacity - |RunningOf(items, agent)|
  }

  function Chosen(items: Items, agent: string, limit: nat, cap: nat): seq<Task> {
    var sorted := Sorted(Better, Candidates(items, |items.order|, agent));
    var n := Available(items, agent, limit, cap);
    if n <= |sorted| then sorted[..n] else sorted
  }

  function Ids(ts: seq<Task>): set<string> { set t | t in ts :: t.id }

  /** The tasks with these ids become running for the worker. */
  function Granted(items: Items, ids: set<string>, worker: string, until: int): Items {
    items.(tasks := map id | id in items.tasks ::
      if id in ids then items.tasks[id].(status := Running(worker, until), attempts := items.tasks[id].attempts + 1)
      else items.tasks[id])
  }

  function ClaimMany(items: Items, agent: string, worker: string, limit: nat, cap: nat, lease: int, now: int): Items {
    var r := Recovered(items, now);
    Granted(r, Ids(Chosen(r, agent, limit, cap)), worker, now + lease)
  }

  predicate Holds(items: Items, id: string, worker: string) {
    id in items.tasks && items.tasks[id].status.Running? && items.tasks[id].status.worker == worker
  }

  function ClaimOne(items: Items, id: string, worker: string, lease: int, now: int): (Items, bool) {
    var r := Recovered(items, now);
    if id in r.tasks && r.tasks[id].status.Queued? then (Granted(r, {id}, worker, now + lease), true) else (items, false)
  }

  /** `heartbeat`, `complete`, `fail` and `retry` look at the worker id alone. */
  function Report(items: Items, id: string, worker: string, status: Status): (Items, bool) {
    if !Holds(items, id, worker) then (items, false)
    else (items.(tasks := items.tasks[id := items.tasks[id].(status := status)]), true)
  }

  lemma IdsGrow(ts: seq<Task>, t: Task)
    ensures Ids(ts + [t]) == Ids(ts) + {t.id}
  {
    assert (ts + [t])[|ts|] == t;
    forall x | x in ts ensures x in ts + [t] {}
  }

  /** The first n tasks of the dictionary have been looked at. */
  ghost predicate RecoveredUpTo(before: Items, items: Items, now: int, n: nat) {
    && Valid(before) && items.order == before.order && items.tasks.Keys == before.tasks.Keys && n <= |before.order|
    && forall j :: 0 <= j < |before.order| ==>
         items.tasks[before.order[j]] == if j < n then Recovered(before, now).tasks[before.order[j]] else before.tasks[before.order[j]]
  }

  lemma RecoverNext(before: Items, items: Items, now: int, n: nat)
    requires RecoveredUpTo(before, items, now, n) && n < |before.order|
    ensures var id := before.order[n];
      RecoveredUpTo(before, items.(tasks := items.tasks[id := Recovered(before, now).tasks[id]]), now, n + 1)
    ensures items.tasks[before.order[n]] == before.tasks[before.order[n]]
  {}

  // ------------------------------------------------------- what the calls promise

  /** An active task of this agent with this key. */
  ghost predicate ActiveFor(t: Task, agent: string, key: string) {
    (t.status.Queued? || t.status.Running?) && t.agent == agent && t.dedupe == key
  }

  /** A task as it is first stored for a spec. */
  ghost predicate StoredFor(t: Task, spec: Spec, id: string, now: int) {
    t.id == id && t.agent == spec.agent && t.status.Queued? && t.priority == spec.priority && t.dedupe == spec.dedupe
    && t.stage == spec.stage && t.createdAt == now && t.attempts == 0
  }

  /** After a batch the earlier tasks are untouched and only ids of the batch are new.  Each of them
      that is stored is a waiting task as its spec asks, created now, and, outside verification, the
      only active task of its agent with its key; each that is not has an active task of its agent
      with its key, and a key. */
  ghost predicate Enqueued(before: Items, after: Items, specs: seq<Spec>, ids: seq<string>, now: int)
    requires |ids| == |specs|
  {
    && before.order <= after.order
    && (forall id :: id in before.tasks ==> id in after.tasks && after.tasks[id] == before.tasks[id])
    && (forall id :: id in after.tasks && id !in before.tasks ==> exists i :: 0 <= i < |ids| && ids[i] == id)
    && (forall i :: 0 <= i < |ids| && ids[i] in after.tasks ==> StoredFor(after.tasks[ids[i]], specs[i], ids[i], now))
    && (forall i :: 0 <= i < |ids| && ids[i] in after.tasks && specs[i].agent != "verification" && specs[i].dedupe != "" ==>
          OnlyActive(after, ids[i], specs[i]))
    && (forall i :: 0 <= i < |ids| && ids[i] !in after.tasks ==> specs[i].dedupe != "" && SomeActive(after, specs[i]))
  }

  ghost predicate OnlyActive(items: Items, id: string, spec: Spec) {
    forall o :: o in items.tasks && o != id ==> !ActiveFor(items.tasks[o], spec.agent, spec.dedupe)
  }

  ghost predicate SomeActive(items: Items, spec: Spec) {
    exists o :: o in items.tasks && ActiveFor(items.tasks[o], spec.agent, spec.dedupe)
  }

  /** Lapsed running tasks wait again; nothing else changed. */
  ghost predicate LapsedWait(before: Items, after: Items, now: int) {
    && after.order == before.order && after.tasks.Keys == before.tasks.Keys
    && forall id :: id in before.tasks ==>
         after.tasks[id] == if before.tasks[id].status.Running? && before.tasks[id].status.until <= now
                            then before.tasks[id].(status := Queued) else before.tasks[id]
  }

  /** These tasks run for the worker until then, one attempt up; the other lapsed ones wait. */
  ghost predicate GrantedTo(before: Items, after: Items, ids: set<string>, worker: string, until: int, now: int) {
    && after.order == before.order && after.tasks.Keys == before.tasks.Keys
    && forall id :: id in before.tasks ==>
         after.tasks[id] == if id in ids then before.tasks[id].(status := Running(worker, until), attempts := before.tasks[id].attempts + 1)
                            else if before.tasks[id].status.Running? && before.tasks[id].status.until <= now
                            then before.tasks[id].(status := Queued) else before.tasks[id]
  }

  /** The worker's running task got this status; nothing else changed. */
  ghost predicate Moved(before: Items, after: Items, id: string, status: Status) {
    id in before.tasks && after == before.(tasks := before.tasks[id := before.tasks[id].(status := status)])
  }

  /** The task waits, or will once it is recovered. */
  ghost predicate Claimable(items: Items, id: string, now: int) {
    id in items.tasks && (items.tasks[id].status.Queued? || (items.tasks[id].status.Running? && items.tasks[id].status.until <= now))
  }

  ghost predicate RunsFor(items: Items, id: string, worker: string) {
    id in items.tasks && items.tasks[id].status.Running? && items.tasks[id].status.worker == worker
  }

  // --------------------------------------------------------------- the queue

  class Queue {
    var items: Items
    const caps: map<string, nat>

    constructor (caps: map<string, nat>)
      ensures items == Items(map[], []) && this.caps == caps
    {
      items, this.caps := Items(map[], []), caps;
    }

    method RecoverStale(now: int)
      requires Valid(items)
      modifies this
      ensures items == Recovered(old(items), now)
    {
      var i := 0;
      ghost var before := items;
      while i < |items.order|
        invariant 0 <= i <= |items.order| && RecoveredUpTo(before, items, now, i)
      {
        var id := items.order[i];
        var t := items.tasks[id];
        RecoverNext(before, items, now, i);
        if t.status.Running? && t.status.until <= now {
          items := items.(tasks := items.tasks[id := t.(status := Queued)]);
        }
        i := i + 1;
      }
      forall id | id in before.tasks ensures items.tasks[id] == Recovered(before, now).tasks[id] { assert id in before.order; }
    }

    /** Unknown agents raise before anything is stored. */
    method EnqueueMany(specs: seq<Spec>, ids: seq<string>, now: int) returns (ok: bool)
      requires Valid(items) && |ids| == |specs|
      modifies this
      ensures ok <==> forall s :: s in specs ==> s.agent in caps
      ensures items == if ok then EnqueueAll(old(items), specs, ids, now) else old(items)
      ensures ok && Legal(old(items), DoEnqueue(specs, ids, now)) ==> Enqueued(old(items), items, specs, ids, now)
    {
      ok := forall s | s in specs :: s.agent in caps;
      if !ok { return; }
      var i := 0;
      while i < |specs|
        invariant 0 <= i <= |specs| && items == EnqueueAll(old(items), specs[..i], ids[..i], now)
      {
        assert specs[..i + 1][..i] == specs[..i] && ids[..i + 1][..i] == ids[..i];
        items := EnqueueOne(items, specs[i], ids[i], now);
        i := i + 1;
      }
      assert specs[..i] == specs && ids[..i] == ids;
      if Legal(old(items), DoEnqueue(specs, ids, now)) { BatchIsStored(old(items), specs, ids, now); }
    }

    /** Unknown agents, empty worker ids and non-positive limits or leases raise. */
    method Claim(agent: string, worker: string, limit: int, lease: int, now: int) returns (claimed: Option<seq<Task>>)
      requires Valid(items)
      modifies this
      ensures claimed.None? <==> agent !in caps || worker == "" || limit <= 0 || lease <= 0
      ensures claimed.None? ==> items == old(items)
      ensures claimed.Some? ==> items == ClaimMany(old(items), agent, worker, limit, caps[agent], lease, now)
      ensures claimed.Some? ==> Ids(claimed.value) == Ids(Chosen(Recovered(old(items), now), agent, limit, caps[agent]))
      ensures claimed.Some? ==> GrantedTo(old(items), items, Ids(claimed.value), worker, now + lease, now)
      ensures claimed.Some? ==> forall t :: t in claimed.value ==> t.id in items.tasks && t == items.tasks[t.id]
    {
      if agent !in caps || worker == "" || limit <= 0 || lease <= 0 { return None; }
      ghost var before := items;
      RecoverStale(now);
      RecoveredValid(before, now, items);
      var out := ClaimRecovered(agent, worker, limit, caps[agent], now + lease);
      assert items == ClaimMany(before, agent, worker, limit, caps[agent], lease, now);
      ClaimIsWritten(before, agent, worker, limit, caps[agent], lease, now);
      claimed := Some(out);
    }

    method ClaimRecovered(agent: string, worker: string, limit: nat, cap: nat, until: int) returns (out: seq<Task>)
      requires Valid(items)
      modifies this
      ensures items == Granted(old(items), Ids(Chosen(old(items), agent, limit, cap)), worker, until)
      ensures Ids(out) == Ids(Chosen(old(items), agent, limit, cap))
      ensures forall t :: t in out ==> t.id in items.tasks && t == items.tasks[t.id]
    {
      var chosen := Chosen(items, agent, limit, cap);
      ChosenAreCandidates(items, agent, limit, cap);
      out := GrantAll(chosen, worker, until);
    }

    /** The claiming loop: every chosen task becomes running. */
    method GrantAll(chosen: seq<Task>, worker: string, until: int) returns (out: seq<Task>)
      requires forall t :: t in chosen ==> t.id in items.tasks && t == items.tasks[t.id]
      requires forall i, j :: 0 <= i < j < |chosen| ==> chosen[i].id != chosen[j].id
      modifies this
      ensures items == Granted(old(items), Ids(chosen), worker, until) && Ids(out) == Ids(chosen)
      ensures forall t :: t in out ==> t.id in items.tasks && t == items.tasks[t.id]
    {
      out := [];
      var i := 0;
      while i < |chosen|
        invariant 0 <= i <= |chosen| && items == Granted(old(items), Ids(chosen[..i]), worker, until)
        invariant Ids(out) == Ids(chosen[..i])
        invariant forall t :: t in out ==> t.id in items.tasks && t == items.tasks[t.id]
      {
        var id := chosen[i].id;
        assert chosen[i] in chosen;
        IdsGrow(chosen[..i], chosen[i]);
        assert chosen[..i + 1] == chosen[..i] + [chosen[i]];
        var t := items.tasks[id].(status := Running(worker, until), attempts := items.tasks[id].attempts + 1);
        items := items.(tasks := items.tasks[id := t]);
        IdsGrow(out, t.(id := id));
        out := out + [t.(id := id)];
        i := i + 1;
      }
      assert chosen[..i] == chosen;
    }

    method ClaimTask(id: string, worker: string, lease: int, now: int) returns (ok: bool)
      requires Valid(items)
      modifies this
      ensures ok ==> id != "" && worker != "" && lease > 0
      ensures id != "" && worker != "" && lease > 0 ==> (items, ok) == ClaimOne(old(items), id, worker, lease, now)
      ensures ok <==> id != "" && worker != "" && lease > 0 && Claimable(old(items), id, now)
      ensures if ok then GrantedTo(old(items), items, {id}, worker, now + lease, now) else items == old(items)
    {
      if id == "" || worker == "" || lease <= 0 { return false; }
      var loaded := items;
      RecoverStale(now);
      if id !in items.tasks || !items.tasks[id].status.Queued? {
        // Raising discards the loaded state, recovery included.
        items := loaded;
        return false;
      }
      var t := items.tasks[id];
      items := items.(tasks := items.tasks[id := t.(status := Running(worker, now + lease), attempts := t.attempts + 1)]);
      assert items.tasks == Granted(Recovered(loaded, now), {id}, worker, now + lease).tasks;
      ok := true;
    }

    method Heartbeat(id: string, worker: string, lease: int, now: int) returns (ok: bool)
      modifies this
      ensures (items, ok) == if lease <= 0 then (old(items), false) else Report(old(items), id, worker, Running(worker, now + lease))
      ensures ok <==> lease > 0 && RunsFor(old(items), id, worker)
      ensures if ok then Moved(old(items), items, id, Running(worker, now + lease)) else items == old(items)
    {
      if lease <= 0 || !Holds(items, id, worker) { return false; }
      items := items.(tasks := items.tasks[id := items.tasks[id].(status := Running(worker, now + lease))]);
      ok := true;
    }

    method Finish(id: string, worker: string, failed: bool) returns (ok: bool)
      modifies this
      ensures (items, ok) == Report(old(items), id, worker, if failed then Failed else Complete)
      ensures ok <==> RunsFor(old(items), id, worker)
      ensures if ok then Moved(old(items), items, id, if failed then Failed else Complete) else items == old(items)
      ensures ok ==> forall other, status :: Report(items, id, other, status) == (items, false)
    {
      if !Holds(items, id, worker) { return false; }
      items := items.(tasks := items.tasks[id := items.tasks[id].(status := if failed then Failed else Complete)]);
      ok := true;
    }

    method Retry(id: string, worker: string) returns (ok: bool)
      modifies this
      ensures (items, ok) == Report(old(items), id, worker, Queued)
      ensures ok <==> RunsFor(old(items), id, worker)
      ensures if ok then Moved(old(items), items, id, Queued) else items == old(items)
    {
      if !Holds(items, id, worker) { return false; }
      items := items.(tasks := items.tasks[id := items.tasks[id].(status := Queued)]);
      ok := true;
    }
  }

  // --------------------------------------------------------------- what a claim takes

  lemma BetterIsWeak()
    ensures WeakOrder(Better)
  {}

  lemma {:induction false} CandidatesAre(items: Items, n: nat, agent: string)
    requires Valid(items) && n <= |items.order|
    ensures forall t :: t in Candidates(items, n, agent) <==>
      t.id in items.order[..n] && t.id in items.tasks && t == items.tasks[t.id] && t.agent == agent && t.status.Queued?
    ensures forall i, j :: 0 <= i < j < |Candidates(items, n, agent)| ==>
      Candidates(items, n, agent)[i].id != Candidates(items, n, agent)[j].id
  {
    if n > 0 {
      CandidatesAre(items, n - 1, agent);
      assert items.order[..n] == items.order[..n - 1] + [items.order[n - 1]];
      assert items.order[n - 1] in items.tasks;
      forall t | t in Candidates(items, n - 1, agent) ensures t.id != items.order[n - 1] {}
    }
  }

  lemma DistinctIds(a: seq<Task>, b: seq<Task>)
    requires multiset(a) == multiset(b)
    requires forall i, j :: 0 <= i < j < |a| ==> a[i].id != a[j].id
    ensures forall i, j :: 0 <= i < j < |b| ==> b[i].id != b[j].id
  {
    SameElements(a, b);
    NoRepeats(a, b);
    forall i, j | 0 <= i < j < |b| ensures b[i].id != b[j].id { assert b[i] in a && b[j] in a; }
  }

  /** The tasks the agent runs. */
  ghost function RunningNow(items: Items, agent: string): set<string> {
    set id | id in items.tasks && items.tasks[id].status.Running? && items.tasks[id].agent == agent
  }

  lemma RunningAre(items: Items, agent: string)
    ensures RunningOf(items, agent) == RunningNow(items, agent)
  {}

  /** A claim takes distinct queued tasks of the agent, and never more than leave what it then
      runs within both the limit and the cap. */
  lemma ChosenAreCandidates(items: Items, agent: string, limit: nat, cap: nat)
    requires Valid(items)
    ensures var c := Chosen(items, agent, limit, cap);
      && (forall t :: t in c ==> t.id in items.tasks && t == items.tasks[t.id] && t.agent == agent && t.status.Queued?)
      && (forall i, j :: 0 <= i < j < |c| ==> c[i].id != c[j].id)
      && (c != [] ==> |c| + |RunningNow(items, agent)| <= limit && |c| + |RunningNow(items, agent)| <= cap)
      && |c| <= Available(items, agent, limit, cap)
  {
    RunningAre(items, agent);
    var all := Candidates(items, |items.order|, agent);
    CandidatesAre(items, |items.order|, agent);
    BetterIsWeak();
    SortedIsSorted(Better, all);
    SameElements(Sorted(Better, all), all);
    DistinctIds(all, Sorted(Better, all));
  }

  lemma NoneLeftIsBetter(items: Items, agent: string, limit: nat, cap: nat, id: string, c: Task)
    requires Valid(items) && id in items.tasks && items.tasks[id].agent == agent && items.tasks[id].status.Queued?
    requires id !in Ids(Chosen(items, agent, limit, cap)) && c in Chosen(items, agent, limit, cap)
    ensures !Better(items.tasks[id], c)
  {
    var sorted, chosen := Sorted(Better, Candidates(items, |items.order|, agent)), Chosen(items, agent, limit, cap);
    var j := PlaceAmongCandidates(items, agent, id);
    BetterIsWeak();
    SortedIsSorted(Better, Candidates(items, |items.order|, agent));
    var i :| 0 <= i < |chosen| && chosen[i] == c;
    forall k | 0 <= k < |chosen| ensures sorted[k].id != id { assert chosen[k] in chosen && chosen[k].id in Ids(chosen); }
    assert sorted[i] == c;
  }

  /** A queued task of the agent has a place in the sorted candidates. */
  lemma PlaceAmongCandidates(items: Items, agent: string, id: string) returns (j: nat)
    requires Valid(items) && id in items.tasks && items.tasks[id].agent == agent && items.tasks[id].status.Queued?
    ensures var sorted := Sorted(Better, Candidates(items, |items.order|, agent));
      j < |sorted| && sorted[j] == items.tasks[id]
  {
    var all := Candidates(items, |items.order|, agent);
    var sorted := Sorted(Better, all);
    assert items.tasks[id] in all by {
      CandidatesAre(items, |items.order|, agent);
      assert items.order[..|items.order|] == items.order;
    }
    assert multiset(sorted) == multiset(all) by {
      BetterIsWeak();
      SortedIsSorted(Better, all);
    }
    SameElements(sorted, all);
    j :| 0 <= j < |sorted| && sorted[j] == items.tasks[id];
  }

  lemma RoomIsUsed(items: Items, agent: string, limit: nat, cap: nat, id: string)
    requires Valid(items) && id in items.tasks && items.tasks[id].agent == agent && items.tasks[id].status.Queued?
    requires id !in Ids(Chosen(items, agent, limit, cap))
    ensures |Chosen(items, agent, limit, cap)| == Available(items, agent, limit, cap)
  {
    var j := PlaceAmongCandidates(items, agent, id);
    var chosen := Chosen(items, agent, limit, cap);
    if j < |chosen| { assert chosen[j] in chosen && chosen[j].id in Ids(chosen); }
  }

  /** It takes a top prefix: a queued task of the agent is left behind only when limit and cap
      leave no more room, and no task taken has a lower priority than it or, at the same priority, is
      younger. */
  lemma ChosenAreTheBest(items: Items, agent: string, limit: nat, cap: nat, id: string)
    requires Valid(items) && id in items.tasks && items.tasks[id].agent == agent && items.tasks[id].status.Queued?
    requires id !in Ids(Chosen(items, agent, limit, cap))
    ensures |Chosen(items, agent, limit, cap)| + |RunningNow(items, agent)| >= if limit <= cap then limit else cap
    ensures forall c :: c in Chosen(items, agent, limit, cap) ==>
      items.tasks[id].priority <= c.priority && (items.tasks[id].priority == c.priority ==> c.createdAt <= items.tasks[id].createdAt)
  {
    RunningAre(items, agent);
    RoomIsUsed(items, agent, limit, cap, id);
    forall c | c in Chosen(items, agent, limit, cap) ensures !Better(items.tasks[id], c) {
      NoneLeftIsBetter(items, agent, limit, cap, id, c);
    }
  }

  lemma {:induction false} IdCount(ts: seq<Task>)
    requires forall i, j :: 0 <= i < j < |ts| ==> ts[i].id != ts[j].id
    ensures |Ids(ts)| == |ts|
  {
    if ts != [] {
      var front, last := ts[..|ts| - 1], ts[|ts| - 1];
      assert ts == front + [last];
      IdCount(front);
      assert Ids(ts) == Ids(front) + {last.id};
      assert last.id !in Ids(front);
    } else {
      assert Ids(ts) == {};
    }
  }

  /** After a claim the agent runs at most its cap, or what it ran before if that was more. */
  lemma ClaimRespectsCap(items: Items, agent: string, worker: string, limit: nat, cap: nat, lease: int, now: int)
    requires Valid(items)
    ensures var after := ClaimMany(items, agent, worker, limit, cap, lease, now);
      |RunningOf(after, agent)| <= cap || |RunningOf(after, agent)| <= |RunningOf(items, agent)|
  {
    var r := Recovered(items, now);
    var ids := Ids(Chosen(r, agent, limit, cap));
    RecoveredValid(items, now, r);
    ChosenIds(r, agent, limit, cap);
    assert |ids| <= Available(r, agent, limit, cap) <= (if cap <= |RunningOf(r, agent)| then 0 else cap - |RunningOf(r, agent)|);
    GrantRuns(items, r, ids, agent, worker, now + lease, now, ClaimMany(items, agent, worker, limit, cap, lease, now));
  }

  lemma GrantRuns(items: Items, r: Items, ids: set<string>, agent: string, worker: string, until: int, now: int, after: Items)
    requires r == Recovered(items, now) && after == Granted(r, ids, worker, until)
    requires forall id :: id in ids ==> id in r.tasks && r.tasks[id].agent == agent && r.tasks[id].status.Queued?
    ensures |RunningOf(after, agent)| == |RunningOf(r, agent)| + |ids|
    ensures |RunningOf(r, agent)| <= |RunningOf(items, agent)|
  {
    assert RunningOf(after, agent) == RunningOf(r, agent) + ids;
    assert RunningOf(r, agent) !! ids;
    Subsets(RunningOf(r, agent), RunningOf(items, agent));
  }

  lemma RecoveredValid(items: Items, now: int, r: Items)
    requires Valid(items) && r == Recovered(items, now)
    ensures Valid(r)
  {}

  lemma Subsets(a: set<string>, b: set<string>)
    requires a <= b
    ensures |a| <= |b|
  {
    assert b == a + (b - a);
  }

  /** A claim for one agent leaves every other agent's running tasks, less the lapsed ones. */
  lemma OtherAgentsUntouched(items: Items, agent: string, other: string, worker: string, limit: nat, cap: nat, lease: int, now: int)
    requires Valid(items) && other != agent
    ensures RunningOf(ClaimMany(items, agent, worker, limit, cap, lease, now), other) == RunningOf(Recovered(items, now), other)
  {
    ChosenAreCandidates(Recovered(items, now), agent, limit, cap);
  }

  /** `claim_task` does not look at the cap: it adds one running task whatever runs, so the
      agent ends within its cap exactly when, after recovery, it ran strictly fewer. */
  lemma ClaimTaskIgnoresCap(items: Items, id: string, worker: string, lease: int, now: int, cap: nat)
    requires Valid(items) && ClaimOne(items, id, worker, lease, now).1
    ensures var r := Recovered(items, now);
      var agent := r.tasks[id].agent;
      var after := ClaimOne(items, id, worker, lease, now).0;
      && |RunningOf(after, agent)| == |RunningOf(r, agent)| + 1
      && (|RunningOf(after, agent)| <= cap <==> |RunningOf(r, agent)| < cap)
      && forall other :: other != agent ==> RunningOf(after, other) == RunningOf(r, other)
  {
    var r := Recovered(items, now);
    assert RunningOf(ClaimOne(items, id, worker, lease, now).0, r.tasks[id].agent) == RunningOf(r, r.tasks[id].agent) + {id};
  }

  // ------------------------------------------------------------------------- runs

  datatype Step =
    | DoEnqueue(specs: seq<Spec>, ids: seq<string>, at: int)
    | DoClaim(agent: string, worker: string, limit: nat, lease: int, at: int)
    | DoClaimTask(id: string, worker: string, lease: int, at: int)
    | DoReport(id: string, worker: string, status: Status)

  function Apply(caps: map<string, nat>, items: Items, step: Step): Items {
    match step
    case DoEnqueue(specs, ids, at) => if |ids| == |specs| then EnqueueAll(items, specs, ids, at) else items
    case DoClaim(agent, worker, limit, lease, at) =>
      if agent in caps then ClaimMany(items, agent, worker, limit, caps[agent], lease, at) else items
    case DoClaimTask(id, worker, lease, at) => ClaimOne(items, id, worker, lease, at).0
    case DoReport(id, worker, status) => Report(items, id, worker, status).0
  }

  /** uuid4 never repeats a task id; a report names its own worker when it stays running. */
  ghost predicate Legal(items: Items, step: Step) {
    match step
    case DoEnqueue(specs, ids, _) =>
      |ids| == |specs| && (forall i :: 0 <= i < |ids| ==> ids[i] !in items.tasks)
      && forall i, j :: 0 <= i < j < |ids| ==> ids[i] != ids[j]
    case DoReport(_, worker, status) => status.Running? ==> status.worker == worker
    case _ => true
  }

  function Run(caps: map<string, nat>, items: Items, steps: seq<Step>): Items
    decreases |steps|
  {
    if steps == [] then items else Run(caps, Apply(caps, items, steps[0]), steps[1..])
  }

  ghost predicate LegalRun(caps: map<string, nat>, items: Items, steps: seq<Step>)
    decreases |steps|
  {
    steps == [] || (Legal(items, steps[0]) && LegalRun(caps, Apply(caps, items, steps[0]), steps[1..]))
  }

  /** No task is lost, none changes what it is for, and complete and failed are final. */
  ghost predicate Evolves(items: Items, later: Items) {
    && items.order <= later.order
    && forall id :: id in items.tasks ==>
         id in later.tasks && later.tasks[id].agent == items.tasks[id].agent && later.tasks[id].dedupe == items.tasks[id].dedupe
         && later.tasks[id].attempts >= items.tasks[id].attempts
         && (!Active(items.tasks[id]) ==> later.tasks[id] == items.tasks[id])
  }

  predicate Rivals(a: Task, b: Task) {
    Active(a) && Active(b) && a.agent == b.agent && a.agent != "verification" && a.dedupe == b.dedupe && a.dedupe != ""
  }

  /** At most one active task per agent and key, the verification agent apart. */
  ghost predicate Deduplicated(items: Items) {
    forall a, b {:trigger Rivals(items.tasks[a], items.tasks[b])} :: a in items.tasks && b in items.tasks && a != b ==>
      !Rivals(items.tasks[a], items.tasks[b])
  }

  lemma {:induction false} DuplicateFound(items: Items, n: nat, agent: string, key: string)
    requires Valid(items) && n <= |items.order|
    ensures FindDuplicate(items, n, agent, key).None? ==>
      forall i :: 0 <= i < n ==> !(items.tasks[items.order[i]].agent == agent && items.tasks[items.order[i]].dedupe == key
                                  && Active(items.tasks[items.order[i]]))
  {
    if n > 0 { DuplicateFound(items, n - 1, agent, key); }
  }

  /** What one enqueued spec does. */
  lemma OneIsStored(items: Items, spec: Spec, id: string, now: int)
    requires Valid(items) && id !in items.tasks
    ensures var after := EnqueueOne(items, spec, id, now);
      if id in after.tasks then
        && after.order == items.order + [id] && after.tasks == items.tasks[id := after.tasks[id]]
        && StoredFor(after.tasks[id], spec, id, now)
        && (spec.agent != "verification" && spec.dedupe != "" ==> OnlyActive(after, id, spec))
      else after == items && spec.dedupe != "" && SomeActive(items, spec)
  {
    DuplicateIsFirstMatch(items, |items.order|, spec.agent, spec.dedupe);
    forall o | o in items.tasks ensures o in items.order {}
    if Suppressed(items, spec) {
      var i: nat :| FirstMatch(items, i, |items.order|, spec.agent, spec.dedupe);
      assert ActiveFor(items.tasks[items.order[i]], spec.agent, spec.dedupe);
    } else if spec.agent != "verification" && spec.dedupe != "" {
      forall o | o in items.tasks ensures !ActiveFor(items.tasks[o], spec.agent, spec.dedupe) {
        var i :| 0 <= i < |items.order| && items.order[i] == o;
        assert !MatchAt(items, i, spec.agent, spec.dedupe);
      }
    }
  }

  lemma RecoveryIsWritten(items: Items, now: int)
    ensures LapsedWait(items, Recovered(items, now), now)
  {}

  lemma ClaimIsWritten(items: Items, agent: string, worker: string, limit: nat, cap: nat, lease: int, now: int)
    ensures GrantedTo(items, ClaimMany(items, agent, worker, limit, cap, lease, now), Ids(Chosen(Recovered(items, now), agent, limit, cap)),
                      worker, now + lease, now)
  {}

  lemma {:induction false} BatchIsStored(items: Items, specs: seq<Spec>, ids: seq<string>, now: int)
    requires Valid(items) && Legal(items, DoEnqueue(specs, ids, now))
    ensures Enqueued(items, EnqueueAll(items, specs, ids, now), specs, ids, now)
  {
    if specs != [] {
      var n := |specs| - 1;
      var front, firsts, id := specs[..n], ids[..n], ids[n];
      assert ids == firsts + [id] && specs == front + [specs[n]];
      BatchIsStored(items, front, firsts, now);
      EnqueueKeeps(items, front, firsts, now);
      var m := EnqueueAll(items, front, firsts, now);
      assert id !in firsts && id !in items.tasks && id !in m.tasks;
      OneIsStored(m, specs[n], id, now);
      OneMoreStored(items, m, EnqueueOne(m, specs[n], id, now), front, firsts, specs[n], id, now);
    }
  }

  lemma OneMoreStored(items: Items, m: Items, after: Items, specs: seq<Spec>, ids: seq<string>, spec: Spec, id: string, now: int)
    requires |ids| == |specs| && Enqueued(items, m, specs, ids, now) && id !in m.tasks && id !in items.tasks && id !in ids
    requires if id in after.tasks then
               && after.order == m.order + [id] && after.tasks == m.tasks[id := after.tasks[id]]
               && StoredFor(after.tasks[id], spec, id, now)
               && (spec.agent != "verification" && spec.dedupe != "" ==> OnlyActive(after, id, spec))
             else after == m && spec.dedupe != "" && SomeActive(m, spec)
    ensures Enqueued(items, after, specs + [spec], ids + [id], now)
  {
    var specs', ids' := specs + [spec], ids + [id];
    forall o | o in after.tasks && o !in items.tasks ensures exists i :: 0 <= i < |ids'| && ids'[i] == o {
      if o == id {
        assert ids'[|ids|] == id;
      } else {
        var i :| 0 <= i < |ids| && ids[i] == o;
        assert ids'[i] == o;
      }
    }
    forall i | 0 <= i < |ids'| && ids'[i] in after.tasks && specs'[i].agent != "verification" && specs'[i].dedupe != ""
      ensures OnlyActive(after, ids'[i], specs'[i])
    {
      if i < |ids| { StillOnly(m, after, ids[i], specs[i], spec, id, now); }
    }
    forall i | 0 <= i < |ids'| && ids'[i] !in after.tasks ensures specs'[i].dedupe != "" && SomeActive(after, specs'[i]) {
      if i < |ids| {
        var o :| o in m.tasks && ActiveFor(m.tasks[o], specs[i].agent, specs[i].dedupe);
        assert o in after.tasks && after.tasks[o] == m.tasks[o];
      }
    }
  }

  lemma StillOnly(m: Items, after: Items, first: string, firstSpec: Spec, spec: Spec, id: string, now: int)
    requires first in m.tasks && OnlyActive(m, first, firstSpec) && StoredFor(m.tasks[first], firstSpec, first, now)
    requires firstSpec.agent != "verification" && firstSpec.dedupe != "" && id !in m.tasks
    requires if id in after.tasks then
               && after.tasks == m.tasks[id := after.tasks[id]] && StoredFor(after.tasks[id], spec, id, now)
               && (spec.agent != "verification" && spec.dedupe != "" ==> OnlyActive(after, id, spec))
             else after == m
    ensures OnlyActive(after, first, firstSpec)
  {
    assert first in after.tasks && after.tasks[first] == m.tasks[first];
    if id in after.tasks {
      assert first != id && ActiveFor(after.tasks[first], firstSpec.agent, firstSpec.dedupe);
      assert firstSpec.agent != spec.agent || firstSpec.dedupe != spec.dedupe;
    }
  }

  lemma EnqueueOneKeeps(items: Items, spec: Spec, id: string, now: int)
    requires Valid(items) && id !in items.tasks
    ensures var after := EnqueueOne(items, spec, id, now);
      Kept(items, after) && after.tasks.Keys <= items.tasks.Keys + {id}
  {
    DuplicateFound(items, |items.order|, spec.agent, spec.dedupe);
    var after := EnqueueOne(items, spec, id, now);
    if after != items {
      forall b | b in items.tasks ensures b in items.order && b != id {}
      assert after.order[|items.order|] == id;
      if Deduplicated(items) {
        forall a, b | a in after.tasks && b in after.tasks && a != b ensures !Rivals(after.tasks[a], after.tasks[b]) {
          if a != id && b != id {
            assert !Rivals(items.tasks[a], items.tasks[b]);
          } else {
            if spec.agent != "verification" && spec.dedupe != "" { NoRival(items, spec, if a == id then b else a); }
          }
        }
      }
    }
  }

  lemma NoRival(items: Items, spec: Spec, b: string)
    requires Valid(items) && b in items.tasks && !Suppressed(items, spec) && spec.agent != "verification" && spec.dedupe != ""
    ensures !(Active(items.tasks[b]) && items.tasks[b].agent == spec.agent && items.tasks[b].dedupe == spec.dedupe)
  {
    DuplicateFound(items, |items.order|, spec.agent, spec.dedupe);
    var i :| 0 <= i < |items.order| && items.order[i] == b;
  }

  lemma KeptTransitive(a: Items, b: Items, c: Items)
    requires Kept(a, b) && Kept(b, c)
    ensures Kept(a, c)
  {}

  lemma {:induction false} EnqueueKeeps(items: Items, specs: seq<Spec>, ids: seq<string>, now: int)
    requires Valid(items) && Legal(items, DoEnqueue(specs, ids, now))
    ensures var after := EnqueueAll(items, specs, ids, now);
      Kept(items, after) && forall id :: id in after.tasks ==> id in items.tasks || id in ids
  {
    if specs != [] {
      var n := |specs| - 1;
      EnqueueKeeps(items, specs[..n], ids[..n], now);
      var m := EnqueueAll(items, specs[..n], ids[..n], now);
      assert ids == ids[..n] + [ids[n]];
      EnqueueOneKeeps(m, specs[n], ids[n], now);
      KeptTransitive(items, m, EnqueueAll(items, specs, ids, now));
    }
  }

  lemma StepKeeps(caps: map<string, nat>, items: Items, step: Step)
    requires Valid(items) && Legal(items, step)
    ensures Kept(items, Apply(caps, items, step))
  {
    if step.DoEnqueue? {
      EnqueueKeeps(items, step.specs, step.ids, step.at);
    } else {
      StepMovesStatuses(caps, items, step);
      StatusOnlyKeeps(items, Apply(caps, items, step));
    }
  }

  /** What every step preserves. */
  ghost predicate Kept(items: Items, after: Items) {
    Valid(after) && Evolves(items, after) && (Deduplicated(items) ==> Deduplicated(after))
  }

  /** Only statuses and attempt counts move, and nothing finished changes. */
  ghost predicate StatusOnly(items: Items, after: Items) {
    after.order == items.order && after.tasks.Keys == items.tasks.Keys
    && forall id :: id in items.tasks ==>
         var t, u := items.tasks[id], after.tasks[id];
         u == t.(status := u.status, attempts := u.attempts) && u.attempts >= t.attempts && (!Active(t) ==> u == t)
  }

  lemma StatusOnlyKeeps(items: Items, after: Items)
    requires Valid(items) && StatusOnly(items, after)
    ensures Kept(items, after)
  {
    if Deduplicated(items) {
      forall a, b | a in after.tasks && b in after.tasks && a != b ensures !Rivals(after.tasks[a], after.tasks[b]) {
        assert !Rivals(items.tasks[a], items.tasks[b]);
      }
    }
  }

  /** Recovery followed by granting queued tasks moves statuses only. */
  lemma GrantMovesStatuses(items: Items, r: Items, ids: set<string>, worker: string, until: int, now: int, after: Items)
    requires r == Recovered(items, now) && after == Granted(r, ids, worker, until)
    requires forall id :: id in ids ==> id in r.tasks && r.tasks[id].status.Queued?
    ensures StatusOnly(items, after)
  {}

  lemma ClaimMovesStatuses(items: Items, agent: string, worker: string, limit: nat, cap: nat, lease: int, at: int)
    requires Valid(items)
    ensures StatusOnly(items, ClaimMany(items, agent, worker, limit, cap, lease, at))
  {
    var r := Recovered(items, at);
    RecoveredValid(items, at, r);
    ChosenIds(r, agent, limit, cap);
    GrantMovesStatuses(items, r, Ids(Chosen(r, agent, limit, cap)), worker, at + lease, at, ClaimMany(items, agent, worker, limit, cap, lease, at));
  }

  lemma ClaimOneMovesStatuses(items: Items, id: string, worker: string, lease: int, at: int)
    requires Valid(items)
    ensures StatusOnly(items, ClaimOne(items, id, worker, lease, at).0)
  {
    var (after, ok) := ClaimOne(items, id, worker, lease, at);
    if ok { GrantMovesStatuses(items, Recovered(items, at), {id}, worker, at + lease, at, after); }
  }

  lemma ReportMovesStatuses(items: Items, id: string, worker: string, status: Status)
    requires Valid(items)
    ensures StatusOnly(items, Report(items, id, worker, status).0)
  {}

  lemma StepMovesStatuses(caps: map<string, nat>, items: Items, step: Step)
    requires Valid(items) && !step.DoEnqueue?
    ensures StatusOnly(items, Apply(caps, items, step))
  {
    match step
    case DoClaim(agent, worker, limit, lease, at) =>
      if agent in caps { ClaimMovesStatuses(items, agent, worker, limit, caps[agent], lease, at); }
    case DoClaimTask(id, worker, lease, at) => ClaimOneMovesStatuses(items, id, worker, lease, at);
    case DoReport(id, worker, status) => ReportMovesStatuses(items, id, worker, status);
  }

  lemma ChosenIds(items: Items, agent: string, limit: nat, cap: nat)
    requires Valid(items)
    ensures var ids := Ids(Chosen(items, agent, limit, cap));
      (forall id :: id in ids ==> id in items.tasks && items.tasks[id].agent == agent && items.tasks[id].status.Queued?)
      && |ids| <= Available(items, agent, limit, cap)
  {
    ChosenAreCandidates(items, agent, limit, cap);
    IdCount(Chosen(items, agent, limit, cap));
  }

  /** Over every run: no task is lost, finished tasks stay as they are, and no two active tasks
      share an agent and a key, the verification agent apart. */
  lemma {:induction false} RunKeeps(caps: map<string, nat>, items: Items, steps: seq<Step>)
    requires Valid(items) && LegalRun(caps, items, steps)
    ensures var after := Run(caps, items, steps);
      Kept(items, after)
    decreases |steps|
  {
    if steps != [] {
      StepKeeps(caps, items, steps[0]);
      RunKeeps(caps, Apply(caps, items, steps[0]), steps[1..]);
    }
  }

  // ------------------------------------------------------------ verification tasks

  /** The task at position i is active and carries this agent and key. */
  predicate MatchAt(items: Items, i: nat, agent: string, key: string)
    requires i < |items.order|
  {
    var id := items.order[i];
    id in items.tasks && items.tasks[id].agent == agent && items.tasks[id].dedupe == key && Active(items.tasks[id])
  }

  ghost predicate FirstMatch(items: Items, i: nat, n: nat, agent: string, key: string)
    requires n <= |items.order|
  {
    i < n && MatchAt(items, i, agent, key) && forall j :: 0 <= j < i ==> !MatchAt(items, j, agent, key)
  }

  lemma {:induction false} DuplicateIsFirstMatch(items: Items, n: nat, agent: string, key: string)
    requires n <= |items.order|
    ensures var d := FindDuplicate(items, n, agent, key);
      && (d.None? <==> forall i :: 0 <= i < n ==> !MatchAt(items, i, agent, key))
      && (d.Some? ==> exists i: nat :: FirstMatch(items, i, n, agent, key) && d.value == items.tasks[items.order[i]])
  {
    if n > 0 {
      DuplicateIsFirstMatch(items, n - 1, agent, key);
      var before := FindDuplicate(items, n - 1, agent, key);
      if before.Some? {
        var i: nat :| FirstMatch(items, i, n - 1, agent, key) && before.value == items.tasks[items.order[i]];
        assert FirstMatch(items, i, n, agent, key);
      } else if MatchAt(items, n - 1, agent, key) {
        assert FirstMatch(items, n - 1, n, agent, key);
      }
    }
  }

  /** The incoming stage always reads as empty, so a verification task is suppressed exactly
      when the first active one with its key carries no stage, whatever stage it has itself. */
  lemma VerificationSuppressedExactlyWhen(items: Items, spec: Spec)
    requires spec.agent == "verification" && spec.dedupe != ""
    ensures Suppressed(items, spec)
            <==> exists i: nat :: FirstMatch(items, i, |items.order|, spec.agent, spec.dedupe) && items.tasks[items.order[i]].stage == ""
  {
    DuplicateIsFirstMatch(items, |items.order|, spec.agent, spec.dedupe);
    var d := FindDuplicate(items, |items.order|, spec.agent, spec.dedupe);
    if d.Some? {
      var i: nat :| FirstMatch(items, i, |items.order|, spec.agent, spec.dedupe) && d.value == items.tasks[items.order[i]];
      forall k: nat | FirstMatch(items, k, |items.order|, spec.agent, spec.dedupe) ensures k == i {}
    }
  }

  /** Active tasks of one agent with one key, the verification agent included. */
  predicate Twins(a: Task, b: Task) {
    Active(a) && Active(b) && a.agent == b.agent && a.dedupe == b.dedupe && a.dedupe != ""
  }

  ghost predicate AllUnique(items: Items) {
    forall a, b {:trigger Twins(items.tasks[a], items.tasks[b])} :: a in items.tasks && b in items.tasks && a != b ==>
      !Twins(items.tasks[a], items.tasks[b])
  }

  /** The task is a verification task, and an active one with its key carries a stage. */
  ghost predicate StagedTwin(items: Items, spec: Spec) {
    spec.agent == "verification" && spec.dedupe != ""
    && exists i: nat :: i < |items.order| && MatchAt(items, i, spec.agent, spec.dedupe) && items.tasks[items.order[i]].stage != ""
  }

  /** An enqueued task becomes the twin of an active one exactly when it is a verification task
      and the active verification task with its key carries a stage. */
  lemma UniqueKeptExactlyWhen(items: Items, spec: Spec, id: string, now: int)
    requires Valid(items) && AllUnique(items) && id !in items.tasks
    ensures AllUnique(EnqueueOne(items, spec, id, now)) <==> !StagedTwin(items, spec)
  {
    DuplicateIsFirstMatch(items, |items.order|, spec.agent, spec.dedupe);
    var d := FindDuplicate(items, |items.order|, spec.agent, spec.dedupe);
    if spec.dedupe != "" && d.Some? {
      var i: nat :| FirstMatch(items, i, |items.order|, spec.agent, spec.dedupe) && d.value == items.tasks[items.order[i]];
      MatchDecides(items, spec, id, now, i);
    } else {
      NewTaskIsUnique(items, spec, id, now);
    }
  }

  lemma MatchDecides(items: Items, spec: Spec, id: string, now: int, i: nat)
    requires Valid(items) && AllUnique(items) && id !in items.tasks && spec.dedupe != ""
    requires i < |items.order| && MatchAt(items, i, spec.agent, spec.dedupe)
    requires FindDuplicate(items, |items.order|, spec.agent, spec.dedupe) == Some(items.tasks[items.order[i]])
    ensures AllUnique(EnqueueOne(items, spec, id, now)) <==> !StagedTwin(items, spec)
  {
    OnlyMatch(items, i, spec.agent, spec.dedupe);
    var after := EnqueueOne(items, spec, id, now);
    assert items.order[i] in items.tasks;
    if !Suppressed(items, spec) { assert Twins(after.tasks[id], after.tasks[items.order[i]]); }
  }

  lemma OnlyMatch(items: Items, i: nat, agent: string, key: string)
    requires Valid(items) && AllUnique(items) && i < |items.order| && MatchAt(items, i, agent, key) && key != ""
    ensures forall j :: 0 <= j < |items.order| && MatchAt(items, j, agent, key) ==> j == i
  {
    forall j | 0 <= j < |items.order| && MatchAt(items, j, agent, key) ensures j == i {
      assert Twins(items.tasks[items.order[i]], items.tasks[items.order[j]]);
    }
  }

  lemma NewTaskIsUnique(items: Items, spec: Spec, id: string, now: int)
    requires Valid(items) && AllUnique(items) && id !in items.tasks
    requires spec.dedupe == "" || forall i :: 0 <= i < |items.order| ==> !MatchAt(items, i, spec.agent, spec.dedupe)
    ensures AllUnique(EnqueueOne(items, spec, id, now))
  {
    var after := EnqueueOne(items, spec, id, now);
    forall a, b | a in after.tasks && b in after.tasks && a != b ensures !Twins(after.tasks[a], after.tasks[b]) {
      if a in items.tasks && b in items.tasks {
        assert !Twins(items.tasks[a], items.tasks[b]);
      } else if after != items && spec.dedupe != "" {
        var other := if a == id then b else a;
        assert other in items.order;
        var i :| 0 <= i < |items.order| && items.order[i] == other;
        assert !MatchAt(items, i, spec.agent, spec.dedupe);
      }
    }
  }

  /** No verification task carries a stage. */
  ghost predicate Stageless(items: Items) {
    forall id :: id in items.tasks && items.tasks[id].agent == "verification" ==> items.tasks[id].stage == ""
  }

  predicate StagelessStep(step: Step) {
    step.DoEnqueue? ==> forall spec | spec in step.specs :: spec.agent == "verification" ==> spec.stage == ""
  }

  lemma {:induction false} EnqueueKeepsUnique(items: Items, specs: seq<Spec>, ids: seq<string>, now: int)
    requires Valid(items) && Legal(items, DoEnqueue(specs, ids, now)) && AllUnique(items) && Stageless(items)
    requires StagelessStep(DoEnqueue(specs, ids, now))
    ensures var after := EnqueueAll(items, specs, ids, now); AllUnique(after) && Stageless(after)
  {
    if specs != [] {
      var n := |specs| - 1;
      EnqueueKeepsUnique(items, specs[..n], ids[..n], now);
      EnqueueKeeps(items, specs[..n], ids[..n], now);
      var m := EnqueueAll(items, specs[..n], ids[..n], now);
      assert ids == ids[..n] + [ids[n]] && specs[n] in specs;
      OneKeepsUnique(m, specs[n], ids[n], now);
    }
  }

  lemma OneKeepsUnique(items: Items, spec: Spec, id: string, now: int)
    requires Valid(items) && AllUnique(items) && Stageless(items) && id !in items.tasks
    requires spec.agent == "verification" ==> spec.stage == ""
    ensures AllUnique(EnqueueOne(items, spec, id, now)) && Stageless(EnqueueOne(items, spec, id, now))
  {
    UniqueKeptExactlyWhen(items, spec, id, now);
  }

  /** Statuses move, but nothing finished becomes active again. */
  lemma StatusOnlyKeepsUnique(items: Items, after: Items)
    requires StatusOnly(items, after) && AllUnique(items) && Stageless(items)
    ensures AllUnique(after) && Stageless(after)
  {
    forall a, b | a in after.tasks && b in after.tasks && a != b ensures !Twins(after.tasks[a], after.tasks[b]) {
      assert !Twins(items.tasks[a], items.tasks[b]);
    }
  }

  /** While no verification task is enqueued with a stage, no two active tasks share an agent
      and a key in any run, the verification agent included. */
  lemma {:induction false} RunKeepsUnique(caps: map<string, nat>, items: Items, steps: seq<Step>)
    requires Valid(items) && LegalRun(caps, items, steps) && AllUnique(items) && Stageless(items)
    requires forall i :: 0 <= i < |steps| ==> StagelessStep(steps[i])
    ensures AllUnique(Run(caps, items, steps))
    decreases |steps|
  {
    if steps != [] {
      StepKeeps(caps, items, steps[0]);
      if steps[0].DoEnqueue? {
        EnqueueKeepsUnique(items, steps[0].specs, steps[0].ids, steps[0].at);
      } else {
        StepMovesStatuses(caps, items, steps[0]);
        StatusOnlyKeepsUnique(items, Apply(caps, items, steps[0]));
      }
      RunKeepsUnique(caps, Apply(caps, items, steps[0]), steps[1..]);
    }
  }

  /** With a stage the same verification task is stored twice. */
  lemma VerificationIsNotDeduplicated(items: Items, spec: Spec, id: string, now: int)
    requires Valid(items) && id !in items.tasks && spec.agent == "verification" && spec.dedupe != "" && spec.stage != ""
    requires FindDuplicate(items, |items.order|, "verification", spec.dedupe) == None
    ensures var once := EnqueueOne(items, spec, id, now);
      forall other, at :: other !in once.tasks ==> other in EnqueueOne(once, spec, other, at).tasks
  {
    var once := EnqueueOne(items, spec, id, now);
    assert once.order[|items.order|] == id;
    SameDuplicate(items, once, |items.order|, "verification", spec.dedupe);
    assert FindDuplicate(once, |once.order|, "verification", spec.dedupe) == Some(once.tasks[id]);
  }

  lemma {:induction false} SameDuplicate(items: Items, later: Items, n: nat, agent: string, key: string)
    requires n <= |items.order| && items.order <= later.order
    requires forall i :: 0 <= i < n ==> items.order[i] in items.tasks && items.order[i] in later.tasks
                                         && later.tasks[items.order[i]] == items.tasks[items.order[i]]
    ensures FindDuplicate(items, n, agent, key) == FindDuplicate(later, n, agent, key)
  {
    if n > 0 { SameDuplicate(items, later, n - 1, agent, key); }
  }

  // ------------------------------------------------------------------------ caps

  ghost predicate WithinCaps(caps: map<string, nat>, items: Items) {
    forall agent {:trigger RunningOf(items, agent)} :: agent in caps ==> |RunningOf(items, agent)| <= caps[agent]
  }

  lemma {:induction false} EnqueueRuns(items: Items, specs: seq<Spec>, ids: seq<string>, now: int, agent: string)
    requires Valid(items) && Legal(items, DoEnqueue(specs, ids, now))
    ensures RunningOf(EnqueueAll(items, specs, ids, now), agent) == RunningOf(items, agent)
  {
    if specs != [] {
      var n := |specs| - 1;
      EnqueueKeeps(items, specs[..n], ids[..n], now);
      EnqueueRuns(items, specs[..n], ids[..n], now, agent);
      assert ids[n] !in ids[..n];
    }
  }

  /** A `claim_task` that would go through leaves room for its agent. */
  ghost predicate CapGuard(caps: map<string, nat>, items: Items, step: Step) {
    step.DoClaimTask? && ClaimOne(items, step.id, step.worker, step.lease, step.at).1 ==>
      var r := Recovered(items, step.at);
      r.tasks[step.id].agent in caps ==> |RunningOf(r, r.tasks[step.id].agent)| < caps[r.tasks[step.id].agent]
  }

  /** A step keeps every agent within its cap exactly when it is not a `claim_task` for an agent
      that already runs its cap. */
  lemma CapsKeptExactlyWhen(caps: map<string, nat>, items: Items, step: Step)
    requires Valid(items) && Legal(items, step) && WithinCaps(caps, items)
    ensures WithinCaps(caps, Apply(caps, items, step)) <==> CapGuard(caps, items, step)
  {
    if step.DoClaimTask? {
      ClaimTaskCaps(caps, items, step.id, step.worker, step.lease, step.at);
    } else {
      OthersKeepCaps(caps, items, step);
    }
  }

  lemma ClaimTaskCaps(caps: map<string, nat>, items: Items, id: string, worker: string, lease: int, at: int)
    requires Valid(items) && WithinCaps(caps, items)
    ensures WithinCaps(caps, ClaimOne(items, id, worker, lease, at).0) <==> CapGuard(caps, items, DoClaimTask(id, worker, lease, at))
  {
    var (after, ok) := ClaimOne(items, id, worker, lease, at);
    if ok {
      var r := Recovered(items, at);
      var mine := r.tasks[id].agent;
      ClaimTaskIgnoresCap(items, id, worker, lease, at, if mine in caps then caps[mine] else 0);
      forall agent | agent in caps && agent != mine ensures |RunningOf(after, agent)| <= caps[agent] {
        Subsets(RunningOf(r, agent), RunningOf(items, agent));
        assert |RunningOf(items, agent)| <= caps[agent];
      }
      if mine in caps { assert |RunningOf(after, mine)| <= caps[mine] <==> |RunningOf(r, mine)| < caps[mine]; }
    }
  }

  lemma OthersKeepCaps(caps: map<string, nat>, items: Items, step: Step)
    requires Valid(items) && Legal(items, step) && WithinCaps(caps, items) && !step.DoClaimTask?
    ensures WithinCaps(caps, Apply(caps, items, step))
  {
    var after := Apply(caps, items, step);
    forall agent | agent in caps ensures |RunningOf(after, agent)| <= caps[agent] {
      assert |RunningOf(items, agent)| <= caps[agent];
      match step
      case DoEnqueue(specs, ids, at) => EnqueueRuns(items, specs, ids, at, agent);
      case DoClaim(mine, worker, limit, lease, at) =>
        if mine in caps {
          if mine == agent {
            ClaimRespectsCap(items, agent, worker, limit, caps[agent], lease, at);
          } else {
            OtherAgentsUntouched(items, mine, agent, worker, limit, caps[mine], lease, at);
            Subsets(RunningOf(after, agent), RunningOf(items, agent));
          }
        }
      case DoReport(_, _, _) => Subsets(RunningOf(after, agent), RunningOf(items, agent));
    }
  }

  ghost predicate CapGuarded(caps: map<string, nat>, items: Items, steps: seq<Step>)
    decreases |steps|
  {
    steps == [] || (CapGuard(caps, items, steps[0]) && CapGuarded(caps, Apply(caps, items, steps[0]), steps[1..]))
  }

  /** While no `claim_task` goes to an agent at its cap, no agent ever runs more than its cap. */
  lemma {:induction false} RunKeepsCaps(caps: map<string, nat>, items: Items, steps: seq<Step>)
    requires Valid(items) && LegalRun(caps, items, steps) && WithinCaps(caps, items) && CapGuarded(caps, items, steps)
    ensures WithinCaps(caps, Run(caps, items, steps))
    decreases |steps|
  {
    if steps != [] {
      StepKeeps(caps, items, steps[0]);
      CapsKeptExactlyWhen(caps, items, steps[0]);
      RunKeepsCaps(caps, Apply(caps, items, steps[0]), steps[1..]);
    }
  }

  // --------------------------------------------------------------------- ownership

  /** The step grants this task to this worker. */
  ghost predicate GrantsTo(caps: map<string, nat>, items: Items, step: Step, id: string, worker: string) {
    match step
    case DoClaim(agent, w, limit, lease, at) =>
      w == worker && agent in caps && id in Ids(Chosen(Recovered(items, at), agent, limit, caps[agent]))
    case DoClaimTask(i, w, lease, at) => w == worker && i == id && ClaimOne(items, i, w, lease, at).1
    case _ => false
  }

  ghost predicate NeverGranted(caps: map<string, nat>, items: Items, steps: seq<Step>, id: string, worker: string)
    decreases |steps|
  {
    steps == [] || (!GrantsTo(caps, items, steps[0], id, worker)
                    && NeverGranted(caps, Apply(caps, items, steps[0]), steps[1..], id, worker))
  }

  /** A worker that does not hold a task, because it was recovered or claimed by another, can
      not finish, retry or extend it until that very task is granted to it again, whatever else
      it claims. */
  lemma {:induction false} LostTaskStaysLost(caps: map<string, nat>, items: Items, steps: seq<Step>, id: string, worker: string, status: Status)
    requires Valid(items) && LegalRun(caps, items, steps) && !Holds(items, id, worker)
    requires NeverGranted(caps, items, steps, id, worker)
    ensures var after := Run(caps, items, steps);
      !Holds(after, id, worker) && Report(after, id, worker, status) == (after, false)
    decreases |steps|
  {
    if steps != [] {
      StepKeeps(caps, items, steps[0]);
      HeldExactlyWhenGranted(caps, items, steps[0], id, worker);
      LostTaskStaysLost(caps, Apply(caps, items, steps[0]), steps[1..], id, worker, status);
    }
  }

  /** A step makes a worker the holder of a task it did not hold exactly when it grants it. */
  lemma HeldExactlyWhenGranted(caps: map<string, nat>, items: Items, step: Step, id: string, worker: string)
    requires Valid(items) && Legal(items, step) && !Holds(items, id, worker)
    ensures Holds(Apply(caps, items, step), id, worker) <==> GrantsTo(caps, items, step, id, worker)
  {
    match step
    case DoClaim(agent, _, limit, _, at) =>
      if agent in caps { RecoveredValid(items, at, Recovered(items, at)); ChosenIds(Recovered(items, at), agent, limit, caps[agent]); }
    case DoEnqueue(specs, ids, at) =>
      var after := Apply(caps, items, step);
      if id in after.tasks && after.tasks[id].status.Running? {
        var agent := after.tasks[id].agent;
        EnqueueRuns(items, specs, ids, at, agent);
        assert id in RunningOf(after, agent);
        EnqueueSame(items, specs, ids, at, id);
      }
    case _ =>
  }

  lemma {:induction false} EnqueueSame(items: Items, specs: seq<Spec>, ids: seq<string>, now: int, id: string)
    requires Valid(items) && Legal(items, DoEnqueue(specs, ids, now)) && id in items.tasks
    ensures var after := EnqueueAll(items, specs, ids, now); id in after.tasks && after.tasks[id] == items.tasks[id]
  {
    if specs != [] {
      var n := |specs| - 1;
      EnqueueSame(items, specs[..n], ids[..n], now, id);
    }
  }

  /** What the worker id alone does not rule out: the same worker claiming again is taken for
      the holder of its earlier, lapsed lease, and a lapsed lease that nobody recovered still
      finishes. */
  lemma LeaseTokensAreIgnored(items: Items, id: string, worker: string, lease: int, at: int)
    requires Valid(items) && Holds(items, id, worker) && items.tasks[id].status.until <= at
    ensures Report(items, id, worker, Complete).1
    ensures var again := ClaimOne(items, id, worker, lease, at);
      again.1 && again.0.tasks[id].attempts == items.tasks[id].attempts + 1 && Report(again.0, id, worker, Complete).1
  {}
}
