/** The two-phase loops of recovery: `recover_expired_tasks` and `reconcile_fabric` first
    update all the rows of a batch and only then give back what those rows held.  These lemmas
    show that this equals finishing one row after the other. */
module Batches {
  import opened Base
  import opened LeaseState

  /** The attempt a recovered task pointed at, as read before it was changed. */
  type Snapshot = Option<(string, Attempt)>

  function AttemptOf(s: State, t: string): Snapshot {
    if t in s.tasks && s.tasks[t].attempt.Some? && s.tasks[t].attempt.value in s.attempts
       && s.attempts[s.tasks[t].attempt.value].task == t
    then Some((s.tasks[t].attempt.value, s.attempts[s.tasks[t].attempt.value]))
    else None
  }

  function FreeRow(allocs: map<AllocationId, AllocationState>, row: Snapshot): map<AllocationId, AllocationState> {
    if row.None? then allocs
    else FreeAllocation(allocs, row.value.1.allocation, row.value.1.task, row.value.0, row.value.1.generation)
  }

  function GiveRow(workers: map<string, Worker>, row: Snapshot): map<string, Worker> {
    if row.None? || FabricId(row.value.1.worker) then workers else GiveSlot(workers, row.value.1.worker)
  }

  function FreeRows(allocs: map<AllocationId, AllocationState>, rows: seq<Snapshot>): map<AllocationId, AllocationState> {
    if rows == [] then allocs else FreeRow(FreeRows(allocs, rows[..|rows| - 1]), rows[|rows| - 1])
  }

  function GiveRows(workers: map<string, Worker>, rows: seq<Snapshot>): map<string, Worker> {
    if rows == [] then workers else GiveRow(GiveRows(workers, rows[..|rows| - 1]), rows[|rows| - 1])
  }

  /** Expiring a row gives back exactly what its snapshot held. */
  lemma ExpireOneGivesBack(s: State, t: string)
    requires Lapsed(s, t)
    ensures ExpireOne(s, t).allocs == FreeRow(s.allocs, AttemptOf(s, t))
    ensures ExpireOne(s, t).workers == GiveRow(s.workers, AttemptOf(s, t))
  {
    if AttemptOf(s, t).Some? {
      var a := AttemptOf(s, t).value.0;
      var m := ExpireAttempt(Requeue(s, t), a);
      assert m.attempts[a] == s.attempts[a].(status := m.attempts[a].status, acceptance := m.attempts[a].acceptance);
      assert ExpireOne(s, t) == FenceResources(m, a);
    }
  }

  /** Row updates do not look at allocations or slots. */
  lemma ExpireRowsOnly(s: State, c: State, t: string)
    requires c == s.(allocs := c.allocs, workers := c.workers)
    ensures var r, q := ExpireOne(s, t), ExpireOne(c, t);
      r.tasks == q.tasks && r.attempts == q.attempts && r.parts == q.parts
  {
    if Lapsed(s, t) && AttemptOf(s, t).Some? {
      var a := AttemptOf(s, t).value.0;
      var m, n := ExpireAttempt(Requeue(s, t), a), ExpireAttempt(Requeue(c, t), a);
      assert m.attempts == n.attempts && m.parts == n.parts;
      assert ExpireOne(s, t) == FenceResources(m, a) && ExpireOne(c, t) == FenceResources(n, a);
    }
  }

  lemma ExpireOneLocal(s: State, u: string, t: string)
    requires u != t
    ensures Lapsed(ExpireOne(s, u), t) == Lapsed(s, t) && AttemptOf(ExpireOne(s, u), t) == AttemptOf(s, t)
  {
    if Lapsed(s, u) && AttemptOf(s, u).Some? {
      var a := AttemptOf(s, u).value.0;
      var m := ExpireAttempt(Requeue(s, u), a);
      assert ExpireOne(s, u) == FenceResources(m, a);
      assert m.attempts[a].task == u && forall b :: b in s.attempts && b != a ==> m.attempts[b] == s.attempts[b];
    }
  }

  /** A row not yet reached is as it was read. */
  lemma {:induction false} ExpireAllLocal(s: State, order: seq<string>, t: string)
    requires t !in order
    ensures Lapsed(ExpireAll(s, order), t) == Lapsed(s, t) && AttemptOf(ExpireAll(s, order), t) == AttemptOf(s, t)
  {
    if order != [] {
      ExpireAllLocal(s, order[..|order| - 1], t);
      ExpireOneLocal(ExpireAll(s, order[..|order| - 1]), order[|order| - 1], t);
    }
  }

  lemma ExpireNext(s: State, order: seq<string>, i: nat)
    requires Distinct(order) && i < |order| && Lapsed(s, order[i])
    ensures var m := ExpireAll(s, order[..i]);
      ExpireAll(s, order[..i + 1]) == ExpireOne(m, order[i])
      && Lapsed(m, order[i]) && AttemptOf(m, order[i]) == AttemptOf(s, order[i])
  {
    assert order[..i + 1][..i] == order[..i];
    ExpireAllLocal(s, order[..i], order[i]);
  }

  /** Giving back a whole batch after its rows are written equals giving back row by row. */
  lemma {:induction false} ExpireAllGivesBack(s: State, order: seq<string>, rows: seq<Snapshot>)
    requires Distinct(order) && (forall t :: t in order ==> Lapsed(s, t))
    requires |rows| == |order| && forall j :: 0 <= j < |order| ==> rows[j] == AttemptOf(s, order[j])
    ensures ExpireAll(s, order).allocs == FreeRows(s.allocs, rows)
    ensures ExpireAll(s, order).workers == GiveRows(s.workers, rows)
  {
    if order != [] {
      var front, last := order[..|order| - 1], |order| - 1;
      assert order[last] in order && forall t :: t in front ==> t in order;
      ExpireAllGivesBack(s, front, rows[..last]);
      ExpireAllLocal(s, front, order[last]);
      ExpireOneGivesBack(ExpireAll(s, front), order[last]);
    }
  }

  // -------------------------------------------------------------- reconciliation

  lemma ReconcileOneGivesBack(s: State, a: string)
    requires Current(s, a)
    ensures ReconcileOne(s, a).allocs == FreeRow(s.allocs, Some((a, s.attempts[a])))
    ensures ReconcileOne(s, a).workers == GiveRow(s.workers, Some((a, s.attempts[a])))
  {
    var m := FenceRows(s, a);
    assert m.attempts[a] == s.attempts[a].(status := Failed, acceptance := Rejected);
    assert m.allocs == s.allocs && m.workers == s.workers;
  }

  lemma ReconcileRowsOnly(s: State, c: State, a: string)
    requires c == s.(allocs := c.allocs, workers := c.workers) && Current(s, a)
    ensures Current(c, a)
    ensures var r, q := ReconcileOne(s, a), FenceRows(c, a);
      r.tasks == q.tasks && r.attempts == q.attempts && r.parts == q.parts
  {}

  lemma {:induction false} ReconcileAllLocal(s: State, order: seq<string>, b: string)
    requires b !in order && b in s.attempts
    ensures b in ReconcileAll(s, order).attempts && ReconcileAll(s, order).attempts[b] == s.attempts[b]
  {
    if order != [] {
      ReconcileAllLocal(s, order[..|order| - 1], b);
      var m, a := ReconcileAll(s, order[..|order| - 1]), order[|order| - 1];
      if Current(m, a) { assert FenceRows(m, a).attempts[b] == m.attempts[b]; }
    }
  }
}
