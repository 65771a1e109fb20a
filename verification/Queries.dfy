/** The ordered reads of the task table: what `ORDER BY created_at,task_id` returns, and the
    paged scan and the 100-row window that claims read through it. */
module Queries {
  import opened Base
  import opened LeaseState

  /** Rows of the task table in query order, each once. */
  ghost predicate Ordered(tasks: map<string, Task>, rows: seq<string>) {
    (forall i :: 0 <= i < |rows| ==> rows[i] in tasks)
    && forall i, j :: 0 <= i < j < |rows| ==> Before(tasks, rows[i], rows[j])
  }

  ghost predicate Lists(tasks: map<string, Task>, keep: set<string>, rows: seq<string>) {
    Ordered(tasks, rows) && forall t :: t in rows <==> t in keep
  }

  lemma BeforeIsStrict(tasks: map<string, Task>, t: string, u: string, v: string)
    requires t in tasks && u in tasks && v in tasks
    ensures t == u || Before(tasks, t, u) || Before(tasks, u, t)
    ensures !(Before(tasks, t, u) && Before(tasks, u, t)) && !Before(tasks, t, t)
    ensures Before(tasks, t, u) && Before(tasks, u, v) ==> Before(tasks, t, v)
  {
    TextLessTotal(t, u);
    if TextLess(t, u) && TextLess(u, v) { TextLessTransitive(t, u, v); }
  }

  lemma FirstRow(rows: seq<string>)
    ensures rows != [] ==> rows[0] in rows
  {}

  /** The order has no ties, so a query has one answer. */
  lemma {:induction false} OneAnswer(tasks: map<string, Task>, keep: set<string>, xs: seq<string>, ys: seq<string>)
    requires Lists(tasks, keep, xs) && Lists(tasks, keep, ys)
    ensures xs == ys
    decreases |xs|
  {
    if xs == [] {
      FirstRow(ys);
    } else {
      assert xs[0] in keep;
      assert ys != [];
      assert ys[0] in keep && xs[0] in ys && ys[0] in xs;
      var i :| 0 <= i < |ys| && ys[i] == xs[0];
      var j :| 0 <= j < |xs| && xs[j] == ys[0];
      BeforeIsStrict(tasks, xs[0], ys[0], xs[0]);
      assert i == 0;
      DropFirst(tasks, keep, xs);
      DropFirst(tasks, keep, ys);
      OneAnswer(tasks, keep - {xs[0]}, xs[1..], ys[1..]);
    }
  }

  lemma DropFirst(tasks: map<string, Task>, keep: set<string>, xs: seq<string>)
    requires Lists(tasks, keep, xs) && xs != []
    ensures Lists(tasks, keep - {xs[0]}, xs[1..])
  {
    forall i | 0 < i < |xs| ensures xs[i] != xs[0] { BeforeIsStrict(tasks, xs[0], xs[i], xs[0]); }
    forall t ensures t in xs[1..] <==> t in keep - {xs[0]} {
      assert t in xs <==> t in keep;
      if t in xs[1..] {
        var i :| 0 <= i < |xs[1..]| && xs[1..][i] == t;
        assert xs[i + 1] == t;
      }
    }
  }

  /** Insert one more row where the order wants it. */
  method Insert(tasks: map<string, Task>, rows: seq<string>, t: string) returns (out: seq<string>)
    requires Ordered(tasks, rows) && t in tasks && t !in rows
    ensures Ordered(tasks, out) && forall u :: u in out <==> u == t || u in rows
  {
    var i := 0;
    while i < |rows| && Before(tasks, rows[i], t)
      invariant 0 <= i <= |rows|
      invariant forall k :: 0 <= k < i ==> Before(tasks, rows[k], t)
    {
      i := i + 1;
    }
    forall k | i <= k < |rows| ensures Before(tasks, t, rows[k]) {
      BeforeIsStrict(tasks, t, rows[i], rows[k]);
    }
    out := rows[..i] + [t] + rows[i..];
    assert rows == rows[..i] + rows[i..];
  }

  /** Row t was created before u or, at the same time, has the smaller id. */
  ghost predicate CreatedBefore(tasks: map<string, Task>, t: string, u: string) {
    t in tasks && u in tasks
    && (tasks[t].createdAt < tasks[u].createdAt || (tasks[t].createdAt == tasks[u].createdAt && TextLess(t, u)))
  }

  /** `SELECT ... ORDER BY created_at,task_id` over the rows in `keep`. */
  method Select(tasks: map<string, Task>, keep: set<string>) returns (rows: seq<string>)
    requires keep <= tasks.Keys
    ensures Lists(tasks, keep, rows)
    ensures forall i, j :: 0 <= i < j < |rows| ==> CreatedBefore(tasks, rows[i], rows[j])
  {
    rows := [];
    var rest := keep;
    while rest != {}
      invariant rest <= keep && Ordered(tasks, rows)
      invariant forall t :: t in rows <==> t in keep - rest
      decreases rest
    {
      var t :| t in rest;
      rows := Insert(tasks, rows, t);
      rest := rest - {t};
    }
  }

  function QueuedRows(tasks: map<string, Task>): (r: set<string>)
    ensures r <= tasks.Keys
  {
    set t | t in tasks && Waiting(tasks, t)
  }

  function PageOf(all: seq<string>, offset: nat): seq<string> {
    if offset >= |all| then [] else if |all| - offset <= 100 then all[offset..] else all[offset..offset + 100]
  }

  /** `... WHERE status='queued' ORDER BY created_at,task_id LIMIT 100 OFFSET offset`. */
  method QueuedPage(tasks: map<string, Task>, offset: nat) returns (page: seq<string>)
    ensures exists all :: Lists(tasks, QueuedRows(tasks), all) && page == PageOf(all, offset)
  {
    var rows := Select(tasks, QueuedRows(tasks));
    page := PageOf(rows, offset);
  }

  /** Everything listed before row i is a waiting task before it, and conversely. */
  lemma ListedBefore(tasks: map<string, Task>, keep: set<string>, rows: seq<string>, i: nat, u: string)
    requires Lists(tasks, keep, rows) && i < |rows| && u in keep && u in tasks && Before(tasks, u, rows[i])
    ensures exists k :: 0 <= k < i && rows[k] == u
  {
    assert u in rows;
    var k :| 0 <= k < |rows| && rows[k] == u;
    BeforeIsStrict(tasks, rows[i], u, rows[i]);
  }

  /** The paged scan of `claim`: pages of 100 rows until one row is supported or none are left.
      A row whose capabilities are malformed raises.  It finds the first supported waiting task
      in (created_at, task_id) order, however many pages that takes. */
  method ScanQueue(tasks: map<string, Task>, caps: set<string>) returns (pick: Pick)
    ensures PickIs(tasks, caps, pick)
  {
    var offset: nat := 0;
    pick := NoTask;
    ghost var first := true;
    ghost var all: seq<string> := [];
    while pick.NoTask?
      invariant first ==> offset == 0
      invariant !first ==> Lists(tasks, QueuedRows(tasks), all) && offset <= |all|
      invariant !first && pick.NoTask? ==> forall k :: 0 <= k < offset ==> Skipped(caps, tasks[all[k]].payload)
      invariant !pick.NoTask? ==> PickIs(tasks, caps, pick)
      decreases pick.NoTask?, first, |all| - offset
    {
      var page := QueuedPage(tasks, offset);
      ghost var now :| Lists(tasks, QueuedRows(tasks), now) && page == PageOf(now, offset);
      if !first { OneAnswer(tasks, QueuedRows(tasks), all, now); }
      first, all := false, now;
      if page == [] { break; }
      var i := 0;
      while i < |page| && pick.NoTask?
        invariant 0 <= i <= |page|
        invariant pick.NoTask? ==> forall k :: 0 <= k < offset + i ==> Skipped(caps, tasks[all[k]].payload)
        invariant !pick.NoTask? ==> PickIs(tasks, caps, pick)
      {
        assert page[i] == all[offset + i];
        assert page[i] in all;
        var payload := tasks[page[i]].payload;
        if !Skipped(caps, payload) {
          forall u | Waiting(tasks, u) && Before(tasks, u, page[i]) ensures Skipped(caps, tasks[u].payload) {
            ListedBefore(tasks, QueuedRows(tasks), all, offset + i, u);
          }
          pick := if payload.caps.Malformed? then Poisoned(page[i]) else Chosen(page[i]);
        }
        i := i + 1;
      }
      offset := offset + |page|;
    }
    if pick.NoTask? {
      forall u | Waiting(tasks, u) ensures Skipped(caps, tasks[u].payload) {
        assert u in QueuedRows(tasks) && u in all;
      }
    }
  }

  function MentioningRows(tasks: map<string, Task>): (r: set<string>)
    ensures r <= tasks.Keys
  {
    set t | t in tasks && Waiting(tasks, t) && Mentions(tasks[t].payload)
  }

  /** As many rows mention requirements before row i of the listing as i says. */
  lemma MentionedIsIndex(tasks: map<string, Task>, rows: seq<string>, i: nat)
    requires Lists(tasks, MentioningRows(tasks), rows) && i < |rows|
    ensures MentionedBefore(tasks, rows[i]) == i
  {
    var before := set u | u in tasks && Waiting(tasks, u) && Mentions(tasks[u].payload) && Before(tasks, u, rows[i]);
    forall u ensures u in before <==> u in rows[..i] {
      if u in before {
        ListedBefore(tasks, MentioningRows(tasks), rows, i, u);
      }
      if u in rows[..i] {
        var k :| 0 <= k < i && rows[k] == u;
        assert rows[k] in rows && Before(tasks, rows[k], rows[i]);
      }
    }
    forall j, k | 0 <= j < k < i ensures rows[..i][j] != rows[..i][k] { BeforeIsStrict(tasks, rows[j], rows[k], rows[j]); }
    DistinctCount(rows[..i], before);
  }

  lemma {:induction false} DistinctCount(xs: seq<string>, members: set<string>)
    requires Distinct(xs) && forall x :: x in members <==> x in xs
    ensures |members| == |xs|
  {
    if xs == [] {
      assert members == {};
    } else {
      var front, last := xs[..|xs| - 1], xs[|xs| - 1];
      assert xs == front + [last];
      DistinctCount(front, members - {last});
    }
  }

  /** The selection of `claim_physical`: the first of at most 100 rows mentioning requirements
      whose requirements parse. */
  method PickPhysical(tasks: map<string, Task>) returns (pick: Pick)
    ensures PhysicalPickIs(tasks, pick)
  {
    var listed := Select(tasks, MentioningRows(tasks));
    var rows := if |listed| <= 100 then listed else listed[..100];
    var i := 0;
    while i < |rows| && !tasks[rows[i]].payload.compute.Requirements?
      invariant 0 <= i <= |rows|
      invariant forall k :: 0 <= k < i ==> !tasks[listed[k]].payload.compute.Requirements?
    {
      i := i + 1;
    }
    pick := if i < |rows| then Chosen(rows[i]) else NoTask;
    if i < |rows| {
      assert listed[i] in listed;
      MentionedIsIndex(tasks, listed, i);
      forall u | Waiting(tasks, u) && Before(tasks, u, rows[i]) ensures !tasks[u].payload.compute.Requirements? {
        if Mentions(tasks[u].payload) { ListedBefore(tasks, MentioningRows(tasks), listed, i, u); }
      }
    } else {
      forall u | Waiting(tasks, u) && tasks[u].payload.compute.Requirements? ensures MentionedBefore(tasks, u) >= 100 {
        assert u in MentioningRows(tasks) && u in listed;
        var k :| 0 <= k < |listed| && listed[k] == u;
        MentionedIsIndex(tasks, listed, k);
      }
    }
  }
}
