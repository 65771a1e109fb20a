/** The execution metric table and the two performance caches kept beside it: one summary per
    path and one per workload, recomputed when a verification reports samples. */
module Metrics {
  import opened Base
  import opened Sorting
  import LaunchPlan

  datatype Kind = ByPath | ByWorkload

  datatype Metric = Metric(path: string, workload: string, elapsed: real, at: real, transport: Option<string>)

  datatype Summary = Summary(count: nat, total: real, least: real, greatest: real, average: real,
                             lastAt: real, transport: Option<string>, last: real)

  /** A reported sample under its metric id, "attempt:generation:worker:rank". */
  datatype Sample = Sample(id: string, metric: Metric)

  function KeyOf(m: Metric, kind: Kind): string {
    match kind case ByPath => m.path case ByWorkload => m.workload
  }

  function Rows(table: map<string, Metric>, kind: Kind, key: string): set<string> {
    set i | i in table && KeyOf(table[i], kind) == key
  }

  /** The metric table and its two caches. */
  datatype Store = Store(table: map<string, Metric>, paths: map<string, Summary>, workloads: map<string, Summary>) {
    function Cache(kind: Kind): map<string, Summary> { match kind case ByPath => paths case ByWorkload => workloads }
  }

  const EMPTY := Store(map[], map[], map[])

  // --------------------------------------------------- recomputation over the table

  ghost function Total(table: map<string, Metric>, ids: set<string>): real
    requires ids <= table.Keys
  {
    if ids == {} then 0.0 else var i :| i in ids; table[i].elapsed + Total(table, ids - {i})
  }

  /** The total does not depend on the order rows are visited in. */
  lemma {:induction false} TotalSplits(table: map<string, Metric>, ids: set<string>, i: string)
    requires ids <= table.Keys && i in ids
    ensures Total(table, ids) == table[i].elapsed + Total(table, ids - {i})
    decreases ids
  {
    var j :| j in ids && Total(table, ids) == table[j].elapsed + Total(table, ids - {j});
    if i != j {
      TotalSplits(table, ids - {j}, i);
      TotalSplits(table, ids - {i}, j);
      assert ids - {i} - {j} == ids - {j} - {i};
    }
  }

  /** Every transport the rows name. */
  function Transports(table: map<string, Metric>, ids: set<string>): set<string>
    requires ids <= table.Keys
  {
    set i | i in ids && table[i].transport.Some? && table[i].transport.value != "" :: table[i].transport.value
  }

  /** The summary a recomputation over these rows gives, apart from `last`. */
  ghost predicate SummaryOf(s: Summary, table: map<string, Metric>, ids: set<string>)
    requires ids <= table.Keys
  {
    && s.count == |ids| > 0
    && s.total == Total(table, ids) && s.average * s.count as real == s.total
    && (forall i :: i in ids ==> s.least <= table[i].elapsed <= s.greatest && table[i].at <= s.lastAt)
    && (exists i :: i in ids && table[i].elapsed == s.least)
    && (exists i :: i in ids && table[i].elapsed == s.greatest)
    && (exists i :: i in ids && table[i].at == s.lastAt)
    && (s.transport.Some? <==> |Transports(table, ids)| == 1)
    && (s.transport.Some? ==> Transports(table, ids) == {s.transport.value})
  }

  /** `ORDER BY observed_at DESC, metric_id DESC LIMIT 1`. */
  ghost predicate Newest(table: map<string, Metric>, ids: set<string>, i: string)
    requires ids <= table.Keys
  {
    i in ids && forall j :: j in ids && j != i ==>
      table[j].at < table[i].at || (table[j].at == table[i].at && TextLess(j, i))
  }

  // ----------------------------------------------------------------- evidence

  /** What a probe says about its duration: nothing usable, not a number, or an amount. */
  datatype Elapsed = Missing | NotANumber | Amount(value: real)

  /** A GPU of the launch contract: its process rank and its uuid. */
  type BindingKey = (int, string)

  /** The evidence of one process.  `sound`: its shape, probe and fabric checks pass. */
  datatype Evidence = Evidence(rank: int, gpu: string, sound: bool, elapsed: Elapsed, path: string, workload: string,
                               transport: Option<string>) {
    function Key(): BindingKey { (rank, gpu) }

    predicate Kept() { elapsed.NotANumber? || (elapsed.Amount? && elapsed.value > 0.0) }
  }

  datatype Outcome = Refused | Raised | Stored

  function KeysOf(bindings: seq<LaunchPlan.Binding>): set<BindingKey> {
    set b | b in bindings :: (b.rank as int, b.uuid)
  }

  function EvidenceKeys(evidence: seq<Evidence>): set<BindingKey> { set e | e in evidence :: e.Key() }

  /** The report is about exactly the planned bindings, with one sound piece of evidence each. */
  ghost predicate Accepted(reported: set<BindingKey>, evidence: seq<Evidence>, bindings: seq<LaunchPlan.Binding>) {
    && reported == KeysOf(bindings) == EvidenceKeys(evidence)
    && (forall e :: e in evidence ==> e.sound)
    && forall i, j :: 0 <= i < j < |evidence| ==> evidence[i].Key() != evidence[j].Key()
  }

  /** The process and GPU of a reported pair is planned, or evidence was given for it. */
  ghost predicate PlannedPair(bindings: seq<LaunchPlan.Binding>, rank: int, gpu: string) {
    exists b :: b in bindings && b.rank == rank && b.uuid == gpu
  }

  ghost predicate EvidencedPair(evidence: seq<Evidence>, rank: int, gpu: string) {
    exists e :: e in evidence && e.rank == rank && e.gpu == gpu
  }

  /** Accepted: the reported pairs of rank and GPU are the planned ones and those with evidence, all
      of it sound and no two pieces about the same rank and GPU. */
  lemma AcceptedExactlyWhen(reported: set<BindingKey>, evidence: seq<Evidence>, bindings: seq<LaunchPlan.Binding>)
    ensures Accepted(reported, evidence, bindings) <==>
      && (forall rank, gpu :: (rank, gpu) in reported <==> PlannedPair(bindings, rank, gpu))
      && (forall rank, gpu :: (rank, gpu) in reported <==> EvidencedPair(evidence, rank, gpu))
      && (forall e :: e in evidence ==> e.sound)
      && forall i, j :: 0 <= i < j < |evidence| ==> evidence[i].rank != evidence[j].rank || evidence[i].gpu != evidence[j].gpu
  {
    forall rank, gpu ensures (rank, gpu) in KeysOf(bindings) <==> PlannedPair(bindings, rank, gpu) {}
    forall rank, gpu ensures (rank, gpu) in EvidenceKeys(evidence) <==> EvidencedPair(evidence, rank, gpu) {
      if (rank, gpu) in EvidenceKeys(evidence) {
        var e :| e in evidence && e.Key() == (rank, gpu);
        assert e.rank == rank && e.gpu == gpu;
      }
      if e :| e in evidence && e.rank == rank && e.gpu == gpu { assert e.Key() == (rank, gpu); }
    }
    SameKeys(reported, KeysOf(bindings));
    SameKeys(reported, EvidenceKeys(evidence));
  }

  lemma SameKeys(a: set<BindingKey>, b: set<BindingKey>)
    ensures a == b <==> forall rank, gpu :: (rank, gpu) in a <==> (rank, gpu) in b
  {
    if forall rank, gpu :: (rank, gpu) in a <==> (rank, gpu) in b {
      forall k ensures k in a <==> k in b { assert k == (k.0, k.1); }
    }
  }

  predicate AllNumbers(evidence: seq<Evidence>) { forall e | e in evidence :: !e.elapsed.NotANumber? }

  function Digits(n: nat): string {
    if n < 10 then ["0123456789"[n]] else Digits(n / 10) + ["0123456789"[n % 10]]
  }

  function Decimal(n: int): string { if n < 0 then "-" + Digits(-n) else Digits(n) }

  function Measured(evidence: seq<Evidence>): (kept: seq<Evidence>)
    ensures forall e :: e in kept <==> e in evidence && e.Kept()
  {
    if evidence == [] then []
    else
      var front, last := Measured(evidence[..|evidence| - 1]), evidence[|evidence| - 1];
      if last.Kept() then front + [last] else front
  }

  /** `sorted(key=(rank, gpu_uuid))`. */
  predicate RankLess(a: Evidence, b: Evidence) { a.rank < b.rank || (a.rank == b.rank && TextLess(a.gpu, b.gpu)) }

  /** The metrics of accepted evidence under their ids "attempt:generation:worker:rank". */
  function SamplesOf(prefix: string, evidence: seq<Evidence>, at: real): seq<Sample> {
    var kept := Sorted(RankLess, Measured(evidence));
    seq(|kept|, i requires 0 <= i < |kept| => SampleOf(prefix, kept[i], at))
  }

  function SampleOf(prefix: string, e: Evidence, at: real): Sample {
    Sample(prefix + ":" + Decimal(e.rank), Metric(e.path, e.workload, if e.elapsed.Amount? then e.elapsed.value else 0.0, at, e.transport))
  }

  lemma {:induction false} DigitsArePrinted(n: nat)
    ensures Digits(n) == LaunchPlan.Printed(n)
  {
    if n >= 10 { DigitsArePrinted(n / 10); }
  }

  /** The sample of one positive duration: filed under the process it was measured on, with its own
      path, workload, amount and transport, as of the report. */
  ghost predicate SampleFor(x: Sample, prefix: string, e: Evidence, at: real) {
    && e.elapsed.Amount? && e.elapsed.value > 0.0
    && x.id == prefix + ":" + (if e.rank < 0 then "-" + LaunchPlan.Printed(-e.rank) else LaunchPlan.Printed(e.rank))
    && x.metric.path == e.path && x.metric.workload == e.workload && x.metric.elapsed == e.elapsed.value
    && x.metric.at == at && x.metric.transport == e.transport
  }

  /** Readable evidence gives one sample for each positive duration and no others. */
  lemma SamplesAreMeasured(prefix: string, evidence: seq<Evidence>, at: real)
    requires AllNumbers(evidence)
    ensures forall x :: x in SamplesOf(prefix, evidence, at) ==> exists e :: e in evidence && SampleFor(x, prefix, e, at)
    ensures forall e :: e in evidence && e.elapsed.Amount? && e.elapsed.value > 0.0 ==>
      exists x :: x in SamplesOf(prefix, evidence, at) && SampleFor(x, prefix, e, at)
  {
    var kept := Sorted(RankLess, Measured(evidence));
    RankOrder();
    SortedIsSorted(RankLess, Measured(evidence));
    SameElements(kept, Measured(evidence));
    var samples := SamplesOf(prefix, evidence, at);
    forall i | 0 <= i < |kept| ensures kept[i] in evidence && SampleFor(samples[i], prefix, kept[i], at) {
      assert kept[i] in kept && kept[i].Kept();
      DigitsArePrinted(if kept[i].rank < 0 then -kept[i].rank else kept[i].rank);
    }
    forall x | x in samples ensures exists e :: e in evidence && SampleFor(x, prefix, e, at) {
      var i :| 0 <= i < |samples| && samples[i] == x;
      assert kept[i] in evidence;
    }
    forall e | e in evidence && e.elapsed.Amount? && e.elapsed.value > 0.0
      ensures exists x :: x in samples && SampleFor(x, prefix, e, at)
    {
      assert e in kept;
      var i :| 0 <= i < |kept| && kept[i] == e;
      assert samples[i] in samples;
    }
  }

  // ---------------------------------------------------------------- recording

  function Upserted(table: map<string, Metric>, reported: seq<Sample>): map<string, Metric> {
    if reported == [] then table
    else Upserted(table, reported[..|reported| - 1])[reported[|reported| - 1].id := reported[|reported| - 1].metric]
  }

  function Affected(reported: seq<Sample>, kind: Kind): set<string> {
    set x | x in reported && KeyOf(x.metric, kind) != "" :: KeyOf(x.metric, kind)
  }

  /** A path's summary is over the rows that carry the path and is refreshed by reports that name
      it, and so for workloads. */
  lemma KeysAreColumns(table: map<string, Metric>, reported: seq<Sample>, key: string)
    ensures forall i :: i in Rows(table, ByPath, key) <==> i in table && table[i].path == key
    ensures forall i :: i in Rows(table, ByWorkload, key) <==> i in table && table[i].workload == key
    ensures key in Affected(reported, ByPath) <==> key != "" && exists x :: x in reported && x.metric.path == key
    ensures key in Affected(reported, ByWorkload) <==> key != "" && exists x :: x in reported && x.metric.workload == key
  {}

  /** What the upsert leaves in `last`: the newest sample when the key was cached before, but
      the greatest one when it was not. */
  ghost predicate LastIs(s: Summary, table: map<string, Metric>, ids: set<string>, cached: bool)
    requires ids <= table.Keys
  {
    if cached then exists i :: Newest(table, ids, i) && s.last == table[i].elapsed else s.last == s.greatest
  }

  ghost predicate Refreshed(before: map<string, Summary>, after: map<string, Summary>, table: map<string, Metric>,
                            kind: Kind, keys: set<string>)
  {
    && after.Keys == before.Keys + keys
    && (forall k :: k in before && k !in keys ==> after[k] == before[k])
    && (forall k :: k in keys ==> SummaryOf(after[k], table, Rows(table, kind, k))
                                  && LastIs(after[k], table, Rows(table, kind, k), k in before))
  }

  /** A report was recorded: its samples are written and the named keys refreshed. */
  ghost predicate Recorded(before: Store, reported: seq<Sample>, after: Store) {
    && after.table == Upserted(before.table, reported)
    && Refreshed(before.paths, after.paths, after.table, ByPath, Affected(reported, ByPath))
    && Refreshed(before.workloads, after.workloads, after.table, ByWorkload, Affected(reported, ByWorkload))
  }

  /** Running figures over the rows visited so far. */
  ghost predicate Tally(table: map<string, Metric>, ids: set<string>, count: nat, total: real, least: real, greatest: real, lastAt: real)
    requires ids <= table.Keys
  {
    && count == |ids| > 0 && total == Total(table, ids)
    && (forall i :: i in ids ==> least <= table[i].elapsed <= greatest && table[i].at <= lastAt)
    && (exists i :: i in ids && table[i].elapsed == least)
    && (exists i :: i in ids && table[i].elapsed == greatest)
    && (exists i :: i in ids && table[i].at == lastAt)
  }

  function Min(x: real, y: real): real { if y < x then y else x }

  function Max(x: real, y: real): real { if y > x then y else x }

  lemma TallyMore(table: map<string, Metric>, ids: set<string>, count: nat, total: real, least: real, greatest: real, lastAt: real, i: string)
    requires ids <= table.Keys && i in table && i !in ids && Tally(table, ids, count, total, least, greatest, lastAt)
    ensures var m := table[i];
      Tally(table, ids + {i}, count + 1, total + m.elapsed, Min(least, m.elapsed), Max(greatest, m.elapsed), Max(lastAt, m.at))
  {
    TotalSplits(table, ids + {i}, i);
    assert ids + {i} - {i} == ids;
    var a :| a in ids && table[a].elapsed == least;
    var b :| b in ids && table[b].elapsed == greatest;
    var c :| c in ids && table[c].at == lastAt;
    var more := ids + {i};
    assert a in more && b in more && c in more && i in more;
  }

  /** One pass over the rows of a key: COUNT, SUM, MIN, MAX, AVG and the transports. */
  method Aggregate(table: map<string, Metric>, kind: Kind, key: string) returns (r: Option<Summary>)
    ensures r.None? <==> Rows(table, kind, key) == {}
    ensures r.Some? ==> SummaryOf(r.value, table, Rows(table, kind, key)) && r.value.last == r.value.greatest
  {
    var ids := Rows(table, kind, key);
    if ids == {} { return None; }
    var count, total, least, greatest, lastAt := TallyAll(table, ids);
    var transport := OnlyTransport(Transports(table, ids));
    r := Some(Summary(count, total, least, greatest, total / count as real, lastAt, transport, greatest));
  }

  method TallyAll(table: map<string, Metric>, ids: set<string>) returns (count: nat, total: real, least: real, greatest: real, lastAt: real)
    requires ids <= table.Keys && ids != {}
    ensures Tally(table, ids, count, total, least, greatest, lastAt)
  {
    var first :| first in ids;
    var seen := {first};
    var m := table[first];
    count, total, least, greatest, lastAt := 1, m.elapsed, m.elapsed, m.elapsed, m.at;
    TotalSplits(table, {first}, first);
    while ids - seen != {}
      invariant seen <= ids && Tally(table, seen, count, total, least, greatest, lastAt)
      decreases ids - seen
    {
      var i :| i in ids - seen;
      TallyMore(table, seen, count, total, least, greatest, lastAt, i);
      count, total := count + 1, total + table[i].elapsed;
      least, greatest, lastAt := Min(least, table[i].elapsed), Max(greatest, table[i].elapsed), Max(lastAt, table[i].at);
      seen := seen + {i};
    }
    assert seen == ids;
  }

  /** `next(iter(transports)) if len(transports) == 1 else None`. */
  method OnlyTransport(named: set<string>) returns (transport: Option<string>)
    ensures transport.Some? <==> |named| == 1
    ensures transport.Some? ==> named == {transport.value}
  {
    transport := None;
    if |named| == 1 {
      var t :| t in named;
      SingleMember(named, t);
      transport := Some(t);
    }
  }

  lemma SingleMember(s: set<string>, x: string)
    requires |s| == 1 && x in s
    ensures s == {x}
  {
    assert |s - {x}| == 0;
  }

  /** The newest row of a key that has rows. */
  method NewestElapsed(table: map<string, Metric>, ids: set<string>) returns (last: real)
    requires ids != {} && ids <= table.Keys
    ensures exists i :: Newest(table, ids, i) && last == table[i].elapsed
  {
    var best :| best in ids;
    var rest := ids - {best};
    while rest != {}
      invariant rest <= ids && Newest(table, ids - rest, best)
      decreases rest
    {
      var i :| i in rest;
      TextLessTotal(i, best);
      var seen := ids - rest;
      var old_ := best;
      if table[i].at > table[best].at || (table[i].at == table[best].at && TextLess(best, i)) { best := i; }
      rest := rest - {i};
      forall j | j in ids - rest && j != best
        ensures table[j].at < table[best].at || (table[j].at == table[best].at && TextLess(j, best))
      {
        if j != i && best == i && TextLess(j, old_) && TextLess(old_, i) { TextLessTransitive(j, old_, i); }
      }
    }
    assert ids - rest == ids;
    last := table[best].elapsed;
  }

  lemma RefreshMore(before: map<string, Summary>, cache: map<string, Summary>, table: map<string, Metric>, kind: Kind,
                    done: set<string>, k: string, s: Summary)
    requires Refreshed(before, cache, table, kind, done) && k !in done
    requires SummaryOf(s, table, Rows(table, kind, k)) && LastIs(s, table, Rows(table, kind, k), k in before)
    ensures Refreshed(before, cache[k := s], table, kind, done + {k})
  {}

  /** The row one upsert writes. */
  method RefreshKey(table: map<string, Metric>, kind: Kind, k: string, cached: bool) returns (r: Option<Summary>)
    ensures r.None? <==> Rows(table, kind, k) == {}
    ensures r.Some? ==> SummaryOf(r.value, table, Rows(table, kind, k)) && LastIs(r.value, table, Rows(table, kind, k), cached)
  {
    r := Aggregate(table, kind, k);
    if r.Some? && cached {
      var last := NewestElapsed(table, Rows(table, kind, k));
      r := Some(r.value.(last := last));
    }
  }

  class FabricMetrics {
    var table: map<string, Metric>
    var paths: map<string, Summary>
    var workloads: map<string, Summary>

    function View(): Store
      reads this
    {
      Store(table, paths, workloads)
    }

    constructor ()
      ensures View() == EMPTY
    {
      table, paths, workloads := map[], map[], map[];
    }

    /** Recompute the summaries of the affected keys.  A key without rows raises: its SUM is
        NULL. */
    static method Refresh(table: map<string, Metric>, before: map<string, Summary>, kind: Kind, keys: set<string>)
      returns (after: Option<map<string, Summary>>)
      ensures after.Some? <==> forall k :: k in keys ==> Rows(table, kind, k) != {}
      ensures after.Some? ==> Refreshed(before, after.value, table, kind, keys)
    {
      var cache := before;
      var done: set<string> := {};
      while keys - done != {}
        invariant done <= keys && forall k :: k in done ==> Rows(table, kind, k) != {}
        invariant Refreshed(before, cache, table, kind, done)
        decreases keys - done
      {
        var k :| k in keys - done;
        var s := RefreshKey(table, kind, k, k in before);
        if s.None? { return None; }
        RefreshMore(before, cache, table, kind, done, k, s.value);
        cache := cache[k := s.value];
        done := done + {k};
      }
      assert done == keys;
      after := Some(cache);
    }

    /** The metric part of recording one verification: write every sample, then refresh the
        summaries of the workloads and of the paths it names; a raise rolls everything back. */
    method Record(reported: seq<Sample>) returns (ok: bool)
      modifies this
      ensures ok <==> forall kind, k :: k in Affected(reported, kind) ==> Rows(Upserted(old(table), reported), kind, k) != {}
      ensures if ok then Recorded(old(View()), reported, View()) else View() == old(View())
    {
      var written := table;
      var i := 0;
      while i < |reported|
        invariant 0 <= i <= |reported| && written == Upserted(table, reported[..i])
      {
        assert reported[..i + 1][..i] == reported[..i];
        written := written[reported[i].id := reported[i].metric];
        i := i + 1;
      }
      assert reported[..i] == reported;
      var workloads' := Refresh(written, workloads, ByWorkload, Affected(reported, ByWorkload));
      if workloads'.None? { return false; }
      var paths' := Refresh(written, paths, ByPath, Affected(reported, ByPath));
      if paths'.None? { return false; }
      table, workloads, paths := written, workloads'.value, paths'.value;
      ok := true;
    }

    /** The evidence check over the participant's planned bindings. */
    static method CheckEvidence(reported: set<BindingKey>, evidence: seq<Evidence>, bindings: seq<LaunchPlan.Binding>)
      returns (ok: bool)
      ensures ok <==> Accepted(reported, evidence, bindings)
    {
      var expected := KeysOf(bindings);
      DistinctKeysCount(evidence);
      if reported != expected || |evidence| != |expected| { return false; }
      var seen: set<BindingKey> := {};
      var i := 0;
      while i < |evidence|
        invariant 0 <= i <= |evidence| && seen == EvidenceKeys(evidence[..i])
        invariant forall j :: 0 <= j < i ==> evidence[j].sound && evidence[j].Key() in expected
        invariant forall j, k :: 0 <= j < k < i ==> evidence[j].Key() != evidence[k].Key()
      {
        var key := evidence[i].Key();
        assert evidence[i] in evidence && key in EvidenceKeys(evidence);
        EvidenceKeysGrow(evidence, i);
        if !evidence[i].sound || key in seen || key !in expected { return false; }
        seen := seen + {key};
        i := i + 1;
      }
      assert evidence[..i] == evidence;
      ok := seen == expected;
    }

    /** Recording one participant's verification: check the evidence against the launch plan,
        then record its positive durations.  A duration that is not a number breaks the NOT
        NULL constraint of the table and raises; a named key without rows never comes up. */
    method RecordVerification(prefix: string, reported: set<BindingKey>, evidence: seq<Evidence>, bindings: seq<LaunchPlan.Binding>,
                              at: real, ghost node: LaunchPlan.Node, ghost base: nat) returns (out: Outcome)
      requires LaunchPlan.Planned(bindings, node, base)
      modifies this
      ensures out.Refused? <==> !Accepted(reported, evidence, bindings)
      ensures out.Raised? <==> Accepted(reported, evidence, bindings) && !AllNumbers(evidence)
      ensures if out.Stored? then Recorded(old(View()), SamplesOf(prefix, evidence, at), View()) else View() == old(View())
    {
      var accepted := CheckEvidence(reported, evidence, bindings);
      if !accepted { return Refused; }
      if !AllNumbers(evidence) { return Raised; }
      AcceptedEvidenceNeverRaises(table, prefix, reported, evidence, bindings, node, base, at);
      var recorded := Record(SamplesOf(prefix, evidence, at));
      assert recorded;
      out := Stored;
    }
  }

  // ------------------------------------------------------------------ agreement

  /** The cache is what a recomputation over the whole table would give. */
  ghost predicate Agrees(table: map<string, Metric>, cache: map<string, Summary>, kind: Kind) {
    forall k :: k != "" ==>
      (k in cache <==> Rows(table, kind, k) != {}) && (k in cache ==> SummaryOf(cache[k], table, Rows(table, kind, k)))
  }

  /** No row is overwritten away from a key the report does not refresh. */
  ghost predicate NoRowMovesAway(table: map<string, Metric>, reported: seq<Sample>, kind: Kind) {
    forall x :: x in reported && x.id in table && KeyOf(table[x.id], kind) != "" ==>
      KeyOf(table[x.id], kind) in Affected(reported, kind)
  }

  lemma {:induction false} UpsertedRows(table: map<string, Metric>, reported: seq<Sample>)
    ensures var t := Upserted(table, reported);
      (forall i :: i in t ==> Sample(i, t[i]) in reported || (i in table && t[i] == table[i]))
      && (forall i :: i in table ==> i in t)
      && (forall x :: x in reported ==> x.id in t && Sample(x.id, t[x.id]) in reported)
  {
    if reported != [] {
      var front, last := reported[..|reported| - 1], reported[|reported| - 1];
      assert reported == front + [last];
      UpsertedRows(table, front);
    }
  }

  /** Rows of a key the report does not name: those of before, less the overwritten ones. */
  lemma UnnamedRows(table: map<string, Metric>, reported: seq<Sample>, kind: Kind, k: string)
    requires k != "" && k !in Affected(reported, kind)
    ensures var t := Upserted(table, reported);
      && Rows(t, kind, k) <= Rows(table, kind, k)
      && (forall i :: i in Rows(t, kind, k) ==> t[i] == table[i])
      && (forall i :: i in Rows(table, kind, k) - Rows(t, kind, k) ==> exists x :: x in reported && x.id == i)
      && (forall x :: x in reported ==> x.id !in Rows(t, kind, k))
  {
    UpsertedRows(table, reported);
  }

  lemma {:induction false} SameTotal(t: map<string, Metric>, u: map<string, Metric>, ids: set<string>)
    requires ids <= t.Keys && ids <= u.Keys && forall i :: i in ids ==> t[i] == u[i]
    ensures Total(t, ids) == Total(u, ids)
    decreases ids
  {
    if ids != {} {
      var i :| i in ids;
      TotalSplits(t, ids, i);
      TotalSplits(u, ids, i);
      SameTotal(t, u, ids - {i});
    }
  }

  /** Whole-table agreement survives a recorded report exactly when no sample overwrites a row
      of a path (workload) that the report itself does not name: the caches of the named keys
      are recomputed, those of every other key are left as they were. */
  lemma AgreementKeptExactlyWhen(table: map<string, Metric>, cache: map<string, Summary>, after: map<string, Summary>,
                                 reported: seq<Sample>, kind: Kind)
    requires Agrees(table, cache, kind)
    requires Refreshed(cache, after, Upserted(table, reported), kind, Affected(reported, kind))
    ensures Agrees(Upserted(table, reported), after, kind) <==> NoRowMovesAway(table, reported, kind)
  {
    if NoRowMovesAway(table, reported, kind) {
      var t := Upserted(table, reported);
      forall k | k != ""
        ensures (k in after <==> Rows(t, kind, k) != {}) && (k in after ==> SummaryOf(after[k], t, Rows(t, kind, k)))
      {
        if k !in Affected(reported, kind) { UnnamedKeyAgrees(table, cache, after, reported, kind, k); }
      }
    } else {
      MovedRowDisagrees(table, cache, after, reported, kind);
    }
  }

  lemma UnnamedRowsStay(table: map<string, Metric>, reported: seq<Sample>, kind: Kind, k: string)
    requires k != "" && k !in Affected(reported, kind) && NoRowMovesAway(table, reported, kind)
    ensures var ids := Rows(Upserted(table, reported), kind, k);
      ids == Rows(table, kind, k) && forall i :: i in ids ==> Upserted(table, reported)[i] == table[i]
  {
    UnnamedRows(table, reported, kind, k);
    forall i | i in Rows(table, kind, k) ensures i in Rows(Upserted(table, reported), kind, k) {
      var lost := Rows(table, kind, k) - Rows(Upserted(table, reported), kind, k);
      assert i in lost || i in Rows(Upserted(table, reported), kind, k);
    }
  }

  lemma UnnamedKeyAgrees(table: map<string, Metric>, cache: map<string, Summary>, after: map<string, Summary>,
                         reported: seq<Sample>, kind: Kind, k: string)
    requires Agrees(table, cache, kind) && NoRowMovesAway(table, reported, kind)
    requires Refreshed(cache, after, Upserted(table, reported), kind, Affected(reported, kind))
    requires k != "" && k !in Affected(reported, kind)
    ensures var ids := Rows(Upserted(table, reported), kind, k);
      (k in after <==> ids != {}) && (k in after ==> SummaryOf(after[k], Upserted(table, reported), ids))
  {
    var t := Upserted(table, reported);
    UnnamedRowsStay(table, reported, kind, k);
    if k in cache { SameSummary(cache[k], table, t, Rows(t, kind, k)); }
  }

  lemma MovedRowDisagrees(table: map<string, Metric>, cache: map<string, Summary>, after: map<string, Summary>,
                          reported: seq<Sample>, kind: Kind)
    requires Agrees(table, cache, kind) && !NoRowMovesAway(table, reported, kind)
    requires Refreshed(cache, after, Upserted(table, reported), kind, Affected(reported, kind))
    ensures !Agrees(Upserted(table, reported), after, kind)
  {
    var t := Upserted(table, reported);
    var x :| x in reported && x.id in table && KeyOf(table[x.id], kind) != "" && KeyOf(table[x.id], kind) !in Affected(reported, kind);
    var k := KeyOf(table[x.id], kind);
    UnnamedRows(table, reported, kind, k);
    assert x.id in Rows(table, kind, k) && x.id !in Rows(t, kind, k);
    SmallerSet(Rows(t, kind, k), Rows(table, kind, k), x.id);
    assert k in cache && after[k] == cache[k] && after[k].count == |Rows(table, kind, k)|;
  }

  lemma SmallerSet(a: set<string>, b: set<string>, x: string)
    requires a <= b && x in b && x !in a
    ensures |a| < |b|
  {
    var rest := b - {x} - a;
    assert b == a + rest + {x};
  }

  lemma SameSummary(s: Summary, t: map<string, Metric>, u: map<string, Metric>, ids: set<string>)
    requires ids <= t.Keys && ids <= u.Keys && forall i :: i in ids ==> t[i] == u[i]
    requires SummaryOf(s, t, ids)
    ensures SummaryOf(s, u, ids)
  {
    SameTotal(t, u, ids);
    assert Transports(t, ids) == Transports(u, ids);
    var a :| a in ids && t[a].elapsed == s.least;
    var b :| b in ids && t[b].elapsed == s.greatest;
    var c :| c in ids && t[c].at == s.lastAt;
    assert u[a].elapsed == s.least && u[b].elapsed == s.greatest && u[c].at == s.lastAt;
  }

  /** A re-report of a row names the key the row already has. */
  ghost predicate KeepsKeys(table: map<string, Metric>, reported: seq<Sample>, kind: Kind) {
    forall x :: x in reported && x.id in table ==> KeyOf(table[x.id], kind) == KeyOf(x.metric, kind)
  }

  /** Re-reports of the same metric ids that keep their keys keep both caches in agreement. */
  lemma StableReportsKeepAgreement(table: map<string, Metric>, cache: map<string, Summary>, after: map<string, Summary>,
                                   reported: seq<Sample>, kind: Kind)
    requires Agrees(table, cache, kind)
    requires Refreshed(cache, after, Upserted(table, reported), kind, Affected(reported, kind))
    requires KeepsKeys(table, reported, kind)
    ensures Agrees(Upserted(table, reported), after, kind)
  {
    AgreementKeptExactlyWhen(table, cache, after, reported, kind);
  }

  // ------------------------------------------------------------------------- runs

  /** A run of reports from the empty database; a refused or raising one changes nothing. */
  ghost predicate Trace(states: seq<Store>, reports: seq<seq<Sample>>) {
    && |states| == |reports| + 1 && states[0] == EMPTY
    && forall i {:trigger reports[i]} :: 0 <= i < |reports| ==> states[i + 1] == states[i] || Recorded(states[i], reports[i], states[i + 1])
  }

  ghost predicate AgreesAt(states: seq<Store>, i: nat, kind: Kind)
    requires i < |states|
  {
    Agrees(states[i].table, states[i].Cache(kind), kind)
  }

  /** Report i of the run, if it was recorded, moves no row away from a key it does not name. */
  ghost predicate Moveless(states: seq<Store>, reports: seq<seq<Sample>>, i: nat, kind: Kind)
    requires i < |reports| < |states|
  {
    Recorded(states[i], reports[i], states[i + 1]) ==> NoRowMovesAway(states[i].table, reports[i], kind)
  }

  lemma StepAgreement(states: seq<Store>, reports: seq<seq<Sample>>, i: nat, kind: Kind)
    requires Trace(states, reports) && i < |reports| && AgreesAt(states, i, kind)
    ensures AgreesAt(states, i + 1, kind) <==> Moveless(states, reports, i, kind)
  {
    assert reports[i] == reports[i];
    if Recorded(states[i], reports[i], states[i + 1]) {
      AgreementKeptExactlyWhen(states[i].table, states[i].Cache(kind), states[i + 1].Cache(kind), reports[i], kind);
    }
  }

  /** Over a whole run, a cache agrees with its table throughout if and only if no recorded
      report moved a row away from a key it did not name. */
  lemma {:induction false} RunAgreesExactlyWhen(states: seq<Store>, reports: seq<seq<Sample>>, kind: Kind, n: nat)
    requires Trace(states, reports) && n <= |reports|
    ensures (forall i :: 0 <= i <= n ==> AgreesAt(states, i, kind)) <==> (forall i :: 0 <= i < n ==> Moveless(states, reports, i, kind))
  {
    if n > 0 {
      RunAgreesExactlyWhen(states, reports, kind, n - 1);
      if AgreesAt(states, n - 1, kind) { StepAgreement(states, reports, n - 1, kind); }
    }
  }

  /** Whenever a metric id is reported again, it is reported under the same key. */
  ghost predicate KeysKept(reports: seq<seq<Sample>>, kind: Kind) {
    forall i, j, x, y :: 0 <= i <= j < |reports| && x in reports[i] && y in reports[j] && x.id == y.id ==>
      KeyOf(x.metric, kind) == KeyOf(y.metric, kind)
  }

  /** Every row was written by some report. */
  lemma {:induction false} RowsAreReported(states: seq<Store>, reports: seq<seq<Sample>>, n: nat, id: string)
    requires Trace(states, reports) && n <= |reports| && id in states[n].table
    ensures exists i :: 0 <= i < n && Sample(id, states[n].table[id]) in reports[i]
  {
    if n > 0 {
      assert reports[n - 1] == reports[n - 1];
      if states[n] == states[n - 1] {
        RowsAreReported(states, reports, n - 1, id);
      } else {
        UpsertedRows(states[n - 1].table, reports[n - 1]);
        if Sample(id, states[n].table[id]) !in reports[n - 1] { RowsAreReported(states, reports, n - 1, id); }
      }
    }
  }

  /** In every run whose re-reports keep their keys, each cache agrees with a recomputation over
      the whole table after every report. */
  lemma {:induction false} RunKeepsAgreement(states: seq<Store>, reports: seq<seq<Sample>>, kind: Kind, n: nat)
    requires Trace(states, reports) && KeysKept(reports, kind) && n <= |reports|
    ensures AgreesAt(states, n, kind)
  {
    if n > 0 {
      RunKeepsAgreement(states, reports, kind, n - 1);
      var table, reported := states[n - 1].table, reports[n - 1];
      forall x | x in reported && x.id in table ensures KeyOf(table[x.id], kind) == KeyOf(x.metric, kind) {
        RowsAreReported(states, reports, n - 1, x.id);
        var i :| 0 <= i < n - 1 && Sample(x.id, table[x.id]) in reports[i];
        assert i <= n - 1 && x in reports[n - 1];
      }
      if states[n] != states[n - 1] {
        StableReportsKeepAgreement(table, states[n - 1].Cache(kind), states[n].Cache(kind), reported, kind);
      }
    }
  }

  /** Recording never raises when every sample has its own metric id. */
  lemma {:induction false} DistinctSamplesNeverRaise(table: map<string, Metric>, reported: seq<Sample>, kind: Kind, k: string)
    requires forall i, j :: 0 <= i < j < |reported| ==> reported[i].id != reported[j].id
    requires k in Affected(reported, kind)
    ensures Rows(Upserted(table, reported), kind, k) != {}
  {
    var i :| 0 <= i < |reported| && KeyOf(reported[i].metric, kind) == k;
    LastWrite(table, reported, i);
    assert reported[i].id in Rows(Upserted(table, reported), kind, k);
  }

  lemma {:induction false} LastWrite(table: map<string, Metric>, reported: seq<Sample>, i: nat)
    requires forall i, j :: 0 <= i < j < |reported| ==> reported[i].id != reported[j].id
    requires i < |reported|
    ensures reported[i].id in Upserted(table, reported) && Upserted(table, reported)[reported[i].id] == reported[i].metric
  {
    if i < |reported| - 1 { LastWrite(table, reported[..|reported| - 1], i); }
  }

  // ------------------------------------------------------------ accepted evidence

  lemma EvidenceKeysGrow(evidence: seq<Evidence>, i: nat)
    requires i < |evidence|
    ensures EvidenceKeys(evidence[..i + 1]) == EvidenceKeys(evidence[..i]) + {evidence[i].Key()}
    ensures evidence[i].Key() in EvidenceKeys(evidence[..i]) <==> exists j :: 0 <= j < i && evidence[j].Key() == evidence[i].Key()
  {
    assert evidence[..i + 1] == evidence[..i] + [evidence[i]];
    forall j | 0 <= j < i ensures evidence[j].Key() in EvidenceKeys(evidence[..i]) { assert evidence[..i][j] in evidence[..i]; }
  }

  lemma {:induction false} DistinctKeysCount(evidence: seq<Evidence>)
    ensures (forall i, j :: 0 <= i < j < |evidence| ==> evidence[i].Key() != evidence[j].Key()) ==> |EvidenceKeys(evidence)| == |evidence|
  {
    if evidence == [] {
      assert EvidenceKeys(evidence) == {};
    } else {
      var n := |evidence| - 1;
      DistinctKeysCount(evidence[..n]);
      EvidenceKeysGrow(evidence, n);
      assert evidence[..n + 1] == evidence;
    }
  }

  lemma {:induction false} DigitsIdentify(m: nat, n: nat)
    requires Digits(m) == Digits(n)
    ensures m == n
  {
    var a, b := Digits(m), Digits(n);
    assert a[|a| - 1] == b[|b| - 1];
    if m >= 10 && n >= 10 {
      assert a[..|a| - 1] == Digits(m / 10) && b[..|b| - 1] == Digits(n / 10);
      DigitsIdentify(m / 10, n / 10);
    }
  }

  lemma RankOrder()
    ensures WeakOrder(RankLess)
  {
    forall a, b | RankLess(a, b) ensures !RankLess(b, a) { TextLessTotal(a.gpu, b.gpu); }
    forall a, b, c | !RankLess(a, b) && !RankLess(b, c) ensures !RankLess(a, c) {
      TextLessTotal(a.gpu, b.gpu);
      TextLessTotal(b.gpu, c.gpu);
      TextLessTotal(a.gpu, c.gpu);
      if TextLess(c.gpu, b.gpu) && TextLess(b.gpu, a.gpu) { TextLessTransitive(c.gpu, b.gpu, a.gpu); }
    }
  }

  /** The ranks of accepted evidence are those of one participant's bindings, so they differ. */
  lemma AcceptedRanksDiffer(reported: set<BindingKey>, evidence: seq<Evidence>, bindings: seq<LaunchPlan.Binding>,
                            node: LaunchPlan.Node, base: nat, a: Evidence, b: Evidence)
    requires LaunchPlan.Planned(bindings, node, base) && Accepted(reported, evidence, bindings)
    requires a in evidence && b in evidence && a.rank == b.rank
    ensures a == b && a.rank >= 0
  {
    assert a.Key() in KeysOf(bindings) && b.Key() in KeysOf(bindings);
    var i :| 0 <= i < |bindings| && (bindings[i].rank as int, bindings[i].uuid) == a.Key();
    var j :| 0 <= j < |bindings| && (bindings[j].rank as int, bindings[j].uuid) == b.Key();
    assert i == j;
  }

  lemma {:induction false} MeasuredOnce(evidence: seq<Evidence>)
    requires forall i, j :: 0 <= i < j < |evidence| ==> evidence[i] != evidence[j]
    ensures forall i, j :: 0 <= i < j < |Measured(evidence)| ==> Measured(evidence)[i] != Measured(evidence)[j]
  {
    if evidence != [] {
      var front, last := evidence[..|evidence| - 1], evidence[|evidence| - 1];
      MeasuredOnce(front);
      assert last !in front;
    }
  }

  /** Every sample of accepted evidence has its own metric id. */
  lemma SamplesDiffer(prefix: string, reported: set<BindingKey>, evidence: seq<Evidence>, bindings: seq<LaunchPlan.Binding>,
                      node: LaunchPlan.Node, base: nat, at: real)
    requires LaunchPlan.Planned(bindings, node, base) && Accepted(reported, evidence, bindings)
    ensures var samples := SamplesOf(prefix, evidence, at);
      forall i, j :: 0 <= i < j < |samples| ==> samples[i].id != samples[j].id
  {
    var kept := Sorted(RankLess, Measured(evidence));
    RankOrder();
    SortedIsSorted(RankLess, Measured(evidence));
    SameElements(kept, Measured(evidence));
    MeasuredOnce(evidence);
    NoRepeats(Measured(evidence), kept);
    var samples := SamplesOf(prefix, evidence, at);
    forall i, j | 0 <= i < j < |samples| ensures samples[i].id != samples[j].id {
      assert kept[i] in kept && kept[j] in kept;
      AcceptedRanksDiffer(reported, evidence, bindings, node, base, kept[i], kept[i]);
      AcceptedRanksDiffer(reported, evidence, bindings, node, base, kept[j], kept[j]);
      if samples[i].id == samples[j].id {
        var lead := prefix + ":";
        assert samples[i].id[|lead|..] == Digits(kept[i].rank) && samples[j].id[|lead|..] == Digits(kept[j].rank);
        DigitsIdentify(kept[i].rank, kept[j].rank);
        AcceptedRanksDiffer(reported, evidence, bindings, node, base, kept[i], kept[j]);
      }
    }
  }

  /** So recording evidence that was accepted against the launch plan never meets a named key
      without rows, whatever the table holds. */
  lemma AcceptedEvidenceNeverRaises(table: map<string, Metric>, prefix: string, reported: set<BindingKey>, evidence: seq<Evidence>,
                                    bindings: seq<LaunchPlan.Binding>, node: LaunchPlan.Node, base: nat, at: real)
    requires LaunchPlan.Planned(bindings, node, base) && Accepted(reported, evidence, bindings)
    ensures var samples := SamplesOf(prefix, evidence, at);
      forall kind, k :: k in Affected(samples, kind) ==> Rows(Upserted(table, samples), kind, k) != {}
  {
    var samples := SamplesOf(prefix, evidence, at);
    SamplesDiffer(prefix, reported, evidence, bindings, node, base, at);
    forall kind, k | k in Affected(samples, kind) ensures Rows(Upserted(table, samples), kind, k) != {} {
      DistinctSamplesNeverRaise(table, samples, kind, k);
    }
  }

  // ---------------------------------------------------------------- a stale summary

  const ON_A := Evidence(0, "gpu", true, Amount(1.0), "A", "w", None)
  const ON_B := ON_A.(path := "B")

  /** Two verifications of one process, the second over another path: the first path keeps a
      summary of a row that is no longer there. */
  lemma MovedReportGoesStale() returns (states: seq<Store>, reports: seq<seq<Sample>>)
    ensures reports == [SamplesOf("a:1:n", [ON_A], 0.0), SamplesOf("a:1:n", [ON_B], 0.0)]
    ensures Trace(states, reports) && AgreesAt(states, 1, ByPath) && !AgreesAt(states, 2, ByPath)
    ensures "A" in states[2].paths && states[2].paths["A"].count == 1 && Rows(states[2].table, ByPath, "A") == {}
  {
    var x, y := SampleOf("a:1:n", ON_A, 0.0), SampleOf("a:1:n", ON_B, 0.0);
    OneSample("a:1:n", ON_A, 0.0);
    OneSample("a:1:n", ON_B, 0.0);
    var row := Summary(1, 1.0, 1.0, 1.0, 1.0, 0.0, None, 1.0);
    var s1 := Store(map[x.id := x.metric], map["A" := row], map["w" := row]);
    var s2 := Store(map[x.id := y.metric], map["A" := row, "B" := row], map["w" := row]);
    states, reports := [EMPTY, s1, s2], [[x], [y]];
    OneRowRecorded(EMPTY, x, s1, row);
    OneRowRecorded(s1, y, s2, row);
    StepAgreement(states, reports, 0, ByPath);
    assert Rows(s2.table, ByPath, "A") == {};
  }

  lemma OneSample(prefix: string, e: Evidence, at: real)
    requires e.Kept()
    ensures SamplesOf(prefix, [e], at) == [SampleOf(prefix, e, at)]
  {
    assert [e][..0] == [] && Measured([e]) == [e];
    assert Sorted(RankLess, [e]) == [e];
  }

  /** Recording one sample leaves a one-row table and fresh summaries of its two keys. */
  lemma OneRowRecorded(before: Store, x: Sample, after: Store, row: Summary)
    requires row == Summary(1, 1.0, 1.0, 1.0, 1.0, 0.0, None, 1.0)
    requires x.metric.elapsed == 1.0 && x.metric.at == 0.0 && x.metric.transport == None && x.metric.path != "" && x.metric.workload != ""
    requires before.table.Keys <= {x.id} && after.table == map[x.id := x.metric]
    requires after.paths == before.paths[x.metric.path := row] && after.workloads == before.workloads[x.metric.workload := row]
    ensures Recorded(before, [x], after)
  {
    assert [x][..0] == [] && Upserted(before.table, [x]) == before.table[x.id := x.metric];
    OneRowRefreshed(before.paths, x, after.table, ByPath, row);
    OneRowRefreshed(before.workloads, x, after.table, ByWorkload, row);
  }

  lemma OneRowRefreshed(before: map<string, Summary>, x: Sample, table: map<string, Metric>, kind: Kind, row: Summary)
    requires row == Summary(1, 1.0, 1.0, 1.0, 1.0, 0.0, None, 1.0)
    requires x.metric.elapsed == 1.0 && x.metric.at == 0.0 && x.metric.transport == None && KeyOf(x.metric, kind) != ""
    requires table == map[x.id := x.metric]
    ensures Refreshed(before, before[KeyOf(x.metric, kind) := row], table, kind, Affected([x], kind))
  {
    var ids := Rows(table, kind, KeyOf(x.metric, kind));
    assert ids == {x.id};
    TotalSplits(table, ids, x.id);
    assert Affected([x], kind) == {KeyOf(x.metric, kind)};
    assert Transports(table, ids) == {};
    assert SummaryOf(row, table, ids);
    assert Newest(table, ids, x.id);
  }

  /** The first summary of a key records its greatest sample as the last one, which is right
      exactly when the newest sample is a greatest one. */
  lemma FirstLastIsNewestExactlyWhen(s: Summary, table: map<string, Metric>, ids: set<string>, newest: string)
    requires ids <= table.Keys && SummaryOf(s, table, ids) && LastIs(s, table, ids, false) && Newest(table, ids, newest)
    ensures s.last == table[newest].elapsed <==> forall i :: i in ids ==> table[i].elapsed <= table[newest].elapsed
  {
    var i :| i in ids && table[i].elapsed == s.greatest;
  }
}
