/** Rank assignment of the launch plan: every allocated GPU becomes one process, numbered by
    participant order and, within a participant, by GPU number. */
module LaunchPlan {
  import opened Base
  import opened Sorting

  /** A GPU in the durable inventory.  `clear`: it is reserved and passes the path checks. */
  datatype GpuRow = GpuRow(uuid: string, id: string, clear: bool)

  /** A participant's own allocation.  `bound`: to this attempt and generation.  `gpus` is None
      when stored evidence about one of its GPUs cannot be parsed. */
  datatype Allocation = Allocation(bound: bool, gpus: Option<map<string, GpuRow>>)

  /** A participant as stored, with what the pool and the inventory say about it. */
  datatype Node = Node(rank: int, heartbeat: real, ready: bool, resources: seq<string>, allocation: Option<Allocation>)

  datatype Binding = Binding(resource: string, uuid: string, rank: nat, localRank: nat)

  // -------------------------------------------------------------- GPU order

  function LastPart(id: string): string {
    if id == "" then "" else if id[|id| - 1] == '/' then "" else LastPart(id[..|id| - 1]) + [id[|id| - 1]]
  }

  function WithoutPrefix(name: string): string { if "gpu-" <= name then name[4..] else name }

  function ParseDigits(name: string): Option<nat> {
    if name == "" then None
    else
      var d := name[|name| - 1];
      if !('0' <= d <= '9') then None
      else if |name| == 1 then Some(d as nat - '0' as nat)
      else
        var high := ParseDigits(name[..|name| - 1]);
        if high.None? then None else Some(10 * high.value + (d as nat - '0' as nat))
  }

  /** `gpu_sort_key`: the GPU number, or 2**31 - 1 when the id carries none. */
  function GpuNumber(id: string): nat {
    var n := ParseDigits(WithoutPrefix(LastPart(id)));
    if n.Some? then n.value else 0x7FFF_FFFF
  }

  predicate KeyLess(a: string, b: string) {
    GpuNumber(a) < GpuNumber(b) || (GpuNumber(a) == GpuNumber(b) && TextLess(a, b))
  }

  /** By GPU number, and at one number by text. */
  ghost predicate SortedGpus(ids: seq<string>) {
    forall i, j :: 0 <= i < j < |ids| ==>
      GpuNumber(ids[i]) < GpuNumber(ids[j])
      || (GpuNumber(ids[i]) == GpuNumber(ids[j]) && (ids[i] == ids[j] || TextLess(ids[i], ids[j])))
  }

  lemma InOrderIsSorted(ids: seq<string>)
    requires InOrder(KeyLess, ids)
    ensures SortedGpus(ids)
  {
    forall i, j | 0 <= i < j < |ids| ensures !KeyLess(ids[j], ids[i]) && (ids[i] == ids[j] || KeyLess(ids[i], ids[j])) {
      KeyLessIsOrder(ids[i], ids[j], ids[i]);
    }
  }

  // -------------------------------------------------- what a GPU number is read from

  /** The decimal digits of a number, as they are printed. */
  ghost function Printed(n: nat): string {
    if n < 10 then [('0' as nat + n) as char] else Printed(n / 10) + [('0' as nat + n % 10) as char]
  }

  ghost predicate AllDigits(x: string) { x != "" && forall i :: 0 <= i < |x| ==> '0' <= x[i] <= '9' }

  /** Leading zeros, then the number as it is printed. */
  ghost predicate Reads(x: string, n: nat) {
    |Printed(n)| <= |x| && x[|x| - |Printed(n)|..] == Printed(n) && forall i :: 0 <= i < |x| - |Printed(n)| ==> x[i] == '0'
  }

  lemma {:induction false} DigitsExactlyWhen(x: string)
    ensures ParseDigits(x).Some? <==> AllDigits(x)
    decreases |x|
  {
    if |x| > 1 {
      var front := x[..|x| - 1];
      DigitsExactlyWhen(front);
      if AllDigits(x) { assert forall i :: 0 <= i < |front| ==> front[i] == x[i]; }
      if ParseDigits(x).Some? {
        forall i | 0 <= i < |x| ensures '0' <= x[i] <= '9' { if i < |front| { assert x[i] == front[i]; } }
      }
    }
  }

  /** One more digit. */
  lemma ParseNext(front: string, d: char)
    requires front != "" && ParseDigits(front).Some? && '0' <= d <= '9'
    ensures ParseDigits(front + [d]) == Some(10 * ParseDigits(front).value + (d as nat - '0' as nat))
  {
    assert (front + [d])[..|front|] == front;
  }

  lemma {:induction false} DigitsRead(x: string)
    requires AllDigits(x)
    ensures ParseDigits(x).Some? && Reads(x, ParseDigits(x).value)
    decreases |x|
  {
    if |x| > 1 {
      DigitsRead(x[..|x| - 1]);
      ReadsNext(x, x[..|x| - 1], x[|x| - 1]);
    } else {
      assert x == [x[0]];
      OneDigit(x[0]);
    }
  }

  lemma ReadsNext(x: string, front: string, d: char)
    requires x == front + [d] && front != "" && '0' <= d <= '9' && ParseDigits(front).Some? && Reads(front, ParseDigits(front).value)
    ensures ParseDigits(x).Some? && Reads(x, ParseDigits(x).value)
  {
    ParseNext(front, d);
    NextDigit(front, ParseDigits(front).value, d);
  }

  lemma OneDigit(d: char)
    requires '0' <= d <= '9'
    ensures ParseDigits([d]).Some? && Reads([d], ParseDigits([d]).value)
  {
    var v := d as nat - '0' as nat;
    assert ParseDigits([d]) == Some(v);
    assert Printed(v) == [d];
    assert [d][0..] == [d];
  }

  lemma NextDigit(front: string, h: nat, d: char)
    requires Reads(front, h) && front != "" && '0' <= d <= '9'
    ensures Reads(front + [d], 10 * h + (d as nat - '0' as nat))
  {
    var v := d as nat - '0' as nat;
    var n := 10 * h + v;
    var x := front + [d];
    if h == 0 {
      assert Printed(n) == [d] && Printed(h) == ['0'];
      assert x[|x| - 1..] == [d];
      forall i | 0 <= i < |x| - 1 ensures x[i] == '0' {
        if i == |front| - 1 { assert front[|front| - 1..] == ['0']; }
      }
    } else {
      assert n / 10 == h && n % 10 == v;
      assert Printed(n) == Printed(h) + [d];
      var k := |front| - |Printed(h)|;
      assert x[k..] == front[k..] + [d];
    }
  }

  /** The part of an id after its last slash. */
  ghost predicate LastOf(id: string, name: string) {
    exists i :: 0 <= i <= |id| && name == id[i..] && '/' !in name && (i > 0 ==> id[i - 1] == '/')
  }

  lemma {:induction false} LastPartIsLast(id: string) returns (i: nat)
    ensures i <= |id| && LastPart(id) == id[i..] && '/' !in id[i..] && (i > 0 ==> id[i - 1] == '/')
  {
    if id == "" || id[|id| - 1] == '/' {
      i := |id|;
    } else {
      var front, c := id[..|id| - 1], id[|id| - 1];
      i := LastPartIsLast(front);
      assert id[i..] == front[i..] + [c];
    }
  }

  /** A GPU's number is printed at the end of its id, after the last slash and possibly "gpu-";
      an id that ends in anything else sorts last. */
  lemma GpuNumberReads(id: string) returns (name: string)
    ensures LastOf(id, name)
    ensures var digits := if "gpu-" <= name then name[4..] else name;
      if AllDigits(digits) then Reads(digits, GpuNumber(id)) else GpuNumber(id) == 0x7FFF_FFFF
  {
    var i := LastPartIsLast(id);
    name := LastPart(id);
    var digits := WithoutPrefix(name);
    DigitsExactlyWhen(digits);
    if AllDigits(digits) { DigitsRead(digits); }
  }

  lemma KeyLessIsOrder(a: string, b: string, c: string)
    ensures a == b || KeyLess(a, b) || KeyLess(b, a)
    ensures !(KeyLess(a, b) && KeyLess(b, a))
    ensures !KeyLess(a, b) && !KeyLess(b, c) ==> !KeyLess(a, c)
  {
    TextLessTotal(a, b);
    TextLessTotal(b, c);
    if TextLess(c, b) && TextLess(b, a) { TextLessTransitive(c, b, a); }
    TextLessTotal(a, c);
  }

  lemma KeyLessIsWeak()
    ensures WeakOrder(KeyLess)
  {
    forall a, b | KeyLess(a, b) ensures !KeyLess(b, a) { KeyLessIsOrder(a, b, a); }
    forall a, b, c | !KeyLess(a, b) && !KeyLess(b, c) ensures !KeyLess(a, c) { KeyLessIsOrder(a, b, c); }
  }

  // -------------------------------------------------------------- assignment

  function Flatten(plan: seq<seq<Binding>>): seq<Binding> {
    if plan == [] then [] else Flatten(plan[..|plan| - 1]) + plan[|plan| - 1]
  }

  /** The flattened plan numbers its bindings 0, 1, 2, ... in order. */
  ghost predicate Numbered(all: seq<Binding>) {
    forall r :: 0 <= r < |all| ==> all[r].rank == r
  }

  /** `part in text`. */
  predicate Contains(text: string, part: string) { part <= text || (text != "" && Contains(text[1..], part)) }

  /** The participant's resources that name a GPU. */
  function Gpus(resources: seq<string>): seq<string> {
    if resources == [] then []
    else
      var before, id := Gpus(resources[..|resources| - 1]), resources[|resources| - 1];
      if Contains(id, "/gpu/") || Contains(id, "/gpu-") then before + [id] else before
  }

  /** Text part occurs somewhere in text. */
  ghost predicate Occurs(text: string, part: string) { exists i: nat :: OccursAt(text, part, i) }

  ghost predicate OccursAt(text: string, part: string, i: nat) { i + |part| <= |text| && text[i..i + |part|] == part }

  lemma {:induction false} ContainsExactlyWhen(text: string, part: string)
    ensures Contains(text, part) <==> Occurs(text, part)
  {
    if |part| <= |text| { assert text[0..0 + |part|] == text[..|part|]; }
    assert OccursAt(text, part, 0) <==> part <= text;
    if part <= text {
      assert OccursAt(text, part, 0);
    } else if text != "" {
      var rest := text[1..];
      ContainsExactlyWhen(rest, part);
      if Occurs(rest, part) {
        var i: nat :| OccursAt(rest, part, i);
        assert text[i + 1..i + 1 + |part|] == rest[i..i + |part|];
        assert OccursAt(text, part, i + 1);
      }
      if Occurs(text, part) {
        var i: nat :| OccursAt(text, part, i);
        assert i > 0;
        assert rest[i - 1..i - 1 + |part|] == text[i..i + |part|];
        assert OccursAt(rest, part, i - 1);
      }
    }
  }

  /** A participant's GPUs are its resources that name one, each as often as it is listed. */
  lemma {:induction false} GpusAreNamed(resources: seq<string>, x: string)
    ensures multiset(Gpus(resources))[x] == if Occurs(x, "/gpu/") || Occurs(x, "/gpu-") then multiset(resources)[x] else 0
  {
    if resources != [] {
      var front, id := resources[..|resources| - 1], resources[|resources| - 1];
      assert resources == front + [id];
      GpusAreNamed(front, x);
      ContainsExactlyWhen(id, "/gpu/");
      ContainsExactlyWhen(id, "/gpu-");
    }
  }

  predicate Identified(gpus: map<string, GpuRow>, id: string) {
    id in gpus && gpus[id].uuid != "" && gpus[id].id != "" && gpus[id].clear
  }

  /** What one participant's bindings are: its GPUs in order, ranked from `base`, each with the
      identity its own allocation records. */
  ghost predicate NodeBindings(bindings: seq<Binding>, ids: seq<string>, gpus: map<string, GpuRow>, base: nat) {
    && multiset(Resources(bindings)) == multiset(ids) && SortedGpus(Resources(bindings))
    && forall j :: 0 <= j < |bindings| ==>
         && bindings[j].localRank == j && bindings[j].rank == base + j
         && Identified(gpus, bindings[j].resource) && bindings[j].uuid == gpus[bindings[j].resource].uuid
  }

  function Resources(bindings: seq<Binding>): seq<string> {
    seq(|bindings|, i requires 0 <= i < |bindings| => bindings[i].resource)
  }

  /** The participant has its place, a fresh heartbeat, a ready worker, and GPUs that its own
      bound allocation identifies. */
  predicate Launchable(node: Node, position: nat, now: real, leaseSeconds: real) {
    && node.rank == position && node.heartbeat + leaseSeconds > now && node.ready && Gpus(node.resources) != []
    && node.allocation.Some? && node.allocation.value.bound && node.allocation.value.gpus.Some?
    && forall id | id in Gpus(node.resources) :: Identified(node.allocation.value.gpus.value, id)
  }

  /** Participant i of the plan. */
  ghost predicate Planned(bindings: seq<Binding>, node: Node, base: nat) {
    node.allocation.Some? && node.allocation.value.gpus.Some?
    && NodeBindings(bindings, Gpus(node.resources), node.allocation.value.gpus.value, base)
  }

  function Ranks(all: seq<Binding>): seq<int> {
    seq(|all|, i requires 0 <= i < |all| => all[i].rank)
  }

  /** The first GPUs of `ids` are identified and bound. */
  ghost predicate BoundInOrder(out: seq<Binding>, ids: seq<string>, gpus: map<string, GpuRow>, base: nat)
    requires |out| <= |ids|
  {
    forall j :: 0 <= j < |out| ==> Identified(gpus, ids[j]) && out[j] == Binding(ids[j], gpus[ids[j]].uuid, base + j, j)
  }

  lemma SortedMembers(ids: seq<string>)
    ensures |Sorted(KeyLess, ids)| == |ids| && forall id :: id in ids <==> id in Sorted(KeyLess, ids)
  {
    KeyLessIsWeak();
    SortedIsSorted(KeyLess, ids);
    SameElements(Sorted(KeyLess, ids), ids);
  }

  lemma BoundAll(out: seq<Binding>, ids: seq<string>, gpuIds: seq<string>, gpus: map<string, GpuRow>, base: nat)
    requires ids == Sorted(KeyLess, gpuIds) && |out| == |ids| && BoundInOrder(out, ids, gpus, base)
    ensures NodeBindings(out, gpuIds, gpus, base) && forall id :: id in gpuIds ==> Identified(gpus, id)
  {
    SortedMembers(gpuIds);
    KeyLessIsWeak();
    SortedIsSorted(KeyLess, gpuIds);
    InOrderIsSorted(ids);
    assert Resources(out) == ids;
  }

  /** One participant's bindings; None when its allocation does not identify one of its GPUs. */
  method BindGpus(gpuIds: seq<string>, gpus: map<string, GpuRow>, base: nat) returns (bindings: Option<seq<Binding>>)
    ensures bindings.None? <==> exists id :: id in gpuIds && !Identified(gpus, id)
    ensures bindings.Some? ==> NodeBindings(bindings.value, gpuIds, gpus, base) && |bindings.value| == |gpuIds|
  {
    var ids := Sorted(KeyLess, gpuIds);
    SortedMembers(gpuIds);
    var out: seq<Binding> := [];
    while |out| < |ids|
      invariant |out| <= |ids| && BoundInOrder(out, ids, gpus, base)
    {
      var j := |out|;
      assert ids[j] in ids;
      if ids[j] !in gpus { return None; }
      var gpu := gpus[ids[j]];
      if gpu.uuid == "" || gpu.id == "" || !gpu.clear { return None; }
      out := out + [Binding(ids[j], gpu.uuid, base + j, j)];
    }
    BoundAll(out, ids, gpuIds, gpus, base);
    bindings := Some(out);
  }

  /** One turn of the participant loop; None when it raises. */
  method PlanNode(node: Node, position: nat, now: real, leaseSeconds: real, base: nat) returns (bindings: Option<seq<Binding>>)
    ensures bindings.Some? <==> Launchable(node, position, now, leaseSeconds)
    ensures bindings.Some? ==> Planned(bindings.value, node, base)
  {
    if node.rank != position || node.heartbeat + leaseSeconds <= now || !node.ready { return None; }
    var ids := Gpus(node.resources);
    if ids == [] || node.allocation.None? { return None; }
    var allocation := node.allocation.value;
    if !allocation.bound || allocation.gpus.None? { return None; }
    bindings := BindGpus(ids, allocation.gpus.value, base);
  }

  /** The participants planned so far are numbered without a gap. */
  ghost predicate PlannedAll(workers: seq<seq<Binding>>, nodes: seq<Node>) {
    && |workers| <= |nodes| && Numbered(Flatten(workers))
    && forall i :: 0 <= i < |workers| ==> Planned(workers[i], nodes[i], |Flatten(workers[..i])|)
  }

  lemma PlannedNext(workers: seq<seq<Binding>>, nodes: seq<Node>, bindings: seq<Binding>)
    requires PlannedAll(workers, nodes) && |workers| < |nodes| && Planned(bindings, nodes[|workers|], |Flatten(workers)|)
    ensures PlannedAll(workers + [bindings], nodes) && |Flatten(workers + [bindings])| == |Flatten(workers)| + |bindings|
  {
    var n, more := |workers|, workers + [bindings];
    assert more[..n] == workers && Flatten(more) == Flatten(workers) + bindings;
    forall i | 0 <= i < n ensures more[..i] == workers[..i] {}
  }

  /** The participant loop.  None when a participant breaks the contract; otherwise the world
      size is the number of allocated GPUs and the processes carry the ranks 0..worldSize-1
      exactly once each.  In particular the closing check of the ranks never fires: the only
      failures are those of single participants. */
  method AssignRanks(nodes: seq<Node>, now: real, leaseSeconds: real) returns (plan: Option<seq<seq<Binding>>>, worldSize: nat)
    ensures plan.None? <==> exists i :: 0 <= i < |nodes| && !Launchable(nodes[i], i, now, leaseSeconds)
    ensures plan.Some? ==> |plan.value| == |nodes| && PlannedAll(plan.value, nodes) && worldSize == |Flatten(plan.value)|
  {
    var workers: seq<seq<Binding>> := [];
    worldSize := 0;
    while |workers| < |nodes|
      invariant PlannedAll(workers, nodes) && worldSize == |Flatten(workers)|
      invariant forall i :: 0 <= i < |workers| ==> Launchable(nodes[i], i, now, leaseSeconds)
    {
      var n := |workers|;
      var bindings := PlanNode(nodes[n], n, now, leaseSeconds, worldSize);
      if bindings.None? { return None, 0; }
      PlannedNext(workers, nodes, bindings.value);
      workers, worldSize := workers + [bindings.value], worldSize + |bindings.value|;
    }
    assert Ranks(Flatten(workers)) == Range(worldSize);
    RanksContiguousExactlyWhen(Ranks(Flatten(workers)));
    plan := if RanksContiguous(Ranks(Flatten(workers))) then Some(workers) else None;
  }

  function Range(n: nat): seq<int> { seq(n, i => i) }

  /** `sorted(ranks) == list(range(total))`. */
  function RanksContiguous(ranks: seq<int>): bool { Sorted((x: int, y: int) => x < y, ranks) == Range(|ranks|) }

  /** The check passes exactly when the ranks are a permutation of 0..total-1. */
  lemma RanksContiguousExactlyWhen(ranks: seq<int>)
    ensures RanksContiguous(ranks) <==> multiset(ranks) == multiset(Range(|ranks|))
  {
    var less := (x: int, y: int) => x < y;
    SortedIsSorted(less, ranks);
    if multiset(ranks) == multiset(Range(|ranks|)) { OneOrder(less, Sorted(less, ranks), Range(|ranks|)); }
  }
}
