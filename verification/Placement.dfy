/** Choosing GPUs for a placement: exhaustive enumeration of the candidate sets inside one
    provider and domain, then the lexicographic minimum over the ranking keys. */
module Placement {
  import opened Base
  import opened Sorting

  datatype Gpu = Gpu(key: string, node: string)

  /** A node whose GPUs passed validation, with its provider and domain as one scope. */
  datatype Node = Node(id: string, scope: string, gpus: seq<Gpu>)

  type Candidate = seq<Gpu>

  // ---------------------------------------------------------------- combinations

  function Prepend(x: Gpu, cs: seq<Candidate>): seq<Candidate> { seq(|cs|, i requires 0 <= i < |cs| => [x] + cs[i]) }

  /** `itertools.combinations(pool, r)`, in its order. */
  function Combinations(pool: seq<Gpu>, r: nat): seq<Candidate> {
    if r == 0 then [[]]
    else if pool == [] then []
    else Prepend(pool[0], Combinations(pool[1..], r - 1)) + Combinations(pool[1..], r)
  }

  function Members(c: seq<Gpu>): set<Gpu> { set g | g in c }

  ghost predicate Distinct(c: seq<Gpu>) { forall i, j :: 0 <= i < j < |c| ==> c[i] != c[j] }

  ghost predicate Subset(c: Candidate, pool: seq<Gpu>, r: nat) { |c| == r && Distinct(c) && Members(c) <= Members(pool) }

  lemma MembersOf(pool: seq<Gpu>)
    requires pool != []
    ensures Members(pool) == {pool[0]} + Members(pool[1..])
    ensures Distinct(pool) ==> Distinct(pool[1..]) && pool[0] !in Members(pool[1..])
  {
    assert pool == [pool[0]] + pool[1..];
  }

  lemma PrependMembers(x: Gpu, c: Candidate)
    ensures Members([x] + c) == {x} + Members(c)
    ensures Distinct(c) && x !in Members(c) ==> Distinct([x] + c)
  {}

  /** Only subsets of the required size are generated. */
  lemma {:induction false} CombinationsAreSubsets(pool: seq<Gpu>, r: nat)
    requires Distinct(pool)
    ensures forall i :: 0 <= i < |Combinations(pool, r)| ==> Subset(Combinations(pool, r)[i], pool, r)
  {
    if r > 0 && pool != [] {
      MembersOf(pool);
      CombinationsAreSubsets(pool[1..], r - 1);
      CombinationsAreSubsets(pool[1..], r);
      var with, without := Combinations(pool[1..], r - 1), Combinations(pool[1..], r);
      var all := Combinations(pool, r);
      forall i | 0 <= i < |all| ensures Subset(all[i], pool, r) {
        if i < |with| {
          PrependMembers(pool[0], with[i]);
        } else {
          assert all[i] == without[i - |with|];
        }
      }
    }
  }

  /** Some candidate consists of exactly these GPUs. */
  ghost predicate Offers(cs: seq<Candidate>, s: set<Gpu>) { exists i :: 0 <= i < |cs| && Members(cs[i]) == s }

  lemma OffersPrepended(x: Gpu, cs: seq<Candidate>, more: seq<Candidate>, s: set<Gpu>)
    requires x in s && Offers(cs, s - {x})
    ensures Offers(Prepend(x, cs) + more, s)
  {
    var i :| 0 <= i < |cs| && Members(cs[i]) == s - {x};
    PrependMembers(x, cs[i]);
    assert (Prepend(x, cs) + more)[i] == [x] + cs[i] && {x} + (s - {x}) == s;
  }

  lemma OffersMore(cs: seq<Candidate>, more: seq<Candidate>, s: set<Gpu>)
    requires Offers(more, s)
    ensures Offers(cs + more, s)
  {
    var i :| 0 <= i < |more| && Members(more[i]) == s;
    assert (cs + more)[|cs| + i] == more[i];
  }

  /** Every subset of the required size is generated. */
  lemma {:induction false} EverySubsetIsGenerated(pool: seq<Gpu>, r: nat, s: set<Gpu>)
    requires Distinct(pool) && s <= Members(pool) && |s| == r
    ensures Offers(Combinations(pool, r), s)
  {
    if r == 0 {
      assert s == {} && Members(Combinations(pool, r)[0]) == s;
    } else {
      assert pool == [] ==> s <= {};
      MembersOf(pool);
      var with, without := Combinations(pool[1..], r - 1), Combinations(pool[1..], r);
      if pool[0] in s {
        EverySubsetIsGenerated(pool[1..], r - 1, s - {pool[0]});
        OffersPrepended(pool[0], with, without, s);
      } else {
        EverySubsetIsGenerated(pool[1..], r, s);
        OffersMore(Prepend(pool[0], with), without, s);
      }
    }
  }

  /** No two candidates are the same set. */
  ghost predicate DistinctSets(cs: seq<Candidate>) { forall i, j :: 0 <= i < j < |cs| ==> Members(cs[i]) != Members(cs[j]) }

  lemma PrependedDiffer(x: Gpu, cs: seq<Candidate>)
    requires DistinctSets(cs) && forall i :: 0 <= i < |cs| ==> x !in Members(cs[i])
    ensures DistinctSets(Prepend(x, cs)) && forall i :: 0 <= i < |cs| ==> x in Members(Prepend(x, cs)[i])
  {
    forall i | 0 <= i < |cs| ensures Members(Prepend(x, cs)[i]) == {x} + Members(cs[i]) { PrependMembers(x, cs[i]); }
    forall i, j | 0 <= i < j < |cs| ensures Members(Prepend(x, cs)[i]) != Members(Prepend(x, cs)[j]) {
      assert ({x} + Members(cs[i])) - {x} == Members(cs[i]) && ({x} + Members(cs[j])) - {x} == Members(cs[j]);
    }
  }

  /** No subset is generated twice. */
  lemma {:induction false} NoSubsetTwice(pool: seq<Gpu>, r: nat)
    requires Distinct(pool)
    ensures DistinctSets(Combinations(pool, r))
  {
    if r > 0 && pool != [] {
      MembersOf(pool);
      NoSubsetTwice(pool[1..], r - 1);
      NoSubsetTwice(pool[1..], r);
      CombinationsAreSubsets(pool[1..], r - 1);
      CombinationsAreSubsets(pool[1..], r);
      PrependedDiffer(pool[0], Combinations(pool[1..], r - 1));
      JoinedSets(Prepend(pool[0], Combinations(pool[1..], r - 1)), Combinations(pool[1..], r));
    }
  }

  // ------------------------------------------------------------- candidate sets

  function Scopes(nodes: seq<Node>): seq<string> {
    if nodes == [] then []
    else
      var before := Scopes(nodes[..|nodes| - 1]);
      if nodes[|nodes| - 1].scope in before then before else before + [nodes[|nodes| - 1].scope]
  }

  /** The GPUs of one provider and domain, in node order. */
  function ScopeRows(nodes: seq<Node>, scope: string): seq<Gpu> {
    if nodes == [] then []
    else
      var before := ScopeRows(nodes[..|nodes| - 1], scope);
      if nodes[|nodes| - 1].scope == scope then before + nodes[|nodes| - 1].gpus else before
  }

  function NodesOf(c: set<Gpu>): set<string> { set g | g in c :: g.node }

  /** The candidates of one pool; multi-node work drops those on a single node. */
  function Kept(cs: seq<Candidate>, multi: bool): seq<Candidate> {
    if cs == [] then []
    else
      var before := Kept(cs[..|cs| - 1], multi);
      if multi && |NodesOf(Members(cs[|cs| - 1]))| < 2 then before else before + [cs[|cs| - 1]]
  }

  predicate Worth(pool: seq<Gpu>, needed: nat, multi: bool) {
    |pool| >= needed && (multi ==> |NodesOf(Members(pool))| >= 2)
  }

  /** The pools candidates are drawn from: one node each, or one provider and domain each. */
  function Pools(nodes: seq<Node>, multi: bool): seq<seq<Gpu>> {
    if multi then seq(|Scopes(nodes)|, i requires 0 <= i < |Scopes(nodes)| => ScopeRows(nodes, Scopes(nodes)[i]))
    else seq(|nodes|, i requires 0 <= i < |nodes| => nodes[i].gpus)
  }

  function Drawn(pools: seq<seq<Gpu>>, needed: nat, multi: bool): seq<Candidate> {
    if pools == [] then []
    else
      var before, pool := Drawn(pools[..|pools| - 1], needed, multi), pools[|pools| - 1];
      if Worth(pool, needed, multi) then before + Kept(Combinations(pool, needed), multi) else before
  }

  /** `_candidate_sets` over the nodes left with valid GPUs; None when it raises. */
  method CandidateSets(nodes: seq<Node>, needed: int, multi: bool) returns (out: Option<seq<Candidate>>)
    ensures needed < 1 || nodes == [] ==> out == Some([])
    ensures needed >= 1 && nodes != [] ==>
      out == var all := Drawn(Pools(nodes, multi), needed, multi); if multi && all == [] then None else Some(all)
  {
    if needed < 1 || nodes == [] { return Some([]); }
    var pools := Pools(nodes, multi);
    var all: seq<Candidate> := [];
    var i := 0;
    while i < |pools|
      invariant 0 <= i <= |pools| && all == Drawn(pools[..i], needed, multi)
    {
      assert pools[..i + 1][..i] == pools[..i];
      if Worth(pools[i], needed, multi) {
        var cs := Combinations(pools[i], needed);
        var kept: seq<Candidate> := [];
        var k := 0;
        while k < |cs|
          invariant 0 <= k <= |cs| && kept == Kept(cs[..k], multi)
        {
          assert cs[..k + 1][..k] == cs[..k];
          if !(multi && |NodesOf(Members(cs[k]))| < 2) { kept := kept + [cs[k]]; }
          k := k + 1;
        }
        assert cs[..k] == cs;
        all := all + kept;
      }
      i := i + 1;
    }
    assert pools[..i] == pools;
    out := if multi && all == [] then None else Some(all);
  }

  // ------------------------------------------------------- complete and exactly once

  /** Pools that share no GPU and list none twice. */
  ghost predicate Disjoint(pools: seq<seq<Gpu>>) {
    (forall i :: 0 <= i < |pools| ==> Distinct(pools[i]))
    && forall i, j :: 0 <= i < j < |pools| ==> Members(pools[i]) !! Members(pools[j])
  }

  /** A set of GPUs a placement may use. */
  ghost predicate Admissible(pools: seq<seq<Gpu>>, needed: nat, multi: bool, s: set<Gpu>) {
    |s| == needed && (multi ==> |NodesOf(s)| >= 2) && exists i :: 0 <= i < |pools| && s <= Members(pools[i])
  }

  lemma {:induction false} KeptAre(cs: seq<Candidate>, multi: bool)
    requires DistinctSets(cs)
    ensures var k := Kept(cs, multi);
      && (forall c :: c in k <==> c in cs && (multi ==> |NodesOf(Members(c))| >= 2))
      && DistinctSets(k)
  {
    if cs != [] {
      var front := cs[..|cs| - 1];
      KeptAre(front, multi);
      assert cs == front + [cs[|cs| - 1]];
      forall i | 0 <= i < |Kept(front, multi)| ensures Members(Kept(front, multi)[i]) != Members(cs[|cs| - 1]) {
        assert Kept(front, multi)[i] in front;
      }
    }
  }

  lemma CardinalityOfMembers(c: Candidate)
    requires Distinct(c)
    ensures |Members(c)| == |c|
    decreases |c|
  {
    if c != [] {
      MembersOf(c);
      CardinalityOfMembers(c[1..]);
    } else {
      assert Members(c) == {};
    }
  }

  /** One pool's kept candidates are its admissible sets, each once. */
  lemma PoolCandidates(pool: seq<Gpu>, needed: nat, multi: bool)
    requires Distinct(pool)
    ensures var k := Kept(Combinations(pool, needed), multi);
      && (forall c :: c in k ==> Subset(c, pool, needed) && Admissible([pool], needed, multi, Members(c)))
      && (forall s :: Admissible([pool], needed, multi, s) ==> exists c :: c in k && Members(c) == s)
      && DistinctSets(k)
  {
    var cs := Combinations(pool, needed);
    CombinationsAreSubsets(pool, needed);
    NoSubsetTwice(pool, needed);
    KeptAre(cs, multi);
    var k := Kept(cs, multi);
    forall c | c in k ensures Subset(c, pool, needed) && Admissible([pool], needed, multi, Members(c)) {
      CardinalityOfMembers(c);
      assert Members(c) <= Members([pool][0]);
    }
    forall s | Admissible([pool], needed, multi, s) ensures exists c :: c in k && Members(c) == s {
      EverySubsetIsGenerated(pool, needed, s);
      var i :| 0 <= i < |cs| && Members(cs[i]) == s;
      assert cs[i] in k;
    }
  }

  lemma PoolMembership(pools: seq<seq<Gpu>>, pool: seq<Gpu>, needed: nat, multi: bool, s: set<Gpu>)
    ensures Admissible(pools + [pool], needed, multi, s) <==> Admissible(pools, needed, multi, s) || Admissible([pool], needed, multi, s)
  {
    var all := pools + [pool];
    if Admissible([pool], needed, multi, s) { assert s <= Members(all[|pools|]); }
    if Admissible(pools, needed, multi, s) {
      var i :| 0 <= i < |pools| && s <= Members(pools[i]);
      assert s <= Members(all[i]);
    }
    if Admissible(all, needed, multi, s) {
      var i :| 0 <= i < |all| && s <= Members(all[i]);
      if i == |pools| { assert s <= Members([pool][0]); } else { assert s <= Members(pools[i]); }
    }
  }

  /** The generator yields admissible sets only. */
  lemma {:induction false} DrawnAreAdmissible(pools: seq<seq<Gpu>>, needed: nat, multi: bool, c: Candidate)
    requires Disjoint(pools) && c in Drawn(pools, needed, multi)
    ensures Distinct(c) && |c| == needed && Admissible(pools, needed, multi, Members(c))
  {
    if pools != [] {
      var front, pool := pools[..|pools| - 1], pools[|pools| - 1];
      assert pools == front + [pool];
      PoolMembership(front, pool, needed, multi, Members(c));
      if c in Drawn(front, needed, multi) { DrawnAreAdmissible(front, needed, multi, c); } else { PoolCandidates(pool, needed, multi); }
    }
  }

  /** It yields every admissible set. */
  lemma {:induction false} AdmissibleAreDrawn(pools: seq<seq<Gpu>>, needed: nat, multi: bool, s: set<Gpu>)
    requires Disjoint(pools) && Admissible(pools, needed, multi, s)
    ensures Offers(Drawn(pools, needed, multi), s)
  {
    if pools != [] {
      var front, pool := pools[..|pools| - 1], pools[|pools| - 1];
      assert pools == front + [pool];
      PoolMembership(front, pool, needed, multi, s);
      var here := Kept(Combinations(pool, needed), multi);
      if Admissible(front, needed, multi, s) {
        AdmissibleAreDrawn(front, needed, multi, s);
        OffersFewer(Drawn(front, needed, multi), here, s);
      } else {
        if !Worth(pool, needed, multi) { OnlyWorthyPools(pool, needed, multi); }
        PoolCandidates(pool, needed, multi);
        var c :| c in here && Members(c) == s;
        OffersMembers(here, c);
        OffersMore(Drawn(front, needed, multi), here, s);
      }
    }
  }

  /** It yields none twice. */
  lemma {:induction false} DrawnOnce(pools: seq<seq<Gpu>>, needed: nat, multi: bool)
    requires Disjoint(pools) && needed >= 1
    ensures DistinctSets(Drawn(pools, needed, multi))
  {
    if pools != [] {
      var front, pool := pools[..|pools| - 1], pools[|pools| - 1];
      assert pools == front + [pool];
      DrawnOnce(front, needed, multi);
      PoolCandidates(pool, needed, multi);
      var before, here := Drawn(front, needed, multi), Kept(Combinations(pool, needed), multi);
      forall i, j | 0 <= i < |before| && 0 <= j < |here| ensures Members(before[i]) != Members(here[j]) {
        DrawnAreAdmissible(front, needed, multi, before[i]);
        assert here[j] in here;
        DifferentPools(front, pool, needed, multi, Members(before[i]), Members(here[j]));
      }
      JoinedSets(before, here);
    }
  }

  lemma JoinedSets(a: seq<Candidate>, b: seq<Candidate>)
    requires DistinctSets(a) && DistinctSets(b) && forall i, j :: 0 <= i < |a| && 0 <= j < |b| ==> Members(a[i]) != Members(b[j])
    ensures DistinctSets(a + b)
  {
    var c := a + b;
    forall i, j | 0 <= i < j < |c| ensures Members(c[i]) != Members(c[j]) {
      if j >= |a| { assert c[j] == b[j - |a|]; }
      if i >= |a| { assert c[i] == b[i - |a|]; }
    }
  }

  lemma OffersFewer(cs: seq<Candidate>, more: seq<Candidate>, s: set<Gpu>)
    requires Offers(cs, s)
    ensures Offers(cs + more, s)
  {
    var i :| 0 <= i < |cs| && Members(cs[i]) == s;
    assert (cs + more)[i] == cs[i];
  }

  lemma OffersMembers(cs: seq<Candidate>, c: Candidate)
    requires c in cs
    ensures Offers(cs, Members(c))
  {
    var i :| 0 <= i < |cs| && cs[i] == c;
    assert Members(cs[i]) == Members(c);
  }

  lemma DifferentPools(front: seq<seq<Gpu>>, pool: seq<Gpu>, needed: nat, multi: bool, s: set<Gpu>, t: set<Gpu>)
    requires Disjoint(front + [pool]) && needed >= 1
    requires Admissible(front, needed, multi, s) && Admissible([pool], needed, multi, t)
    ensures s != t
  {
    var all := front + [pool];
    var i :| 0 <= i < |front| && s <= Members(front[i]);
    assert Members(all[i]) !! Members(all[|front|]);
    assert t <= Members([pool][0]);
    assert s != {};
    var g :| g in s;
    assert g in Members(front[i]);
  }

  /** Skipping a pool that is too small, or on one node for multi-node work, skips nothing. */
  lemma OnlyWorthyPools(pool: seq<Gpu>, needed: nat, multi: bool)
    requires Distinct(pool) && !Worth(pool, needed, multi)
    ensures forall s :: !Admissible([pool], needed, multi, s)
  {
    CardinalityOfMembers(pool);
    forall s ensures !Admissible([pool], needed, multi, s) {
      if s <= Members(pool) {
        SubsetSize(s, Members(pool));
        assert NodesOf(s) <= NodesOf(Members(pool));
        SubsetSize(NodesOf(s), NodesOf(Members(pool)));
      }
    }
  }

  lemma SubsetSize<T>(a: set<T>, b: set<T>)
    requires a <= b
    ensures |a| <= |b|
  {
    assert b == a + (b - a);
  }

  // ---------------------------------------------------------- in terms of nodes

  /** GPU rows belong to one node each. */
  ghost predicate WellFormed(nodes: seq<Node>) {
    (forall i :: 0 <= i < |nodes| ==> Distinct(nodes[i].gpus))
    && forall i, j :: 0 <= i < j < |nodes| ==> Members(nodes[i].gpus) !! Members(nodes[j].gpus)
  }

  lemma WellFormedPrefix(nodes: seq<Node>)
    requires WellFormed(nodes) && nodes != []
    ensures WellFormed(nodes[..|nodes| - 1])
  {
    var front := nodes[..|nodes| - 1];
    forall i | 0 <= i < |front| ensures front[i] == nodes[i] && Distinct(front[i].gpus) {}
    forall i, j | 0 <= i < j < |front| ensures Members(front[i].gpus) !! Members(front[j].gpus) {
      assert front[i] == nodes[i] && front[j] == nodes[j];
    }
  }

  lemma DistinctTogether(a: seq<Gpu>, b: seq<Gpu>)
    requires Distinct(a) && Distinct(b) && forall g :: g in a ==> g !in b
    ensures Distinct(a + b)
  {
    var c := a + b;
    forall i, j | 0 <= i < j < |c| ensures c[i] != c[j] {
      if i < |a| <= j { assert a[i] in a && b[j - |a|] in b; }
    }
  }

  lemma {:induction false} ScopeRowsAre(nodes: seq<Node>, scope: string)
    requires WellFormed(nodes)
    ensures Distinct(ScopeRows(nodes, scope))
    ensures forall g :: g in ScopeRows(nodes, scope) <==> exists i :: 0 <= i < |nodes| && nodes[i].scope == scope && g in nodes[i].gpus
  {
    if nodes != [] {
      var front, last := nodes[..|nodes| - 1], nodes[|nodes| - 1];
      assert nodes == front + [last];
      WellFormedPrefix(nodes);
      ScopeRowsAre(front, scope);
      forall g | g in ScopeRows(front, scope) ensures g !in last.gpus {
        var i :| 0 <= i < |front| && front[i].scope == scope && g in front[i].gpus;
        assert Members(nodes[i].gpus) !! Members(nodes[|front|].gpus) && g in Members(nodes[i].gpus);
      }
      DistinctTogether(ScopeRows(front, scope), last.gpus);
      forall g ensures g in ScopeRows(nodes, scope) <==> exists i :: 0 <= i < |nodes| && nodes[i].scope == scope && g in nodes[i].gpus {
        if g in ScopeRows(front, scope) {
          var i :| 0 <= i < |front| && front[i].scope == scope && g in front[i].gpus;
          assert nodes[i].scope == scope && g in nodes[i].gpus;
        }
        if i :| 0 <= i < |nodes| && nodes[i].scope == scope && g in nodes[i].gpus {
          if i < |front| { assert front[i].scope == scope && g in front[i].gpus; }
        }
      }
    }
  }

  lemma {:induction false} ScopesAre(nodes: seq<Node>)
    ensures forall s :: s in Scopes(nodes) <==> exists i :: 0 <= i < |nodes| && nodes[i].scope == s
    ensures forall i, j :: 0 <= i < j < |Scopes(nodes)| ==> Scopes(nodes)[i] != Scopes(nodes)[j]
  {
    if nodes != [] {
      var front, last := nodes[..|nodes| - 1], nodes[|nodes| - 1];
      assert nodes == front + [last];
      ScopesAre(front);
      forall s ensures s in Scopes(nodes) <==> exists i :: 0 <= i < |nodes| && nodes[i].scope == s {
        if s in Scopes(front) {
          var i :| 0 <= i < |front| && front[i].scope == s;
          assert nodes[i].scope == s;
        }
        assert nodes[|front|].scope == last.scope;
        if i :| 0 <= i < |nodes| && nodes[i].scope == s {
          if i < |front| { assert front[i].scope == s; }
        }
      }
    }
  }

  /** Neither nodes nor provider and domain scopes share GPUs. */
  lemma PoolsAreDisjoint(nodes: seq<Node>, multi: bool)
    requires WellFormed(nodes)
    ensures Disjoint(Pools(nodes, multi))
  {
    if multi {
      ScopesAre(nodes);
      var scopes, pools := Scopes(nodes), Pools(nodes, multi);
      forall i | 0 <= i < |pools| ensures Distinct(pools[i]) { ScopeRowsAre(nodes, scopes[i]); }
      forall i, j | 0 <= i < j < |pools| ensures Members(pools[i]) !! Members(pools[j]) {
        ScopesShareNothing(nodes, scopes[i], scopes[j]);
      }
    }
  }

  lemma ScopesShareNothing(nodes: seq<Node>, s: string, t: string)
    requires WellFormed(nodes) && s != t
    ensures Members(ScopeRows(nodes, s)) !! Members(ScopeRows(nodes, t))
  {
    ScopeRowsAre(nodes, s);
    ScopeRowsAre(nodes, t);
    forall g | g in ScopeRows(nodes, s) ensures g !in ScopeRows(nodes, t) {
      var i :| 0 <= i < |nodes| && nodes[i].scope == s && g in nodes[i].gpus;
      forall j | 0 <= j < |nodes| && nodes[j].scope == t ensures g !in nodes[j].gpus {
        assert g in Members(nodes[i].gpus);
        if i < j { assert Members(nodes[i].gpus) !! Members(nodes[j].gpus); }
        if j < i { assert Members(nodes[j].gpus) !! Members(nodes[i].gpus); }
      }
    }
  }

  /** A set of GPUs the requirements allow: as many as needed, all of one node or, for multi-node
      work, of several nodes in one provider and domain. */
  ghost predicate Allowed(nodes: seq<Node>, needed: nat, multi: bool, s: set<Gpu>) {
    |s| == needed && (if multi then AcrossNodes(s) && exists scope :: InScope(nodes, scope, s) else OnOneNode(nodes, s))
  }

  ghost predicate AcrossNodes(s: set<Gpu>) { exists g, h :: g in s && h in s && g.node != h.node }

  ghost predicate OnOneNode(nodes: seq<Node>, s: set<Gpu>) {
    exists i :: 0 <= i < |nodes| && forall g :: g in s ==> g in nodes[i].gpus
  }

  /** Every GPU is one of a node in this provider and domain. */
  ghost predicate InScope(nodes: seq<Node>, scope: string, s: set<Gpu>) {
    forall g :: g in s ==> exists i :: 0 <= i < |nodes| && nodes[i].scope == scope && g in nodes[i].gpus
  }

  lemma AcrossExactlyWhen(s: set<Gpu>)
    ensures |NodesOf(s)| >= 2 <==> AcrossNodes(s)
  {
    var names := NodesOf(s);
    if AcrossNodes(s) {
      var g, h :| g in s && h in s && g.node != h.node;
      assert {g.node, h.node} <= names;
      SubsetSize({g.node, h.node}, names);
    } else if g :| g in s {
      assert g.node in names;
      assert names == {g.node};
    } else {
      assert names == {};
    }
  }

  lemma InScopeExactlyWhen(nodes: seq<Node>, scope: string, s: set<Gpu>)
    requires WellFormed(nodes)
    ensures s <= Members(ScopeRows(nodes, scope)) <==> InScope(nodes, scope, s)
  {
    ScopeRowsAre(nodes, scope);
  }

  /** The same, over the pools that candidates are drawn from. */
  ghost predicate PoolAllows(nodes: seq<Node>, needed: nat, multi: bool, s: set<Gpu>) {
    |s| == needed && (if multi then |NodesOf(s)| >= 2 && InScopeRows(nodes, s) else InNodeRows(nodes, s))
  }

  ghost predicate InNodeRows(nodes: seq<Node>, s: set<Gpu>) { exists i :: 0 <= i < |nodes| && s <= Members(nodes[i].gpus) }

  ghost predicate InScopeRows(nodes: seq<Node>, s: set<Gpu>) { exists scope :: s <= Members(ScopeRows(nodes, scope)) }

  lemma AllowedExactlyWhen(nodes: seq<Node>, needed: nat, multi: bool, s: set<Gpu>)
    requires WellFormed(nodes)
    ensures PoolAllows(nodes, needed, multi, s) <==> Allowed(nodes, needed, multi, s)
  {
    AcrossExactlyWhen(s);
    forall scope ensures s <= Members(ScopeRows(nodes, scope)) <==> InScope(nodes, scope, s) { InScopeExactlyWhen(nodes, scope, s); }
    forall i | 0 <= i < |nodes| ensures s <= Members(nodes[i].gpus) <==> forall g :: g in s ==> g in nodes[i].gpus {}
  }

  /** The enumeration is complete and exact: a set of GPUs is a candidate exactly when it has
      the required size and lies on one node or, for multi-node work, inside one provider and
      domain across at least two nodes; and it is a candidate only once. */
  lemma CandidatesAreExactlyTheAdmissibleSets(nodes: seq<Node>, needed: nat, multi: bool, s: set<Gpu>)
    requires WellFormed(nodes) && needed >= 1
    ensures var d := Drawn(Pools(nodes, multi), needed, multi);
      && (Offers(d, s) <==> Allowed(nodes, needed, multi, s))
      && DistinctSets(d)
  {
    CandidatesFromPools(nodes, needed, multi, s);
    AllowedExactlyWhen(nodes, needed, multi, s);
  }

  lemma CandidatesFromPools(nodes: seq<Node>, needed: nat, multi: bool, s: set<Gpu>)
    requires WellFormed(nodes) && needed >= 1
    ensures var d := Drawn(Pools(nodes, multi), needed, multi);
      && (Offers(d, s) <==> PoolAllows(nodes, needed, multi, s))
      && DistinctSets(d)
  {
    var pools := Pools(nodes, multi);
    var d := Drawn(pools, needed, multi);
    PoolsAreDisjoint(nodes, multi);
    DrawnOnce(pools, needed, multi);
    if multi { ScopesAre(nodes); }
    if Offers(d, s) {
      var i :| 0 <= i < |d| && Members(d[i]) == s;
      DrawnAreAdmissible(pools, needed, multi, d[i]);
      var k :| 0 <= k < |pools| && s <= Members(pools[k]);
      assert if multi then s <= Members(ScopeRows(nodes, Scopes(nodes)[k])) else s <= Members(nodes[k].gpus);
    }
    if PoolAllows(nodes, needed, multi, s) {
      PoolFor(nodes, needed, multi, s);
      AdmissibleAreDrawn(pools, needed, multi, s);
    }
  }

  lemma PoolFor(nodes: seq<Node>, needed: nat, multi: bool, s: set<Gpu>)
    requires WellFormed(nodes) && needed >= 1 && PoolAllows(nodes, needed, multi, s)
    ensures Admissible(Pools(nodes, multi), needed, multi, s)
  {
    var pools := Pools(nodes, multi);
    if multi {
      var scope :| s <= Members(ScopeRows(nodes, scope));
      ScopeRowsAre(nodes, scope);
      ScopesAre(nodes);
      assert s != {};
      var g :| g in s;
      assert g in ScopeRows(nodes, scope);
      var i :| 0 <= i < |nodes| && nodes[i].scope == scope && g in nodes[i].gpus;
      assert scope in Scopes(nodes);
      var k :| 0 <= k < |Scopes(nodes)| && Scopes(nodes)[k] == scope;
      assert s <= Members(pools[k]);
    } else {
      var i :| 0 <= i < |nodes| && s <= Members(nodes[i].gpus);
      assert s <= Members(pools[i]);
    }
  }

  // ---------------------------------------------------------------- the ranking

  predicate LexLess<T(==)>(less: (T, T) -> bool, a: seq<T>, b: seq<T>) {
    |b| > 0 && (|a| == 0 || less(a[0], b[0]) || (a[0] == b[0] && LexLess(less, a[1..], b[1..])))
  }

  ghost predicate StrictTotal<T(!new)>(less: (T, T) -> bool) {
    && (forall a, b :: less(a, b) ==> !less(b, a))
    && (forall a, b :: a == b || less(a, b) || less(b, a))
    && (forall a, b, c :: less(a, b) && less(b, c) ==> less(a, c))
  }

  lemma {:induction false} LexIsTotal<T(!new)>(less: (T, T) -> bool, a: seq<T>, b: seq<T>, c: seq<T>)
    requires StrictTotal(less)
    ensures !(LexLess(less, a, b) && LexLess(less, b, a))
    ensures a == b || LexLess(less, a, b) || LexLess(less, b, a)
    ensures LexLess(less, a, b) && LexLess(less, b, c) ==> LexLess(less, a, c)
    decreases |a| + |b| + |c|
  {
    if a != [] && b != [] {
      LexIsTotal(less, a[1..], b[1..], if c == [] then [] else c[1..]);
      assert a[0] == b[0] && a[1..] == b[1..] ==> a == [a[0]] + a[1..] == [b[0]] + b[1..] == b;
    }
  }

  /** A valid candidate with the ranking keys that precede the stable key, most significant
      first. */
  datatype Ranked = Ranked(keys: seq<int>, stable: seq<string>, gpus: set<Gpu>)

  predicate IntLess(a: int, b: int) { a < b }

  predicate RankLess(a: Ranked, b: Ranked) {
    LexLess(IntLess, a.keys, b.keys) || (a.keys == b.keys && LexLess(TextLess, a.stable, b.stable))
  }

  lemma TextIsTotal()
    ensures StrictTotal(TextLess) && StrictTotal(IntLess)
  {
    forall a, b ensures a == b || TextLess(a, b) || TextLess(b, a) { TextLessTotal(a, b); }
    forall a, b | TextLess(a, b) ensures !TextLess(b, a) { TextLessTotal(a, b); }
    forall a, b, c | TextLess(a, b) && TextLess(b, c) ensures TextLess(a, c) { TextLessTransitive(a, b, c); }
  }

  lemma RankOrder(a: Ranked, b: Ranked, c: Ranked)
    ensures !(RankLess(a, b) && RankLess(b, a))
    ensures (a.keys == b.keys && a.stable == b.stable) || RankLess(a, b) || RankLess(b, a)
    ensures !RankLess(a, b) && !RankLess(b, c) ==> !RankLess(a, c)
  {
    TextIsTotal();
    LexIsTotal(IntLess, a.keys, b.keys, c.keys);
    LexIsTotal(IntLess, c.keys, b.keys, a.keys);
    LexIsTotal(IntLess, a.keys, c.keys, b.keys);
    LexIsTotal(TextLess, a.stable, b.stable, c.stable);
    LexIsTotal(TextLess, c.stable, b.stable, a.stable);
    LexIsTotal(TextLess, a.stable, c.stable, b.stable);
  }

  /** `_stable_key`: the sorted resource keys. */
  function KeyTexts(c: Candidate): seq<string> { seq(|c|, i requires 0 <= i < |c| => c[i].key) }

  function StableKey(c: Candidate): seq<string> { Sorted(TextLess, KeyTexts(c)) }

  /** The first place where two lists differ is smaller in a, or a ends there. */
  ghost predicate KeysBefore(a: seq<int>, b: seq<int>) {
    exists i :: 0 <= i < |b| && i <= |a| && a[..i] == b[..i] && (i == |a| || a[i] < b[i])
  }

  ghost predicate TextsBefore(a: seq<string>, b: seq<string>) {
    exists i :: 0 <= i < |b| && i <= |a| && a[..i] == b[..i] && (i == |a| || TextLess(a[i], b[i]))
  }

  /** Candidate c is preferred to d: its ranking keys are smaller at the first place where they
      differ or, if they are the same, its sorted resource keys are. */
  ghost predicate Preferred(c: Candidate, d: Candidate, keys: set<Gpu> -> seq<int>) {
    KeysBefore(keys(Members(c)), keys(Members(d)))
    || (keys(Members(c)) == keys(Members(d)) && TextsBefore(StableKey(c), StableKey(d)))
  }

  lemma {:induction false} LexExactlyWhen<T(!new)>(less: (T, T) -> bool, a: seq<T>, b: seq<T>)
    requires forall x :: !less(x, x)
    ensures LexLess(less, a, b) <==> exists i :: 0 <= i < |b| && i <= |a| && a[..i] == b[..i] && (i == |a| || less(a[i], b[i]))
  {
    forall i | 0 < i < |b| && i <= |a| && a[..i] == b[..i] ensures a[0] == b[0] { assert a[..i][0] == b[..i][0]; }
    if a != [] && b != [] && a[0] == b[0] {
      LexExactlyWhen(less, a[1..], b[1..]);
      forall i | 0 <= i < |b| && i <= |a| && a[..i] == b[..i] && (i == |a| || less(a[i], b[i]))
        ensures LexLess(less, a[1..], b[1..])
      {
        assert i > 0;
        assert a[1..][..i - 1] == a[..i][1..] && b[1..][..i - 1] == b[..i][1..];
      }
      forall i | 0 <= i < |b[1..]| && i <= |a[1..]| && a[1..][..i] == b[1..][..i] && (i == |a[1..]| || less(a[1..][i], b[1..][i]))
        ensures a[..i + 1] == b[..i + 1] && (i + 1 == |a| || less(a[i + 1], b[i + 1]))
      {
        assert a[..i + 1] == [a[0]] + a[1..][..i] && b[..i + 1] == [b[0]] + b[1..][..i];
      }
    } else if b != [] {
      assert a[..0] == b[..0];
    }
  }

  lemma PreferredExactlyWhen(c: Candidate, d: Candidate, keys: set<Gpu> -> seq<int>)
    ensures RankLess(RankedAs(c, keys), RankedAs(d, keys)) <==> Preferred(c, d, keys)
  {
    TextIsTotal();
    LexExactlyWhen(IntLess, keys(Members(c)), keys(Members(d)));
    LexExactlyWhen(TextLess, StableKey(c), StableKey(d));
  }

  /** The stable key lists the keys of the GPUs in text order. */
  lemma StableKeyIsSorted(c: Candidate)
    ensures |StableKey(c)| == |c| && forall x :: x in StableKey(c) <==> exists i :: 0 <= i < |c| && c[i].key == x
    ensures forall i, j :: 0 <= i < j < |c| ==> StableKey(c)[i] == StableKey(c)[j] || TextLess(StableKey(c)[i], StableKey(c)[j])
  {
    var texts := KeyTexts(c);
    TextIsWeak();
    SortedIsSorted(TextLess, texts);
    SameElements(StableKey(c), texts);
    forall i, j | 0 <= i < j < |c| ensures StableKey(c)[i] == StableKey(c)[j] || TextLess(StableKey(c)[i], StableKey(c)[j]) {
      TextLessTotal(StableKey(c)[i], StableKey(c)[j]);
    }
    forall x ensures x in texts <==> exists i :: 0 <= i < |c| && c[i].key == x {
      if x in texts {
        var i :| 0 <= i < |texts| && texts[i] == x;
        assert c[i].key == x;
      }
      if i :| 0 <= i < |c| && c[i].key == x { assert texts[i] == x; }
    }
  }

  /** Resource keys identify GPUs. */
  ghost predicate KeysIdentify(gpus: set<Gpu>) { forall g, h :: g in gpus && h in gpus && g.key == h.key ==> g == h }

  lemma TextIsWeak()
    ensures WeakOrder(TextLess)
  {
    TextIsTotal();
    forall a, b, c | !TextLess(a, b) && !TextLess(b, c) ensures !TextLess(a, c) {
      TextLessTotal(a, b);
      TextLessTotal(b, c);
      TextLessTotal(a, c);
    }
  }

  /** The stable key tells different sets of GPUs apart. */
  lemma StableKeyIdentifies(a: Candidate, b: Candidate)
    requires KeysIdentify(Members(a) + Members(b)) && StableKey(a) == StableKey(b)
    ensures Members(a) == Members(b)
  {
    TextIsWeak();
    SortedIsSorted(TextLess, KeyTexts(a));
    SortedIsSorted(TextLess, KeyTexts(b));
    SameElements(KeyTexts(a), KeyTexts(b));
    forall g ensures g in a <==> g in b {
      if g in a { SharedKey(a, b, g); }
      if g in b { SharedKey(b, a, g); }
    }
  }

  lemma SharedKey(a: Candidate, b: Candidate, g: Gpu)
    requires g in a && KeysIdentify(Members(a) + Members(b)) && forall k :: k in KeyTexts(a) ==> k in KeyTexts(b)
    ensures g in b
  {
    var i :| 0 <= i < |a| && a[i] == g;
    assert KeyTexts(a)[i] == g.key && g.key in KeyTexts(b);
    var j :| 0 <= j < |b| && KeyTexts(b)[j] == g.key;
    assert b[j] in Members(b) && b[j].key == g.key;
  }

  // ------------------------------------------------------------------- evaluate

  /** `evaluate`: filter the candidates, sort them by the ranking keys and the stable key, take
      the first; None when no candidate is valid. */
  method Evaluate(candidates: seq<Candidate>, valid: set<Gpu> -> bool, keys: set<Gpu> -> seq<int>) returns (best: Option<Candidate>)
    ensures best.None? <==> forall c :: c in candidates ==> !valid(Members(c))
    ensures best.Some? ==> best.value in candidates && valid(Members(best.value))
    ensures best.Some? ==> forall c :: c in candidates && valid(Members(c)) ==> !RankLess(RankedAs(c, keys), RankedAs(best.value, keys))
  {
    var accepted: seq<Candidate> := [];
    var i := 0;
    while i < |candidates|
      invariant 0 <= i <= |candidates|
      invariant forall c :: c in accepted <==> c in candidates[..i] && valid(Members(c))
    {
      assert candidates[..i + 1] == candidates[..i] + [candidates[i]];
      if valid(Members(candidates[i])) { accepted := accepted + [candidates[i]]; }
      i := i + 1;
    }
    assert candidates[..i] == candidates;
    if accepted == [] { return None; }
    var less := (a: Candidate, b: Candidate) => RankLess(RankedAs(a, keys), RankedAs(b, keys));
    forall a, b | less(a, b) ensures !less(b, a) { RankOrder(RankedAs(a, keys), RankedAs(b, keys), RankedAs(a, keys)); }
    forall a, b, c | !less(a, b) && !less(b, c) ensures !less(a, c) {
      RankOrder(RankedAs(a, keys), RankedAs(b, keys), RankedAs(c, keys));
    }
    SortedIsSorted(less, accepted);
    SameElements(Sorted(less, accepted), accepted);
    var ranked := Sorted(less, accepted);
    assert ranked[0] in ranked;
    forall c | c in ranked ensures !less(c, ranked[0]) {
      var j :| 0 <= j < |ranked| && ranked[j] == c;
      RankOrder(RankedAs(c, keys), RankedAs(c, keys), RankedAs(c, keys));
    }
    best := Some(ranked[0]);
  }

  function RankedAs(c: Candidate, keys: set<Gpu> -> seq<int>): Ranked { Ranked(keys(Members(c)), StableKey(c), Members(c)) }

  /** The choice does not depend on the order of rows, nodes or candidates: any two best
      candidates, drawn from listings of the same admissible sets, are the same GPUs. */
  lemma ChoiceIsOrderIndependent(a: seq<Candidate>, b: seq<Candidate>, valid: set<Gpu> -> bool, keys: set<Gpu> -> seq<int>, x: Candidate, y: Candidate)
    requires forall s :: Offers(a, s) <==> Offers(b, s)
    requires x in a && valid(Members(x)) && forall c :: c in a && valid(Members(c)) ==> !RankLess(RankedAs(c, keys), RankedAs(x, keys))
    requires y in b && valid(Members(y)) && forall c :: c in b && valid(Members(c)) ==> !RankLess(RankedAs(c, keys), RankedAs(y, keys))
    requires forall c :: c in a || c in b ==> Distinct(c)
    requires forall c, d :: (c in a || c in b) && (d in a || d in b) ==> KeysIdentify(Members(c) + Members(d))
    ensures Members(x) == Members(y)
  {
    OffersMembers(a, x);
    OffersMembers(b, y);
    assert Offers(b, Members(x)) && Offers(a, Members(y));
    var i :| 0 <= i < |b| && Members(b[i]) == Members(x);
    var j :| 0 <= j < |a| && Members(a[j]) == Members(y);
    var x', y' := b[i], a[j];
    SameStableKey(x, x');
    SameStableKey(y, y');
    RankOrder(RankedAs(x, keys), RankedAs(y, keys), RankedAs(x, keys));
    assert !RankLess(RankedAs(x', keys), RankedAs(y, keys)) && !RankLess(RankedAs(y', keys), RankedAs(x, keys));
    StableKeyIdentifies(x, y);
  }

  /** The stable key depends on the set of GPUs alone. */
  lemma SameStableKey(a: Candidate, b: Candidate)
    requires Distinct(a) && Distinct(b) && Members(a) == Members(b)
    ensures StableKey(a) == StableKey(b)
  {
    SameMultiset(a, b);
    KeyMultisets(a, b);
    TextIsWeak();
    forall x, y ensures x == y || TextLess(x, y) || TextLess(y, x) { TextLessTotal(x, y); }
    SortedIsCanonical(TextLess, KeyTexts(a), KeyTexts(b));
  }

  lemma {:induction false} OnceEach(a: Candidate, g: Gpu)
    requires Distinct(a)
    ensures multiset(a)[g] == if g in a then 1 else 0
  {
    if a != [] {
      var front, last := a[..|a| - 1], a[|a| - 1];
      assert a == front + [last];
      OnceEach(front, g);
    }
  }

  lemma SameMultiset(a: Candidate, b: Candidate)
    requires Distinct(a) && Distinct(b) && Members(a) == Members(b)
    ensures multiset(a) == multiset(b)
  {
    forall g ensures multiset(a)[g] == multiset(b)[g] {
      OnceEach(a, g);
      OnceEach(b, g);
      assert g in a <==> g in Members(a);
      assert g in b <==> g in Members(b);
    }
  }

  function WithoutAt(c: Candidate, i: nat): (r: Candidate)
    requires i < |c|
    ensures |r| == |c| - 1
  {
    c[..i] + c[i + 1..]
  }

  /** Taking out one element takes out its key. */
  lemma Removal(c: Candidate, i: nat)
    requires i < |c|
    ensures var rest := WithoutAt(c, i);
      multiset(c) == multiset(rest) + multiset{c[i]} && multiset(KeyTexts(c)) == multiset(KeyTexts(rest)) + multiset{c[i].key}
  {
    var low, high := c[..i], c[i + 1..];
    assert c == low + [c[i]] + high;
    assert KeyTexts(c) == KeyTexts(low) + [c[i].key] + KeyTexts(high);
    assert KeyTexts(low + high) == KeyTexts(low) + KeyTexts(high);
  }

  lemma {:induction false} KeyMultisets(a: Candidate, b: Candidate)
    requires multiset(a) == multiset(b)
    ensures multiset(KeyTexts(a)) == multiset(KeyTexts(b))
  {
    SameElements(a, b);
    if a != [] {
      var g := a[|a| - 1];
      assert g in b;
      var j :| 0 <= j < |b| && b[j] == g;
      var front, rest := WithoutAt(a, |a| - 1), WithoutAt(b, j);
      Removal(a, |a| - 1);
      Removal(b, j);
      assert multiset(front) == multiset(a) - multiset{g} == multiset(rest);
      KeyMultisets(front, rest);
    } else {
      assert b == [];
    }
  }

  /** The whole choice: None exactly when no allowed set of GPUs is valid; otherwise an allowed,
      valid set, and no other allowed, valid set is preferred to it. */
  method Place(nodes: seq<Node>, needed: int, multi: bool, valid: set<Gpu> -> bool, keys: set<Gpu> -> seq<int>) returns (best: Option<Candidate>)
    requires WellFormed(nodes)
    ensures best.None? <==> needed < 1 || forall s :: Allowed(nodes, needed, multi, s) ==> !valid(s)
    ensures best.Some? ==> needed >= 1 && Distinct(best.value) && Allowed(nodes, needed, multi, Members(best.value)) && valid(Members(best.value))
    ensures best.Some? ==> forall c :: Distinct(c) && Allowed(nodes, needed, multi, Members(c)) && valid(Members(c)) ==>
      !Preferred(c, best.value, keys)
  {
    var sets := CandidateSets(nodes, needed, multi);
    best := None;
    if sets.Some? { best := Evaluate(sets.value, valid, keys); }
    if needed >= 1 {
      var d := Drawn(Pools(nodes, multi), needed, multi);
      if nodes == [] { NoNodesNoPools(multi); }
      assert sets == None ==> d == [];
      assert sets.Some? ==> sets.value == d;
      forall s ensures Offers(d, s) <==> Allowed(nodes, needed, multi, s) {
        CandidatesAreExactlyTheAdmissibleSets(nodes, needed, multi, s);
      }
      PoolsAreDisjoint(nodes, multi);
      forall c | c in d ensures Distinct(c) && Offers(d, Members(c)) {
        DrawnAreAdmissible(Pools(nodes, multi), needed, multi, c);
        OffersMembers(d, c);
      }
      if best.Some? {
        forall c | Distinct(c) && Allowed(nodes, needed, multi, Members(c)) && valid(Members(c))
          ensures !Preferred(c, best.value, keys)
        {
          PreferredExactlyWhen(c, best.value, keys);
          var i :| 0 <= i < |d| && Members(d[i]) == Members(c);
          SameStableKey(d[i], c);
          assert d[i] in d;
        }
      } else {
        forall s | Allowed(nodes, needed, multi, s) ensures !valid(s) {
          var i :| 0 <= i < |d| && Members(d[i]) == s;
          assert d[i] in d;
        }
      }
    }
  }

  lemma NoNodesNoPools(multi: bool)
    ensures Pools([], multi) == [] && forall needed :: Drawn(Pools([], multi), needed, multi) == []
  {}
}
