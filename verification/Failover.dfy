/** Choosing the standby path an execution fails over to, and checking that the next
    generation's placement really activates it. */
module Failover {
  import opened Base

  /** One durable route set of a placement: the routes chosen for a directed GPU pair. */
  datatype RouteSet = RouteSet(source: string, destination: string, active: string,
                               standby: set<string>, verified: set<string>)

  datatype Placement = Placement(id: string, routes: seq<RouteSet>)

  /** A concrete physical path.  `segments` and `domains` are None when the stored value is
      not a list; `measured`: its state is MEASURED and a measurement is stored. */
  datatype Path = Path(id: string, source: string, destination: string,
                       segments: Option<set<string>>, domains: Option<set<string>>, measured: bool)

  /** A health figure; absent figures rank as infinity. */
  datatype Figure = Finite(value: real) | Infinite

  datatype Health = Health(failureRate: Figure, latencyDelta: Figure, latest: Figure, samples: nat)

  datatype Rebind = Rebind(attempt: string, generation: nat, source: string, destination: string,
                           fromPath: string, toPath: Option<string>)

  // ------------------------------------------------------------ independence

  function Colons(x: string): nat {
    if x == "" then 0 else (if x[0] == ':' then 1 else 0) + Colons(x[1..])
  }

  predicate EndpointSegment(x: string) { "nic:" <= x || ("rdma:" <= x && Colons(x) == 1) }

  function Components(p: Path): set<string> {
    if p.segments.None? || p.domains.None? || p.domains.value == {} then {}
    else (set x | x in p.segments.value && EndpointSegment(x)) + p.domains.value
  }

  predicate Independent(p: Path, q: Path) {
    p.domains.Some? && q.domains.Some? && p.domains.value != {} && q.domains.value != {}
    && Components(p) != {} && Components(q) != {}
    && p.domains.value !! q.domains.value && Components(p) !! Components(q)
  }

  // ---------------------------------------------------------------- ordering

  predicate FigureLess(x: Figure, y: Figure) { x.Finite? && (y.Infinite? || x.value < y.value) }

  /** The selector key: failure rate, distance from mean latency, latest latency, more
      samples first, then the path id.  Rebind candidates carry no active-path
      intelligence, so the key's two parts taken from it are the same for all of them. */
  predicate KeyLess(h: Health, i: string, k: Health, j: string) {
    FigureLess(h.failureRate, k.failureRate) || (h.failureRate == k.failureRate && (
    FigureLess(h.latencyDelta, k.latencyDelta) || (h.latencyDelta == k.latencyDelta && (
    FigureLess(h.latest, k.latest) || (h.latest == k.latest && (
    h.samples > k.samples || (h.samples == k.samples && TextLess(i, j))))))))
  }

  lemma KeyLessTransitive(h: Health, i: string, k: Health, j: string, l: Health, m: string)
    ensures KeyLess(h, i, k, j) && KeyLess(k, j, l, m) ==> KeyLess(h, i, l, m)
    ensures !KeyLess(h, i, h, i)
    ensures KeyLess(h, i, k, j) || KeyLess(k, j, h, i) || (h == k && i == j)
  {
    if TextLess(i, j) && TextLess(j, m) { TextLessTransitive(i, j, m); }
    TextLessTotal(i, i);
    TextLessTotal(i, j);
  }

  // ----------------------------------------------------------------- contract

  function FindRoute(routes: seq<RouteSet>, source: string, destination: string): Option<RouteSet> {
    if routes == [] then None
    else if routes[0].source == source && routes[0].destination == destination then Some(routes[0])
    else FindRoute(routes[1..], source, destination)
  }

  function FindPath(paths: seq<Path>, id: string): Option<Path> {
    if paths == [] then None else if paths[0].id == id then Some(paths[0]) else FindPath(paths[1..], id)
  }

  /** A path the contract may hand over to. */
  predicate Eligible(p: Path, failed: Path, route: RouteSet, health: map<string, Health>) {
    p.id != "" && p.id in route.standby && p.id in route.verified
    && p.source == failed.source && p.destination == failed.destination
    && Independent(failed, p) && p.measured && p.id in health
  }

  /** The running minimum over the eligible paths, first one winning ties. */
  function Best(paths: seq<Path>, failed: Path, route: RouteSet, health: map<string, Health>): Option<Path> {
    if paths == [] then None
    else
      var before := Best(paths[..|paths| - 1], failed, route, health);
      var p := paths[|paths| - 1];
      if !Eligible(p, failed, route, health) then before
      else if before.Some? && !(before.value.id in health && KeyLess(health[p.id], p.id, health[before.value.id], before.value.id))
      then before else Some(p)
  }

  /** `_fabric_rebind_contract`; None when it raises. */
  function Contract(placement: Placement, paths: seq<Path>, health: map<string, Health>,
                    failedId: string, attempt: string, generation: nat): Option<Rebind>
  {
    match FindPath(paths, failedId)
    case None => Some(Rebind(attempt, generation, "", "", failedId, None))
    case Some(failed) =>
      match FindRoute(placement.routes, failed.source, failed.destination)
      case None => None
      case Some(route) =>
        var best := Best(paths, failed, route, health);
        Some(Rebind(attempt, generation, failed.source, failed.destination, failedId,
                    if best.Some? then Some(best.value.id) else None))
  }

  /** `_validate_fabric_rebind_placement`. */
  predicate Validates(r: Rebind, p: Placement) {
    r.source != "" && r.destination != "" && r.toPath.Some? && r.toPath.value != ""
    && var route := FindRoute(p.routes, r.source, r.destination);
       route.Some? && route.value.active == r.toPath.value && r.toPath.value in route.value.verified
  }

  // --------------------------------------------------------------- properties

  /** Something a path depends on: a fabric domain, or the NIC or RDMA device at one of its
      ends ("nic:..." and "rdma:..." with a single colon). */
  ghost predicate DependsOn(p: Path, x: string)
    requires p.segments.Some? && p.domains.Some?
  {
    x in p.domains.value || (x in p.segments.value && ("nic:" <= x || ("rdma:" <= x && multiset(x)[':'] == 1)))
  }

  /** Both paths say what they depend on, and nothing is common to both. */
  ghost predicate ShareNothing(p: Path, q: Path) {
    && p.segments.Some? && q.segments.Some? && p.domains.Some? && q.domains.Some?
    && (exists x :: x in p.domains.value) && (exists x :: x in q.domains.value)
    && forall x :: !(DependsOn(p, x) && DependsOn(q, x))
  }

  /** A standby the contract may hand over to: in the route set's standby and verified paths, on
      the same directed GPU pair, measured, with known health, sharing nothing with `failed`. */
  ghost predicate Qualifies(q: Path, failed: Path, route: RouteSet, health: map<string, Health>) {
    && q.id != "" && q.id in route.standby && q.id in route.verified && q.id in health && q.measured
    && q.source == failed.source && q.destination == failed.destination && ShareNothing(failed, q)
  }

  /** An absent figure counts as larger than any number. */
  ghost predicate AtMost(x: Figure, y: Figure) { y.Infinite? || (x.Finite? && x.value <= y.value) }

  /** The failure rate of the first is at most that of the second; among equal rates its distance
      from the mean latency is; then its latest latency is; then it has as many samples or more;
      then its id does not come later. */
  ghost predicate NoWorse(h: Health, i: string, k: Health, j: string) {
    && AtMost(h.failureRate, k.failureRate)
    && (h.failureRate == k.failureRate ==>
          && AtMost(h.latencyDelta, k.latencyDelta)
          && (h.latencyDelta == k.latencyDelta ==>
                && AtMost(h.latest, k.latest)
                && (h.latest == k.latest ==> h.samples >= k.samples && (h.samples == k.samples ==> i == j || TextLess(i, j)))))
  }

  /** What it means for a standby to be a safe choice after `failed` broke: it qualifies and is
      no worse than any other path that does. */
  ghost predicate SafeStandby(id: string, failed: Path, route: RouteSet, paths: seq<Path>, health: map<string, Health>) {
    exists q :: q in paths && q.id == id && Qualifies(q, failed, route, health)
      && forall p :: p in paths && Qualifies(p, failed, route, health) ==> NoWorse(health[q.id], q.id, health[p.id], p.id)
  }

  lemma {:induction false} ColonsAre(x: string)
    ensures Colons(x) == multiset(x)[':']
  {
    if x != "" {
      ColonsAre(x[1..]);
      assert x == [x[0]] + x[1..];
    }
  }

  lemma IndependentExactlyWhen(p: Path, q: Path)
    ensures Independent(p, q) <==> ShareNothing(p, q)
  {
    forall x ensures EndpointSegment(x) <==> "nic:" <= x || ("rdma:" <= x && multiset(x)[':'] == 1) { ColonsAre(x); }
    if p.segments.Some? && p.domains.Some? && p.domains.value != {} {
      forall x ensures x in Components(p) <==> DependsOn(p, x) {}
    }
    if q.segments.Some? && q.domains.Some? && q.domains.value != {} {
      forall x ensures x in Components(q) <==> DependsOn(q, x) {}
    }
    if ShareNothing(p, q) {
      var d :| d in p.domains.value;
      var e :| e in q.domains.value;
      assert d in Components(p) && e in Components(q);
      forall x | x in p.domains.value ensures x !in q.domains.value { assert DependsOn(p, x); }
    }
  }

  lemma EligibleExactlyWhen(q: Path, failed: Path, route: RouteSet, health: map<string, Health>)
    ensures Eligible(q, failed, route, health) <==> Qualifies(q, failed, route, health)
  {
    IndependentExactlyWhen(failed, q);
  }

  /** The selector key puts one path before another exactly when the second is worse. */
  lemma KeyLessExactlyWhen(h: Health, i: string, k: Health, j: string)
    ensures KeyLess(h, i, k, j) <==> !NoWorse(k, j, h, i)
  {
    TextLessTotal(i, j);
  }

  lemma {:induction false} BestIsMinimal(paths: seq<Path>, failed: Path, route: RouteSet, health: map<string, Health>)
    ensures Best(paths, failed, route, health).None? <==> forall p :: p in paths ==> !Eligible(p, failed, route, health)
    ensures var best := Best(paths, failed, route, health);
      best.Some? ==> (best.value in paths && Eligible(best.value, failed, route, health)
        && forall p :: p in paths && Eligible(p, failed, route, health)
             ==> !KeyLess(health[p.id], p.id, health[best.value.id], best.value.id))
  {
    if paths != [] {
      var front, last := paths[..|paths| - 1], paths[|paths| - 1];
      BestIsMinimal(front, failed, route, health);
      assert paths == front + [last];
      var before, best := Best(front, failed, route, health), Best(paths, failed, route, health);
      if best.Some? {
        var q := best.value;
        forall p | p in paths && Eligible(p, failed, route, health)
          ensures !KeyLess(health[p.id], p.id, health[q.id], q.id)
        {
          KeyLessTransitive(health[p.id], p.id, health[q.id], q.id, health[p.id], p.id);
          if before.Some? {
            var b := before.value;
            KeyLessTransitive(health[p.id], p.id, health[q.id], q.id, health[b.id], b.id);
          }
        }
      }
    }
  }

  lemma {:induction false} FoundPath(paths: seq<Path>, id: string)
    ensures FindPath(paths, id).Some? <==> exists p :: p in paths && p.id == id
    ensures FindPath(paths, id).Some? ==>
      exists i :: 0 <= i < |paths| && FindPath(paths, id).value == paths[i] && paths[i].id == id && forall j :: 0 <= j < i ==> paths[j].id != id
  {
    if paths != [] && paths[0].id != id {
      FoundPath(paths[1..], id);
      if FindPath(paths, id).Some? {
        var i :| 0 <= i < |paths[1..]| && FindPath(paths[1..], id).value == paths[1..][i] && paths[1..][i].id == id
                 && forall j :: 0 <= j < i ==> paths[1..][j].id != id;
        assert paths[i + 1] == paths[1..][i];
        forall j | 0 <= j < i + 1 ensures paths[j].id != id { if j > 0 { assert paths[j] == paths[1..][j - 1]; } }
      }
    }
  }

  ghost predicate Joins(r: RouteSet, source: string, destination: string) { r.source == source && r.destination == destination }

  lemma {:induction false} FoundRoute(routes: seq<RouteSet>, source: string, destination: string)
    ensures FindRoute(routes, source, destination).Some?
            <==> exists r :: r in routes && r.source == source && r.destination == destination
    ensures var f := FindRoute(routes, source, destination);
      f.Some? ==> exists i :: 0 <= i < |routes| && f.value == routes[i] && Joins(routes[i], source, destination)
                    && forall j :: 0 <= j < i ==> !Joins(routes[j], source, destination)
  {
    if routes != [] && !(routes[0].source == source && routes[0].destination == destination) {
      FoundRoute(routes[1..], source, destination);
      if FindRoute(routes, source, destination).Some? {
        var i :| 0 <= i < |routes[1..]| && FindRoute(routes[1..], source, destination).value == routes[1..][i]
                 && Joins(routes[1..][i], source, destination) && forall j :: 0 <= j < i ==> !Joins(routes[1..][j], source, destination);
        assert routes[i + 1] == routes[1..][i];
        forall j | 0 <= j < i + 1 ensures !Joins(routes[j], source, destination) { if j > 0 { assert routes[j] == routes[1..][j - 1]; } }
      }
    }
  }

  /** A known failed path has no durable route set: the only way the contract raises. */
  ghost predicate RouteSetMissing(placement: Placement, paths: seq<Path>, failedId: string) {
    FindPath(paths, failedId).Some?
    && forall r :: r in placement.routes ==>
         !(r.source == FindPath(paths, failedId).value.source && r.destination == FindPath(paths, failedId).value.destination)
  }

  lemma ContractRaisesExactlyWhen(placement: Placement, paths: seq<Path>, health: map<string, Health>,
                                  failedId: string, attempt: string, generation: nat)
    ensures Contract(placement, paths, health, failedId, attempt, generation).None?
            <==> RouteSetMissing(placement, paths, failedId)
  {
    var f := FindPath(paths, failedId);
    if f.Some? { FoundRoute(placement.routes, f.value.source, f.value.destination); }
  }

  /** A contract names a standby exactly when some path qualifies, and then one that qualifies
      and is no worse than any other that does. */
  lemma ContractIsSafe(placement: Placement, paths: seq<Path>, health: map<string, Health>,
                       failedId: string, attempt: string, generation: nat)
    requires FindPath(paths, failedId).Some?
    requires Contract(placement, paths, health, failedId, attempt, generation).Some?
    ensures var failed := FindPath(paths, failedId).value;
      var r := Contract(placement, paths, health, failedId, attempt, generation).value;
      var route := FindRoute(placement.routes, failed.source, failed.destination);
      route.Some? && r.source == failed.source && r.destination == failed.destination
      && (r.toPath.Some? <==> exists p :: p in paths && Qualifies(p, failed, route.value, health))
      && (r.toPath.Some? ==> SafeStandby(r.toPath.value, failed, route.value, paths, health))
  {
    var failed := FindPath(paths, failedId).value;
    var route := FindRoute(placement.routes, failed.source, failed.destination).value;
    FoundPath(paths, failedId);
    BestIsMinimal(paths, failed, route, health);
    forall p ensures Eligible(p, failed, route, health) <==> Qualifies(p, failed, route, health) {
      EligibleExactlyWhen(p, failed, route, health);
    }
    var best := Best(paths, failed, route, health);
    if best.Some? {
      forall p | p in paths && Qualifies(p, failed, route, health)
        ensures NoWorse(health[best.value.id], best.value.id, health[p.id], p.id)
      {
        KeyLessExactlyWhen(health[p.id], p.id, health[best.value.id], best.value.id);
      }
    }
  }

  /** Path ids are the table's primary key, so the chosen standby is never the failed path. */
  lemma StandbyIsAnotherPath(paths: seq<Path>, failed: Path, standby: Path)
    requires failed in paths && standby in paths && Independent(failed, standby)
    requires forall p, q :: p in paths && q in paths && p.id == q.id ==> p == q
    ensures standby.id != failed.id
  {
    var d :| d in failed.domains.value;
    assert d !in standby.domains.value;
  }
}
