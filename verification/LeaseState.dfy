/** The coordinator's tables and what each lock-held public method does to them.

    Every public method of the coordinator runs under one lock, so each is one atomic
    step of this state machine.  Randomness (uuid4), the clock, and the answers of the
    scheduler and of the evidence checks are parameters of a step. */
module LeaseState {
  import opened Base
  import opened Failover

  // ---------------------------------------------------------------- payloads

  /** What `required_capabilities` says: a malformed value makes the scan of a claim raise. */
  datatype Capabilities = Malformed | Required(names: set<string>)

  /** What the payload says about `compute_requirements`.  Nested: the words occur in the
      serialized payload but not as a top-level key.  `nodes` is `allowed_node_ids`. */
  datatype ComputeSpec = Absent | Nested | Unparsable | Requirements(nodes: Option<seq<string>>)

  datatype Lead = Lead(text: string) | NotAnObject

  datatype Work = Other | LeadPrepareWithoutList | LeadPrepare(leads: seq<Lead>)

  datatype Payload = Payload(text: string, caps: Capabilities, compute: ComputeSpec, work: Work)

  // ------------------------------------------------------------------ tables

  /** The lease columns are non-null exactly while a task is leased and the completion
      columns exactly once it is completed, so they live inside the status. */
  datatype TaskStatus =
    | Queued
    | Leased(worker: string, token: string, until: real)
    | Completed(doneBy: string, leaseDigest: Digest, resultDigest: Digest, result: string)

  datatype Task = Task(payload: Payload, createdAt: real, status: TaskStatus,
                       attempts: nat, attempt: Option<string>, generation: nat)

  datatype AttemptStatus = Running | Finished | Released | Failed | Expired

  datatype Acceptance = Pending | Accepted | Rejected

  datatype AllocationId = AllocationId(task: string, attempt: string)

  datatype Attempt = Attempt(task: string, generation: nat, worker: string, status: AttemptStatus,
                             digest: Digest, acceptance: Acceptance, endpoint: Option<string>,
                             allocation: Option<AllocationId>, placement: Option<Placement>)

  datatype PartStatus = PBound | PLaunching | PActive | PRunning
                      | PFailed | PExpired | PReleased | PCompleted

  datatype PartKey = PartKey(attempt: string, worker: string)

  datatype Participant = Participant(task: string, generation: nat, allocation: AllocationId,
                                     rank: nat, worldSize: nat, status: PartStatus,
                                     heartbeat: real, verified: bool)

  datatype WorkerStatus = Ready | Stale | Draining | Quarantined | Revoked

  datatype Worker = Worker(caps: set<string>, status: WorkerStatus, heartbeat: real, load: nat)

  datatype AllocationState = Reserved | Bound(task: string, attempt: string, generation: nat) | Freed

  // --------------------------------------------------- failover: paths, events

  datatype Phase = StaleGeneration | AlreadyFenced | Fenced | StandbySelected | StandbyActivated

  datatype EventKey = EventKey(attempt: string, generation: nat, failureClass: string, phase: Phase)

  /** `order` stands for the random recovery id that breaks ties between equal times. */
  datatype Event = Event(task: string, at: real, order: int, rebind: Option<Rebind>)

  datatype CheckKey = CheckKey(task: string, item: Digest)

  datatype CheckRow = CheckRow(index: nat, result: Option<string>, worker: string, generation: nat)

  datatype State = State(
    now: real, leaseSeconds: real,
    tasks: map<string, Task>, attempts: map<string, Attempt>, parts: map<PartKey, Participant>,
    workers: map<string, Worker>, allocs: map<AllocationId, AllocationState>,
    events: map<EventKey, Event>, checks: map<CheckKey, CheckRow>)

  function Initial(now: real, leaseSeconds: real): State {
    State(now, leaseSeconds, map[], map[], map[], map[], map[], map[], map[])
  }

  // ------------------------------------------------------------ small queries

  /** Execution identities of physical leases start with this prefix. */
  predicate FabricId(worker: string) { "fabric:" <= worker }

  predicate LivePart(p: PartStatus) { p.PBound? || p.PLaunching? || p.PActive? || p.PRunning? }

  /** The task is leased and its lease has not lapsed. */
  predicate Unexpired(s: State, t: string) {
    t in s.tasks && s.tasks[t].status.Leased? && s.tasks[t].status.until > s.now
  }

  predicate Lapsed(s: State, t: string) {
    t in s.tasks && s.tasks[t].status.Leased? && s.tasks[t].status.until <= s.now
  }

  /** `_valid_lease`: worker, token and clock all match. */
  predicate ValidLease(s: State, worker: string, t: string, token: string) {
    Unexpired(s, t) && s.tasks[t].status.worker == worker && s.tasks[t].status.token == token && token != ""
  }

  /** Attempt a is the running attempt of generation g held by this token, and its task's
      lease is unexpired: the guard shared by every participant-level report. */
  predicate Authorized(s: State, a: string, g: nat, token: string) {
    a in s.attempts && s.attempts[a].generation == g && s.attempts[a].status == Running
    && s.attempts[a].digest == Sha256(token) && Unexpired(s, s.attempts[a].task)
  }

  predicate Reporting(s: State, a: string, g: nat, worker: string, token: string) {
    var k := PartKey(a, worker);
    Authorized(s, a, g, token) && k in s.parts && s.parts[k].generation == g
  }

  // ------------------------------------------------------- row-level updates

  function Requeue(s: State, t: string): (r: State)
    ensures r == s.(tasks := r.tasks)
  {
    if t in s.tasks then s.(tasks := s.tasks[t := s.tasks[t].(status := Queued)]) else s
  }

  function SetParts(parts: map<PartKey, Participant>, a: string, status: PartStatus): map<PartKey, Participant> {
    map k | k in parts :: if k.attempt == a then parts[k].(status := status) else parts[k]
  }

  function EndLiveParts(parts: map<PartKey, Participant>, a: string, g: nat, status: PartStatus, at: real)
    : map<PartKey, Participant>
  {
    map k | k in parts ::
      if k.attempt == a && parts[k].generation == g && LivePart(parts[k].status)
      then parts[k].(status := status, heartbeat := at) else parts[k]
  }

  function SettleParts(parts: map<PartKey, Participant>, a: string, g: nat): map<PartKey, Participant> {
    map k | k in parts ::
      if k.attempt == a && parts[k].generation == g && !parts[k].status.PFailed? && !parts[k].status.PExpired?
      then parts[k].(status := PCompleted) else parts[k]
  }

  /** `ComputePool.reserve_task_slot`: one logical slot per ready worker. */
  predicate SlotFree(workers: map<string, Worker>, w: string) {
    w in workers && workers[w].status == Ready && workers[w].load < 1
  }

  function TakeSlot(workers: map<string, Worker>, w: string): map<string, Worker> {
    if w in workers then workers[w := workers[w].(load := workers[w].load + 1)] else workers
  }

  function GiveSlot(workers: map<string, Worker>, w: string): map<string, Worker> {
    if w in workers then workers[w := workers[w].(load := if workers[w].load == 0 then 0 else workers[w].load - 1)]
    else workers
  }

  /** `_release_physical_allocation`: frees only a reservation bound to this exact execution. */
  function FreeAllocation(allocs: map<AllocationId, AllocationState>, id: Option<AllocationId>,
                          t: string, a: string, g: nat): map<AllocationId, AllocationState>
  {
    if id.Some? && id.value in allocs && allocs[id.value] == Bound(t, a, g) then allocs[id.value := Freed] else allocs
  }

  function FreeAttempt(s: State, a: string): (r: State)
    ensures r == s.(allocs := r.allocs)
  {
    if a in s.attempts
    then s.(allocs := FreeAllocation(s.allocs, s.attempts[a].allocation, s.attempts[a].task, a, s.attempts[a].generation))
    else s
  }

  /** INSERT OR IGNORE into the recovery events. */
  function Record(s: State, key: EventKey, event: Event): (r: State)
    ensures r == s.(events := r.events)
    ensures forall e :: e in s.events ==> e in r.events && r.events[e] == s.events[e]
  {
    if key in s.events then s else s.(events := s.events[key := event])
  }

  // ------------------------------------------------------------------- steps

  function Enqueue(s: State, t: string, payload: Payload): (State, bool) {
    if t in s.tasks then (s, s.tasks[t].payload == payload)
    else (s.(tasks := s.tasks[t := Task(payload, s.now, Queued, 0, None, 0)]), true)
  }

  /** `ComputePool.register`: an existing worker keeps its load and stays barred if it was. */
  function RegisterWorker(s: State, w: string, caps: set<string>): State {
    var row := if w in s.workers
               then s.workers[w].(caps := caps, heartbeat := s.now,
                                  status := if s.workers[w].status in {Quarantined, Revoked}
                                            then s.workers[w].status else Ready)
               else Worker(caps, Ready, s.now, 0);
    s.(workers := s.workers[w := row])
  }

  /** `ComputePool.heartbeat` overwrites the slot counter with what the worker reports. */
  function WorkerHeartbeat(s: State, w: string, load: nat): (State, bool) {
    if w !in s.workers || load > 1 then (s, false)
    else
      var row := s.workers[w];
      var status := if row.status in {Ready, Stale} then Ready else row.status;
      (s.(workers := s.workers[w := row.(heartbeat := s.now, load := load, status := status)]), true)
  }

  function SetWorkerStatus(s: State, w: string, status: WorkerStatus): (State, bool) {
    if w !in s.workers then (s, false)
    else (s.(workers := s.workers[w := s.workers[w].(status := status)]), true)
  }

  function ReapStale(s: State): (r: State)
    ensures r == s.(workers := r.workers)
  {
    s.(workers := map w | w in s.workers ::
         if s.workers[w].heartbeat < s.now - s.leaseSeconds then s.workers[w].(status := Stale) else s.workers[w])
  }

  /** Free the attempt's allocation and, unless a physical lease held it, its worker's slot. */
  function FenceResources(s: State, a: string): (r: State)
    requires a in s.attempts
    ensures r == s.(allocs := r.allocs, workers := r.workers)
  {
    var s1 := FreeAttempt(s, a);
    if FabricId(s.attempts[a].worker) then s1 else s1.(workers := GiveSlot(s1.workers, s.attempts[a].worker))
  }

  /** What expiry does to the attempt its task pointed at. */
  function ExpireAttempt(s: State, a: string): (r: State)
    requires a in s.attempts
    ensures r == s.(attempts := r.attempts, parts := r.parts)
  {
    var row := s.attempts[a];
    if row.status == Finished then s.(parts := SettleParts(s.parts, a, row.generation))
    else if row.status == Running then
      s.(attempts := s.attempts[a := row.(status := Expired, acceptance := Rejected)],
         parts := EndLiveParts(s.parts, a, row.generation, PExpired, s.now))
    else s
  }

  /** One row of `recover_expired_tasks`. */
  function ExpireOne(s: State, t: string): (r: State)
    ensures r == s.(tasks := r.tasks, attempts := r.attempts, parts := r.parts, allocs := r.allocs, workers := r.workers)
  {
    if !Lapsed(s, t) then s
    else
      var s1 := Requeue(s, t);
      match s.tasks[t].attempt
      case None => s1
      case Some(a) =>
        if a !in s.attempts || s.attempts[a].task != t then s1
        else FenceResources(ExpireAttempt(s1, a), a)
  }

  function ExpireAll(s: State, order: seq<string>): (r: State)
    ensures r.events == s.events && r.checks == s.checks && r.now == s.now && r.leaseSeconds == s.leaseSeconds
  {
    if order == [] then s else ExpireOne(ExpireAll(s, order[..|order| - 1]), order[|order| - 1])
  }

  /** Fence one running attempt that its task still points at: requeue, fail, reject. */
  function FenceRows(s: State, a: string): (r: State)
    requires a in s.attempts
    ensures r == s.(tasks := r.tasks, attempts := r.attempts, parts := r.parts)
  {
    var row := s.attempts[a];
    var s1 := Requeue(s, row.task);
    s1.(attempts := s1.attempts[a := row.(status := Failed, acceptance := Rejected)],
        parts := EndLiveParts(s1.parts, a, row.generation, PFailed, s.now))
  }

  /** The task points at this running attempt with this generation and is leased. */
  predicate Current(s: State, a: string) {
    a in s.attempts && s.attempts[a].status == Running
    && var t := s.attempts[a].task;
       t in s.tasks && s.tasks[t].status.Leased? && s.tasks[t].attempt == Some(a)
       && s.tasks[t].generation == s.attempts[a].generation
  }

  /** A participant that `reconcile_fabric` counts as lost. */
  predicate LostPart(s: State, k: PartKey, timeout: real)
    requires k in s.parts
  {
    !LivePart(s.parts[k].status) || s.parts[k].heartbeat + timeout <= s.now
    || k.worker !in s.workers || s.workers[k.worker].heartbeat + timeout <= s.now
  }

  predicate Unhealthy(s: State, a: string, timeout: real) {
    Current(s, a)
    && exists k :: k in s.parts && k.attempt == a && s.parts[k].generation == s.attempts[a].generation
                   && LostPart(s, k, timeout)
  }

  function ReconcileOne(s: State, a: string): State {
    if Current(s, a) then FenceResources(FenceRows(s, a), a) else s
  }

  function ReconcileAll(s: State, order: seq<string>): (r: State)
    ensures r.events == s.events && r.checks == s.checks && r.now == s.now && r.leaseSeconds == s.leaseSeconds
  {
    if order == [] then s else ReconcileOne(ReconcileAll(s, order[..|order| - 1]), order[|order| - 1])
  }

  function Complete(s: State, w: string, t: string, token: string, result: string): (r: (State, bool))
    ensures r.0.events == s.events && r.0.checks == s.checks && r.0.now == s.now && r.0.leaseSeconds == s.leaseSeconds
  {
    if t in s.tasks && s.tasks[t].status.Completed? then
      (s, s.tasks[t].status.doneBy == w && s.tasks[t].status.leaseDigest == Sha256(token)
          && s.tasks[t].status.resultDigest == Sha256(result))
    else if !ValidLease(s, w, t, token) then (s, false)
    else
      var done := Completed(w, Sha256(token), Sha256(result), result);
      var s1 := s.(tasks := s.tasks[t := s.tasks[t].(status := done)]);
      match s.tasks[t].attempt
      case Some(a) =>
        if a !in s.attempts then (s1.(workers := GiveSlot(s1.workers, w)), true)
        else
          var row := s.attempts[a];
          var acceptance := if row.acceptance == Accepted then Accepted else Pending;
          var s2 := s1.(attempts := s1.attempts[a := row.(status := Finished, acceptance := acceptance)],
                        parts := SetParts(s1.parts, a, PCompleted));
          var s3 := FreeAttempt(s2, a);
          (s3.(workers := GiveSlot(s3.workers, w)), true)
      case None => (s1.(workers := GiveSlot(s1.workers, w)), true)
  }

  function Release(s: State, w: string, t: string, token: string): (r: (State, bool))
    ensures if r.1 then t in r.0.tasks && r.0.tasks[t].status.Queued? else r.0 == s
    ensures r.0.events == s.events && r.0.checks == s.checks && r.0.now == s.now && r.0.leaseSeconds == s.leaseSeconds
  {
    if !ValidLease(s, w, t, token) then (s, false)
    else
      var s1 := Requeue(s, t);
      match s.tasks[t].attempt
      case Some(a) =>
        if a !in s.attempts then (s1.(workers := GiveSlot(s1.workers, w)), true)
        else
          var s2 := s1.(attempts := s1.attempts[a := s.attempts[a].(status := Released)],
                        parts := SetParts(s1.parts, a, PReleased));
          var s3 := FreeAttempt(s2, a);
          (s3.(workers := GiveSlot(s3.workers, w)), true)
      case None => (s1.(workers := GiveSlot(s1.workers, w)), true)
  }

  /** The lease write shared by `claim` and `claim_physical`. */
  function LeaseTask(s: State, t: string, who: string, a: string, token: string): State
    requires t in s.tasks
  {
    var g := s.tasks[t].generation + 1;
    s.(tasks := s.tasks[t := s.tasks[t].(status := Leased(who, token, s.now + s.leaseSeconds),
                                         attempts := s.tasks[t].attempts + 1, attempt := Some(a), generation := g)],
       attempts := s.attempts[a := Attempt(t, g, who, Running, Sha256(token), Pending, None, None, None)])
  }

  function Advance(s: State, elapsed: real): State { s.(now := s.now + elapsed) }

  // ------------------------------------------------- binding physical resources

  /** What the scheduler answers to one allocation request.  `metadata`: the returned
      provider, domain and resource lists are complete; `resources`: the reserved rows are
      exactly the requested nodes and GPUs. */
  datatype Plan = Raises | Placed(placement: Option<Placement>, nodes: seq<string>, metadata: bool, resources: bool)

  predicate Distinct(xs: seq<string>) { forall i, j | 0 <= i < j < |xs| :: xs[i] != xs[j] }

  predicate Bindable(s: State, plan: Plan) {
    plan.Placed? && plan.resources && plan.nodes != [] && Distinct(plan.nodes)
    && forall i | 0 <= i < |plan.nodes| :: plan.nodes[i] in s.workers && s.workers[plan.nodes[i]].status == Ready
  }

  function InsertParts(s: State, t: string, a: string, g: nat, nodes: seq<string>, n: nat): map<PartKey, Participant>
    requires n <= |nodes|
  {
    if n == 0 then s.parts
    else InsertParts(s, t, a, g, nodes, n - 1)[PartKey(a, nodes[n - 1]) :=
      Participant(t, g, AllocationId(t, a), n - 1, |nodes|, PBound, s.now, false)]
  }

  function FailBinding(s: State, who: string, t: string, a: string, token: string): State {
    Release(FreeAttempt(s, a), who, t, token).0
  }

  /** Everything `claim` and `claim_physical` do after the lease is committed. */
  function BindExecution(s: State, who: string, t: string, a: string, token: string,
                         plan: Plan, rebind: Option<Rebind>): (r: (State, bool))
    requires a in s.attempts
    ensures r.0.events == s.events && r.0.checks == s.checks && r.0.now == s.now && r.0.leaseSeconds == s.leaseSeconds
  {
    var id := AllocationId(t, a);
    var g := s.attempts[a].generation;
    if plan.Raises? then (Release(s, who, t, token).0, false)
    else
      var s1 := s.(allocs := s.allocs[id := Reserved],
                   attempts := s.attempts[a := s.attempts[a].(placement := plan.placement)]);
      if rebind.Some? && !(plan.placement.Some? && Validates(rebind.value, plan.placement.value)) then
        // Freeing demands the exact binding, and nothing is bound yet: the reservation stays.
        (Release(s1, who, t, token).0, false)
      else
        var s2 := s1.(allocs := s1.allocs[id := Bound(t, a, g)]);
        if !plan.metadata then
          (Release(s2.(allocs := FreeAllocation(s2.allocs, Some(id), t, a, g)), who, t, token).0, false)
        else
          var s3 := s2.(attempts := s2.attempts[a := s2.attempts[a].(allocation := Some(id))]);
          if !Bindable(s3, plan) then (FailBinding(s3, who, t, a, token), false)
          else (s3.(parts := InsertParts(s3, t, a, g, plan.nodes, |plan.nodes|)), true)
  }

  // ------------------------------------------------------------------ claims

  /** `ORDER BY created_at, task_id`. */
  predicate Before(tasks: map<string, Task>, t: string, u: string)
    requires t in tasks && u in tasks
  {
    tasks[t].createdAt < tasks[u].createdAt
    || (tasks[t].createdAt == tasks[u].createdAt && TextLess(t, u))
  }

  predicate Waiting(tasks: map<string, Task>, t: string) { t in tasks && tasks[t].status.Queued? }

  predicate Supported(caps: set<string>, p: Payload) { p.caps.Required? && p.caps.names <= caps }

  /** Scanning this row neither stops the scan nor raises. */
  predicate Skipped(caps: set<string>, p: Payload) { p.caps.Required? && !Supported(caps, p) }

  /** How the paged scan of `claim` ends. */
  datatype Pick = NoTask | Poisoned(bad: string) | Chosen(task: string)

  ghost predicate AllSkippedBefore(tasks: map<string, Task>, caps: set<string>, t: string)
    requires t in tasks
  {
    forall u :: Waiting(tasks, u) && Before(tasks, u, t) ==> Skipped(caps, tasks[u].payload)
  }

  ghost predicate PickIs(tasks: map<string, Task>, caps: set<string>, pick: Pick) {
    match pick
    case NoTask => forall u :: Waiting(tasks, u) ==> Skipped(caps, tasks[u].payload)
    case Poisoned(t) => Waiting(tasks, t) && tasks[t].payload.caps.Malformed? && AllSkippedBefore(tasks, caps, t)
    case Chosen(t) => Waiting(tasks, t) && Supported(caps, tasks[t].payload) && AllSkippedBefore(tasks, caps, t)
  }

  /** Fresh identities and the environment's answers for one claim. */
  datatype Lottery = Lottery(attempt: string, token: string, order: seq<string>, pick: Pick, elapsed: real, plan: Plan)

  datatype ClaimOutcome = Refused | Raised | Granted(task: string)

  /** `_requirements_from_payload(payload, worker)` accepts the payload. */
  predicate PinnedTo(c: ComputeSpec, w: string) {
    c.Requirements? && (c.nodes.None? || (c.nodes.value != [] && forall x | x in c.nodes.value :: x == w))
  }

  predicate AllObjects(leads: seq<Lead>) { forall i | 0 <= i < |leads| :: leads[i].Lead? }

  function ClaimScan(s: State, w: string, in_: Lottery): State {
    ExpireAll(ReapStale(s), in_.order)
  }

  function Claim(s: State, w: string, in_: Lottery): (r: (State, ClaimOutcome))
    ensures r.0.events == s.events && r.0.checks == s.checks
  {
    var s1 := ClaimScan(s, w, in_);
    if !SlotFree(s1.workers, w) then (s1, Refused)
    else
      match in_.pick
      case NoTask => (s1, Refused)
      case Poisoned(_) => (s1.(workers := TakeSlot(s1.workers, w)), Raised)
      case Chosen(t) =>
        if t !in s1.tasks then (s1, Refused)
        else
          var s2 := LeaseTask(s1.(workers := TakeSlot(s1.workers, w)), t, w, in_.attempt, in_.token);
          var p := s2.tasks[t].payload;
          if p.work.LeadPrepare? && !AllObjects(p.work.leads) then (s2, Raised)
          else if !(p.compute.Unparsable? || p.compute.Requirements?) then (s2, Granted(t))
          else
            // The worker-local path never stores a placement on the attempt.
            var plan := if PinnedTo(p.compute, w) && in_.plan.Placed? then in_.plan.(placement := None) else Raises;
            var (s3, ok) := BindExecution(Advance(s2, in_.elapsed), w, t, in_.attempt, in_.token, plan, None);
            (s3, if ok then Granted(t) else Refused)
  }

  // --------------------------------------------------------- physical claims

  predicate Mentions(p: Payload) { !p.compute.Absent? }

  ghost predicate PhysicalPickIs(tasks: map<string, Task>, pick: Pick) {
    match pick
    case Chosen(t) =>
      Waiting(tasks, t) && tasks[t].payload.compute.Requirements?
      && MentionedBefore(tasks, t) < 100
      && forall u :: Waiting(tasks, u) && Before(tasks, u, t) ==> !tasks[u].payload.compute.Requirements?
    case NoTask =>
      forall u :: Waiting(tasks, u) && tasks[u].payload.compute.Requirements? ==> MentionedBefore(tasks, u) >= 100
    case Poisoned(_) => false
  }

  ghost function MentionedBefore(tasks: map<string, Task>, t: string): nat
    requires t in tasks
  {
    |set u | u in tasks && Waiting(tasks, u) && Mentions(tasks[u].payload) && Before(tasks, u, t)|
  }

  /** Event k records a standby that was selected for task t and names a path. */
  predicate SelectsFor(events: map<EventKey, Event>, k: EventKey, t: string) {
    k in events && k.phase == StandbySelected && events[k].task == t
    && events[k].rebind.Some? && events[k].rebind.value.toPath.Some? && events[k].rebind.value.toPath.value != ""
  }

  /** `ORDER BY created_at DESC, recovery_id DESC`. */
  predicate Newer(e: Event, f: Event) { e.at > f.at || (e.at == f.at && e.order >= f.order) }

  ghost predicate NewestSelection(events: map<EventKey, Event>, k: EventKey, t: string) {
    SelectsFor(events, k, t) && forall j :: SelectsFor(events, j, t) ==> Newer(events[k], events[j])
  }

  /** `_pending_fabric_rebind`: the newest recorded standby selection that names a path. */
  ghost function PendingRebind(events: map<EventKey, Event>, t: string): Option<Rebind> {
    if exists k :: NewestSelection(events, k, t) then
      var k :| NewestSelection(events, k, t);
      events[k].rebind
    else None
  }

  function Identity(a: string): string { "fabric:" + a }

  ghost function ClaimPhysical(s: State, in_: Lottery, order: int): (State, ClaimOutcome) {
    var s1 := ExpireAll(s, in_.order);
    if !in_.pick.Chosen? || in_.pick.task !in s1.tasks then (s1, Refused)
    else
      var t := in_.pick.task;
      var a := in_.attempt;
      var s2 := Advance(LeaseTask(s1, t, Identity(a), a, in_.token), in_.elapsed);
      var rebind := PendingRebind(s2.events, t);
      var (s3, ok) := BindExecution(s2, Identity(a), t, a, in_.token, in_.plan, rebind);
      if !ok then (s3, Refused)
      else if rebind.None? then (s3, Granted(t))
      else
        var key := EventKey(rebind.value.attempt, rebind.value.generation, "exact_path_failover", StandbyActivated);
        (Record(s3, key, Event(t, s3.now, order, rebind)), Granted(t))
  }

  // --------------------------------------------------- participant reporting

  /** The status moves `execution_participant_state` accepts. */
  predicate MoveAllowed(old_: PartStatus, new_: PartStatus) {
    old_ == new_
    || (old_ == PBound && new_ in {PLaunching, PFailed})
    || (old_ == PLaunching && new_ in {PActive, PFailed})
    || (old_ == PActive && new_ in {PRunning, PFailed})
    || (old_ == PRunning && new_ == PFailed)
  }

  function ParticipantState(s: State, a: string, g: nat, w: string, token: string, status: PartStatus, order: int)
    : (State, bool)
  {
    var k := PartKey(a, w);
    if !(LivePart(status) || status == PFailed) then (s, false)
    else if !(Reporting(s, a, g, w, token) && s.parts[k].task == s.attempts[a].task
              && MoveAllowed(s.parts[k].status, status)) then (s, false)
    else
      var s1 := s.(parts := s.parts[k := s.parts[k].(heartbeat := s.now, status := status)]);
      if status != PFailed then (s1, true)
      else (Recover(s1, a, g, "participant_failed", NoPath, order).0, true)
  }

  function ParticipantHeartbeat(s: State, a: string, g: nat, w: string, token: string): (State, bool) {
    var k := PartKey(a, w);
    if !(Reporting(s, a, g, w, token) && LivePart(s.parts[k].status)
         && s.parts[k].heartbeat > s.now - s.leaseSeconds && w in s.workers) then (s, false)
    else
      var row := s.workers[w];
      // The pool refuses a load above its one logical slot; it writes the stored load back.
      if row.load > 1 then (s, false)
      else
        var s1 := WorkerHeartbeat(s, w, row.load).0;
        var status := if s.parts[k].status == PRunning then PRunning else PActive;
        (Extend(s1.(parts := s1.parts[k := s1.parts[k].(heartbeat := s.now, status := status)]), s.attempts[a].task), true)
  }

  /** Push an unexpired lease out to a full lease from now. */
  function Extend(s: State, t: string): State {
    if Unexpired(s, t)
    then s.(tasks := s.tasks[t := s.tasks[t].(status := s.tasks[t].status.(until := s.now + s.leaseSeconds))])
    else s
  }

  /** `record_execution_verification` (collective, which also extends the lease) and
      `record_gpu_execution_verification` (single device, which does not).  `evidence` is the
      verdict of the evidence checks. */
  function Verify(s: State, a: string, g: nat, w: string, token: string, collective: bool, evidence: bool): (State, bool) {
    var k := PartKey(a, w);
    if !(Reporting(s, a, g, w, token) && LivePart(s.parts[k].status) && evidence) then (s, false)
    else if collective && !(s.attempts[a].endpoint.Some? && s.tasks[s.attempts[a].task].attempt == Some(a)) then (s, false)
    else
      var s1 := s.(parts := s.parts[k := s.parts[k].(status := PRunning, heartbeat := s.now, verified := true)]);
      (if collective then Extend(s1, s.attempts[a].task) else s1, true)
  }

  predicate AllVerified(s: State, a: string, g: nat) {
    forall k | k in s.parts && k.attempt == a && s.parts[k].generation == g ::
      s.parts[k].status == PRunning && s.parts[k].verified
  }

  datatype Convergence = Rejected_ | Waiting_ | Converged(already: bool)

  /** `converge_fabric_execution`; `reconciled` is the verdict of the path reconciliation. */
  function Converge(s: State, a: string, g: nat, w: string, token: string, reconciled: bool): (State, Convergence) {
    var k := PartKey(a, w);
    if !(a in s.attempts && s.attempts[a].generation == g && s.attempts[a].digest == Sha256(token)
         && k in s.parts && s.parts[k].generation == g && Unexpired(s, s.parts[k].task)) then (s, Rejected_)
    else if s.attempts[a].status == Finished && s.attempts[a].acceptance == Accepted then (s, Converged(true))
    else if s.attempts[a].status != Running || s.parts[k].status !in {PRunning, PCompleted} then (s, Waiting_)
    else if !AllVerified(s, a, g) || !reconciled then (s, Waiting_)
    else
      var parts := map j | j in s.parts ::
        if j.attempt == a && s.parts[j].generation == g && s.parts[j].status == PRunning
        then s.parts[j].(status := PCompleted, heartbeat := s.now) else s.parts[j];
      (s.(attempts := s.attempts[a := s.attempts[a].(status := Finished, acceptance := Accepted)], parts := parts),
       Converged(false))
  }

  /** An attempt still running under an unexpired lease of its task. */
  predicate RunningLive(s: State, a: string) {
    a in s.attempts && s.attempts[a].status == Running
    && Unexpired(s, s.attempts[a].task) && s.tasks[s.attempts[a].task].attempt == Some(a)
  }

  predicate EndpointTaken(s: State, a: string, endpoint: string) {
    exists b :: b in s.attempts && b != a && RunningLive(s, b) && s.attempts[b].endpoint == Some(endpoint)
  }

  /** `_bind_rendezvous_endpoint`; None when it raises. */
  function BindEndpoint(s: State, a: string, g: nat, token: string, endpoint: string): (State, bool) {
    if !(Authorized(s, a, g, token) && s.tasks[s.attempts[a].task].attempt == Some(a) && endpoint != "") then (s, false)
    else if s.attempts[a].endpoint.Some? then (s, s.attempts[a].endpoint == Some(endpoint))
    else if EndpointTaken(s, a, endpoint) then (s, false)
    else (s.(attempts := s.attempts[a := s.attempts[a].(endpoint := Some(endpoint))]), true)
  }

  // ---------------------------------------------------------------- recovery

  /** What a failure report says about a concrete path.  MalformedPath: no path id, and a
      `physical_path` entry that is neither empty nor a mapping.  PathFailed: the inventory
      knew the path and marked it failed; `paths` and `health` are what it then lists. */
  datatype PathReport =
    | NoPath
    | UnknownPath
    | MalformedPath
    | PathFailed(failedId: string, paths: seq<Path>, health: map<string, Health>)

  /** What recovery reads off the report after the fence: None when there is nothing to rebind,
      Some(None) when reading the path or computing the rebind contract raises. */
  function RebindFor(s: State, a: string, path: PathReport): Option<Option<Rebind>>
    requires a in s.attempts
  {
    if path.MalformedPath? then Some(None)
    else if path.PathFailed? && s.attempts[a].placement.Some?
    then Some(Contract(s.attempts[a].placement.value, path.paths, path.health, path.failedId, a, s.attempts[a].generation))
    else None
  }

  datatype Recovery = NoAttempt | Stale_ | AlreadyFenced_ | Requeued | RecoveryRaised

  function Recover(s: State, a: string, g: nat, failureClass: string, path: PathReport, order: int): (r: (State, Recovery))
    ensures r.0.checks == s.checks && r.0.now == s.now && r.0.leaseSeconds == s.leaseSeconds
  {
    if a !in s.attempts || s.attempts[a].task !in s.tasks then (s, NoAttempt)
    else
      var row := s.attempts[a];
      var task := s.tasks[row.task];
      var event := Event(row.task, s.now, order, None);
      if row.generation != g || task.attempt != Some(a) || task.generation != g then
        (Record(s, EventKey(a, row.generation, failureClass, StaleGeneration), event), Stale_)
      else if !task.status.Leased? || row.status != Running then
        (Record(s, EventKey(a, g, failureClass, AlreadyFenced), event), AlreadyFenced_)
      else
        var s1 := Record(FenceRows(s, a), EventKey(a, g, failureClass, Fenced), event);
        match RebindFor(s, a, path)
        case None => (FenceResources(s1, a), Requeued)
        // The exception leaves the task requeued but its resources still held.
        case Some(None) => (s1, RecoveryRaised)
        case Some(Some(rebind)) =>
          var key := EventKey(a, g, failureClass, StandbySelected);
          (FenceResources(Record(s1, key, Event(row.task, s.now, order, Some(rebind))), a), Requeued)
  }

  // -------------------------------------------------------------- checkpoints

  /** One reported item; NotAnItem covers every malformed shape. */
  datatype CheckItem = CheckItem(key: Digest, result: Option<string>) | NotAnItem

  function LeadKey(lead: Lead): Option<Digest> {
    if lead.Lead? then Some(Sha256(lead.text)) else None
  }

  /** The dictionary from item key to payload index: a repeated lead keeps its last index. */
  function ItemIndex(leads: seq<Lead>, key: Digest): Option<nat> {
    if leads == [] then None
    else if LeadKey(leads[|leads| - 1]) == Some(key) then Some(|leads| - 1)
    else ItemIndex(leads[..|leads| - 1], key)
  }

  function CheckpointOne(checks: map<CheckKey, CheckRow>, t: string, leads: seq<Lead>, item: CheckItem, w: string, g: nat)
    : Option<map<CheckKey, CheckRow>>
  {
    if item.NotAnItem? || ItemIndex(leads, item.key).None? then None
    else
      var k := CheckKey(t, item.key);
      if k in checks then (if checks[k].result == item.result then Some(checks) else None)
      else Some(checks[k := CheckRow(ItemIndex(leads, item.key).value, item.result, w, g)])
  }

  function CheckpointItems(checks: map<CheckKey, CheckRow>, t: string, leads: seq<Lead>, items: seq<CheckItem>, w: string, g: nat)
    : Option<map<CheckKey, CheckRow>>
  {
    if items == [] then Some(checks)
    else
      match CheckpointItems(checks, t, leads, items[..|items| - 1], w, g)
      case None => None
      case Some(before) => CheckpointOne(before, t, leads, items[|items| - 1], w, g)
  }

  /** `checkpoint_lead_prepare`: any raise rolls the whole transaction back. */
  function Checkpoint(s: State, w: string, t: string, token: string, items: seq<CheckItem>): (State, bool) {
    if items == [] || !ValidLease(s, w, t, token) || !s.tasks[t].payload.work.LeadPrepare? then (s, false)
    else
      match CheckpointItems(s.checks, t, s.tasks[t].payload.work.leads, items, w, s.tasks[t].generation)
      case None => (s, false)
      case Some(checks) => (s.(checks := checks), true)
  }

  /** The leads without a checkpoint, in payload order. */
  function PendingLeads(checks: map<CheckKey, CheckRow>, t: string, leads: seq<Lead>): seq<Lead> {
    if leads == [] then []
    else
      var before := PendingLeads(checks, t, leads[..|leads| - 1]);
      var last := leads[|leads| - 1];
      if last.Lead? && CheckKey(t, Sha256(last.text)) in checks then before else before + [last]
  }

  /** The leads in the payload that `claim` returns: the checkpointed ones are taken out. */
  function WorkerLeads(checks: map<CheckKey, CheckRow>, t: string, p: Payload): seq<Lead> {
    if p.work.LeadPrepare? then PendingLeads(checks, t, p.work.leads) else []
  }

  /** The leads in the payload that `claim_physical` returns: the stored payload as it is. */
  function PhysicalLeads(p: Payload): seq<Lead> {
    if p.work.LeadPrepare? then p.work.leads else []
  }

  /** `bind_physical_allocation` called on its own. */
  function BindPhysical(s: State, a: string, g: nat, token: string, id: AllocationId): (State, bool) {
    if !(a in s.attempts && s.attempts[a].task in s.tasks && s.tasks[s.attempts[a].task].attempt == Some(a)
         && s.attempts[a].generation == g && s.attempts[a].status == Running && s.attempts[a].digest == Sha256(token))
    then (s, false)
    else if s.attempts[a].allocation.Some? then (s, s.attempts[a].allocation == Some(id))
    else (s.(attempts := s.attempts[a := s.attempts[a].(allocation := Some(id))]), true)
  }

  // ------------------------------------------------------------- whole machine

  /** One public call, with the environment's answers. */
  datatype Step =
    | Tick(elapsed: real)
    | DoEnqueue(task: string, payload: Payload)
    | DoRegister(worker: string, caps: set<string>)
    | DoWorkerHeartbeat(worker: string, load: nat)
    | DoSetStatus(worker: string, status: WorkerStatus)
    | DoClaim(worker: string, lottery: Lottery)
    | DoClaimPhysical(lottery: Lottery, order: int)
    | DoComplete(worker: string, task: string, token: string, result: string)
    | DoRelease(worker: string, task: string, token: string)
    | DoExpire(lapsed: seq<string>)
    | DoReconcile(timeout: real, lost: seq<string>)
    | DoRecover(attempt: string, generation: nat, failureClass: string, path: PathReport, order: int)
    | DoParticipantState(attempt: string, generation: nat, worker: string, token: string, part: PartStatus, order: int)
    | DoParticipantHeartbeat(attempt: string, generation: nat, worker: string, token: string)
    | DoVerify(attempt: string, generation: nat, worker: string, token: string, collective: bool, evidence: bool)
    | DoConverge(attempt: string, generation: nat, worker: string, token: string, reconciled: bool)
    | DoBindEndpoint(attempt: string, generation: nat, token: string, endpoint: string)
    | DoBindPhysical(attempt: string, generation: nat, token: string, id: AllocationId)
    | DoCheckpoint(worker: string, task: string, token: string, items: seq<CheckItem>)

  /** Calls about one attempt, made under its lease. */
  predicate Reports(step: Step) {
    step.DoParticipantState? || step.DoParticipantHeartbeat? || step.DoVerify? || step.DoConverge?
    || step.DoBindEndpoint? || step.DoBindPhysical? || step.DoCheckpoint?
  }

  ghost function Apply(s: State, step: Step): State {
    match step
    case Tick(d) => Advance(s, d)
    case DoEnqueue(t, p) => Enqueue(s, t, p).0
    case DoRegister(w, caps) => RegisterWorker(s, w, caps)
    case DoWorkerHeartbeat(w, load) => WorkerHeartbeat(s, w, load).0
    case DoSetStatus(w, status) => SetWorkerStatus(s, w, status).0
    case DoClaim(w, lottery) => Claim(s, w, lottery).0
    case DoClaimPhysical(lottery, order) => ClaimPhysical(s, lottery, order).0
    case DoComplete(w, t, token, result) => Complete(s, w, t, token, result).0
    case DoRelease(w, t, token) => Release(s, w, t, token).0
    case DoExpire(lapsed) => ExpireAll(s, lapsed)
    case DoReconcile(_, lost) => ReconcileAll(s, lost)
    case DoRecover(a, g, c, path, order) => Recover(s, a, g, c, path, order).0
    case DoParticipantState(a, g, w, token, part, order) => ParticipantState(s, a, g, w, token, part, order).0
    case DoParticipantHeartbeat(a, g, w, token) => ParticipantHeartbeat(s, a, g, w, token).0
    case DoVerify(a, g, w, token, collective, evidence) => Verify(s, a, g, w, token, collective, evidence).0
    case DoConverge(a, g, w, token, reconciled) => Converge(s, a, g, w, token, reconciled).0
    case DoBindEndpoint(a, g, token, endpoint) => BindEndpoint(s, a, g, token, endpoint).0
    case DoBindPhysical(a, g, token, id) => BindPhysical(s, a, g, token, id).0
    case DoCheckpoint(w, t, token, items) => Checkpoint(s, w, t, token, items).0
  }

  /** The rows of `recover_expired_tasks`, each once, in some order. */
  ghost predicate EnumeratesLapsed(s: State, order: seq<string>) {
    Distinct(order) && forall t :: t in order <==> Lapsed(s, t)
  }

  ghost predicate EnumeratesLost(s: State, timeout: real, order: seq<string>) {
    Distinct(order) && forall a :: a in order <==> Unhealthy(s, a, timeout)
  }

  /** uuid4 never repeats an attempt id or a token. */
  ghost predicate Fresh(s: State, lottery: Lottery) {
    lottery.token != "" && lottery.elapsed >= 0.0 && lottery.attempt !in s.attempts
    && forall a :: a in s.attempts ==> s.attempts[a].digest != Sha256(lottery.token)
  }

  /** The environment keeps its side: clocks do not run backwards, random identities are
      fresh, and every query returns the rows it selects. */
  ghost predicate Legal(s: State, step: Step) {
    match step
    case Tick(d) => d >= 0.0
    case DoClaim(w, lottery) =>
      var s1 := ClaimScan(s, w, lottery);
      Fresh(s, lottery) && EnumeratesLapsed(ReapStale(s), lottery.order)
      && (SlotFree(s1.workers, w) ==> PickIs(s1.tasks, s1.workers[w].caps, lottery.pick))
    case DoClaimPhysical(lottery, _) =>
      Fresh(s, lottery) && EnumeratesLapsed(s, lottery.order)
      && PhysicalPickIs(ExpireAll(s, lottery.order).tasks, lottery.pick)
    case DoExpire(lapsed) => EnumeratesLapsed(s, lapsed)
    case DoReconcile(timeout, lost) => timeout > 0.0 && EnumeratesLost(s, timeout, lost)
    case _ => true
  }

  ghost function Run(s: State, steps: seq<Step>): State
    decreases |steps|
  {
    if steps == [] then s else Run(Apply(s, steps[0]), steps[1..])
  }

  ghost predicate LegalRun(s: State, steps: seq<Step>)
    decreases |steps|
  {
    steps == [] || (Legal(s, steps[0]) && LegalRun(Apply(s, steps[0]), steps[1..]))
  }
}
