/** The evidence-linked fold over a buyer's conversation: current state, history and the
    provenance maps of what the buyer has established. */
module BuyerProgression {
  import opened Base

  datatype State =
    | Unknown | Engaged | ProblemAcknowledged | ImpactAcknowledged | Evaluation | DecisionProcess | CommercialCommitment | Conversion
    | Objection | TimingDelay | NoNeed | ExistingSolution | Rejected | ReEngagement

  /** One stored event.  `signal` is the classified state, `denies` the active states whose
      explicit contradiction the text contains, `says` the qualification values it carries. */
  datatype Event = NotAMapping | Event(signal: State, denies: set<State>, says: map<string, string>)

  datatype Kind = Advanced | Confirmed | ReEngaged | Observed | Interrupted | Contradicted

  datatype Entry = Entry(prior: State, current: State, kind: Kind, index: nat)

  datatype Record = Record(value: string, index: nat)

  /** The variables of the fold. */
  datatype Progress = Progress(current: State, history: seq<Entry>, known: map<string, Record>, active: map<string, Record>,
                               stale: map<string, Record>, epoch: Option<nat>, closed: bool)

  predicate NonLinear(s: State) {
    s.Objection? || s.TimingDelay? || s.NoNeed? || s.ExistingSolution? || s.Rejected? || s.ReEngagement?
  }

  predicate Ends(s: State) { s.Rejected? || s.NoNeed? }

  /** The rank of a progression state; every other state counts as rank zero. */
  function Rank(s: State): nat {
    match s
    case Engaged => 1
    case ProblemAcknowledged => 2
    case ImpactAcknowledged => 3
    case Evaluation => 4
    case DecisionProcess => 5
    case CommercialCommitment => 6
    case Conversion => 7
    case _ => 0
  }

  /** The state an explicit contradiction of an active state falls back to. */
  function Replacement(s: State): Option<State> {
    match s
    case ProblemAcknowledged => Some(NoNeed)
    case ImpactAcknowledged => Some(ProblemAcknowledged)
    case Evaluation => Some(Engaged)
    case DecisionProcess => Some(Evaluation)
    case CommercialCommitment => Some(Rejected)
    case _ => None
  }

  function Start(): Progress { Progress(Unknown, [], map[], map[], map[], None, false) }

  function Move(p: Progress, current: State, kind: Kind, index: nat, closed: bool): Progress {
    var prior := if p.history == [] then Unknown else p.history[|p.history| - 1].current;
    p.(current := current, history := p.history + [Entry(prior, current, kind, index)], closed := closed)
  }

  /** Write the non-empty values of an event over a provenance map. */
  function Write(m: map<string, Record>, says: map<string, string>, index: nat): map<string, Record> {
    m + map d | d in says && says[d] != "" :: Record(says[d], index)
  }

  /** The qualification part of one observed event. */
  function Qualify(p: Progress, e: Event, index: nat): Progress
    requires e.Event?
  {
    var q := if e.signal == ReEngagement then p.(epoch := Some(index), stale := p.known, active := map[]) else p;
    q.(known := Write(q.known, e.says, index), active := Write(q.active, e.says, index))
  }

  datatype Decision = Ignore | MoveTo(state: State, kind: Kind, closed: bool)

  /** What one observed event does to the state. */
  function Decide(current: State, closed: bool, e: Event): Decision
    requires e.Event?
  {
    var c := e.signal;
    if c == Conversion then MoveTo(c, if current != c then Advanced else Confirmed, true)
    else if c == ReEngagement then MoveTo(c, if current != Unknown then ReEngaged else Observed, false)
    else if NonLinear(c) then MoveTo(c, if current != c then Interrupted else Confirmed, Ends(c))
    else if closed then Ignore
    else if current in e.denies && Replacement(current).Some? then
      MoveTo(Replacement(current).value, Contradicted, Ends(Replacement(current).value))
    else if NonLinear(current) && c == Engaged then Ignore
    else if Rank(c) >= Rank(current) then MoveTo(c, if current != c then Advanced else Confirmed, closed)
    else Ignore
  }

  function Advance(q: Progress, e: Event, index: nat): Progress
    requires e.Event?
  {
    match Decide(q.current, q.closed, e)
    case Ignore => q
    case MoveTo(state, kind, closed) => Move(q, state, kind, index, closed)
  }

  predicate Seen(e: Event) { e.Event? && e.signal != Unknown }

  function Step(p: Progress, e: Event, index: nat): Progress {
    if Seen(e) then Advance(Qualify(p, e, index), e, index) else p
  }

  function Fold(events: seq<Event>): Progress {
    if events == [] then Start() else Step(Fold(events[..|events| - 1]), events[|events| - 1], |events| - 1)
  }

  // ------------------------------------------------------------------ the loop

  /** The state the report names: a closed lifecycle on the lead overrides the conversation. */
  datatype Lifecycle = Converted | ClosedLostOrStopped | OtherLifecycle

  method Build(events: seq<Event>, lifecycle: Lifecycle) returns (p: Progress, reported: State)
    ensures p == Fold(events)
    ensures reported == match lifecycle case Converted => Conversion case ClosedLostOrStopped => Rejected case OtherLifecycle => p.current
  {
    var current, closed := Unknown, false;
    var history: seq<Entry> := [];
    var known, active, stale: map<string, Record> := map[], map[], map[];
    var epoch: Option<nat> := None;
    var index := 0;
    while index < |events|
      invariant 0 <= index <= |events|
      invariant Progress(current, history, known, active, stale, epoch, closed) == Fold(events[..index])
    {
      assert events[..index + 1][..index] == events[..index];
      var event := events[index];
      if event.Event? && event.signal != Unknown {
        var candidate := event.signal;
        if candidate == ReEngagement {
          epoch, stale, active := Some(index), known, map[];
        }
        known, active := Write(known, event.says, index), Write(active, event.says, index);
        var kind: Option<Kind> := None;
        ghost var before := current;
        ghost var d := Decide(current, closed, event);
        if candidate == Conversion {
          kind := Some(if current != candidate then Advanced else Confirmed);
          current, closed := candidate, true;
        } else if candidate == ReEngagement {
          kind := Some(if current != Unknown then ReEngaged else Observed);
          current, closed := ReEngagement, false;
        } else if NonLinear(candidate) {
          kind := Some(if current != candidate then Interrupted else Confirmed);
          current, closed := candidate, Ends(candidate);
        } else if !closed {
          if current in event.denies && Replacement(current).Some? {
            kind, current := Some(Contradicted), Replacement(current).value;
            closed := Ends(current);
          } else if !(NonLinear(current) && candidate == Engaged) && Rank(candidate) >= Rank(current) {
            kind := Some(if candidate != current then Advanced else Confirmed);
            current := candidate;
          }
        }
        assert if kind.None? then d == Ignore && current == before else d == MoveTo(current, kind.value, closed);
        if kind.Some? {
          history := history + [Entry(if history == [] then Unknown else history[|history| - 1].current, current, kind.value, index)];
        }
      }
      index := index + 1;
    }
    assert events[..index] == events;
    p := Progress(current, history, known, active, stale, epoch, closed);
    reported := match lifecycle case Converted => Conversion case ClosedLostOrStopped => Rejected case OtherLifecycle => current;
  }

  // ------------------------------------------------------------------ history

  function LastState(history: seq<Entry>): State { if history == [] then Unknown else history[|history| - 1].current }

  /** What one entry may say: a drop in rank has a reason, and a contradiction is a drop. */
  ghost predicate Explained(e: Entry) {
    && (Rank(e.current) < Rank(e.prior) ==> e.kind.Interrupted? || e.kind.ReEngaged? || e.kind.Contradicted?)
    && (e.kind == Contradicted ==> Rank(e.current) < Rank(e.prior) && Some(e.current) == Replacement(e.prior))
    && (e.kind == Confirmed ==> e.current == e.prior)
  }

  lemma DecisionsAreExplained(current: State, closed: bool, e: Event, index: nat)
    requires e.Event?
    ensures var d := Decide(current, closed, e); d.MoveTo? ==> Explained(Entry(current, d.state, d.kind, index))
  {}

  /** One event appends at most one entry, for its own index. */
  lemma StepAppends(p: Progress, e: Event, index: nat) returns (entry: Option<Entry>)
    requires LastState(p.history) == p.current
    ensures var r := Step(p, e, index);
      if entry.None? then r.history == p.history && r.current == p.current && r.closed == p.closed
      else r.history == p.history + [entry.value] && r.current == entry.value.current && entry.value.prior == p.current
           && entry.value.index == index && Explained(entry.value)
  {
    if Seen(e) { DecisionsAreExplained(p.current, p.closed, e, index); }
    var r := Step(p, e, index);
    entry := if |r.history| == |p.history| then None else Some(r.history[|r.history| - 1]);
  }

  lemma AdvanceKeepsMaps(q: Progress, e: Event, index: nat)
    requires e.Event?
    ensures var r := Advance(q, e, index); r.known == q.known && r.active == q.active && r.stale == q.stale && r.epoch == q.epoch
  {}

  /** Entries are chained, in event order, and end in the current state. */
  ghost predicate Chained(history: seq<Entry>, current: State, n: nat) {
    && LastState(history) == current
    && (forall i :: 0 <= i < |history| ==> history[i].prior == LastState(history[..i]) && history[i].index < n)
    && (forall i, j :: 0 <= i < j < |history| ==> history[i].index < history[j].index)
  }

  lemma {:induction false} HistoryIsChained(events: seq<Event>)
    ensures Chained(Fold(events).history, Fold(events).current, |events|)
  {
    if events != [] {
      var front := events[..|events| - 1];
      HistoryIsChained(front);
      var h := Fold(front).history;
      var entry := StepAppends(Fold(front), events[|front|], |front|);
      if entry.Some? {
        forall i | 0 <= i <= |h| ensures (h + [entry.value])[..i] == h[..i] {}
      }
    }
  }

  /** More events only append to the history. */
  lemma {:induction false} HistoryIsAppendOnly(events: seq<Event>, more: seq<Event>)
    ensures Fold(events).history <= Fold(events + more).history
  {
    if more == [] {
      assert events + more == events;
    } else {
      var front := more[..|more| - 1];
      HistoryIsAppendOnly(events, front);
      assert (events + more)[..|events + more| - 1] == events + front;
    }
  }

  /** The rank of the conversation drops only where the buyer interrupted it, re-engaged or
      contradicted an earlier statement, and a contradiction always lowers it. */
  ghost predicate DropsExplained(history: seq<Entry>) {
    forall i :: 0 <= i < |history| ==> Explained(history[i])
  }

  lemma {:induction false} RankDropsAreExplained(events: seq<Event>)
    ensures DropsExplained(Fold(events).history)
  {
    if events != [] {
      var front := events[..|events| - 1];
      RankDropsAreExplained(front);
      HistoryIsChained(front);
      var entry := StepAppends(Fold(front), events[|front|], |front|);
    }
  }

  /** The conversation is closed exactly in these three states. */
  lemma {:induction false} ClosedExactlyWhen(events: seq<Event>)
    ensures Fold(events).closed <==> (Fold(events).current.Conversion? || Ends(Fold(events).current))
  {
    if events != [] { ClosedExactlyWhen(events[..|events| - 1]); }
  }

  /** Ordinary progression never moves a closed conversation; conversion, re-engagement and an
      interruption always do take effect. */
  lemma ClosedConversationsStay(events: seq<Event>, e: Event)
    requires (Fold(events).current.Conversion? || Ends(Fold(events).current)) && e.Event?
    ensures var p, q := Fold(events), Fold(events + [e]);
      if e.signal == Conversion || NonLinear(e.signal) then q.current == e.signal && |q.history| == |p.history| + 1
      else q.current == p.current && q.history == p.history && q.closed
  {
    ClosedExactlyWhen(events);
    assert (events + [e])[..|events|] == events;
  }

  // ------------------------------------------------------------- what an event does

  /** The stages of a sale that come before this one; a state that is no stage, such as an
      objection, has none. */
  ghost function StagesBefore(s: State): set<State> {
    match s
    case Engaged => {Unknown}
    case ProblemAcknowledged => {Unknown, Engaged}
    case ImpactAcknowledged => {Unknown, Engaged, ProblemAcknowledged}
    case Evaluation => {Unknown, Engaged, ProblemAcknowledged, ImpactAcknowledged}
    case DecisionProcess => {Unknown, Engaged, ProblemAcknowledged, ImpactAcknowledged, Evaluation}
    case CommercialCommitment => {Unknown, Engaged, ProblemAcknowledged, ImpactAcknowledged, Evaluation, DecisionProcess}
    case Conversion => {Unknown, Engaged, ProblemAcknowledged, ImpactAcknowledged, Evaluation, DecisionProcess, CommercialCommitment}
    case _ => {}
  }

  /** What the buyer is left with after taking an earlier statement back. */
  const FALLBACKS: map<State, State> := map[
    ProblemAcknowledged := NoNeed, ImpactAcknowledged := ProblemAcknowledged, Evaluation := Engaged,
    DecisionProcess := Evaluation, CommercialCommitment := Rejected]

  ghost predicate Interrupts(s: State) { s.Objection? || s.TimingDelay? || s.NoNeed? || s.ExistingSolution? || s.Rejected? }

  ghost predicate Closes(s: State) { s.Conversion? || s.NoNeed? || s.Rejected? }

  /** Where an event takes a conversation and how that is called.  Conversion, re-engagement and
      interruptions always take effect, and a closed conversation takes nothing else.  In an open one
      a buyer who takes the current statement back falls back from it; otherwise a stage that does
      not come before the current one is reached, unless it is mere engagement after an
      interruption; and an earlier stage changes nothing. */
  ghost function Outcome(current: State, e: Event): Option<(State, Kind)> {
    if e.NotAMapping? || e.signal == Unknown then None
    else
      var c := e.signal;
      if c == Conversion then Some((c, if current == c then Confirmed else Advanced))
      else if c == ReEngagement then Some((c, if current == Unknown then Observed else ReEngaged))
      else if Interrupts(c) then Some((c, if current == c then Confirmed else Interrupted))
      else if Closes(current) then None
      else if current in e.denies && current in FALLBACKS then Some((FALLBACKS[current], Contradicted))
      else if c == Engaged && (Interrupts(current) || current == ReEngagement) then None
      else if c in StagesBefore(current) then None
      else Some((c, if current == c then Confirmed else Advanced))
  }

  /** Whatever came before, one more event moves the conversation there, with one entry that says
      from where and how, or leaves state and history alone; an event without a signal changes
      nothing at all. */
  lemma EventMovesConversation(events: seq<Event>, e: Event)
    ensures var p, q, move := Fold(events), Fold(events + [e]), Outcome(Fold(events).current, e);
      && (e.NotAMapping? || e.signal == Unknown ==> q == p)
      && (move.None? ==> q.current == p.current && q.history == p.history && q.closed == p.closed)
      && (move.Some? ==> q.current == move.value.0 && (q.closed <==> Closes(q.current))
                         && q.history == p.history + [Entry(p.current, move.value.0, move.value.1, |events|)])
  {
    HistoryIsChained(events);
    ClosedExactlyWhen(events);
    assert (events + [e])[..|events|] == events;
    if e.Event? && e.signal != Unknown {
      DecidesAs(Fold(events).current, e);
      StepObeys(Fold(events), e, |events|);
    }
  }

  /** A step carries out what was decided. */
  lemma StepObeys(p: Progress, e: Event, index: nat)
    requires e.Event? && e.signal != Unknown && LastState(p.history) == p.current
    ensures var q, d := Step(p, e, index), Decide(p.current, p.closed, e);
      if d.Ignore? then q.current == p.current && q.history == p.history && q.closed == p.closed
      else q.current == d.state && q.closed == d.closed && q.history == p.history + [Entry(p.current, d.state, d.kind, index)]
  {}

  lemma DecidesAs(current: State, e: Event)
    requires e.Event? && e.signal != Unknown
    ensures Decide(current, Closes(current), e) ==
      if Outcome(current, e).None? then Ignore
      else MoveTo(Outcome(current, e).value.0, Outcome(current, e).value.1, Closes(Outcome(current, e).value.0))
  {}

  ghost function SignalOf(e: Event): State { if e.Event? then e.signal else Unknown }

  /** So a conversation whose signals never fall behind the one before and take nothing back
      follows them: one entry for each event, ending in the last signal. */
  lemma {:induction false} OrderlyConversationFollows(events: seq<Event>)
    requires forall i :: 0 <= i < |events| ==> Ordinary(events[i])
    requires forall i {:trigger events[i]} :: 0 < i < |events| ==> SignalOf(events[i]) !in StagesBefore(SignalOf(events[i - 1]))
    ensures Follows(Fold(events).history, events) && Fold(events).current == LastSignal(events)
  {
    if events != [] {
      var front, last := events[..|events| - 1], events[|events| - 1];
      assert events == front + [last];
      OrderlyConversationFollows(front);
      assert front != [] ==> SignalOf(events[|front|]) !in StagesBefore(SignalOf(events[|front| - 1]));
      OrderlyOutcome(LastSignal(front), last);
      var kind := if LastSignal(front) == last.signal then Confirmed else Advanced;
      EventMovesTo(front, last, last.signal, kind);
      FollowsOn(Fold(front).history, front, Entry(Fold(front).current, last.signal, kind, |front|), last);
    }
  }

  ghost function LastSignal(events: seq<Event>): State { if events == [] then Unknown else SignalOf(events[|events| - 1]) }

  /** One entry for each event, to its signal, which advanced the conversation or confirmed it. */
  ghost predicate Follows(history: seq<Entry>, events: seq<Event>) {
    && |history| == |events|
    && forall i :: 0 <= i < |events| ==>
         history[i].current == SignalOf(events[i])
         && history[i].kind == if history[i].prior == SignalOf(events[i]) then Confirmed else Advanced
  }

  lemma FollowsOn(history: seq<Entry>, events: seq<Event>, entry: Entry, e: Event)
    requires Follows(history, events) && entry.current == SignalOf(e)
    requires entry.kind == if entry.prior == SignalOf(e) then Confirmed else Advanced
    ensures Follows(history + [entry], events + [e])
  {}

  lemma EventMovesTo(events: seq<Event>, e: Event, state: State, kind: Kind)
    requires Outcome(Fold(events).current, e) == Some((state, kind))
    ensures var p, q := Fold(events), Fold(events + [e]);
      q.current == state && q.history == p.history + [Entry(p.current, state, kind, |events|)]
  {
    EventMovesConversation(events, e);
  }

  /** A signal of a stage below conversion that takes nothing back. */
  ghost predicate Ordinary(e: Event) {
    e.Event? && e.denies == {}
    && e.signal in {Engaged, ProblemAcknowledged, ImpactAcknowledged, Evaluation, DecisionProcess, CommercialCommitment}
  }

  lemma OrderlyOutcome(current: State, e: Event)
    requires Ordinary(e) && e.signal !in StagesBefore(current) && (current == Unknown || exists before :: Ordinary(before) && before.signal == current)
    ensures Outcome(current, e) == Some((e.signal, if current == e.signal then Confirmed else Advanced))
  {}

  // ------------------------------------------------------------- last writer maps

  predicate Writes(e: Event, d: string) { Seen(e) && d in e.says && e.says[d] != "" }

  /** The last event in [lo, hi) that carries a value for d. */
  function LastWriter(events: seq<Event>, lo: nat, hi: nat, d: string): Option<Record>
    requires hi <= |events|
    decreases hi
  {
    if hi <= lo then None
    else if Writes(events[hi - 1], d) then Some(Record(events[hi - 1].says[d], hi - 1))
    else LastWriter(events, lo, hi - 1, d)
  }

  /** The last explicit re-engagement. */
  predicate ReEngages(event: Event) { event.Event? && event.signal == ReEngagement }

  function LastReEngagement(events: seq<Event>): (last: Option<nat>)
    ensures last.Some? ==> last.value < |events| && ReEngages(events[last.value])
    ensures forall k :: 0 <= k < |events| && (last.Some? ==> last.value < k) ==> !ReEngages(events[k])
  {
    if events == [] then None
    else if ReEngages(events[|events| - 1]) then Some(|events| - 1)
    else LastReEngagement(events[..|events| - 1])
  }

  ghost predicate Reads(m: map<string, Record>, events: seq<Event>, lo: nat, hi: nat, d: string)
    requires hi <= |events|
  {
    (if d in m then Some(m[d]) else None) == LastWriter(events, lo, hi, d)
  }

  lemma {:induction false} LastWriterOfPrefix(events: seq<Event>, longer: seq<Event>, lo: nat, hi: nat, d: string)
    requires hi <= |events| && events <= longer
    ensures LastWriter(events, lo, hi, d) == LastWriter(longer, lo, hi, d)
    decreases hi
  {
    if hi > lo {
      assert longer[hi - 1] == events[hi - 1];
      LastWriterOfPrefix(events, longer, lo, hi - 1, d);
    }
  }

  /** Known qualification is the last writer over all events, active qualification the last
      writer from the last re-engagement on, stale qualification the last writer before it. */
  lemma {:induction false} QualificationIsLastWriter(events: seq<Event>, d: string)
    ensures var p, n := Fold(events), |events|;
      && p.epoch == LastReEngagement(events)
      && Reads(p.known, events, 0, n, d)
      && Reads(p.active, events, if p.epoch.Some? then p.epoch.value else 0, n, d)
      && (if p.epoch.Some? then Reads(p.stale, events, 0, p.epoch.value, d) else p.stale == map[])
  {
    if events != [] {
      var front, e, n := events[..|events| - 1], events[|events| - 1], |events| - 1;
      QualificationIsLastWriter(front, d);
      var before := Fold(front);
      LastWriterOfPrefix(front, events, 0, n, d);
      if before.epoch.Some? {
        LastWriterOfPrefix(front, events, before.epoch.value, n, d);
        LastWriterOfPrefix(front, events, 0, before.epoch.value, d);
      }
      if Seen(e) {
        AdvanceKeepsMaps(Qualify(before, e, n), e, n);
      }
    }
  }

  /** The report asks to reconfirm every stale dimension, also those confirmed since: a
      dimension is both required and reconfirmed exactly when it was written on both sides of
      the last re-engagement. */
  lemma ReconfirmedYetRequired(events: seq<Event>, d: string)
    requires LastReEngagement(events).Some?
    ensures var p := Fold(events);
      d in p.stale && d in p.active <==>
        LastWriter(events, 0, LastReEngagement(events).value, d).Some?
        && LastWriter(events, LastReEngagement(events).value, |events|, d).Some?
  {
    QualificationIsLastWriter(events, d);
  }
}
