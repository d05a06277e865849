/** What one reconcile cycle emits and returns, as a function of the answers it gets (internal/loop/loop.go). */
module Trace {
  import opened Apply
  import opened Basics
  import opened Converge
  import opened Diff
  import opened Drift
  import opened Ordering
  import opened Plan
  import opened Spec
  import opened Text

  datatype Outcome = Ok | Failed | Skipped

  datatype Event =
    | PollSeen(commit: string)
    | ParseSeen
    | ResolveSeen(service: string, image: string, digest: string)
    | ObserveSeen
    | DiffSeen(creates: nat, updates: nat, removes: nat)
    | DriftSeen(drift: DriftEvent)
    | VerifySeen(verdict: Verdict)
    | ApplySeen(service: string, action: Action, outcome: Outcome)
    | StageFailed(stage: string)
    | CycleAborted
    | PartlyBelieved(applied: seq<string>, pending: seq<string>)
    | UnconvergedBelieved(applied: seq<string>)
    | ConvergedSeen(commit: string, services: nat)

  datatype Result = Nil | PreApply(stage: string) | Aborted | Partial | Unconverged

  datatype Config = Config(prune: bool, abortCycle: bool)

  // ---- The apply loop ----

  datatype Progress = Progress(
    events: seq<Event>, applied: seq<string>, pending: seq<string>, skipped: nat,
    services: set<string>, failedRecreates: set<string>)

  const NOTHING_YET := Progress([], [], [], 0, {}, {})

  function ActionName(a: Action): string {
    match a
    case CreateAction => "create"
    case UpdateAction => "update"
    case RemoveAction => "remove"
  }

  /** A recreate creation whose removal failed is not submitted. */
  predicate Skips(c: Change, p: Progress) {
    c.action == CreateAction && c.recreate && c.spec.name in p.failedRecreates
  }

  predicate OkAt(oks: seq<bool>, i: nat) {
    i < |oks| && oks[i]
  }

  function AfterChange(p: Progress, c: Change, ok: bool): Progress {
    var n := c.spec.name;
    if Skips(c, p) then
      p.(events := p.events + [ApplySeen(n, c.action, Skipped)], skipped := p.skipped + 1)
    else if ok then
      p.(events := p.events + [ApplySeen(n, c.action, Ok)],
         applied := p.applied + [if c.recreate then n + ":" + ActionName(c.action) else n],
         services := p.services + {n})
    else
      p.(events := p.events + [ApplySeen(n, c.action, Failed)],
         pending := p.pending + [n],
         failedRecreates := p.failedRecreates + if c.action == RemoveAction && c.recreate then {n} else {})
  }

  /** The loop's state after the first n changes; oks says how Apply would answer each. */
  function Applied(changes: seq<Change>, oks: seq<bool>, n: nat): Progress
    requires n <= |changes|
  {
    if n == 0 then NOTHING_YET
    else AfterChange(Applied(changes, oks, n - 1), changes[n - 1], OkAt(oks, n - 1))
  }

  /** changes[i] is handed to the applier. */
  predicate SubmittedAt(changes: seq<Change>, oks: seq<bool>, i: nat)
    requires i < |changes|
  {
    !Skips(changes[i], Applied(changes, oks, i))
  }

  // ---- The whole cycle ----

  function PinImages(services: Services, pins: map<string, string>): Services {
    map n | n in services :: if n in pins then services[n].(image := pins[n]) else services[n]
  }

  /** The part of an image reference after '@'. */
  function DigestOf(image: string): string {
    CutValue(image, '@')
  }

  function ResolveEvents(names: seq<string>, before: Services, after: Services): seq<Event> {
    if names == [] then []
    else
      var n := names[|names| - 1];
      ResolveEvents(names[..|names| - 1], before, after)
        + if n in before && n in after then [ResolveSeen(n, before[n].image, DigestOf(after[n].image))] else []
  }

  function WithData(c: Change, configs: map<string, seq<bv8>>): Change {
    if c.action != RemoveAction && configs != map[] then c.(configData := configs) else c
  }

  function DataAttached(changes: seq<Change>, configs: map<string, seq<bv8>>): seq<Change> {
    seq(|changes|, i requires 0 <= i < |changes| => WithData(changes[i], configs))
  }

  /**
   How every collaborator answers one cycle; None is a failed stage, polls are
   what the wait gets to see, and arrivals the hints that come in from its start to the next one's.
   */
  datatype Answers = Answers(
    commit: Option<string>, parsed: Option<DesiredState>, pins: Option<map<string, string>>,
    observed: Option<Services>, verdicts: Option<seq<Verdict>>, oks: seq<bool>, polls: seq<Poll>,
    arrivals: Arrivals)

  /** The trace in its parts, the returned error, and the changes that reached the applier. */
  datatype CycleOutcome = CycleOutcome(
    prepared: seq<Event>, verified: seq<Event>, applied: seq<Event>, closing: Option<Event>,
    result: Result, gated: seq<Change>)
  {
    /** What follows the preparation stages. */
    function Rest(): seq<Event> {
      verified + applied + if closing.Some? then [closing.value] else []
    }

    function Events(): seq<Event> {
      prepared + Rest()
    }
  }

  function FailedStage(prepared: seq<Event>, stage: string): CycleOutcome {
    CycleOutcome(prepared, [], [], Some(StageFailed(stage)), PreApply(stage), [])
  }

  /** How a cycle that applied something ends. */
  function Closing(p: Progress, settled: bool, commit: string): (Event, Result) {
    if p.pending != [] then (PartlyBelieved(p.applied, p.pending), Partial)
    else if !settled then (UnconvergedBelieved(p.applied), Unconverged)
    else (ConvergedSeen(commit, |p.services|), Nil)
  }

  /** The tail of a cycle that got as far as applying. */
  ghost function ApplyOutcome(prepared: seq<Event>, verified: seq<Event>, changes: seq<Change>, commit: string, a: Answers)
    : CycleOutcome
  {
    var p := Applied(changes, a.oks, |changes|);
    var end := Closing(p, Settles(a.polls, AwaitDiff(changes)), commit);
    CycleOutcome(prepared, verified, p.events, Some(end.0), end.1, changes)
  }

  function DriftSeenOf(e: DriftEvent): Event { DriftSeen(e) }
  function VerifySeenOf(v: Verdict): Event { VerifySeen(v) }

  ghost function GateOutcome(prepared: seq<Event>, changes: seq<Change>, commit: string, cfg: Config, a: Answers)
    : CycleOutcome
  {
    if a.verdicts.None? then FailedStage(prepared, "gate")
    else
      var verified := Map(a.verdicts.value, VerifySeenOf);
      var gated := Gated(changes, a.verdicts.value);
      if !AllPass(a.verdicts.value) && cfg.abortCycle then
        CycleOutcome(prepared, verified, [], Some(CycleAborted), Aborted, [])
      else if gated == [] then CycleOutcome(prepared, verified, [], None, Nil, [])
      else ApplyOutcome(prepared, verified, gated, commit, a)
  }

  /** The desired services once resolved. */
  function Resolved(a: Answers): Services
    requires a.parsed.Some? && a.pins.Some?
  {
    PinImages(a.parsed.value.services, a.pins.value)
  }

  ghost function DiffOf(a: Answers): Changes
    requires a.parsed.Some? && a.pins.Some? && a.observed.Some?
  {
    Computed(Resolved(a), a.observed.value)
  }

  /** The ordered changes handed to the gate. */
  ghost function PlanOf(cfg: Config, a: Answers): seq<Change>
    requires a.parsed.Some? && a.pins.Some? && a.observed.Some?
  {
    DataAttached(Planned(DiffOf(a), cfg.prune), a.parsed.value.configs)
  }

  /** The events up to and including the resolve stage. */
  ghost function ResolvedEvents(a: Answers): seq<Event>
    requires a.commit.Some? && a.parsed.Some? && a.pins.Some?
  {
    [PollSeen(a.commit.value), ParseSeen]
      + ResolveEvents(SortedOf(Resolved(a).Keys), a.parsed.value.services, Resolved(a))
  }

  /** The events up to and including the diff stage. */
  ghost function DifferedEvents(a: Answers): seq<Event>
    requires a.commit.Some? && a.parsed.Some? && a.pins.Some? && a.observed.Some?
  {
    var d := DiffOf(a);
    ResolvedEvents(a) + [ObserveSeen, DiffSeen(|d.creates|, |d.updates|, |d.removes|)]
  }

  ghost function DriftsOf(a: Answers, memory: Memory): seq<Event>
    requires a.commit.Some? && a.parsed.Some? && a.pins.Some? && a.observed.Some?
  {
    if SameCommit(memory, a.commit.value)
    then Map(DriftEvents(DriftItems(DiffOf(a)), memory.hints, memory.lastCycleStart, a.arrivals), DriftSeenOf) else []
  }

  /** The hints left when the next cycle starts. */
  ghost function HintsLeft(a: Answers, memory: Memory): map<string, int> {
    if DiffReached(a) && !DiffOf(a).Empty() && SameCommit(memory, a.commit.value)
    then HintsAfter(DriftItems(DiffOf(a)), memory.hints, a.arrivals) else RecordedAll(memory.hints, a.arrivals)
  }

  /** What the loop remembers when the next cycle starts. */
  ghost function MemoryAfter(a: Answers, memory: Memory, now: int): Memory {
    Memory(if a.commit.Some? then a.commit.value else memory.lastCommit, now, HintsLeft(a, memory))
  }

  /** Every stage up to the diff succeeded. */
  predicate DiffReached(a: Answers) {
    a.commit.Some? && a.parsed.Some? && a.pins.Some? && a.observed.Some?
  }

  /** A cycle that fails before its diff. */
  ghost function FailedEarly(a: Answers): CycleOutcome
    requires !DiffReached(a)
  {
    if a.commit.None? then FailedStage([], "poll")
    else if a.parsed.None? then FailedStage([PollSeen(a.commit.value)], "parse")
    else if a.pins.None? then FailedStage([PollSeen(a.commit.value), ParseSeen], "resolve")
    else FailedStage(ResolvedEvents(a), "observe")
  }

  ghost function CycleRun(cfg: Config, a: Answers, memory: Memory): CycleOutcome {
    if !DiffReached(a) then FailedEarly(a)
    else if DiffOf(a).Empty() then CycleOutcome(DifferedEvents(a), [], [], None, Nil, [])
    else GateOutcome(DifferedEvents(a) + DriftsOf(a, memory), PlanOf(cfg, a), a.commit.value, cfg, a)
  }

  // ---- Facts about the apply loop ----

  function OutcomeAt(changes: seq<Change>, oks: seq<bool>, i: nat): Outcome
    requires i < |changes|
  {
    if !SubmittedAt(changes, oks, i) then Skipped else if OkAt(oks, i) then Ok else Failed
  }

  function AppliedEvent(c: Change, o: Outcome): Event {
    ApplySeen(c.spec.name, c.action, o)
  }

  /** Applied, pending and skipped add up to the changes; each change leaves one event. */
  lemma {:induction false} EveryChangeAccounted(changes: seq<Change>, oks: seq<bool>, n: nat)
    requires n <= |changes|
    ensures var p := Applied(changes, oks, n); |p.applied| + |p.pending| + p.skipped == n && |p.events| == n
  {
    if n > 0 { EveryChangeAccounted(changes, oks, n - 1); }
  }

  /** The event a change leaves tells its fate. */
  lemma {:induction false} EventTellsFate(changes: seq<Change>, oks: seq<bool>, n: nat, i: nat)
    requires i < n <= |changes|
    ensures |Applied(changes, oks, n).events| == n
    ensures Applied(changes, oks, n).events[i] == AppliedEvent(changes[i], OutcomeAt(changes, oks, i))
    decreases n
  {
    var before := Applied(changes, oks, n - 1);
    EveryChangeAccounted(changes, oks, n - 1);
    assert Applied(changes, oks, n).events
        == before.events + [AppliedEvent(changes[n - 1], OutcomeAt(changes, oks, n - 1))];
    if i < n - 1 { EventTellsFate(changes, oks, n - 1, i); }
  }

  /** A name is barred exactly by a failed recreate removal of it. */
  lemma {:induction false} FailedRecreatesMeaning(changes: seq<Change>, oks: seq<bool>, n: nat, name: string)
    requires n <= |changes|
    ensures name in Applied(changes, oks, n).failedRecreates <==>
            exists j :: 0 <= j < n && changes[j].action == RemoveAction && changes[j].recreate
                        && changes[j].spec.name == name && !OkAt(oks, j)
  {
    if n > 0 { FailedRecreatesMeaning(changes, oks, n - 1, name); }
  }

  /**
   In a well-shaped list a recreate creation is submitted exactly when the change right before
   it, its own removal, was submitted and succeeded.
   */
  lemma RecreateSafety(changes: seq<Change>, oks: seq<bool>, i: nat)
    requires WellPlanned(changes) && i < |changes| && changes[i].action == CreateAction && changes[i].recreate
    ensures i > 0 && PairAt(changes, i - 1) && SubmittedAt(changes, oks, i - 1)
    ensures SubmittedAt(changes, oks, i) <==> OkAt(oks, i - 1)
  {
    assert RecreateAt(changes, i);
    FailedRecreatesMeaning(changes, oks, i, changes[i].spec.name);
    if !SubmittedAt(changes, oks, i) {
      var j :| 0 <= j < i && changes[j].action == RemoveAction && changes[j].recreate
               && changes[j].spec.name == changes[i].spec.name && !OkAt(oks, j);
      assert Twins(changes, j, i);
    }
  }

  /** No failure keeps any other change back: only a recreate creation is ever skipped, after its own removal failed. */
  lemma SkippedExactly(changes: seq<Change>, oks: seq<bool>, i: nat)
    requires i < |changes|
    ensures !SubmittedAt(changes, oks, i)
       <==> changes[i].action == CreateAction && changes[i].recreate
            && exists j :: 0 <= j < i && changes[j].action == RemoveAction && changes[j].recreate
                           && changes[j].spec.name == changes[i].spec.name && !OkAt(oks, j)
  {
    FailedRecreatesMeaning(changes, oks, i, changes[i].spec.name);
  }

  /** Nothing is pending exactly when every submitted change succeeded; then nothing was skipped either. */
  lemma {:induction false} NothingPending(changes: seq<Change>, oks: seq<bool>, n: nat)
    requires n <= |changes|
    ensures var p := Applied(changes, oks, n);
      && (p.pending == [] <==> forall i :: 0 <= i < n && SubmittedAt(changes, oks, i) ==> OkAt(oks, i))
      && (p.pending == [] ==> p.failedRecreates == {} && p.skipped == 0)
      && (p.pending == [] ==> forall i :: 0 <= i < n ==> SubmittedAt(changes, oks, i))
  {
    if n > 0 { NothingPending(changes, oks, n - 1); }
  }

  // ---- The grammar ----

  /** Stages in the order a cycle goes through them; a closing event ends it. */
  function Rank(e: Event): nat {
    match e
    case PollSeen(_) => 0
    case ParseSeen => 1
    case ResolveSeen(_, _, _) => 2
    case ObserveSeen => 3
    case DiffSeen(_, _, _) => 4
    case DriftSeen(_) => 5
    case VerifySeen(_) => 6
    case ApplySeen(_, _, _) => 7
    case _ => 8
  }

  const CLOSING := 8

  ghost predicate Below(events: seq<Event>, rank: nat) {
    forall e :: e in events ==> Rank(e) < rank
  }

  ghost predicate AllOf(events: seq<Event>, rank: nat) {
    forall e :: e in events ==> Rank(e) == rank
  }

  /** Stages never go back, and only the last event may be a closing one. */
  ghost predicate InOrder(events: seq<Event>) {
    && (forall i, j :: 0 <= i < j < |events| ==> Rank(events[i]) <= Rank(events[j]))
    && (forall i :: 0 <= i < |events| - 1 ==> Rank(events[i]) < CLOSING)
  }

  ghost predicate HasConverged(events: seq<Event>) {
    exists e :: e in events && e.ConvergedSeen?
  }

  ghost predicate HasApply(events: seq<Event>) {
    exists e :: e in events && e.ApplySeen?
  }

  ghost predicate AllApplied(events: seq<Event>) {
    forall e :: e in events && e.ApplySeen? ==> e.outcome == Ok
  }

  /** All a reader of the trace may rely on. */
  ghost predicate WellFormed(events: seq<Event>) {
    InOrder(events) && (HasConverged(events) ==> HasApply(events) && AllApplied(events))
  }

  lemma OrderedConcat(a: seq<Event>, b: seq<Event>, rank: nat)
    requires InOrder(a) && Below(a, rank) && rank < CLOSING && AllOf(b, rank)
    ensures InOrder(a + b) && Below(a + b, rank + 1)
  {
    forall i, j | 0 <= i < j < |a + b| ensures Rank((a + b)[i]) <= Rank((a + b)[j]) {
      if i < |a| <= j { assert a[i] in a && b[j - |a|] in b; }
      if |a| <= i { assert b[i - |a|] in b && b[j - |a|] in b; }
    }
    forall e | e in a + b ensures Rank(e) < rank + 1 {
      assert e in a || e in b;
    }
  }

  /** The parts of an outcome are what their names say. */
  ghost predicate PartsTyped(o: CycleOutcome) {
    && InOrder(o.prepared) && Below(o.prepared, 6)
    && AllOf(o.verified, 6) && AllOf(o.applied, 7)
    && (o.closing.Some? ==> Rank(o.closing.value) == CLOSING)
  }

  lemma ClosingKeepsOrder(open: seq<Event>, last: Event)
    requires InOrder(open) && Below(open, CLOSING) && Rank(last) == CLOSING
    ensures InOrder(open + [last])
  {
    assert forall i :: 0 <= i < |open| ==> open[i] in open;
  }

  lemma PartsInOrder(o: CycleOutcome)
    requires PartsTyped(o)
    ensures InOrder(o.Events())
  {
    OrderedConcat(o.prepared, o.verified, 6);
    OrderedConcat(o.prepared + o.verified, o.applied, 7);
    var open := o.prepared + o.verified + o.applied;
    if o.closing.Some? {
      ClosingKeepsOrder(open, o.closing.value);
      assert o.Events() == open + [o.closing.value];
    } else {
      assert o.Events() == open;
    }
  }

  lemma EventsByPart(o: CycleOutcome, e: Event)
    requires PartsTyped(o)
    ensures e in o.Events() <==>
            e in o.prepared || e in o.verified || e in o.applied || (o.closing.Some? && e == o.closing.value)
    ensures e in o.Events() && e.ApplySeen? <==> e in o.applied
    ensures e in o.Events() && e.ConvergedSeen? <==> o.closing.Some? && e == o.closing.value && e.ConvergedSeen?
  {
  }

  lemma PartsGiveOrder(o: CycleOutcome)
    requires PartsTyped(o)
    ensures InOrder(o.Events())
    ensures HasConverged(o.Events()) <==> o.closing.Some? && o.closing.value.ConvergedSeen?
    ensures HasApply(o.Events()) <==> o.applied != []
    ensures AllApplied(o.applied) ==> AllApplied(o.Events())
  {
    PartsInOrder(o);
    forall e
      ensures e in o.Events() && e.ApplySeen? <==> e in o.applied
      ensures e in o.Events() && e.ConvergedSeen? <==> o.closing.Some? && e == o.closing.value && e.ConvergedSeen?
    {
      EventsByPart(o, e);
    }
    if o.applied != [] { assert o.applied[0] in o.applied; }
  }

  lemma {:induction false} ResolveEventsTyped(names: seq<string>, before: Services, after: Services)
    ensures AllOf(ResolveEvents(names, before, after), 2)
  {
    if names != [] { ResolveEventsTyped(names[..|names| - 1], before, after); }
  }

  lemma ResolvedTyped(a: Answers)
    requires a.commit.Some? && a.parsed.Some? && a.pins.Some?
    ensures InOrder(ResolvedEvents(a)) && Below(ResolvedEvents(a), 3)
  {
    var names := SortedOf(Resolved(a).Keys);
    ResolveEventsTyped(names, a.parsed.value.services, Resolved(a));
    OrderedConcat([PollSeen(a.commit.value), ParseSeen],
                  ResolveEvents(names, a.parsed.value.services, Resolved(a)), 2);
  }

  lemma ObservedTyped(resolved: seq<Event>, diff: Event)
    requires InOrder(resolved) && Below(resolved, 3) && diff.DiffSeen?
    ensures InOrder(resolved + [ObserveSeen, diff]) && Below(resolved + [ObserveSeen, diff], 5)
  {
    OrderedConcat(resolved, [ObserveSeen], 3);
    OrderedConcat(resolved + [ObserveSeen], [diff], 4);
    assert resolved + [ObserveSeen] + [diff] == resolved + [ObserveSeen, diff];
  }

  lemma DriftsTyped(a: Answers, memory: Memory)
    requires a.commit.Some? && a.parsed.Some? && a.pins.Some? && a.observed.Some?
    ensures AllOf(DriftsOf(a, memory), 5)
  {
    if SameCommit(memory, a.commit.value) {
      MappedTyped(DriftEvents(DriftItems(DiffOf(a)), memory.hints, memory.lastCycleStart, a.arrivals));
    }
  }

  lemma MappedTyped(drifts: seq<DriftEvent>)
    ensures AllOf(Map(drifts, DriftSeenOf), 5)
  {
  }

  lemma PreparedTyped(a: Answers, memory: Memory)
    requires a.commit.Some? && a.parsed.Some? && a.pins.Some? && a.observed.Some?
    ensures InOrder(DifferedEvents(a)) && Below(DifferedEvents(a), 5)
    ensures var events := DifferedEvents(a) + DriftsOf(a, memory); InOrder(events) && Below(events, 6)
  {
    var d := DiffOf(a);
    ResolvedTyped(a);
    ObservedTyped(ResolvedEvents(a), DiffSeen(|d.creates|, |d.updates|, |d.removes|));
    var drifts := DriftsOf(a, memory);
    DriftsTyped(a, memory);
    OrderedConcat(DifferedEvents(a), drifts, 5);
  }

  ghost predicate EveryApplyOk(o: CycleOutcome, oks: seq<bool>) {
    forall i :: 0 <= i < |o.gated| && SubmittedAt(o.gated, oks, i) ==> OkAt(oks, i)
  }

  lemma AppliedTyped(changes: seq<Change>, oks: seq<bool>)
    ensures var p := Applied(changes, oks, |changes|);
      && AllOf(p.events, 7) && |p.events| == |changes|
      && (p.pending == [] ==> AllApplied(p.events))
  {
    var p := Applied(changes, oks, |changes|);
    EveryChangeAccounted(changes, oks, |changes|);
    NothingPending(changes, oks, |changes|);
    forall e | e in p.events
      ensures e.ApplySeen? && (p.pending == [] ==> e.outcome == Ok)
    {
      var i :| 0 <= i < |p.events| && p.events[i] == e;
      EventTellsFate(changes, oks, |changes|, i);
    }
  }

  /** The closing event of an outcome announces convergence. */
  predicate Announces(o: CycleOutcome) {
    o.closing.Some? && o.closing.value.ConvergedSeen?
  }

  lemma ApplyOutcomeParts(prepared: seq<Event>, verified: seq<Event>, changes: seq<Change>, commit: string, a: Answers)
    ensures var o, p := ApplyOutcome(prepared, verified, changes, commit, a), Applied(changes, a.oks, |changes|);
      && o.applied == p.events && o.gated == changes && o.prepared == prepared && o.verified == verified
      && o.closing.Some? && Rank(o.closing.value) == CLOSING
  {
    ClosingRank(Applied(changes, a.oks, |changes|), Settles(a.polls, AwaitDiff(changes)), commit);
  }

  lemma ClosingRank(p: Progress, settled: bool, commit: string)
    ensures Rank(Closing(p, settled, commit).0) == CLOSING
  {
  }

  lemma AnnouncesExactly(prepared: seq<Event>, verified: seq<Event>, changes: seq<Change>, commit: string, a: Answers)
    ensures var o := ApplyOutcome(prepared, verified, changes, commit, a);
      Announces(o) <==> Settles(a.polls, AwaitDiff(changes)) && Applied(changes, a.oks, |changes|).pending == []
  {
  }

  lemma AppliedPartTyped(o: CycleOutcome, oks: seq<bool>)
    requires o.applied == Applied(o.gated, oks, |o.gated|).events
    ensures AllOf(o.applied, 7) && |o.applied| == |o.gated|
    ensures Applied(o.gated, oks, |o.gated|).pending == [] <==> EveryApplyOk(o, oks)
    ensures Applied(o.gated, oks, |o.gated|).pending == [] ==> AllApplied(o.applied)
  {
    AppliedTyped(o.gated, oks);
    NothingPending(o.gated, oks, |o.gated|);
  }

  lemma ApplyOutcomeTyped(prepared: seq<Event>, verified: seq<Event>, changes: seq<Change>, commit: string, a: Answers)
    ensures var o := ApplyOutcome(prepared, verified, changes, commit, a);
      && AllOf(o.applied, 7) && |o.applied| == |changes| && o.gated == changes
      && o.prepared == prepared && o.verified == verified
      && o.closing.Some? && Rank(o.closing.value) == CLOSING
      && (Announces(o) <==> Settles(a.polls, AwaitDiff(changes)) && EveryApplyOk(o, a.oks))
      && (Announces(o) ==> AllApplied(o.applied))
  {
    ApplyOutcomeParts(prepared, verified, changes, commit, a);
    AnnouncesExactly(prepared, verified, changes, commit, a);
    AppliedPartTyped(ApplyOutcome(prepared, verified, changes, commit, a), a.oks);
  }

  lemma GateOutcomeTyped(prepared: seq<Event>, changes: seq<Change>, commit: string, cfg: Config, a: Answers)
    requires InOrder(prepared) && Below(prepared, 6)
    ensures var o := GateOutcome(prepared, changes, commit, cfg, a);
      && PartsTyped(o) && |o.applied| == |o.gated|
      && (Announces(o) <==> o.gated != [] && Settles(a.polls, AwaitDiff(o.gated)) && EveryApplyOk(o, a.oks))
      && (Announces(o) ==> AllApplied(o.applied))
      && (a.verdicts.Some? && !AllPass(a.verdicts.value) && cfg.abortCycle ==> o.gated == [])
  {
    if a.verdicts.Some? {
      var verified := Map(a.verdicts.value, VerifySeenOf);
      assert AllOf(verified, 6);
      ApplyOutcomeTyped(prepared, verified, Gated(changes, a.verdicts.value), commit, a);
    }
  }

  lemma RunTyped(cfg: Config, a: Answers, memory: Memory)
    ensures var o := CycleRun(cfg, a, memory);
      && PartsTyped(o) && |o.applied| == |o.gated|
      && (Announces(o) <==> o.gated != [] && Settles(a.polls, AwaitDiff(o.gated)) && EveryApplyOk(o, a.oks))
      && (Announces(o) ==> AllApplied(o.applied))
      && (a.verdicts.Some? && !AllPass(a.verdicts.value) && cfg.abortCycle ==> o.gated == [])
  {
    if a.commit.Some? && a.parsed.Some? && a.pins.Some? {
      ResolvedTyped(a);
      if a.observed.Some? { PreparedTyped(a, memory); }
      if a.observed.Some? && !DiffOf(a).Empty() {
        GateOutcomeTyped(DifferedEvents(a) + DriftsOf(a, memory), PlanOf(cfg, a), a.commit.value, cfg, a);
      }
    }
  }

  lemma RunApplied(cfg: Config, a: Answers, memory: Memory)
    ensures var o := CycleRun(cfg, a, memory);
      o.applied == if o.gated == [] then [] else Applied(o.gated, a.oks, |o.gated|).events
  {
    if DiffReached(a) && !DiffOf(a).Empty() {
      GateApplied(DifferedEvents(a) + DriftsOf(a, memory), PlanOf(cfg, a), a.commit.value, cfg, a);
    }
  }

  lemma GateApplied(prepared: seq<Event>, changes: seq<Change>, commit: string, cfg: Config, a: Answers)
    ensures var o := GateOutcome(prepared, changes, commit, cfg, a);
      o.applied == if o.gated == [] then [] else Applied(o.gated, a.oks, |o.gated|).events
  {
  }

  /** Every apply event names the service of a gated change. */
  lemma ApplyNamesChange(cfg: Config, a: Answers, memory: Memory, e: Event)
    requires e in CycleRun(cfg, a, memory).Events() && e.ApplySeen?
    ensures e.service in NamesOf(CycleRun(cfg, a, memory).gated)
  {
    var o := CycleRun(cfg, a, memory);
    RunTyped(cfg, a, memory);
    EventsByPart(o, e);
    RunApplied(cfg, a, memory);
    var i :| 0 <= i < |o.applied| && o.applied[i] == e;
    EveryChangeAccounted(o.gated, a.oks, |o.gated|);
    EventTellsFate(o.gated, a.oks, |o.gated|, i);
    assert o.gated[i] in o.gated;
  }

  /**
   Every cycle's trace: stages in order; converged at most once and last, exactly when some
   change passed the gate, every submitted change succeeded and the wait did; one apply event
   per gated change; an abort-cycle reject applies nothing.
   */
  lemma TraceGrammar(cfg: Config, a: Answers, memory: Memory)
    ensures var o := CycleRun(cfg, a, memory);
      && WellFormed(o.Events())
      && (HasConverged(o.Events()) <==> o.gated != [] && Settles(a.polls, AwaitDiff(o.gated)) && EveryApplyOk(o, a.oks))
      && (HasApply(o.Events()) <==> o.gated != [])
      && |o.applied| == |o.gated|
      && (a.verdicts.Some? && !AllPass(a.verdicts.value) && cfg.abortCycle ==> !HasApply(o.Events()))
  {
    RunTyped(cfg, a, memory);
    PartsGiveOrder(CycleRun(cfg, a, memory));
  }

  // ---- What a cycle returns ----

  /** Some stage before the apply loop failed; the gate is asked only about a nonempty diff. */
  ghost predicate StageFails(a: Answers) {
    || a.commit.None? || a.parsed.None? || a.pins.None? || a.observed.None?
    || (!DiffOf(a).Empty() && a.verdicts.None?)
  }

  /** The gate was asked, rejected something, and is configured to abort the cycle then. */
  ghost predicate Rejects(cfg: Config, a: Answers) {
    && a.commit.Some? && a.parsed.Some? && a.pins.Some? && a.observed.Some? && !DiffOf(a).Empty()
    && a.verdicts.Some? && cfg.abortCycle && exists v :: v in a.verdicts.value && !v.pass
  }

  ghost predicate SomeFailed(changes: seq<Change>, oks: seq<bool>) {
    exists i :: 0 <= i < |changes| && SubmittedAt(changes, oks, i) && !OkAt(oks, i)
  }

  /** How a cycle ends that applied these changes. */
  ghost predicate EndsAs(result: Result, changes: seq<Change>, a: Answers) {
    && (result == Partial <==> SomeFailed(changes, a.oks))
    && (result == Unconverged <==> !SomeFailed(changes, a.oks) && !Settles(a.polls, AwaitDiff(changes)))
    && (result == Nil <==> !SomeFailed(changes, a.oks) && Settles(a.polls, AwaitDiff(changes)))
  }

  lemma ApplyEndsAs(prepared: seq<Event>, verified: seq<Event>, changes: seq<Change>, commit: string, a: Answers)
    ensures EndsAs(ApplyOutcome(prepared, verified, changes, commit, a).result, changes, a)
  {
    NothingPending(changes, a.oks, |changes|);
    ClosingEnds(Applied(changes, a.oks, |changes|), Settles(a.polls, AwaitDiff(changes)), commit);
  }

  lemma ClosingEnds(p: Progress, settled: bool, commit: string)
    ensures var r := Closing(p, settled, commit).1;
      && (r == Partial <==> p.pending != []) && (r == Unconverged <==> p.pending == [] && !settled)
      && (r == Nil <==> p.pending == [] && settled)
  {
  }

  lemma GateEndsAs(prepared: seq<Event>, changes: seq<Change>, commit: string, cfg: Config, a: Answers)
    requires a.verdicts.Some?
    ensures var o, reject := GateOutcome(prepared, changes, commit, cfg, a), cfg.abortCycle && !AllPass(a.verdicts.value);
      && (reject ==> o.result == Aborted && o.gated == [])
      && (!reject ==> o.gated == Gated(changes, a.verdicts.value))
      && (!reject && o.gated == [] ==> o.result == Nil)
      && (!reject && o.gated != [] ==> EndsAs(o.result, o.gated, a))
  {
    ApplyOutcomeParts(prepared, Map(a.verdicts.value, VerifySeenOf), Gated(changes, a.verdicts.value), commit, a);
    ApplyEndsAs(prepared, Map(a.verdicts.value, VerifySeenOf), Gated(changes, a.verdicts.value), commit, a);
  }

  /** What reaches the applier: unless a stage fails or the gate aborts, all of the plan that passes. */
  lemma GatedExactly(cfg: Config, a: Answers, memory: Memory)
    ensures StageFails(a) || Rejects(cfg, a) || DiffOf(a).Empty() ==> CycleRun(cfg, a, memory).gated == []
    ensures !StageFails(a) && !Rejects(cfg, a) && !DiffOf(a).Empty() ==>
              CycleRun(cfg, a, memory).gated == Gated(PlanOf(cfg, a), a.verdicts.value)
  {
    if DiffReached(a) && !DiffOf(a).Empty() && a.verdicts.Some? {
      GateEndsAs(DifferedEvents(a) + DriftsOf(a, memory), PlanOf(cfg, a), a.commit.value, cfg, a);
    }
  }

  /**
   The error a cycle returns says what became of it: a failed stage, which applies nothing; a
   reject that aborts it, which applies nothing either; a submitted change that failed; a wait
   that did not settle; and no error in exactly the other cases.
   */
  lemma ResultExactly(cfg: Config, a: Answers, memory: Memory)
    ensures var o := CycleRun(cfg, a, memory);
      && (o.result.PreApply? <==> StageFails(a)) && (o.result == Aborted <==> Rejects(cfg, a))
      && (StageFails(a) || Rejects(cfg, a) ==> o.gated == [])
      && (o.result == Partial <==> SomeFailed(o.gated, a.oks))
      && (o.result == Unconverged
          <==> o.gated != [] && !SomeFailed(o.gated, a.oks) && !Settles(a.polls, AwaitDiff(o.gated)))
      && (o.result == Nil
          <==> && !StageFails(a) && !Rejects(cfg, a) && !SomeFailed(o.gated, a.oks)
               && (o.gated == [] || Settles(a.polls, AwaitDiff(o.gated))))
  {
    if DiffReached(a) && !DiffOf(a).Empty() && a.verdicts.Some? {
      GateEndsAs(DifferedEvents(a) + DriftsOf(a, memory), PlanOf(cfg, a), a.commit.value, cfg, a);
    }
  }

  // ---- What the closing event says ----

  /** How a change that went through is listed: a half of a recreate along with its action. */
  ghost function ListedAs(c: Change): string {
    if !c.recreate then c.spec.name
    else c.spec.name + match c.action case CreateAction => ":create" case UpdateAction => ":update" case RemoveAction => ":remove"
  }

  ghost predicate AnsweredAt(changes: seq<Change>, oks: seq<bool>, i: nat, ok: bool) {
    i < |changes| && SubmittedAt(changes, oks, i) && OkAt(oks, i) == ok
  }

  /** The changes among the first n that were submitted and answered with ok, in order. */
  ghost predicate Answered(at: seq<nat>, changes: seq<Change>, oks: seq<bool>, n: nat, ok: bool) {
    Positions(at, n) && forall i: nat :: i in at <==> i < n && AnsweredAt(changes, oks, i, ok)
  }

  ghost predicate AppliedList(changes: seq<Change>, oks: seq<bool>, n: nat, list: seq<string>) {
    exists at: seq<nat> :: Answered(at, changes, oks, n, true) && n <= |changes| && |at| == |list|
                           && forall k :: 0 <= k < |at| ==> list[k] == ListedAs(changes[at[k]])
  }

  ghost predicate PendingList(changes: seq<Change>, oks: seq<bool>, n: nat, list: seq<string>) {
    exists at: seq<nat> :: Answered(at, changes, oks, n, false) && n <= |changes| && |at| == |list|
                           && forall k :: 0 <= k < |at| ==> list[k] == changes[at[k]].spec.name
  }

  lemma AnsweredNext(at: seq<nat>, changes: seq<Change>, oks: seq<bool>, n: nat, ok: bool)
    requires Answered(at, changes, oks, n, ok)
    ensures Answered(if AnsweredAt(changes, oks, n, ok) then at + [n] else at, changes, oks, n + 1, ok)
  {
    PositionsNext(at, n);
    var next := if AnsweredAt(changes, oks, n, ok) then at + [n] else at;
    forall i: nat ensures i in next <==> i < n + 1 && AnsweredAt(changes, oks, i, ok) {
      assert i in at + [n] <==> i in at || i == n;
    }
  }

  lemma ListedAsNext(changes: seq<Change>, oks: seq<bool>, n: nat)
    requires n < |changes|
    ensures var p, q, c := Applied(changes, oks, n), Applied(changes, oks, n + 1), changes[n];
      && q.applied == p.applied + (if AnsweredAt(changes, oks, n, true) then [Map(changes, ListedAs)[n]] else [])
      && q.pending == p.pending + (if AnsweredAt(changes, oks, n, false) then [Map(changes, NamedAs)[n]] else [])
      && q.services == p.services + (if AnsweredAt(changes, oks, n, true) then {c.spec.name} else {})
  {
    ListedLabel(changes[n]);
  }

  lemma ListedLabel(c: Change)
    ensures ListedAs(c) == if c.recreate then c.spec.name + ":" + ActionName(c.action) else c.spec.name
  {
    assert ":" + "create" == ":create" && ":" + "update" == ":update" && ":" + "remove" == ":remove";
    assert c.spec.name + ":" + ActionName(c.action) == c.spec.name + (":" + ActionName(c.action));
  }

  /** list holds, of all names, those at these positions. */
  ghost predicate Lists(at: seq<nat>, list: seq<string>, names: seq<string>) {
    |at| == |list| && forall k :: 0 <= k < |at| ==> at[k] < |names| && list[k] == names[at[k]]
  }

  ghost predicate ListedSoFar(at: seq<nat>, list: seq<string>, names: seq<string>, changes: seq<Change>, oks: seq<bool>,
                              n: nat, ok: bool) {
    Answered(at, changes, oks, n, ok) && Lists(at, list, names)
  }

  lemma ListNext(at: seq<nat>, list: seq<string>, names: seq<string>, changes: seq<Change>, oks: seq<bool>, n: nat, ok: bool)
    returns (at': seq<nat>)
    requires ListedSoFar(at, list, names, changes, oks, n, ok) && n < |names|
    ensures ListedSoFar(at', list + (if AnsweredAt(changes, oks, n, ok) then [names[n]] else []), names, changes, oks, n + 1, ok)
  {
    AnsweredNext(at, changes, oks, n, ok);
    if AnsweredAt(changes, oks, n, ok) {
      ListsNext(at, list, names, n);
      return at + [n];
    }
    assert list + [] == list;
    return at;
  }

  lemma ListsNext(at: seq<nat>, list: seq<string>, names: seq<string>, n: nat)
    requires Lists(at, list, names) && n < |names|
    ensures Lists(at + [n], list + [names[n]], names)
  {
  }

  lemma {:induction false} AppliedListed(changes: seq<Change>, oks: seq<bool>, n: nat) returns (at: seq<nat>)
    requires n <= |changes|
    ensures ListedSoFar(at, Applied(changes, oks, n).applied, Map(changes, ListedAs), changes, oks, n, true)
  {
    if n == 0 { return []; }
    var before := AppliedListed(changes, oks, n - 1);
    ListedAsNext(changes, oks, n - 1);
    at := ListNext(before, Applied(changes, oks, n - 1).applied, Map(changes, ListedAs), changes, oks, n - 1, true);
  }

  lemma {:induction false} PendingListed(changes: seq<Change>, oks: seq<bool>, n: nat) returns (at: seq<nat>)
    requires n <= |changes|
    ensures ListedSoFar(at, Applied(changes, oks, n).pending, Map(changes, NamedAs), changes, oks, n, false)
  {
    if n == 0 { return []; }
    var before := PendingListed(changes, oks, n - 1);
    ListedAsNext(changes, oks, n - 1);
    at := ListNext(before, Applied(changes, oks, n - 1).pending, Map(changes, NamedAs), changes, oks, n - 1, false);
  }

  function NamedAs(c: Change): string {
    c.spec.name
  }

  lemma {:induction false} ServicesNamed(changes: seq<Change>, oks: seq<bool>, n: nat, name: string)
    requires n <= |changes|
    ensures name in Applied(changes, oks, n).services
       <==> exists i: nat :: i < n && AnsweredAt(changes, oks, i, true) && changes[i].spec.name == name
  {
    if n > 0 {
      ServicesNamed(changes, oks, n - 1, name);
      ListedAsNext(changes, oks, n - 1);
    }
  }

  /** With every change submitted and successful, the services applied to are those named. */
  lemma AllServices(changes: seq<Change>, oks: seq<bool>)
    requires !SomeFailed(changes, oks)
    ensures Applied(changes, oks, |changes|).services == NamesOf(changes)
  {
    NothingPending(changes, oks, |changes|);
    forall name ensures name in Applied(changes, oks, |changes|).services <==> name in NamesOf(changes) {
      ServicesNamed(changes, oks, |changes|, name);
      if name in NamesOf(changes) {
        var c :| c in changes && c.spec.name == name;
        var i: nat :| i < |changes| && changes[i] == c;
        assert AnsweredAt(changes, oks, i, true);
      }
    }
  }

  /** The closing event of a cycle that applied these changes. */
  ghost predicate ClosesWith(e: Event, result: Result, changes: seq<Change>, commit: string, oks: seq<bool>) {
    match result
    case Partial =>
      && e.PartlyBelieved? && AppliedList(changes, oks, |changes|, e.applied)
      && PendingList(changes, oks, |changes|, e.pending)
    case Unconverged => e.UnconvergedBelieved? && AppliedList(changes, oks, |changes|, e.applied)
    case Nil => e == ConvergedSeen(commit, |NamesOf(changes)|)
    case _ => false
  }

  lemma ClosingSays(changes: seq<Change>, oks: seq<bool>, settled: bool, commit: string)
    ensures var end := Closing(Applied(changes, oks, |changes|), settled, commit);
      ClosesWith(end.0, end.1, changes, commit, oks)
  {
    var at := AppliedListed(changes, oks, |changes|);
    var failed := PendingListed(changes, oks, |changes|);
    NothingPending(changes, oks, |changes|);
    if !SomeFailed(changes, oks) { AllServices(changes, oks); }
  }

  /** The first stage that fails. */
  ghost predicate FailsAt(a: Answers, stage: string) {
    if a.commit.None? then stage == "poll"
    else if a.parsed.None? then stage == "parse"
    else if a.pins.None? then stage == "resolve"
    else if a.observed.None? then stage == "observe"
    else !DiffOf(a).Empty() && a.verdicts.None? && stage == "gate"
  }

  /**
   The last event tells what the result tells: which stage failed, that the cycle was aborted,
   what was applied and what is pending, or how many services the cycle has converged.
   */
  lemma ClosingTells(cfg: Config, a: Answers, memory: Memory)
    ensures var o := CycleRun(cfg, a, memory);
      && (o.result.PreApply? ==> FailsAt(a, o.result.stage) && o.closing == Some(StageFailed(o.result.stage)))
      && (o.result == Aborted ==> o.closing == Some(CycleAborted))
      && (!o.result.PreApply? && o.result != Aborted && o.gated == [] ==> o.closing == None)
      && (o.gated != [] ==>
            a.commit.Some? && o.closing.Some? && ClosesWith(o.closing.value, o.result, o.gated, a.commit.value, a.oks))
  {
    if DiffReached(a) && !DiffOf(a).Empty() {
      GateCloses(DifferedEvents(a) + DriftsOf(a, memory), PlanOf(cfg, a), a.commit.value, cfg, a);
    }
  }

  lemma GateCloses(prepared: seq<Event>, changes: seq<Change>, commit: string, cfg: Config, a: Answers)
    ensures var o := GateOutcome(prepared, changes, commit, cfg, a);
      && (a.verdicts.None? ==> o.result == PreApply("gate") && o.closing == Some(StageFailed("gate")))
      && (a.verdicts.Some? ==> !o.result.PreApply?)
      && (o.result == Aborted ==> o.closing == Some(CycleAborted))
      && (a.verdicts.Some? && o.result != Aborted && o.gated == [] ==> o.closing == None)
      && (o.gated != [] ==> o.closing.Some? && ClosesWith(o.closing.value, o.result, o.gated, commit, a.oks))
  {
    if a.verdicts.Some? {
      var gated := Gated(changes, a.verdicts.value);
      ClosingSays(gated, a.oks, Settles(a.polls, AwaitDiff(gated)), commit);
    }
  }

  // ---- What is resolved, and what the changes carry ----

  /** Pinning changes images alone, and those of the pinned services alone. */
  lemma PinnedExactly(services: Services, pins: map<string, string>, n: string)
    requires n in services
    ensures PinImages(services, pins).Keys == services.Keys
    ensures var s := PinImages(services, pins)[n];
      && s.image == (if n in pins then pins[n] else services[n].image)
      && s.(image := services[n].image) == services[n]
  {
  }

  /** digest is what follows the first '@' of the image, or nothing. */
  ghost predicate DigestIs(digest: string, image: string) {
    if '@' in image then exists name :: '@' !in name && image == name + "@" + digest else digest == ""
  }

  lemma DigestMeaning(image: string)
    ensures DigestIs(DigestOf(image), image)
  {
    CutMeaning(image, '@');
    if '@' in image {
      var name := CutKey(image, '@');
      assert '@' !in name && image == name + "@" + DigestOf(image);
    }
  }

  /** The event tells the image a service was written with, and the digest of the one it was pinned to. */
  ghost predicate TellsPin(e: Event, n: string, services: Services, pins: map<string, string>)
    requires n in services
  {
    e.ResolveSeen? && e.service == n && e.image == services[n].image
    && DigestIs(e.digest, if n in pins then pins[n] else services[n].image)
  }

  ghost predicate TellsAll(events: seq<Event>, names: seq<string>, services: Services, pins: map<string, string>) {
    |events| == |names| && forall i :: 0 <= i < |names| ==> names[i] in services && TellsPin(events[i], names[i], services, pins)
  }

  lemma {:induction false} ResolvesTell(names: seq<string>, services: Services, pins: map<string, string>)
    requires forall n :: n in names ==> n in services
    ensures TellsAll(ResolveEvents(names, services, PinImages(services, pins)), names, services, pins)
  {
    if names != [] {
      var n := names[|names| - 1];
      ResolvesTell(names[..|names| - 1], services, pins);
      DigestMeaning(PinImages(services, pins)[n].image);
    }
  }

  /** After poll and parse come the resolved services, each once, in name order. */
  lemma ResolvedExactly(a: Answers)
    requires a.commit.Some? && a.parsed.Some? && a.pins.Some?
    ensures var services := a.parsed.value.services;
      exists resolves :: ResolvedEvents(a) == [PollSeen(a.commit.value), ParseSeen] + resolves
                         && TellsAll(resolves, SortedOf(services.Keys), services, a.pins.value)
  {
    var services := a.parsed.value.services;
    assert PinImages(services, a.pins.value).Keys == services.Keys;
    ResolvesTell(SortedOf(services.Keys), services, a.pins.value);
  }

  /** The diff event counts the services that are missing, that differ, and that are not wanted. */
  lemma DifferedExactly(a: Answers)
    requires DiffReached(a) && KeyedByName(a.parsed.value.services) && KeyedByName(a.observed.value)
    ensures var desired, observed := Resolved(a), a.observed.value;
      DifferedEvents(a) == ResolvedEvents(a) + [ObserveSeen, DiffSeen(|Missing(desired, observed)|,
                                                |Outdated(desired, observed)|, |Missing(observed, desired)|)]
  {
    ComputeClassifies(Resolved(a), a.observed.value);
    DiffCounted(DiffOf(a), Resolved(a), a.observed.value);
  }

  /** Whatever the gate answers is told, verdict by verdict, whether the cycle goes on or not. */
  lemma VerdictsTold(cfg: Config, a: Answers, memory: Memory)
    ensures var told := CycleRun(cfg, a, memory).verified;
      if DiffReached(a) && !DiffOf(a).Empty() && a.verdicts.Some? then
        |told| == |a.verdicts.value| && forall i :: 0 <= i < |told| ==> told[i] == VerifySeen(a.verdicts.value[i])
      else told == []
  {
    if DiffReached(a) && !DiffOf(a).Empty() {
      GateTells(DifferedEvents(a) + DriftsOf(a, memory), PlanOf(cfg, a), a.commit.value, cfg, a);
    }
  }

  lemma GateTells(prepared: seq<Event>, changes: seq<Change>, commit: string, cfg: Config, a: Answers)
    ensures var told := GateOutcome(prepared, changes, commit, cfg, a).verified;
      if a.verdicts.Some? then
        |told| == |a.verdicts.value| && forall i :: 0 <= i < |told| ==> told[i] == VerifySeen(a.verdicts.value[i])
      else told == []
  {
  }

  /** Every creation and update brings the configs of all stacks along, and no removal does. */
  ghost predicate CarriesConfigs(c: Change, configs: map<string, seq<bv8>>) {
    c.configData == if c.action == RemoveAction then map[] else configs
  }

  lemma PlanCarries(cfg: Config, a: Answers)
    requires DiffReached(a)
    ensures forall c :: c in PlanOf(cfg, a) ==> CarriesConfigs(c, a.parsed.value.configs)
  {
    PlannedBare(DiffOf(a), cfg.prune);
    DataCarried(Planned(DiffOf(a), cfg.prune), a.parsed.value.configs);
  }

  lemma DataCarried(changes: seq<Change>, configs: map<string, seq<bv8>>)
    requires forall c :: c in changes ==> c.configData == map[]
    ensures forall c :: c in DataAttached(changes, configs) ==> CarriesConfigs(c, configs)
  {
    assert forall i :: 0 <= i < |changes| ==> changes[i] in changes;
  }

  lemma GatedCarries(cfg: Config, a: Answers, memory: Memory)
    ensures var gated := CycleRun(cfg, a, memory).gated;
      gated != [] ==> a.parsed.Some? && forall c :: c in gated ==> CarriesConfigs(c, a.parsed.value.configs)
  {
    GatedExactly(cfg, a, memory);
    if CycleRun(cfg, a, memory).gated != [] {
      PlanCarries(cfg, a);
      GatedIsSafe(PlanOf(cfg, a), a.verdicts.value);
    }
  }
}
