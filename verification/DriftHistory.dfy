/**
 Every interleaving of the loop's drift bookkeeping with hints recorded from another
 goroutine (internal/loop/drift.go), and what the resulting history guarantees.
 */
module DriftHistory {
  import opened Basics
  import opened Drift
  import Trace

  // ---- All interleavings ----

  /** What happened, in order: the history every claim below is about. */
  datatype Entry =
    | Hinted(service: string, at: int)
    | Began(now: int)
    | Polled(sha: string)
    | Diffed
    | Drifted(event: DriftEvent)
    | Ended(result: Trace.Result)

  datatype Phase =
    | Idle
    | Fetching(since: int)
    | Working(since: int, same: bool)
    | Emitting(since: int, queue: seq<Item>)

  datatype System = System(memory: Memory, phase: Phase, log: seq<Entry>)

  /** Atomic steps: hints come from the event watcher, everything else from the loop. */
  datatype Move =
    | RecordHint(service: string, at: int)
    | BeginCycle(now: int)
    | Fetched(sha: string)
    | Differed(items: seq<Item>)
    | EmitNext
    | EndCycle(result: Trace.Result)

  const START := System(NEW_MEMORY, Idle, [])

  /** What a cycle may return: an error from before the diff, anything once its drifts are out, a panic at any time. */
  ghost predicate MayReturn(phase: Phase, result: Trace.Result) {
    match phase
    case Idle => false
    case Fetching(_) => result.PreApply?
    case Working(_, _) => result.PreApply?
    case Emitting(_, queue) => queue == [] || result == Trace.PreApply("panic")
  }

  ghost predicate Enabled(s: System, move: Move) {
    match move
    case RecordHint(_, _) => true
    case BeginCycle(_) => s.phase.Idle?
    case Fetched(_) => s.phase.Fetching?
    case Differed(items) => s.phase.Working? && (s.phase.same || items == []) && DistinctServices(items)
    case EmitNext => s.phase.Emitting? && s.phase.queue != []
    case EndCycle(result) => MayReturn(s.phase, result)
  }

  ghost function Next(s: System, move: Move): System
    requires Enabled(s, move)
  {
    var m := s.memory;
    match move
    case RecordHint(service, at) =>
      System(m.(hints := m.hints[service := at]), s.phase, s.log + [Hinted(service, at)])
    case BeginCycle(now) =>
      System(m.(lastCycleStart := now), Fetching(m.lastCycleStart), s.log + [Began(now)])
    case Fetched(sha) =>
      System(m.(lastCommit := sha), Working(s.phase.since, SameCommit(m, sha)), s.log + [Polled(sha)])
    case Differed(items) =>
      System(m, Emitting(s.phase.since, items), s.log + [Diffed])
    case EmitNext =>
      var i := s.phase.queue[0];
      var e := DriftEvent(i.service, i.kind, Fresh(m.hints, i.service, s.phase.since));
      System(m.(hints := m.hints - {i.service}), Emitting(s.phase.since, s.phase.queue[1..]), s.log + [Drifted(e)])
    case EndCycle(result) =>
      System(m, Idle, s.log + [Ended(result)])
  }

  /** s is reached from the start by some interleaving of n steps. */
  ghost predicate Reached(s: System, n: nat)
    decreases n
  {
    if n == 0 then s == START
    else exists before: System, move: Move :: Reached(before, n - 1) && Enabled(before, move) && s == Next(before, move)
  }

  // ---- Reading the history ----

  /** The unconsumed hint for a service: the last entry about it, when that is a hint. */
  ghost function Pending(log: seq<Entry>, service: string): Option<int> {
    if log == [] then None
    else
      match log[|log| - 1]
      case Hinted(s, at) => if s == service then Some(at) else Pending(log[..|log| - 1], service)
      case Drifted(e) => if e.service == service then None else Pending(log[..|log| - 1], service)
      case _ => Pending(log[..|log| - 1], service)
  }

  /** When the running cycle began. */
  ghost function LastStart(log: seq<Entry>): int {
    if log == [] then ZERO_TIME
    else if log[|log| - 1].Began? then log[|log| - 1].now
    else LastStart(log[..|log| - 1])
  }

  /** When the cycle before the running one began. */
  ghost function PreviousStart(log: seq<Entry>): int {
    if log == [] then ZERO_TIME
    else if log[|log| - 1].Began? then LastStart(log[..|log| - 1])
    else PreviousStart(log[..|log| - 1])
  }

  ghost function LastPolled(log: seq<Entry>): string {
    if log == [] then ""
    else if log[|log| - 1].Polled? then log[|log| - 1].sha
    else LastPolled(log[..|log| - 1])
  }

  /** The last two polls saw the same commit. */
  ghost predicate CommitUnchanged(log: seq<Entry>) {
    if log == [] then false
    else if log[|log| - 1].Polled? then
      LastPolled(log[..|log| - 1]) != "" && LastPolled(log[..|log| - 1]) == log[|log| - 1].sha
    else CommitUnchanged(log[..|log| - 1])
  }

  /** The services reported since the running cycle began. */
  ghost function Reported(log: seq<Entry>): set<string> {
    if log == [] || log[|log| - 1].Began? then {}
    else if log[|log| - 1].Drifted? then Reported(log[..|log| - 1]) + {log[|log| - 1].event.service}
    else Reported(log[..|log| - 1])
  }

  /** Some poll has happened since the running cycle began. */
  ghost predicate PolledThisCycle(log: seq<Entry>) {
    log != [] && !log[|log| - 1].Began? && (log[|log| - 1].Polled? || PolledThisCycle(log[..|log| - 1]))
  }

  /** A report is justified by the history before it. */
  ghost predicate Justified(before: seq<Entry>, e: DriftEvent) {
    && (e.fromEvent <==> Pending(before, e.service).Some? && Pending(before, e.service).value > PreviousStart(before))
    && CommitUnchanged(before) && PolledThisCycle(before)
    && e.service !in Reported(before)
  }

  ghost predicate AllJustified(log: seq<Entry>) {
    forall p :: 0 <= p < |log| && log[p].Drifted? ==> Justified(log[..p], log[p].event)
  }

  /** The loop's memory is what the history says. */
  ghost predicate MemoryAgrees(s: System) {
    && (forall service :: Pending(s.log, service)
                          == if service in s.memory.hints then Some(s.memory.hints[service]) else None)
    && s.memory.lastCycleStart == LastStart(s.log)
    && s.memory.lastCommit == LastPolled(s.log)
    && (!s.phase.Idle? ==> s.phase.since == PreviousStart(s.log))
  }

  ghost predicate PhaseAgrees(s: System) {
    match s.phase
    case Idle => true
    case Fetching(_) => Reported(s.log) == {}
    case Working(_, same) => Reported(s.log) == {} && PolledThisCycle(s.log) && same == CommitUnchanged(s.log)
    case Emitting(_, queue) =>
      && PolledThisCycle(s.log) && DistinctServices(queue) && (queue != [] ==> CommitUnchanged(s.log))
      && forall i :: i in queue ==> i.service !in Reported(s.log)
  }

  ghost predicate Invariant(s: System) {
    AllJustified(s.log) && MemoryAgrees(s) && PhaseAgrees(s)
  }

  lemma JustifiedNext(log: seq<Entry>, e: Entry)
    requires AllJustified(log) && (e.Drifted? ==> Justified(log, e.event))
    ensures AllJustified(log + [e])
  {
    var next := log + [e];
    forall p | 0 <= p < |next| && next[p].Drifted? ensures Justified(next[..p], next[p].event) {
      if p < |log| {
        assert next[..p] == log[..p];
      } else {
        assert next[..p] == log;
      }
    }
  }

  lemma LogGrows(s: System, move: Move) returns (e: Entry)
    requires Enabled(s, move)
    ensures Next(s, move).log == s.log + [e] && Next(s, move).log[..|s.log|] == s.log
    ensures move.EmitNext? ==> e == Drifted(DriftEvent(s.phase.queue[0].service, s.phase.queue[0].kind,
                                                       Fresh(s.memory.hints, s.phase.queue[0].service, s.phase.since)))
    ensures !move.EmitNext? ==> !e.Drifted?
  {
    e := Next(s, move).log[|s.log|];
  }

  lemma MemoryKept(s: System, move: Move)
    requires MemoryAgrees(s) && Enabled(s, move)
    ensures MemoryAgrees(Next(s, move))
  {
    var e := LogGrows(s, move);
  }

  lemma PhaseKept(s: System, move: Move)
    requires MemoryAgrees(s) && PhaseAgrees(s) && Enabled(s, move)
    ensures PhaseAgrees(Next(s, move))
  {
    var e := LogGrows(s, move);
    if move.EmitNext? {
      var queue := s.phase.queue;
      assert forall j :: j in queue[1..] ==> j in queue && j.service != queue[0].service;
    }
  }

  lemma InvariantKept(s: System, move: Move)
    requires Invariant(s) && Enabled(s, move)
    ensures Invariant(Next(s, move))
  {
    var e := LogGrows(s, move);
    MemoryKept(s, move);
    PhaseKept(s, move);
    if move.EmitNext? {
      assert s.phase.queue[0] in s.phase.queue;
      assert Justified(s.log, e.event);
    }
    JustifiedNext(s.log, e);
  }

  lemma {:induction false} InvariantHolds(s: System, n: nat)
    requires Reached(s, n)
    ensures Invariant(s)
    decreases n
  {
    if n > 0 {
      var before: System, move: Move :| Reached(before, n - 1) && Enabled(before, move) && s == Next(before, move);
      InvariantHolds(before, n - 1);
      InvariantKept(before, move);
    }
  }

  /** An entry that records a hint for the service or consumes one. */
  predicate About(e: Entry, service: string) {
    (e.Hinted? && e.service == service) || (e.Drifted? && e.event.service == service)
  }

  lemma {:induction false} PendingMeaning(log: seq<Entry>, service: string) returns (q: nat)
    requires Pending(log, service).Some?
    ensures q < |log| && log[q] == Hinted(service, Pending(log, service).value)
    ensures forall r :: q < r < |log| ==> !About(log[r], service)
  {
    var last := log[|log| - 1];
    if last.Hinted? && last.service == service {
      q := |log| - 1;
    } else {
      q := PendingMeaning(log[..|log| - 1], service);
    }
  }

  /** An event-origin drift rests on the latest hint for its service: unconsumed, and newer than the previous cycle's start. */
  lemma EventDriftHasHint(s: System, n: nat, p: nat) returns (q: nat)
    requires Reached(s, n) && p < |s.log| && s.log[p].Drifted? && s.log[p].event.fromEvent
    ensures q < p && s.log[q].Hinted? && s.log[q].service == s.log[p].event.service
    ensures s.log[q].at > PreviousStart(s.log[..p])
    ensures forall r :: q < r < p ==> !About(s.log[r], s.log[p].event.service)
  {
    InvariantHolds(s, n);
    var before, service := s.log[..p], s.log[p].event.service;
    assert Justified(before, s.log[p].event);
    q := PendingMeaning(before, service);
    assert forall r :: q < r < p ==> before[r] == s.log[r];
  }

  /** A drift is reported only when the last two polls of the history saw one commit, the later one in this cycle. */
  lemma DriftNeedsUnchangedCommit(s: System, n: nat, p: nat)
    requires Reached(s, n) && p < |s.log| && s.log[p].Drifted?
    ensures CommitUnchanged(s.log[..p]) && PolledThisCycle(s.log[..p])
  {
    InvariantHolds(s, n);
    assert Justified(s.log[..p], s.log[p].event);
  }

  lemma {:induction false} ReportedSince(log: seq<Entry>, p: nat)
    requires p < |log| && log[p].Drifted? && forall r :: p < r < |log| ==> !log[r].Began?
    ensures log[p].event.service in Reported(log)
  {
    if p < |log| - 1 {
      assert log[..|log| - 1][p] == log[p];
      ReportedSince(log[..|log| - 1], p);
    }
  }

  /** Two reports for one service are always separated by the start of a cycle. */
  lemma OncePerCycle(s: System, n: nat, p: nat, q: nat)
    requires Reached(s, n) && p < q < |s.log| && s.log[p].Drifted? && s.log[q].Drifted?
    requires s.log[p].event.service == s.log[q].event.service
    ensures exists r :: p < r < q && s.log[r].Began?
  {
    InvariantHolds(s, n);
    assert Justified(s.log[..q], s.log[q].event);
    if forall r :: p < r < q ==> !s.log[r].Began? {
      assert s.log[..q][p] == s.log[p];
      ReportedSince(s.log[..q], p);
    }
  }

  // ---- The commit that drift is measured against ----

  /** The commit of the last cycle that returned no error: what lastCommit is documented to hold. */
  ghost function LastReconciled(log: seq<Entry>): string {
    if log == [] then ""
    else if log[|log| - 1] == Ended(Trace.Nil) then LastPolled(log[..|log| - 1])
    else LastReconciled(log[..|log| - 1])
  }

  /** The history before its last poll. */
  ghost function BeforePoll(log: seq<Entry>): seq<Entry> {
    if log == [] then []
    else if log[|log| - 1].Polled? then log[..|log| - 1]
    else BeforePoll(log[..|log| - 1])
  }

  /** The last cycle to poll went on to return no error. */
  ghost predicate PollSucceeded(log: seq<Entry>) {
    log != [] && !log[|log| - 1].Polled? && (log[|log| - 1] == Ended(Trace.Nil) || PollSucceeded(log[..|log| - 1]))
  }

  /** The last cycle to poll went on to return no error, or polled the commit already reconciled. */
  ghost predicate PollHarmless(log: seq<Entry>) {
    PollSucceeded(log) || LastReconciled(BeforePoll(log)) == LastPolled(log)
  }

  lemma {:induction false} ReconciledSincePoll(log: seq<Entry>)
    ensures LastReconciled(log) == if PollSucceeded(log) then LastPolled(log) else LastReconciled(BeforePoll(log))
  {
    if log != [] { ReconciledSincePoll(log[..|log| - 1]); }
  }

  /** The field holds what it is documented to hold exactly when the poll that set it was harmless. */
  lemma LastCommitExactly(s: System, n: nat)
    requires Reached(s, n)
    ensures s.memory.lastCommit == LastReconciled(s.log) <==> PollHarmless(s.log)
  {
    InvariantHolds(s, n);
    ReconciledSincePoll(s.log);
  }

  /** The running cycle has not returned yet. */
  lemma {:induction false} RunningPoll(log: seq<Entry>)
    requires PolledThisCycle(log) && CommitUnchanged(log) && NotEndedThisCycle(log)
    ensures !PollSucceeded(log) && LastPolled(BeforePoll(log)) == LastPolled(log)
  {
    if !log[|log| - 1].Polled? { RunningPoll(log[..|log| - 1]); }
  }

  ghost predicate NotEndedThisCycle(log: seq<Entry>) {
    log == [] || log[|log| - 1].Began? || (!log[|log| - 1].Ended? && NotEndedThisCycle(log[..|log| - 1]))
  }

  /** The running cycle, and every cycle at the time of its drifts, has not returned. */
  ghost predicate NotEnded(s: System) {
    && (!s.phase.Idle? ==> NotEndedThisCycle(s.log))
    && forall p :: 0 <= p < |s.log| && s.log[p].Drifted? ==> NotEndedThisCycle(s.log[..p])
  }

  lemma NotEndedKept(s: System, move: Move)
    requires NotEnded(s) && Enabled(s, move)
    ensures NotEnded(Next(s, move))
  {
    var log := Next(s, move).log;
    assert log[..|log| - 1] == s.log;
    forall p | 0 <= p < |log| && log[p].Drifted? ensures NotEndedThisCycle(log[..p]) {
      if p < |s.log| { assert log[..p] == s.log[..p]; }
    }
  }

  lemma {:induction false} NotEndedHolds(s: System, n: nat)
    requires Reached(s, n)
    ensures NotEnded(s)
    decreases n
  {
    if n > 0 {
      var before: System, move: Move :| Reached(before, n - 1) && Enabled(before, move) && s == Next(before, move);
      NotEndedHolds(before, n - 1);
      NotEndedKept(before, move);
    }
  }

  /**
   A reported drift concerns the last commit reconciled if and only if the cycle that polled
   that commit before returned no error, or itself polled a commit already reconciled.
   */
  lemma DriftConcernsReconciledExactly(s: System, n: nat, p: nat)
    requires Reached(s, n) && p < |s.log| && s.log[p].Drifted?
    ensures LastReconciled(s.log[..p]) == LastPolled(s.log[..p]) <==> PollHarmless(BeforePoll(s.log[..p]))
  {
    var before := s.log[..p];
    DriftNeedsUnchangedCommit(s, n, p);
    NotEndedHolds(s, n);
    RunningPoll(before);
    ReconciledSincePoll(before);
    ReconciledSincePoll(BeforePoll(before));
  }

  lemma Step(s: System, n: nat, move: Move) returns (s': System)
    requires Reached(s, n) && Enabled(s, move)
    ensures s' == Next(s, move) && Reached(s', n + 1)
  {
    s' := Next(s, move);
  }

  const PARSE_FAILED := Ended(Trace.PreApply("parse"))

  lemma FirstParseFails(sha: string) returns (s: System)
    ensures Reached(s, 3) && s == System(Memory(sha, 1, map[]), Idle, [Began(1), Polled(sha), PARSE_FAILED])
  {
    s := Step(START, 0, BeginCycle(1));
    s := Step(s, 1, Fetched(sha));
    s := Step(s, 2, EndCycle(Trace.PreApply("parse")));
  }

  lemma SecondPollSame(sha: string) returns (s: System)
    requires sha != ""
    ensures Reached(s, 5)
    ensures s == System(Memory(sha, 2, map[]), Working(1, true), [Began(1), Polled(sha), PARSE_FAILED, Began(2), Polled(sha)])
  {
    s := FirstParseFails(sha);
    s := Step(s, 3, BeginCycle(2));
    s := Step(s, 4, Fetched(sha));
  }

  lemma SecondFindsDifference(sha: string, item: Item) returns (s: System)
    requires sha != ""
    ensures Reached(s, 6) && s.memory == Memory(sha, 2, map[]) && s.phase == Emitting(1, [item])
    ensures s.log == [Began(1), Polled(sha), PARSE_FAILED, Began(2), Polled(sha), Diffed]
  {
    s := SecondPollSame(sha);
    s := Step(s, 5, Differed([item]));
  }

  /** Poll a commit, fail to parse it, poll it again: what it was to create or change is reported as drifted. */
  lemma DriftBeforeFirstDeployment(sha: string, item: Item) returns (s: System)
    requires sha != ""
    ensures Reached(s, 7) && |s.log| == 7 && s.log[6] == Drifted(DriftEvent(item.service, item.kind, false))
    ensures LastPolled(s.log[..6]) == sha && LastReconciled(s.log[..6]) == "" && Ended(Trace.Nil) !in s.log
  {
    s := SecondFindsDifference(sha, item);
    var before := s;
    InvariantHolds(before, 6);
    NothingReconciled(before.log);
    s := Step(s, 6, EmitNext);
    assert s.log[..6] == before.log;
  }

  lemma {:induction false} NothingReconciled(log: seq<Entry>)
    requires Ended(Trace.Nil) !in log
    ensures LastReconciled(log) == ""
  {
    if log != [] { NothingReconciled(log[..|log| - 1]); }
  }

  ghost function HintCount(log: seq<Entry>, service: string): nat {
    if log == [] then 0
    else HintCount(log[..|log| - 1], service)
         + var e := log[|log| - 1]; if e.Hinted? && e.service == service then 1 else 0
  }

  ghost function EventDriftCount(log: seq<Entry>, service: string): nat {
    if log == [] then 0
    else EventDriftCount(log[..|log| - 1], service)
         + var e := log[|log| - 1]; if e.Drifted? && e.event.service == service && e.event.fromEvent then 1 else 0
  }

  lemma {:induction false} CountsFromJustified(log: seq<Entry>, service: string)
    requires AllJustified(log)
    ensures EventDriftCount(log, service) + (if Pending(log, service).Some? then 1 else 0) <= HintCount(log, service)
  {
    if log != [] {
      var init := log[..|log| - 1];
      forall p | 0 <= p < |init| && init[p].Drifted? ensures Justified(init[..p], init[p].event) {
        assert init[..p] == log[..p] && init[p] == log[p];
      }
      CountsFromJustified(init, service);
      if log[|log| - 1].Drifted? { assert Justified(init, log[|log| - 1].event); }
    }
  }

  /** Event-origin drifts for a service never outnumber the hints recorded for it; a pending hint is still to spend. */
  lemma EventDriftsBounded(s: System, n: nat, service: string)
    requires Reached(s, n)
    ensures EventDriftCount(s.log, service) + (if service in s.memory.hints then 1 else 0) <= HintCount(s.log, service)
  {
    InvariantHolds(s, n);
    CountsFromJustified(s.log, service);
  }

  // ---- What the loop's own steps amount to ----

  /** The drifts of a history, in order. */
  ghost function DriftsIn(log: seq<Entry>): seq<DriftEvent> {
    if log == [] then []
    else DriftsIn(log[..|log| - 1]) + if log[|log| - 1].Drifted? then [log[|log| - 1].event] else []
  }

  ghost function HintsFor(hints: seq<Hint>, service: string): nat {
    if hints == [] then 0
    else HintsFor(hints[..|hints| - 1], service) + if hints[|hints| - 1].service == service then 1 else 0
  }

  ghost function ArrivalsFor(arrivals: Arrivals, service: string): nat {
    if arrivals == [] then 0 else HintsFor(arrivals[0], service) + ArrivalsFor(arrivals[1..], service)
  }

  lemma StepCounts(s: System, move: Move, service: string)
    requires Enabled(s, move)
    ensures DriftsIn(Next(s, move).log) == DriftsIn(s.log)
              + if move.EmitNext? then [DriftEvent(s.phase.queue[0].service, s.phase.queue[0].kind,
                                                   Fresh(s.memory.hints, s.phase.queue[0].service, s.phase.since))] else []
    ensures HintCount(Next(s, move).log, service) == HintCount(s.log, service)
              + if move.RecordHint? && move.service == service then 1 else 0
  {
    var e := LogGrows(s, move);
  }

  /** s' follows from s by moves of its own, with more drifts and more hints for a service in its history. */
  ghost predicate Comes(s: System, s': System, n': nat, drifts: seq<DriftEvent>, service: string, hints: nat) {
    && Reached(s', n') && DriftsIn(s'.log) == DriftsIn(s.log) + drifts
    && HintCount(s'.log, service) == HintCount(s.log, service) + hints
  }

  lemma ComesOn(a: System, b: System, c: System, n: nat, m: nat, xs: seq<DriftEvent>, ys: seq<DriftEvent>,
                service: string, x: nat, y: nat)
    requires Comes(a, b, n, xs, service, x) && Comes(b, c, m, ys, service, y)
    ensures Comes(a, c, m, xs + ys, service, x + y)
  {
  }

  /** Only the hints differ, and the history. */
  ghost predicate HoldsHints(s: System, s': System, hints: map<string, int>) {
    s' == System(s.memory.(hints := hints), s.phase, s'.log)
  }

  lemma {:induction false} RecordMoves(s: System, n: nat, more: seq<Hint>, service: string) returns (s': System, n': nat)
    requires Reached(s, n)
    ensures Comes(s, s', n', [], service, HintsFor(more, service)) && HoldsHints(s, s', Recorded(s.memory.hints, more))
    decreases |more|
  {
    if more == [] {
      s', n' := s, n;
    } else {
      var before, m := RecordMoves(s, n, more[..|more| - 1], service);
      var last := more[|more| - 1];
      s' := HearOne(before, m, last, service);
      n' := m + 1;
      ComesAfter(s, before, s', m, n', [], service, HintsFor(more[..|more| - 1], service),
                 if last.service == service then 1 else 0);
    }
  }

  lemma HearOne(s: System, n: nat, hint: Hint, service: string) returns (s': System)
    requires Reached(s, n)
    ensures Comes(s, s', n + 1, [], service, if hint.service == service then 1 else 0)
    ensures HoldsHints(s, s', s.memory.hints[hint.service := hint.at])
  {
    var move := RecordHint(hint.service, hint.at);
    StepCounts(s, move, service);
    s' := Step(s, n, move);
  }

  lemma ComesAfter(a: System, b: System, c: System, n: nat, m: nat, xs: seq<DriftEvent>, service: string, x: nat, y: nat)
    requires Comes(a, b, n, [], service, x) && Comes(b, c, m, xs, service, y)
    ensures Comes(a, c, m, xs, service, x + y)
  {
  }

  lemma ComesThen(a: System, b: System, c: System, n: nat, m: nat, xs: seq<DriftEvent>, service: string, x: nat, y: nat)
    requires Comes(a, b, n, xs, service, x) && Comes(b, c, m, [], service, y)
    ensures Comes(a, c, m, xs, service, x + y)
  {
  }

  lemma {:induction false} ArrivalMoves(s: System, n: nat, arrivals: Arrivals, service: string) returns (s': System, n': nat)
    requires Reached(s, n)
    ensures Comes(s, s', n', [], service, ArrivalsFor(arrivals, service))
    ensures HoldsHints(s, s', RecordedAll(s.memory.hints, arrivals))
    decreases |arrivals|
  {
    if arrivals == [] {
      s', n' := s, n;
    } else {
      var next, m := RecordMoves(s, n, arrivals[0], service);
      s', n' := ArrivalMoves(next, m, arrivals[1..], service);
      ComesAfter(s, next, s', m, n', [], service, HintsFor(arrivals[0], service), ArrivalsFor(arrivals[1..], service));
    }
  }

  lemma EmitOne(s: System, n: nat, more: seq<Hint>, service: string) returns (s': System, n': nat)
    requires Reached(s, n) && s.phase.Emitting? && s.phase.queue != []
    ensures var i, now := s.phase.queue[0], Recorded(s.memory.hints, more);
      && Comes(s, s', n', [DriftEvent(i.service, i.kind, Fresh(now, i.service, s.phase.since))], service,
               HintsFor(more, service))
      && s' == System(s.memory.(hints := now - {i.service}), Emitting(s.phase.since, s.phase.queue[1..]), s'.log)
  {
    var heard, m := RecordMoves(s, n, more, service);
    s' := TakeNext(heard, m, service);
    n' := m + 1;
    var i, now := s.phase.queue[0], Recorded(s.memory.hints, more);
    ComesAfter(s, heard, s', m, n', [DriftEvent(i.service, i.kind, Fresh(now, i.service, s.phase.since))], service,
            HintsFor(more, service), 0);
  }

  lemma TakeNext(s: System, n: nat, service: string) returns (s': System)
    requires Reached(s, n) && s.phase.Emitting? && s.phase.queue != []
    ensures var i := s.phase.queue[0];
      && Comes(s, s', n + 1, [DriftEvent(i.service, i.kind, Fresh(s.memory.hints, i.service, s.phase.since))], service, 0)
      && s' == System(s.memory.(hints := s.memory.hints - {i.service}), Emitting(s.phase.since, s.phase.queue[1..]), s'.log)
  {
    StepCounts(s, EmitNext, service);
    s' := Step(s, n, EmitNext);
  }

  /** Emitting with hints coming in between reports what EmitDrift reports and leaves the hints it leaves. */
  lemma {:induction false} EmitMoves(s: System, n: nat, arrivals: Arrivals, service: string) returns (s': System, n': nat)
    requires Reached(s, n) && s.phase.Emitting?
    ensures Comes(s, s', n', DriftEvents(s.phase.queue, s.memory.hints, s.phase.since, arrivals), service,
                  ArrivalsFor(arrivals, service))
    ensures s' == System(s.memory.(hints := HintsAfter(s.phase.queue, s.memory.hints, arrivals)),
                         Emitting(s.phase.since, []), s'.log)
    decreases |s.phase.queue|
  {
    if s.phase.queue == [] {
      s', n' := ArrivalMoves(s, n, arrivals, service);
    } else {
      var next, m := EmitOne(s, n, FirstOf(arrivals), service);
      s', n' := EmitMoves(next, m, LaterOf(arrivals), service);
      var i, now := s.phase.queue[0], Recorded(s.memory.hints, FirstOf(arrivals));
      ComesOn(s, next, s', m, n', [DriftEvent(i.service, i.kind, Fresh(now, i.service, s.phase.since))],
              DriftEvents(s.phase.queue[1..], now - {i.service}, s.phase.since, LaterOf(arrivals)), service,
              HintsFor(FirstOf(arrivals), service), ArrivalsFor(LaterOf(arrivals), service));
    }
  }
}
