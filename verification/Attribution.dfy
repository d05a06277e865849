/**
 The drifts that cycles and whole runs report are those of the interleaving machine, hints
 arriving at any moment (internal/loop/loop.go, internal/loop/drift.go).
 */
module Attribution {
  import opened Basics
  import opened Daemon
  import opened Diff
  import opened Drift
  import opened DriftHistory
  import opened Loop
  import opened Repair
  import Trace

  // ---- The drifts of a trace ----

  ghost function DriftsOfTrace(events: seq<Trace.Event>): seq<DriftEvent> {
    if events == [] then []
    else DriftsOfTrace(events[..|events| - 1])
         + if events[|events| - 1].DriftSeen? then [events[|events| - 1].drift] else []
  }

  lemma {:induction false} DriftsConcat(a: seq<Trace.Event>, b: seq<Trace.Event>)
    ensures DriftsOfTrace(a + b) == DriftsOfTrace(a) + DriftsOfTrace(b)
    decreases |b|
  {
    if b == [] {
      assert a + b == a;
    } else {
      DriftsConcat(a, b[..|b| - 1]);
      assert (a + b)[..|a + b| - 1] == a + b[..|b| - 1];
    }
  }

  lemma {:induction false} NoDrifts(events: seq<Trace.Event>)
    requires forall e :: e in events ==> !e.DriftSeen?
    ensures DriftsOfTrace(events) == []
  {
    if events != [] { NoDrifts(events[..|events| - 1]); }
  }

  lemma {:induction false} AllDrifts(drifts: seq<DriftEvent>)
    ensures DriftsOfTrace(Map(drifts, Trace.DriftSeenOf)) == drifts
  {
    if drifts != [] {
      var init := drifts[..|drifts| - 1];
      AllDrifts(init);
      var events := Map(drifts, Trace.DriftSeenOf);
      assert events[..|events| - 1] == Map(init, Trace.DriftSeenOf);
    }
  }

  /** The cycle reports drift at all. */
  ghost predicate Reports(a: Trace.Answers, memory: Memory) {
    Trace.DiffReached(a) && !Trace.DiffOf(a).Empty() && SameCommit(memory, a.commit.value)
  }

  ghost function Reported(a: Trace.Answers, memory: Memory): seq<DriftEvent> {
    if Reports(a, memory)
    then DriftEvents(DriftItems(Trace.DiffOf(a)), memory.hints, memory.lastCycleStart, a.arrivals) else []
  }

  lemma RestHasNoDrifts(o: Trace.CycleOutcome)
    requires Trace.PartsTyped(o)
    ensures DriftsOfTrace(o.Rest()) == []
  {
    NoDrifts(o.Rest());
  }

  lemma PreparedDrifts(cfg: Trace.Config, a: Trace.Answers, memory: Memory)
    ensures DriftsOfTrace(Trace.CycleRun(cfg, a, memory).prepared) == Reported(a, memory)
  {
    PreparedOf(cfg, a, memory);
    EarlyTyped(a);
    if !Trace.DiffReached(a) {
      NoDriftsBelow(Trace.FailedEarly(a).prepared, 3);
    } else {
      NoDriftsBelow(Trace.DifferedEvents(a), 5);
      if !Trace.DiffOf(a).Empty() { DiffDrifts(a, memory); }
    }
  }

  lemma NoDriftsBelow(events: seq<Trace.Event>, rank: nat)
    requires Trace.Below(events, rank) && rank <= 5
    ensures DriftsOfTrace(events) == []
  {
    NoDrifts(events);
  }

  lemma DiffDrifts(a: Trace.Answers, memory: Memory)
    requires Trace.DiffReached(a) && !Trace.DiffOf(a).Empty() && DriftsOfTrace(Trace.DifferedEvents(a)) == []
    ensures DriftsOfTrace(Trace.DifferedEvents(a) + Trace.DriftsOf(a, memory)) == Reported(a, memory)
  {
    DriftsConcat(Trace.DifferedEvents(a), Trace.DriftsOf(a, memory));
    if Reports(a, memory) { AllDrifts(Reported(a, memory)); }
  }

  /** What a cycle's trace reports. */
  lemma TraceDrifts(cfg: Trace.Config, a: Trace.Answers, memory: Memory)
    ensures DriftsOfTrace(Trace.CycleRun(cfg, a, memory).Events()) == Reported(a, memory)
  {
    var o := Trace.CycleRun(cfg, a, memory);
    Trace.RunTyped(cfg, a, memory);
    DriftsConcat(o.prepared, o.Rest());
    RestHasNoDrifts(o);
    PreparedDrifts(cfg, a, memory);
  }

  /** The trace holds a drift of this service and kind. */
  ghost predicate TellsDrift(events: seq<Trace.Event>, i: Item) {
    exists e :: e in DriftsOfTrace(events) && Item(e.service, e.kind) == i
  }

  /**
   On a commit polled before, a cycle reports of every service exactly what its two sides show:
   missing, unwanted, or modified in the image, the replicas or the environment, first come first.
   */
  lemma DriftsTellExactly(cfg: Trace.Config, a: Trace.Answers, memory: Memory, i: Item)
    requires WellKeyed(a)
    ensures TellsDrift(Trace.CycleRun(cfg, a, memory).Events(), i)
       <==> Trace.DiffReached(a) && SameCommit(memory, a.commit.value) && IsDrift(i, Trace.Resolved(a), a.observed.value)
  {
    TraceDrifts(cfg, a, memory);
    if Trace.DiffReached(a) {
      var d := Trace.DiffOf(a);
      ComputeClassifies(Trace.Resolved(a), a.observed.value);
      DriftItemsExactly(d, Trace.Resolved(a), a.observed.value, i);
      EventPerItem(DriftItems(d), memory.hints, memory.lastCycleStart, a.arrivals);
      EventsTellItems(DriftItems(d), DriftEvents(DriftItems(d), memory.hints, memory.lastCycleStart, a.arrivals), i);
    }
  }

  lemma EventsTellItems(items: seq<Item>, drifts: seq<DriftEvent>, i: Item)
    requires |drifts| == |items| && forall k :: 0 <= k < |items| ==> Item(drifts[k].service, drifts[k].kind) == items[k]
    ensures i in items <==> exists e :: e in drifts && Item(e.service, e.kind) == i
  {
    if i in items {
      var k :| 0 <= k < |items| && items[k] == i;
      assert drifts[k] in drifts;
    }
  }

  // ---- One cycle ----

  lemma BeginMoves(s: System, n: nat, a: Trace.Answers, now: int, service: string) returns (s': System)
    requires Reached(s, n) && s.phase.Idle? && a.commit.Some?
    ensures Comes(s, s', n + 2, [], service, 0)
    ensures s' == System(Memory(a.commit.value, now, s.memory.hints),
                         Working(s.memory.lastCycleStart, SameCommit(s.memory, a.commit.value)), s'.log)
  {
    var begun := BeginMove(s, n, now, service);
    s' := FetchMove(begun, n + 1, a.commit.value, service);
    ComesAfter(s, begun, s', n + 1, n + 2, [], service, 0, 0);
  }

  lemma BeginMove(s: System, n: nat, now: int, service: string) returns (s': System)
    requires Reached(s, n) && s.phase.Idle?
    ensures Comes(s, s', n + 1, [], service, 0)
    ensures s' == System(s.memory.(lastCycleStart := now), Fetching(s.memory.lastCycleStart), s'.log)
  {
    StepCounts(s, BeginCycle(now), service);
    s' := Step(s, n, BeginCycle(now));
  }

  lemma FetchMove(s: System, n: nat, commit: string, service: string) returns (s': System)
    requires Reached(s, n) && s.phase.Fetching?
    ensures Comes(s, s', n + 1, [], service, 0)
    ensures s' == System(s.memory.(lastCommit := commit), Working(s.phase.since, SameCommit(s.memory, commit)), s'.log)
  {
    StepCounts(s, Fetched(commit), service);
    s' := Step(s, n, Fetched(commit));
  }

  lemma EndMoves(s: System, n: nat, result: Trace.Result, service: string) returns (s': System)
    requires Reached(s, n) && MayReturn(s.phase, result)
    ensures Comes(s, s', n + 1, [], service, 0) && s' == System(s.memory, Idle, s'.log)
  {
    StepCounts(s, EndCycle(result), service);
    s' := Step(s, n, EndCycle(result));
  }

  lemma DifferMoves(s: System, n: nat, items: seq<Item>, arrivals: Arrivals, service: string) returns (s': System, n': nat)
    requires Reached(s, n) && s.phase.Working? && (s.phase.same || items == []) && DistinctServices(items)
    ensures Comes(s, s', n', DriftEvents(items, s.memory.hints, s.phase.since, arrivals), service, ArrivalsFor(arrivals, service))
    ensures s' == System(s.memory.(hints := HintsAfter(items, s.memory.hints, arrivals)), Emitting(s.phase.since, []), s'.log)
  {
    var differed := DifferMove(s, n, items, service);
    var drifts;
    s', n', drifts := EmitAll(differed, n + 1, items, s.memory, s.phase.since, arrivals, service);
    ComesAfter(s, differed, s', n + 1, n', drifts, service, 0, ArrivalsFor(arrivals, service));
  }

  lemma EmitAll(s: System, n: nat, items: seq<Item>, memory: Memory, since: int, arrivals: Arrivals, service: string)
    returns (s': System, n': nat, drifts: seq<DriftEvent>)
    requires Reached(s, n) && s.memory == memory && s.phase == Emitting(since, items)
    ensures drifts == DriftEvents(items, memory.hints, since, arrivals)
    ensures Comes(s, s', n', drifts, service, ArrivalsFor(arrivals, service))
    ensures s' == System(memory.(hints := HintsAfter(items, memory.hints, arrivals)), Emitting(since, []), s'.log)
  {
    s', n' := EmitMoves(s, n, arrivals, service);
    drifts := DriftEvents(items, memory.hints, since, arrivals);
  }

  lemma DifferMove(s: System, n: nat, items: seq<Item>, service: string) returns (s': System)
    requires Reached(s, n) && s.phase.Working? && (s.phase.same || items == []) && DistinctServices(items)
    ensures Comes(s, s', n + 1, [], service, 0) && s' == System(s.memory, Emitting(s.phase.since, items), s'.log)
  {
    StepCounts(s, Differed(items), service);
    s' := Step(s, n, Differed(items));
  }

  /** A cycle that reports: its drifts with the hints that come in between, and its end. */
  lemma ReportMoves(s: System, n: nat, items: seq<Item>, arrivals: Arrivals, result: Trace.Result, service: string)
    returns (s': System, n': nat)
    requires Reached(s, n) && s.phase.Working? && (s.phase.same || items == []) && DistinctServices(items)
    ensures Comes(s, s', n', DriftEvents(items, s.memory.hints, s.phase.since, arrivals), service, ArrivalsFor(arrivals, service))
    ensures s' == System(s.memory.(hints := HintsAfter(items, s.memory.hints, arrivals)), Idle, s'.log)
  {
    var emitted, m := DifferMoves(s, n, items, arrivals, service);
    s', n' := ThenEnd(s, emitted, m, DriftEvents(items, s.memory.hints, s.phase.since, arrivals),
                      ArrivalsFor(arrivals, service), result, service);
  }

  lemma ThenEnd(s: System, b: System, m: nat, drifts: seq<DriftEvent>, hints: nat, result: Trace.Result, service: string)
    returns (s': System, n': nat)
    requires Comes(s, b, m, drifts, service, hints) && MayReturn(b.phase, result)
    ensures Comes(s, s', n', drifts, service, hints) && s' == System(b.memory, Idle, s'.log)
  {
    s' := EndMoves(b, m, result, service);
    n' := m + 1;
    ComesThen(s, b, s', m, n', drifts, service, hints, 0);
  }

  /** A cycle that fails before its diff. */
  lemma FailMoves(s: System, n: nat, arrivals: Arrivals, stage: string, service: string) returns (s': System, n': nat)
    requires Reached(s, n) && (s.phase.Working? || s.phase.Fetching?)
    ensures Comes(s, s', n', [], service, ArrivalsFor(arrivals, service))
    ensures s' == System(s.memory.(hints := RecordedAll(s.memory.hints, arrivals)), Idle, s'.log)
  {
    var heard, m := ArrivalMoves(s, n, arrivals, service);
    s', n' := ThenEnd(s, heard, m, [], ArrivalsFor(arrivals, service), Trace.PreApply(stage), service);
  }

  lemma EarlyResult(cfg: Trace.Config, a: Trace.Answers, memory: Memory) returns (stage: string)
    requires !Trace.DiffReached(a)
    ensures Trace.CycleRun(cfg, a, memory).result == Trace.PreApply(stage)
  {
    stage := Trace.CycleRun(cfg, a, memory).result.stage;
  }

  lemma ItemsDistinct(a: Trace.Answers)
    requires Trace.DiffReached(a) && WellKeyed(a)
    ensures DistinctServices(DriftItems(Trace.DiffOf(a)))
  {
    ComputeClassifies(Trace.Resolved(a), a.observed.value);
    DriftItemsDistinct(Trace.DiffOf(a), Trace.Resolved(a), a.observed.value);
  }

  /** From the commit on. */
  lemma PolledMoves(s: System, n: nat, cfg: Trace.Config, a: Trace.Answers, memory: Memory, service: string)
    returns (s': System, n': nat)
    requires Reached(s, n) && WellKeyed(a) && a.commit.Some? && s.memory.hints == memory.hints
    requires s.phase == Working(memory.lastCycleStart, SameCommit(memory, a.commit.value))
    ensures Comes(s, s', n', Reported(a, memory), service, ArrivalsFor(a.arrivals, service))
    ensures s' == System(s.memory.(hints := Trace.HintsLeft(a, memory)), Idle, s'.log)
  {
    var result := Trace.CycleRun(cfg, a, memory).result;
    if !Trace.DiffReached(a) {
      var stage := EarlyResult(cfg, a, memory);
      s', n' := FailMoves(s, n, a.arrivals, stage, service);
    } else {
      ItemsDistinct(a);
      var items := if Reports(a, memory) then DriftItems(Trace.DiffOf(a)) else [];
      s', n' := ReportMoves(s, n, items, a.arrivals, result, service);
    }
  }

  lemma PollFailMoves(s: System, n: nat, a: Trace.Answers, now: int, service: string) returns (s': System, n': nat)
    requires Reached(s, n) && s.phase.Idle?
    ensures Comes(s, s', n', [], service, ArrivalsFor(a.arrivals, service))
    ensures s' == System(Memory(s.memory.lastCommit, now, RecordedAll(s.memory.hints, a.arrivals)), Idle, s'.log)
  {
    var begun := BeginMove(s, n, now, service);
    s', n' := FailMoves(begun, n + 1, a.arrivals, "poll", service);
    ComesAfter(s, begun, s', n + 1, n', [], service, 0, ArrivalsFor(a.arrivals, service));
  }

  lemma CommitMoves(s: System, n: nat, cfg: Trace.Config, a: Trace.Answers, now: int, service: string)
    returns (s': System, n': nat)
    requires Reached(s, n) && s.phase.Idle? && WellKeyed(a) && a.commit.Some?
    ensures Comes(s, s', n', Reported(a, s.memory), service, ArrivalsFor(a.arrivals, service))
    ensures s' == System(Memory(a.commit.value, now, Trace.HintsLeft(a, s.memory)), Idle, s'.log)
  {
    var polled := BeginMoves(s, n, a, now, service);
    s', n' := PolledMoves(polled, n + 2, cfg, a, s.memory, service);
    ComesAfter(s, polled, s', n + 2, n', Reported(a, s.memory), service, 0, ArrivalsFor(a.arrivals, service));
  }

  /**
   A cycle, with hints coming in at any moment of it, is a sequence of the machine's moves: they
   end with the memory the cycle leaves, report what its trace reports, and hear the same hints.
   */
  lemma CycleIsMoves(s: System, n: nat, cfg: Trace.Config, a: Trace.Answers, now: int, service: string)
    returns (s': System, n': nat)
    requires Reached(s, n) && s.phase.Idle? && WellKeyed(a)
    ensures Comes(s, s', n', DriftsOfTrace(Trace.CycleRun(cfg, a, s.memory).Events()), service, ArrivalsFor(a.arrivals, service))
    ensures s' == System(Trace.MemoryAfter(a, s.memory, now), Idle, s'.log)
  {
    TraceDrifts(cfg, a, s.memory);
    if a.commit.None? {
      s', n' := PollFailMoves(s, n, a, now, service);
    } else {
      s', n' := CommitMoves(s, n, cfg, a, now, service);
    }
  }

  // ---- Whole runs ----

  ghost function EventsOf(log: seq<Record>): seq<Trace.Event> {
    seq(|log|, i requires 0 <= i < |log| => log[i].event)
  }

  /** The hints for a service that came in over all cycles. */
  ghost function HintsHeard(cycles: seq<Cycled>, service: string): nat {
    if cycles == [] then 0
    else HintsHeard(cycles[..|cycles| - 1], service) + ArrivalsFor(cycles[|cycles| - 1].answers.arrivals, service)
  }

  lemma EventsConcat(log: seq<Record>, runId: string, events: seq<Trace.Event>)
    ensures EventsOf(log + Stamped(runId, events)) == EventsOf(log) + events
  {
  }

  lemma LogDrifts(log: seq<Record>, runId: string, events: seq<Trace.Event>)
    ensures DriftsOfTrace(EventsOf(log + Stamped(runId, events)))
            == DriftsOfTrace(EventsOf(log)) + DriftsOfTrace(events)
  {
    EventsConcat(log, runId, events);
    DriftsConcat(EventsOf(log), events);
  }

  /**
   A whole run that started afresh is one history of the machine: what holds of every reachable
   history holds of the drifts in its log.
   */
  lemma {:induction false} RunIsHistory(cycles: seq<Cycled>, end: Memory, service: string) returns (s: System, n: nat)
    requires Remembered(cycles, NEW_MEMORY, end) && forall c :: c in cycles ==> WellKeyed(c.answers)
    ensures Reached(s, n) && s.phase.Idle? && s.memory == end
    ensures DriftsIn(s.log) == DriftsOfTrace(EventsOf(LogOf(cycles)))
    ensures HintCount(s.log, service) == HintsHeard(cycles, service)
    decreases |cycles|
  {
    if cycles == [] {
      s, n := START, 0;
    } else {
      var init, last := cycles[..|cycles| - 1], cycles[|cycles| - 1];
      var before, m := RunIsHistory(init, last.memory, service);
      s, n := CycleIsMoves(before, m, last.cfg, last.answers, last.now, service);
      LogDrifts(LogOf(init), last.runId, last.Outcome().Events());
    }
  }

  /** The event-origin drifts for a service. */
  ghost function FromEvents(drifts: seq<DriftEvent>, service: string): nat {
    if drifts == [] then 0
    else
      var d := drifts[|drifts| - 1];
      FromEvents(drifts[..|drifts| - 1], service) + if d.service == service && d.fromEvent then 1 else 0
  }

  lemma {:induction false} CountedInHistory(log: seq<Entry>, service: string)
    ensures FromEvents(DriftsIn(log), service) == EventDriftCount(log, service)
  {
    if log != [] {
      var init, e := log[..|log| - 1], log[|log| - 1];
      CountedInHistory(init, service);
      if e.Drifted? { CountOneMore(DriftsIn(init), e.event, service); } else { assert DriftsIn(log) == DriftsIn(init); }
    }
  }

  lemma CountOneMore(drifts: seq<DriftEvent>, d: DriftEvent, service: string)
    ensures FromEvents(drifts + [d], service)
            == FromEvents(drifts, service) + if d.service == service && d.fromEvent then 1 else 0
  {
    assert (drifts + [d])[..|drifts|] == drifts;
  }

  /** In the log of a run that started afresh, event-origin drifts for a service never outnumber the hints that came in for it. */
  lemma RunDriftsBounded(cycles: seq<Cycled>, end: Memory, service: string)
    requires Remembered(cycles, NEW_MEMORY, end) && forall c :: c in cycles ==> WellKeyed(c.answers)
    ensures FromEvents(DriftsOfTrace(EventsOf(LogOf(cycles))), service) + (if service in end.hints then 1 else 0)
            <= HintsHeard(cycles, service)
  {
    var s, n := RunIsHistory(cycles, end, service);
    EventDriftsBounded(s, n, service);
    CountedInHistory(s.log, service);
  }
}
