/** The outer loop (run in internal/loop/loop.go) over the real cycle, cluster and recorder. */
module Daemon {
  import opened Apply
  import opened Cluster
  import opened Diff
  import opened Drift
  import opened Loop
  import opened Mutation
  import opened Reconcile
  import opened Repair
  import opened Run
  import opened Spec
  import opened Store
  import opened Trace

  /**
   What the surroundings bring to one turn of the loop: the cycle's world and the jitter drawn;
   the wakes requested and whether the context is cancelled before the loop waits; and whether
   the cancellation wins when both are ready.
   */
  datatype Turn = Turn(runId: string, world: World, rand: real, requests: nat, cancels: bool, halts: bool)

  /** The store, what a snapshot shows of it, and the networks and configs beside it. */
  datatype Scene = Scene(store: Stored, shown: Services, objects: Objects)

  /** The cycle took the cluster from before to after, one change at a time. */
  ghost predicate Moved(c: Cycled, before: Scene, after: Scene) {
    && (c.answers.observed.Some? ==> c.answers.observed.value == before.shown)
    && ObjectsGrow(before.objects, after.objects, c.Outcome().gated)
    && exists r: Course :: r.oks == c.answers.oks && Runs(c.Outcome().gated, r)
                           && Spans(r, before.shown, before.store, after.shown, after.store)
  }

  ghost predicate MovedAt(cycles: seq<Cycled>, history: seq<Scene>, k: nat)
    requires k < |cycles| && |history| == |cycles| + 1
  {
    Moved(cycles[k], history[k], history[k + 1])
  }

  ghost predicate AllMoved(cycles: seq<Cycled>, history: seq<Scene>) {
    |history| == |cycles| + 1 && forall k :: 0 <= k < |cycles| ==> MovedAt(cycles, history, k)
  }

  /** A snapshot shows managed services of the store, under their own names. */
  ghost predicate Sound(s: Scene) {
    KeyedByName(s.shown) && ShowsManaged(s.shown, s.store)
  }

  ghost predicate AllSound(history: seq<Scene>) {
    forall k :: 0 <= k < |history| ==> Sound(history[k])
  }

  function Now(history: seq<Scene>): Scene
    requires history != []
  {
    history[|history| - 1]
  }

  lemma MovedOnce(cycles: seq<Cycled>, history: seq<Scene>, c: Cycled, after: Scene)
    requires AllMoved(cycles, history) && Moved(c, Now(history), after)
    ensures AllMoved(cycles + [c], history + [after])
    ensures LogOf(cycles + [c]) == LogOf(cycles) + Stamped(c.runId, c.Outcome().Events())
  {
    assert (cycles + [c])[..|cycles|] == cycles;
    forall k | 0 <= k < |cycles| + 1 ensures MovedAt(cycles + [c], history + [after], k) {
      if k < |cycles| { assert MovedAt(cycles, history, k); }
    }
  }

  /** The cycles hand the loop's memory on, from start to end. */
  ghost predicate Remembered(cycles: seq<Cycled>, start: Memory, end: Memory) {
    if cycles == [] then end == start
    else
      var last := cycles[|cycles| - 1];
      Remembered(cycles[..|cycles| - 1], start, last.memory) && end == MemoryAfter(last.answers, last.memory, last.now)
  }

  lemma RememberedOnce(cycles: seq<Cycled>, start: Memory, c: Cycled)
    requires Remembered(cycles, start, c.memory)
    ensures Remembered(cycles + [c], start, MemoryAfter(c.answers, c.memory, c.now))
  {
    assert (cycles + [c])[..|cycles|] == cycles;
  }

  method RequestWakes(requests: nat, runner: Runner, ghost moves: seq<Move>, ghost results: seq<Result>)
    returns (ghost moves': seq<Move>)
    requires Played(moves, results, runner.View()) && runner.phase.Cycling?
    modifies runner
    ensures Played(moves', results, runner.View()) && runner.phase.Cycling? && runner.cancelled == old(runner.cancelled)
    ensures runner.View().started == old(runner.View().started)
    ensures runner.View().requested == old(runner.View().requested) + requests
  {
    moves' := moves;
    for i := 0 to requests
      invariant Played(moves', results, runner.View()) && runner.phase.Cycling? && runner.cancelled == old(runner.cancelled)
      invariant runner.View().started == old(runner.View().started)
      invariant runner.View().requested == old(runner.View().requested) + i
    {
      PlayedNext(moves', results, runner.View(), RequestWake);
      runner.Request();
      moves' := moves' + [RequestWake];
    }
  }

  /** Everything between the end of one cycle and the start of the next. */
  method Wait(t: Turn, err: Result, runner: Runner, ghost moves: seq<Move>, ghost results: seq<Result>)
    returns (ghost moves': seq<Move>)
    requires Played(moves, results, runner.View()) && runner.phase.Cycling? && 0.0 <= t.rand < 1.0
    modifies runner, runner.backoff
    ensures Played(moves', results + [err], runner.View()) && WaitsOn(runner.View())
    ensures runner.cancelled == (old(runner.cancelled) || t.cancels)
    ensures runner.View().started == old(runner.View().started) + if runner.phase.Cycling? then 1 else 0
    ensures runner.View().requested == old(runner.View().requested) + t.requests
  {
    moves' := RequestWakes(t.requests, runner, moves, results);
    moves' := EndCycle(t, err, runner, moves', results);
    moves' := Resume(t, runner, moves', results + [err]);
  }

  /** The next cycle is running, or there is none: the loop has stopped, or no wake is there to be received. */
  predicate WaitsOn(s: State) {
    s.phase.Cycling? || s.phase.Stopped? || (s.phase.AwaitingWake? && !s.slot)
  }

  /** Whether the context is cancelled by now, and the end of the cycle. */
  method EndCycle(t: Turn, err: Result, runner: Runner, ghost moves: seq<Move>, ghost results: seq<Result>)
    returns (ghost moves': seq<Move>)
    requires Played(moves, results, runner.View()) && runner.phase.Cycling? && 0.0 <= t.rand < 1.0
    modifies runner, runner.backoff
    ensures Played(moves', results + [err], runner.View()) && !runner.phase.Cycling?
    ensures runner.cancelled == (old(runner.cancelled) || t.cancels)
    ensures runner.View().started == old(runner.View().started)
    ensures runner.View().requested == old(runner.View().requested)
  {
    moves' := moves;
    if t.cancels {
      PlayedNext(moves', results, runner.View(), Cancel);
      runner.RequestCancel();
      moves' := moves' + [Cancel];
    }
    PlayedNext(moves', results, runner.View(), CycleEnds(err, t.rand));
    runner.FinishCycle(err, t.rand);
    moves' := moves' + [CycleEnds(err, t.rand)];
  }

  /** The two selects: on cancellation, and on the backoff timer or the wake channel. */
  method Resume(t: Turn, runner: Runner, ghost moves: seq<Move>, ghost results: seq<Result>)
    returns (ghost moves': seq<Move>)
    requires Played(moves, results, runner.View()) && !runner.phase.Cycling?
    modifies runner
    ensures Played(moves', results, runner.View()) && WaitsOn(runner.View()) && runner.cancelled == old(runner.cancelled)
    ensures runner.View().started == old(runner.View().started) + if runner.phase.Cycling? then 1 else 0
    ensures runner.View().requested == old(runner.View().requested)
  {
    moves' := moves;
    if runner.phase.Stopped? {
      return;
    }
    if runner.cancelled && t.halts {
      PlayedNext(moves', results, runner.View(), Stop);
      runner.Halt();
      moves' := moves' + [Stop];
    } else if runner.phase.BackingOff? {
      PlayedNext(moves', results, runner.View(), BackoffElapses);
      runner.Retry();
      moves' := moves' + [BackoffElapses];
    } else if runner.slot {
      PlayedNext(moves', results, runner.View(), ReceiveWake);
      runner.Receive();
      moves' := moves' + [ReceiveWake];
    }
  }

  ghost function SceneOf(cluster: Cluster): Scene
    reads cluster
  {
    Scene(cluster.services, cluster.Observed(), cluster.Held())
  }

  lemma SceneSound(cluster: Cluster)
    requires cluster.Valid()
    ensures Sound(SceneOf(cluster))
  {
    cluster.ObservedNames();
    cluster.ObservedManaged();
  }

  /** Nothing has run yet. */
  lemma RanNothing(turns: seq<Turn>, cfg: Config, start: Scene, memory: Memory)
    requires Sound(start)
    ensures Ran(turns, cfg, start, memory, [], [start], start, memory)
  {
  }

  method CycleOnce(t: Turn, cfg: Config, st: CycleState, cluster: Cluster, rec: Recorder, ghost before: Scene)
    returns (err: Result, ghost c: Cycled, ghost after: Scene)
    requires cluster.Valid() && before == SceneOf(cluster)
    modifies st, cluster`services, cluster`networks, cluster`configs, rec
    ensures cluster.Valid() && after == SceneOf(cluster) && Moved(c, before, after) && Sound(after)
    ensures FollowsAt(c, t, cfg) && err == c.Outcome().result
    ensures rec.log == old(rec.log) + Stamped(c.runId, c.Outcome().Events())
    ensures c.memory == old(st.View()) && st.View() == MemoryAfter(c.answers, c.memory, c.now)
  {
    ghost var memory := st.View();
    ghost var r, o;
    err, r, o := Cycle(t.runId, cfg, t.world, st, cluster, rec, before.shown);
    c := Cycled(t.runId, cfg, AnswersOf(t.world, before.shown, r.oks), memory, t.world.now);
    after := SceneOf(cluster);
    SceneSound(cluster);
  }

  ghost predicate FollowsAt(c: Cycled, t: Turn, cfg: Config) {
    && c.runId == t.runId && c.cfg == cfg && c.now == t.world.now
    && c.answers == AnswersOf(t.world, if c.answers.observed.Some? then c.answers.observed.value else map[], c.answers.oks)
  }

  /** The cycles follow the turns. */
  ghost predicate Follows(cycles: seq<Cycled>, turns: seq<Turn>, cfg: Config) {
    |cycles| <= |turns| && forall i :: 0 <= i < |cycles| ==> FollowsAt(cycles[i], turns[i], cfg)
  }

  /** The run so far: cycles that follow the turns and led from the start to now, handing the memory on. */
  ghost predicate Ran(turns: seq<Turn>, cfg: Config, start: Scene, first: Memory, cycles: seq<Cycled>,
                      history: seq<Scene>, now: Scene, memory: Memory) {
    && Follows(cycles, turns, cfg) && AllMoved(cycles, history) && AllSound(history)
    && history[0] == start && Now(history) == now && Remembered(cycles, first, memory)
  }

  lemma FollowsOnce(turns: seq<Turn>, cfg: Config, cycles: seq<Cycled>, c: Cycled)
    requires Follows(cycles, turns, cfg) && |cycles| < |turns| && FollowsAt(c, turns[|cycles|], cfg)
    ensures Follows(cycles + [c], turns, cfg)
  {
  }

  lemma SoundOnce(history: seq<Scene>, after: Scene)
    requires AllSound(history) && Sound(after)
    ensures AllSound(history + [after])
  {
  }

  lemma RanOnce(turns: seq<Turn>, cfg: Config, start: Scene, first: Memory, cycles: seq<Cycled>, history: seq<Scene>,
                now: Scene, c: Cycled, after: Scene)
    requires Ran(turns, cfg, start, first, cycles, history, now, c.memory)
    requires |cycles| < |turns| && FollowsAt(c, turns[|cycles|], cfg) && Moved(c, now, after) && Sound(after)
    ensures Ran(turns, cfg, start, first, cycles + [c], history + [after], after, MemoryAfter(c.answers, c.memory, c.now))
  {
    FollowsOnce(turns, cfg, cycles, c);
    SoundOnce(history, after);
    MovedOnce(cycles, history, c, after);
    RememberedOnce(cycles, first, c);
  }

  lemma ResultsOneMore(cycles: seq<Cycled>, c: Cycled)
    ensures Results(cycles + [c]) == Results(cycles) + [c.Outcome().result]
  {
  }

  lemma LogOneMore(log: seq<Record>, cycles: seq<Cycled>, c: Cycled)
    ensures log + LogOf(cycles + [c]) == log + LogOf(cycles) + Stamped(c.runId, c.Outcome().Events())
  {
    assert (cycles + [c])[..|cycles|] == cycles;
  }

  /** What each cycle returned. */
  ghost function Results(cycles: seq<Cycled>): seq<Result> {
    seq(|cycles|, i requires 0 <= i < |cycles| => cycles[i].Outcome().result)
  }

  /** The outer loop has gone through as many cycles as were run, with their results, and was cancelled when a turn said so. */
  ghost predicate InStep(turns: seq<Turn>, cycles: seq<Cycled>, moves: seq<Move>, s: State) {
    && Played(moves, Results(cycles), s) && WaitsOn(s) && |cycles| <= |turns|
    && s.started == |cycles| + (if s.phase.Cycling? then 1 else 0)
    && (s.cancelled <==> exists t :: t in turns[..|cycles|] && t.cancels)
  }

  lemma NothingInStep(turns: seq<Turn>)
    ensures InStep(turns, [], [], START)
  {
  }

  method WaitInStep(turns: seq<Turn>, i: nat, err: Result, runner: Runner, ghost before: seq<Cycled>,
                    ghost cycles: seq<Cycled>, ghost moves: seq<Move>)
    returns (ghost moves': seq<Move>)
    requires i == |before| < |turns| && |cycles| == i + 1 && Results(cycles) == Results(before) + [err]
    requires InStep(turns, before, moves, runner.View()) && runner.phase.Cycling? && 0.0 <= turns[i].rand < 1.0
    modifies runner, runner.backoff
    ensures InStep(turns, cycles, moves', runner.View())
  {
    moves' := Wait(turns[i], err, runner, moves, Results(before));
    TurnsNext(turns, i);
  }

  lemma TurnsNext(turns: seq<Turn>, i: nat)
    requires i < |turns|
    ensures (exists t :: t in turns[..i + 1] && t.cancels) <==> (exists t :: t in turns[..i] && t.cancels) || turns[i].cancels
  {
    assert turns[..i + 1] == turns[..i] + [turns[i]];
  }

  /** Extends the run so far by the next turn's cycle. */
  method NextCycle(turns: seq<Turn>, i: nat, cfg: Config, st: CycleState, cluster: Cluster, rec: Recorder,
                   ghost start: Scene, ghost first: Memory, ghost log: seq<Record>, ghost cycles: seq<Cycled>,
                   ghost history: seq<Scene>)
    returns (err: Result, ghost cycles': seq<Cycled>, ghost history': seq<Scene>)
    requires cluster.Valid() && i == |cycles| < |turns| && rec.log == log + LogOf(cycles)
    requires Ran(turns, cfg, start, first, cycles, history, SceneOf(cluster), st.View())
    modifies st, cluster`services, cluster`networks, cluster`configs, rec
    ensures cluster.Valid() && |cycles'| == i + 1 && rec.log == log + LogOf(cycles')
    ensures Ran(turns, cfg, start, first, cycles', history', SceneOf(cluster), st.View())
    ensures Results(cycles') == Results(cycles) + [err]
  {
    ghost var c, now;
    err, c, now := CycleOnce(turns[i], cfg, st, cluster, rec, SceneOf(cluster));
    RanOnce(turns, cfg, start, first, cycles, history, Now(history), c, now);
    LogOneMore(log, cycles, c);
    ResultsOneMore(cycles, c);
    cycles', history' := cycles + [c], history + [now];
  }

  /** The next cycle, and what comes between it and the one after it. */
  method TakeTurn(turns: seq<Turn>, i: nat, cfg: Config, st: CycleState, cluster: Cluster, rec: Recorder, runner: Runner,
                  ghost start: Scene, ghost first: Memory, ghost log: seq<Record>, ghost cycles: seq<Cycled>,
                  ghost history: seq<Scene>, ghost moves: seq<Move>)
    returns (ghost cycles': seq<Cycled>, ghost history': seq<Scene>, ghost moves': seq<Move>)
    requires cluster.Valid() && i == |cycles| < |turns| && rec.log == log + LogOf(cycles)
    requires Ran(turns, cfg, start, first, cycles, history, SceneOf(cluster), st.View())
    requires InStep(turns, cycles, moves, runner.View()) && runner.phase.Cycling? && 0.0 <= turns[i].rand < 1.0
    modifies st, cluster`services, cluster`networks, cluster`configs, rec, runner, runner.backoff
    ensures cluster.Valid() && |cycles'| == i + 1 && rec.log == log + LogOf(cycles')
    ensures Ran(turns, cfg, start, first, cycles', history', SceneOf(cluster), st.View())
    ensures InStep(turns, cycles', moves', runner.View())
  {
    var err;
    err, cycles', history' := NextCycle(turns, i, cfg, st, cluster, rec, start, first, log, cycles, history);
    moves' := WaitInStep(turns, i, err, runner, cycles, cycles', moves);
  }

  /**
   Runs one cycle after another until cancelled, left without a wake, or out of turns.  The
   recorder gains exactly the cycles' traces, one after the other; the moves made are a history
   of the state machine in which the cycles end with the results they returned; the cycles hand
   the loop's memory on; and services without the managed label, existing networks and existing configs stay as they are.
   */
  method RunLoop(turns: seq<Turn>, cfg: Config, st: CycleState, cluster: Cluster, rec: Recorder, runner: Runner,
                 ghost start: Scene)
    returns (ghost cycles: seq<Cycled>, ghost history: seq<Scene>, ghost moves: seq<Move>)
    requires cluster.Valid() && runner.View() == START && start == SceneOf(cluster)
    requires forall i :: 0 <= i < |turns| ==> 0.0 <= turns[i].rand < 1.0
    modifies st, cluster`services, cluster`networks, cluster`configs, rec, runner, runner.backoff
    ensures cluster.Valid() && Ran(turns, cfg, start, old(st.View()), cycles, history, SceneOf(cluster), st.View())
    ensures InStep(turns, cycles, moves, runner.View())
    ensures rec.log == old(rec.log) + LogOf(cycles)
    ensures runner.phase.Cycling? ==> |cycles| == |turns|
    ensures (forall t :: t in turns ==> KeyedWorld(t.world)) ==> KeepsUnmanaged(start.store, cluster.services)
    ensures ObjectsGrow(start.objects, cluster.Held(), GatedBy(cycles))
  {
    SceneSound(cluster);
    RanNothing(turns, cfg, start, st.View());
    NothingInStep(turns);
    cycles, history, moves := [], [start], [];
    var i := 0;
    while i < |turns| && runner.phase.Cycling?
      invariant i == |cycles| <= |turns| && cluster.Valid() && InStep(turns, cycles, moves, runner.View())
      invariant Ran(turns, cfg, start, old(st.View()), cycles, history, SceneOf(cluster), st.View())
      invariant rec.log == old(rec.log) + LogOf(cycles)
      decreases |turns| - i
    {
      cycles, history, moves :=
        TakeTurn(turns, i, cfg, st, cluster, rec, runner, start, old(st.View()), old(rec.log), cycles, history, moves);
      i := i + 1;
    }
    RunKeeps(turns, cfg, cycles, history);
  }

  // ---- What a run keeps ----

  lemma RunKeeps(turns: seq<Turn>, cfg: Config, cycles: seq<Cycled>, history: seq<Scene>)
    requires Follows(cycles, turns, cfg) && AllMoved(cycles, history) && AllSound(history)
    ensures ObjectsGrow(history[0].objects, Now(history).objects, GatedBy(cycles))
    ensures (forall t :: t in turns ==> KeyedWorld(t.world)) ==> KeepsUnmanaged(history[0].store, Now(history).store)
  {
    RunGrowsObjects(cycles, history, |cycles|);
    assert cycles[..|cycles|] == cycles;
    if forall t :: t in turns ==> KeyedWorld(t.world) {
      TurnsKeyed(turns, cycles, cfg);
      RunKeepsOthers(cycles, history, |cycles|);
    }
  }

  /** The changes that reached the applier, over all cycles. */
  ghost function GatedBy(cycles: seq<Cycled>): seq<Change> {
    if cycles == [] then [] else GatedBy(cycles[..|cycles| - 1]) + cycles[|cycles| - 1].Outcome().gated
  }

  /** A run leaves existing networks and configs alone, and adds only what some change wanted. */
  lemma {:induction false} RunGrowsObjects(cycles: seq<Cycled>, history: seq<Scene>, k: nat)
    requires AllMoved(cycles, history) && k <= |cycles|
    ensures ObjectsGrow(history[0].objects, history[k].objects, GatedBy(cycles[..k]))
  {
    if k == 0 {
      ObjectsStay(history[0].objects, []);
    } else {
      RunGrowsObjects(cycles, history, k - 1);
      assert MovedAt(cycles, history, k - 1);
      assert cycles[..k][..k - 1] == cycles[..k - 1];
      ObjectsGrowOn(history[0].objects, history[k - 1].objects, history[k].objects, GatedBy(cycles[..k - 1]),
                    cycles[k - 1].Outcome().gated);
    }
  }

  ghost predicate KeyedCycle(c: Cycled) {
    c.answers.parsed.Some? ==> KeyedByName(c.answers.parsed.value.services)
  }

  lemma TurnsKeyed(turns: seq<Turn>, cycles: seq<Cycled>, cfg: Config)
    requires Follows(cycles, turns, cfg) && forall t :: t in turns ==> KeyedWorld(t.world)
    ensures forall k :: 0 <= k < |cycles| ==> KeyedCycle(cycles[k])
  {
    forall k | 0 <= k < |cycles| ensures KeyedCycle(cycles[k]) {
      assert FollowsAt(cycles[k], turns[k], cfg) && turns[k] in turns;
    }
  }

  /** Services without the managed label survive any run unchanged. */
  lemma {:induction false} RunKeepsOthers(cycles: seq<Cycled>, history: seq<Scene>, k: nat)
    requires AllMoved(cycles, history) && AllSound(history) && k <= |cycles|
    requires forall j :: 0 <= j < |cycles| ==> KeyedCycle(cycles[j])
    ensures KeepsUnmanaged(history[0].store, history[k].store)
  {
    if k > 0 {
      RunKeepsOthers(cycles, history, k - 1);
      assert MovedAt(cycles, history, k - 1);
      MovedKeepsOthers(cycles[k - 1], history[k - 1], history[k]);
      forall n | n in history[0].store && !Managed(history[0].store[n])
        ensures SameEntry(n, history[0].store, history[k].store)
      {
        assert SameEntry(n, history[0].store, history[k - 1].store);
        assert SameEntry(n, history[k - 1].store, history[k].store);
      }
    }
  }

  /**
   A desired name under which a service without the managed label is stored, be it somebody
   else's or one that a deploy label disowned, is never settled: no snapshot shows the service,
   and no cycle replaces it.
   */
  lemma UnmanagedNeverSettles(cycles: seq<Cycled>, history: seq<Scene>, desired: Services, j: nat, n: string)
    requires AllMoved(cycles, history) && AllSound(history) && j < |history|
    requires forall k :: 0 <= k < |cycles| ==> KeyedCycle(cycles[k])
    requires n in history[0].store && !Managed(history[0].store[n]) && n in desired
    ensures SameEntry(n, history[0].store, history[j].store) && Diverges(n, desired, history[j].shown)
  {
    RunKeepsOthers(cycles, history, j);
    assert Sound(history[j]);
  }

  lemma MovedKeepsOthers(c: Cycled, before: Scene, after: Scene)
    requires Moved(c, before, after) && Sound(before) && KeyedCycle(c)
    ensures KeepsUnmanaged(before.store, after.store)
  {
    var r: Course :| r.oks == c.answers.oks && Runs(c.Outcome().gated, r)
                     && Spans(r, before.shown, before.store, after.shown, after.store);
    CycleKeepsUnmanaged(c.cfg, c.answers, c.memory, r);
  }

  /** Every cycle of the run that got as far as a diff was given these desired services. */
  ghost predicate Wants(c: Cycled, desired: Services) {
    DiffReached(c.answers) ==> Resolved(c.answers) == desired && KeyedByName(c.answers.parsed.value.services)
  }

  lemma MovedShrinks(c: Cycled, desired: Services, before: Scene, after: Scene, n: string)
    requires Moved(c, before, after) && Wants(c, desired) && Sound(before) && Diverges(n, desired, after.shown)
    ensures Diverges(n, desired, before.shown)
  {
    var r: Course :| r.oks == c.answers.oks && Runs(c.Outcome().gated, r)
                     && Spans(r, before.shown, before.store, after.shown, after.store);
    if DiffReached(c.answers) {
      CycleNeverAddsDivergence(c.cfg, c.answers, c.memory, r.states, n);
    } else {
      assert c.Outcome().gated == [];
    }
  }

  /**
   Over a whole run towards fixed desired services, whatever fails, is rejected or is retried,
   a name that agrees with its desired spec never starts to diverge.
   */
  lemma {:induction false} RunOnlyConverges(cycles: seq<Cycled>, history: seq<Scene>, desired: Services,
                                            i: nat, j: nat, n: string)
    requires AllMoved(cycles, history) && AllSound(history) && i <= j < |history|
    requires forall k :: 0 <= k < |cycles| ==> Wants(cycles[k], desired)
    requires Diverges(n, desired, history[j].shown)
    ensures Diverges(n, desired, history[i].shown)
    decreases j
  {
    if i < j {
      assert MovedAt(cycles, history, j - 1);
      MovedShrinks(cycles[j - 1], desired, history[j - 1], history[j], n);
      RunOnlyConverges(cycles, history, desired, i, j - 1, n);
    }
  }

  /**
   A cycle in which a stage fails before anything is applied leaves the cluster alone, and unless
   the run is cancelled the loop starts the next one by itself, after at most 60 s.
   */
  lemma FailedStageIsRetried(c: Cycled, before: Scene, after: Scene, s: State, n: nat, rand: real, moves: seq<Move>, s': State)
    requires Moved(c, before, after) && StageFails(c.answers)
    requires Reached(s, n) && Enabled(s, CycleEnds(c.Outcome().result, rand)) && !s.cancelled
    requires Leads(Run.Next(s, CycleEnds(c.Outcome().result, rand)), moves, s') && OnlyRequests(moves)
    ensures after == before
    ensures OnlyMove(s', BackoffElapses) && s'.phase.BackingOff? && s'.phase.delay <= 60_000_000_000
    ensures Run.Next(s', BackoffElapses).phase == Cycling
  {
    ResultExactly(c.cfg, c.answers, c.memory);
    PreApplyIsRetried(s, n, c.Outcome().result, rand, moves, s');
    NothingGated(c, before, after);
  }

  lemma NothingGated(c: Cycled, before: Scene, after: Scene)
    requires Moved(c, before, after) && c.Outcome().gated == []
    ensures after == before
  {
    var r: Course :| r.oks == c.answers.oks && Runs(c.Outcome().gated, r)
                     && Spans(r, before.shown, before.store, after.shown, after.store);
    NothingAsked(before.objects, after.objects);
  }

  // ---- What retrying achieves ----

  /** The cycle's final change of n went through, and was a removal or brought a spec that settles. */
  ghost predicate SettledIn(c: Cycled, n: string) {
    NameSettles(c.Outcome().gated, c.answers.oks, n)
  }

  lemma MovedLeavesExactly(c: Cycled, desired: Services, before: Scene, after: Scene, n: string)
    requires Moved(c, before, after) && Wants(c, desired) && Sound(before) && Diverges(n, desired, before.shown)
    ensures !Diverges(n, desired, after.shown) <==> SettledIn(c, n)
  {
    var r: Course :| r.oks == c.answers.oks && Runs(c.Outcome().gated, r)
                     && Spans(r, before.shown, before.store, after.shown, after.store);
    if DiffReached(c.answers) {
      CycleLeavesExactly(c.cfg, c.answers, c.memory, r.states, n);
    } else {
      assert c.Outcome().gated == [];
    }
  }

  ghost predicate SettledBefore(cycles: seq<Cycled>, j: nat, n: string)
    requires j <= |cycles|
  {
    exists k :: 0 <= k < j && SettledIn(cycles[k], n)
  }

  lemma SettledOneMore(cycles: seq<Cycled>, j: nat, n: string)
    requires j < |cycles|
    ensures SettledBefore(cycles, j + 1, n) <==> SettledBefore(cycles, j, n) || SettledIn(cycles[j], n)
  {
  }

  /** One cycle of the run: a name is out of the diff after it when it was before, or when the cycle settles it. */
  lemma CycleInRunLeaves(cycles: seq<Cycled>, history: seq<Scene>, desired: Services, k: nat, n: string)
    requires AllMoved(cycles, history) && AllSound(history) && k < |cycles| && Wants(cycles[k], desired)
    ensures Diverges(n, desired, history[k].shown) ==> (!Diverges(n, desired, history[k + 1].shown) <==> SettledIn(cycles[k], n))
    ensures !Diverges(n, desired, history[k].shown) ==> !Diverges(n, desired, history[k + 1].shown)
  {
    assert MovedAt(cycles, history, k);
    if Diverges(n, desired, history[k].shown) {
      MovedLeavesExactly(cycles[k], desired, history[k], history[k + 1], n);
    } else if Diverges(n, desired, history[k + 1].shown) {
      MovedShrinks(cycles[k], desired, history[k], history[k + 1], n);
    }
  }

  /**
   Towards fixed desired services, whatever failed or was rejected in between, a name that
   diverged at the start has left the diff for good exactly when some cycle has settled it.
   */
  lemma {:induction false} RunLeavesExactly(cycles: seq<Cycled>, history: seq<Scene>, desired: Services, j: nat, n: string)
    requires AllMoved(cycles, history) && AllSound(history) && j < |history|
    requires forall k :: 0 <= k < |cycles| ==> Wants(cycles[k], desired)
    requires Diverges(n, desired, history[0].shown)
    ensures !Diverges(n, desired, history[j].shown) <==> SettledBefore(cycles, j, n)
  {
    if j > 0 {
      RunLeavesExactly(cycles, history, desired, j - 1, n);
      CycleInRunLeaves(cycles, history, desired, j - 1, n);
      SettledOneMore(cycles, j - 1, n);
    }
  }

  /**
   Retrying reaches the desired state: at any point of the run the diff is empty if and only if
   every name that diverged at the start has been settled by some cycle before.
   */
  lemma RetryingEndsExactly(cycles: seq<Cycled>, history: seq<Scene>, desired: Services, j: nat)
    requires AllMoved(cycles, history) && AllSound(history) && j < |history| && KeyedByName(desired)
    requires forall k :: 0 <= k < |cycles| ==> Wants(cycles[k], desired)
    ensures Computed(desired, history[j].shown).Empty()
       <==> forall n :: Diverges(n, desired, history[0].shown) ==> SettledBefore(cycles, j, n)
  {
    forall n ensures Diverges(n, desired, history[j].shown)
                <==> Diverges(n, desired, history[0].shown) && !SettledBefore(cycles, j, n)
    {
      if Diverges(n, desired, history[0].shown) {
        RunLeavesExactly(cycles, history, desired, j, n);
      } else if Diverges(n, desired, history[j].shown) {
        RunOnlyConverges(cycles, history, desired, 0, j, n);
      }
    }
    assert Sound(history[j]);
    ComputeClassifies(desired, history[j].shown);
    EmptyMeansNoDivergence(Computed(desired, history[j].shown), desired, history[j].shown);
  }

  /** The service wants other attachments than it has, and differs in something else too. */
  ghost predicate WantsMixedUpdate(s: Scene, desired: Services, n: string) {
    && n in desired && n in s.shown && n in s.store
    && DiffersElsewhere(desired[n], s.shown[n]) && !AttachmentsUnchanged(s.store[n], desired[n])
  }

  lemma MovedRefuses(c: Cycled, desired: Services, before: Scene, after: Scene, n: string)
    requires Moved(c, before, after) && Wants(c, desired) && Sound(before) && WantsMixedUpdate(before, desired, n)
    ensures SameEntry(n, before.store, after.store) && SameAt(n, before.shown, after.shown)
  {
    var r: Course :| r.oks == c.answers.oks && Runs(c.Outcome().gated, r)
                     && Spans(r, before.shown, before.store, after.shown, after.store);
    if DiffReached(c.answers) {
      CycleRefusesMixedUpdate(c.cfg, c.answers, c.memory, r, n);
    } else {
      assert c.Outcome().gated == [];
    }
  }

  /**
   A mixed update is planned and refused on every cycle of every run: towards fixed desired
   services, the service stays exactly as it was, and goes on diverging.
   */
  lemma {:induction false} MixedUpdateNeverLands(cycles: seq<Cycled>, history: seq<Scene>, desired: Services,
                                                 j: nat, n: string)
    requires AllMoved(cycles, history) && AllSound(history) && j < |history|
    requires forall k :: 0 <= k < |cycles| ==> Wants(cycles[k], desired)
    requires WantsMixedUpdate(history[0], desired, n)
    ensures SameEntry(n, history[0].store, history[j].store) && SameAt(n, history[0].shown, history[j].shown)
    ensures WantsMixedUpdate(history[j], desired, n) && Diverges(n, desired, history[j].shown)
  {
    if j > 0 {
      MixedUpdateNeverLands(cycles, history, desired, j - 1, n);
      assert MovedAt(cycles, history, j - 1);
      MovedRefuses(cycles[j - 1], desired, history[j - 1], history[j], n);
    }
    NoChangedFields(desired[n], history[j].shown[n]);
  }

  lemma DriftInCycle(c: Cycled, desired: Services, before: Scene, after: Scene, e: DriftEvent)
    requires Moved(c, before, after) && Sound(before) && Wants(c, desired) && DriftSeen(e) in c.Outcome().Events()
    ensures Diverges(e.service, desired, before.shown)
  {
    DriftComesFromDiff(c.cfg, c.answers, c.memory, e);
    DriftNamesDivergence(c.cfg, c.answers, c.memory, e);
  }

  /**
   With nobody else at work on the cluster and the desired services fixed, every reported drift
   names a service that has diverged since the start: it is a deployment not yet finished.
   */
  lemma DriftIsUnfinished(cycles: seq<Cycled>, history: seq<Scene>, desired: Services, i: nat, k: nat, e: DriftEvent)
    requires AllMoved(cycles, history) && AllSound(history) && i <= k < |cycles|
    requires forall j :: 0 <= j < |cycles| ==> Wants(cycles[j], desired)
    requires DriftSeen(e) in cycles[k].Outcome().Events()
    ensures Diverges(e.service, desired, history[i].shown)
  {
    assert MovedAt(cycles, history, k);
    DriftInCycle(cycles[k], desired, history[k], history[k + 1], e);
    RunOnlyConverges(cycles, history, desired, i, k, e.service);
  }
}
