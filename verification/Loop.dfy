/** The reconcile cycle itself (internal/loop/loop.go), driving the cluster and recording its trace. */
module Loop {
  import opened Apply
  import opened Basics
  import opened Cluster
  import opened Converge
  import opened Diff
  import opened Drift
  import opened Mutation
  import opened Ordering
  import opened Plan
  import opened Reconcile
  import opened Spec
  import opened Store
  import opened Swarm
  import opened Trace

  /** One line of telemetry. */
  datatype Record = Record(runId: string, event: Event)

  function Stamped(runId: string, events: seq<Event>): (r: seq<Record>)
    ensures |r| == |events|
  {
    seq(|events|, i requires 0 <= i < |events| => Record(runId, events[i]))
  }

  lemma StampedConcat(runId: string, a: seq<Event>, b: seq<Event>)
    ensures Stamped(runId, a + b) == Stamped(runId, a) + Stamped(runId, b)
  {
  }

  lemma LogConcat(log: seq<Record>, runId: string, a: seq<Event>, b: seq<Event>)
    ensures log + Stamped(runId, a) + Stamped(runId, b) == log + Stamped(runId, a + b)
  {
    StampedConcat(runId, a, b);
  }

  class Recorder {
    var log: seq<Record>

    constructor ()
      ensures log == []
    {
      log := [];
    }

    method Emit(runId: string, e: Event)
      modifies this
      ensures log == old(log) + Stamped(runId, [e])
    {
      log := log + [Record(runId, e)];
    }

    method EmitAll(runId: string, events: seq<Event>)
      modifies this
      ensures log == old(log) + Stamped(runId, events)
    {
      for i := 0 to |events|
        invariant log == old(log) + Stamped(runId, events[..i])
      {
        LogConcat(old(log), runId, events[..i], [events[i]]);
        assert events[..i + 1] == events[..i] + [events[i]];
        Emit(runId, events[i]);
      }
      assert events[..|events|] == events;
    }
  }

  // ---- The apply loop ----

  /** The loop's state depends only on the answers it has had. */
  lemma {:induction false} AppliedPrefix(changes: seq<Change>, oks: seq<bool>, more: seq<bool>, n: nat)
    requires n <= |changes| && n <= |oks|
    ensures Applied(changes, oks + more, n) == Applied(changes, oks, n)
  {
    if n > 0 { AppliedPrefix(changes, oks, more, n - 1); }
  }

  lemma StepBetweenPrefix(changes: seq<Change>, oks: seq<bool>, ok: bool, k: nat, before: Services, after: Services)
    requires k < |changes| && k < |oks| && StepBetween(changes, oks, k, before, after)
    ensures StepBetween(changes, oks + [ok], k, before, after)
  {
    AppliedPrefix(changes, oks, [ok], k);
  }

  lemma TouchBetweenPrefix(changes: seq<Change>, oks: seq<bool>, ok: bool, k: nat, before: Stored, after: Stored)
    requires k < |changes| && k < |oks| && TouchBetween(changes, oks, k, before, after)
    ensures TouchBetween(changes, oks + [ok], k, before, after)
  {
    AppliedPrefix(changes, oks, [ok], k);
  }

  /** The states seen so far step as the answers so far say. */
  ghost predicate SteppedSoFar(changes: seq<Change>, oks: seq<bool>, states: seq<Services>, i: nat) {
    i <= |changes| && |oks| == i && |states| == i + 1
    && forall k {:trigger StepBetween(changes, oks, k, states[k], states[k + 1])} ::
         0 <= k < i ==> StepBetween(changes, oks, k, states[k], states[k + 1])
  }

  ghost predicate TouchedSoFar(changes: seq<Change>, oks: seq<bool>, stores: seq<Stored>, i: nat) {
    i <= |changes| && |oks| == i && |stores| == i + 1
    && forall k {:trigger TouchBetween(changes, oks, k, stores[k], stores[k + 1])} ::
         0 <= k < i ==> TouchBetween(changes, oks, k, stores[k], stores[k + 1])
  }

  lemma SteppedOnce(changes: seq<Change>, oks: seq<bool>, states: seq<Services>, i: nat, ok: bool, after: Services)
    requires SteppedSoFar(changes, oks, states, i) && i < |changes|
    requires if Skips(changes[i], Applied(changes, oks, i)) then after == states[i]
             else ExactStep(changes[i], ok, states[i], after)
    ensures SteppedSoFar(changes, oks + [ok], states + [after], i + 1)
    ensures Applied(changes, oks + [ok], i + 1) == AfterChange(Applied(changes, oks, i), changes[i], ok)
  {
    AppliedPrefix(changes, oks, [ok], i);
    var oks', states' := oks + [ok], states + [after];
    forall k | 0 <= k < i + 1 ensures StepBetween(changes, oks', k, states'[k], states'[k + 1]) {
      if k < i { StepBetweenPrefix(changes, oks, ok, k, states[k], states[k + 1]); }
    }
  }

  lemma TouchedOnce(changes: seq<Change>, oks: seq<bool>, stores: seq<Stored>, i: nat, ok: bool, after: Stored)
    requires TouchedSoFar(changes, oks, stores, i) && i < |changes|
    requires if Skips(changes[i], Applied(changes, oks, i)) then after == stores[i]
             else Touches(changes[i], ok, stores[i], after)
    ensures TouchedSoFar(changes, oks + [ok], stores + [after], i + 1)
  {
    AppliedPrefix(changes, oks, [ok], i);
    var oks', stores' := oks + [ok], stores + [after];
    forall k | 0 <= k < i + 1 ensures TouchBetween(changes, oks', k, stores'[k], stores'[k + 1]) {
      if k < i { TouchBetweenPrefix(changes, oks, ok, k, stores[k], stores[k + 1]); }
    }
  }

  /** What the run so far has been through. */
  ghost predicate RunSoFar(changes: seq<Change>, r: Course, i: nat) {
    SteppedSoFar(changes, r.oks, r.states, i) && TouchedSoFar(changes, r.oks, r.stores, i)
  }

  ghost function Extend(r: Course, ok: bool, after: Services, store: Stored): Course {
    Course(r.oks + [ok], r.states + [after], r.stores + [store])
  }

  /** The run goes from one observed state and store to another. */
  ghost predicate Spans(r: Course, before: Services, store0: Stored, after: Services, store: Stored) {
    && r.states != [] && r.states[0] == before && Final(r.states) == after
    && r.stores != [] && r.stores[0] == store0 && LastStore(r.stores) == store
  }

  ghost function StandStill(observed: Services, store: Stored): Course {
    Course([], [observed], [store])
  }

  lemma RunOnce(changes: seq<Change>, r: Course, i: nat, ok: bool, after: Services, store: Stored)
    requires RunSoFar(changes, r, i) && i < |changes|
    requires if Skips(changes[i], Applied(changes, r.oks, i)) then after == r.states[i] && store == r.stores[i]
             else ExactStep(changes[i], ok, r.states[i], after) && Touches(changes[i], ok, r.stores[i], store)
    ensures RunSoFar(changes, Extend(r, ok, after, store), i + 1)
    ensures Applied(changes, r.oks + [ok], i + 1) == AfterChange(Applied(changes, r.oks, i), changes[i], ok)
  {
    SteppedOnce(changes, r.oks, r.states, i, ok, after);
    TouchedOnce(changes, r.oks, r.stores, i, ok, store);
  }

  lemma ExtendSpans(r: Course, ok: bool, after: Services, store: Stored)
    requires r.states != [] && r.stores != []
    ensures Spans(Extend(r, ok, after, store), r.states[0], r.stores[0], after, store)
  {
  }

  lemma RunDone(changes: seq<Change>, r: Course)
    requires RunSoFar(changes, r, |changes|)
    ensures Runs(changes, r)
  {
    forall i | 0 <= i < |changes| ensures StepAt(changes, r.oks, r.states, i) && TouchAt(changes, r.oks, r.stores, i) {
      assert StepBetween(changes, r.oks, i, r.states[i], r.states[i + 1]);
      assert TouchBetween(changes, r.oks, i, r.stores[i], r.stores[i + 1]);
    }
  }

  /** Records what became of a change; the cluster shows what it showed. */
  method EmitApplied(c: Change, o: Outcome, cluster: Cluster, rec: Recorder, runId: string)
    modifies rec
    ensures rec.log == old(rec.log) + Stamped(runId, [AppliedEvent(c, o)])
    ensures cluster.Observed() == old(cluster.Observed())
  {
    rec.Emit(runId, ApplySeen(c.spec.name, c.action, o));
  }

  /** Submits one change, or skips it, and records what became of it. */
  method ApplyOne(c: Change, skip: bool, budget: nat, cluster: Cluster, rec: Recorder, runId: string,
                  ghost before: Services)
    returns (o: Outcome, ghost after: Services)
    requires cluster.Valid() && before == cluster.Observed()
    modifies cluster`services, cluster`networks, cluster`configs, rec
    ensures cluster.Valid() && after == cluster.Observed()
    ensures rec.log == old(rec.log) + Stamped(runId, [AppliedEvent(c, o)])
    ensures o == Skipped <==> skip
    ensures if skip then after == before else ExactStep(c, o == Ok, before, after)
    ensures if skip then cluster.services == old(cluster.services)
            else Touches(c, o == Ok, old(cluster.services), cluster.services)
    ensures ObjectsGrow(old(cluster.Held()), cluster.Held(), [c])
  {
    if skip {
      EmitApplied(c, Skipped, cluster, rec, runId);
      ObjectsStay(cluster.Held(), [c]);
      return Skipped, before;
    }
    var ok := cluster.Apply(c, budget);
    after := cluster.Observed();
    o := if ok then Ok else Failed;
    EmitApplied(c, o, cluster, rec, runId);
  }

  method NoteOutcome(p: Progress, c: Change, o: Outcome) returns (q: Progress)
    requires o == Skipped <==> Skips(c, p)
    ensures q == AfterChange(p, c, o == Ok) && q.events == p.events + [AppliedEvent(c, o)]
  {
    q := p.(events := p.events + [AppliedEvent(c, o)]);
    if o == Skipped {
      q := q.(skipped := q.skipped + 1);
      return;
    }
    if o == Failed {
      if c.action == RemoveAction && c.recreate {
        q := q.(failedRecreates := q.failedRecreates + {c.spec.name});
      }
      q := q.(pending := q.pending + [c.spec.name]);
      return;
    }
    if c.recreate {
      q := q.(applied := q.applied + [c.spec.name + ":" + ActionName(c.action)]);
    } else {
      q := q.(applied := q.applied + [c.spec.name]);
    }
    q := q.(services := q.services + {c.spec.name});
  }

  /** One turn of the loop over the changes. */
  method ApplyNext(changes: seq<Change>, i: nat, budget: nat, cluster: Cluster, rec: Recorder, runId: string,
                   p: Progress, ghost r: Course)
    returns (p': Progress, ghost r': Course, ghost e: Event)
    requires cluster.Valid() && i < |changes| && RunSoFar(changes, r, i) && p == Applied(changes, r.oks, i)
    requires r.states[i] == cluster.Observed() && r.stores[i] == cluster.services
    modifies cluster`services, cluster`networks, cluster`configs, rec
    ensures cluster.Valid() && RunSoFar(changes, r', i + 1) && p' == Applied(changes, r'.oks, i + 1)
    ensures Spans(r', r.states[0], r.stores[0], cluster.Observed(), cluster.services)
    ensures p'.events == p.events + [e] && rec.log == old(rec.log) + Stamped(runId, [e])
    ensures ObjectsGrow(old(cluster.Held()), cluster.Held(), [changes[i]])
  {
    var c := changes[i];
    var skip := c.action == CreateAction && c.recreate && c.spec.name in p.failedRecreates;
    var o;
    ghost var after;
    o, after := ApplyOne(c, skip, budget, cluster, rec, runId, r.states[i]);
    RunOnce(changes, r, i, o == Ok, after, cluster.services);
    ExtendSpans(r, o == Ok, after, cluster.services);
    p' := NoteOutcome(p, c, o);
    r', e := Extend(r, o == Ok, after, cluster.services), AppliedEvent(c, o);
  }

  lemma GrownOneMore(a: Objects, b: Objects, c: Objects, changes: seq<Change>, i: nat)
    requires i < |changes| && ObjectsGrow(a, b, changes[..i]) && ObjectsGrow(b, c, [changes[i]])
    ensures ObjectsGrow(a, c, changes[..i + 1])
  {
    ObjectsGrowOn(a, b, c, changes[..i], [changes[i]]);
    assert changes[..i + 1] == changes[..i] + [changes[i]];
  }

  /** The loop over the changes. */
  method ApplyEach(changes: seq<Change>, budgets: seq<nat>, cluster: Cluster, rec: Recorder, runId: string,
                   ghost observed: Services)
    returns (p: Progress, ghost r: Course)
    requires cluster.Valid() && observed == cluster.Observed()
    modifies cluster`services, cluster`networks, cluster`configs, rec
    ensures ObjectsGrow(old(cluster.Held()), cluster.Held(), changes)
    ensures cluster.Valid() && Runs(changes, r)
    ensures Spans(r, observed, old(cluster.services), cluster.Observed(), cluster.services)
    ensures p == Applied(changes, r.oks, |changes|)
    ensures rec.log == old(rec.log) + Stamped(runId, p.events)
  {
    p := NOTHING_YET;
    r := StandStill(observed, cluster.services);
    ObjectsStay(cluster.Held(), changes[..0]);
    for i := 0 to |changes|
      invariant cluster.Valid() && RunSoFar(changes, r, i)
      invariant Spans(r, observed, old(cluster.services), cluster.Observed(), cluster.services)
      invariant p == Applied(changes, r.oks, i)
      invariant rec.log == old(rec.log) + Stamped(runId, p.events)
      invariant ObjectsGrow(old(cluster.Held()), cluster.Held(), changes[..i])
    {
      ghost var events, held := p.events, cluster.Held();
      ghost var e;
      p, r, e := ApplyNext(changes, i, if i < |budgets| then budgets[i] else 0, cluster, rec, runId, p, r);
      LogConcat(old(rec.log), runId, events, [e]);
      GrownOneMore(old(cluster.Held()), held, cluster.Held(), changes, i);
    }
    assert changes[..|changes|] == changes;
    RunDone(changes, r);
  }

  /** All changes; services without the managed label stay as they are unless a change updates one. */
  method ApplyAll(changes: seq<Change>, budgets: seq<nat>, cluster: Cluster, rec: Recorder, runId: string,
                  ghost observed: Services)
    returns (p: Progress, ghost r: Course)
    requires cluster.Valid() && observed == cluster.Observed()
    modifies cluster`services, cluster`networks, cluster`configs, rec
    ensures ObjectsGrow(old(cluster.Held()), cluster.Held(), changes)
    ensures cluster.Valid() && Runs(changes, r)
    ensures Spans(r, observed, old(cluster.services), cluster.Observed(), cluster.services)
    ensures p == Applied(changes, r.oks, |changes|)
    ensures rec.log == old(rec.log) + Stamped(runId, p.events)
    ensures UpdatesOnlyManaged(changes, old(cluster.services)) ==> KeepsUnmanaged(old(cluster.services), cluster.services)
  {
    p, r := ApplyEach(changes, budgets, cluster, rec, runId, observed);
    if UpdatesOnlyManaged(changes, r.stores[0]) {
      RunKeepsUnmanaged(changes, r.oks, r.stores, |changes|);
    }
  }

  // ---- The cycle ----

  /** Everything a cycle learns from outside the cluster; None is a failed stage. */
  datatype World = World(
    now: int, commit: Option<string>, parsed: Option<DesiredState>, pins: Option<map<string, string>>,
    observeOk: bool, verdicts: Option<seq<Verdict>>, budgets: seq<nat>, polls: seq<Poll>,
    arrivals: Arrivals)

  function AnswersOf(w: World, observed: Services, oks: seq<bool>): Answers {
    Answers(w.commit, w.parsed, w.pins, if w.observeOk then Some(observed) else None, w.verdicts, oks, w.polls,
            w.arrivals)
  }

  lemma ResolveOneMore(names: seq<string>, i: nat, before: Services, after: Services)
    requires i < |names| && names[i] in before && names[i] in after
    ensures ResolveEvents(names[..i + 1], before, after)
         == ResolveEvents(names[..i], before, after)
            + [ResolveSeen(names[i], before[names[i]].image, DigestOf(after[names[i]].image))]
  {
    assert names[..i + 1][..i] == names[..i];
  }

  method CollectResolves(before: Services, after: Services) returns (events: seq<Event>)
    requires before.Keys == after.Keys
    ensures events == ResolveEvents(SortedOf(after.Keys), before, after)
  {
    var names := SortedKeys(after);
    events := [];
    for i := 0 to |names|
      invariant events == ResolveEvents(names[..i], before, after)
    {
      var n := names[i];
      assert n in names;
      ResolveOneMore(names, i, before, after);
      events := events + [ResolveSeen(n, before[n].image, DigestOf(after[n].image))];
    }
    assert names[..|names|] == names;
  }

  method AttachData(changes: seq<Change>, configs: map<string, seq<bv8>>) returns (r: seq<Change>)
    ensures r == DataAttached(changes, configs)
  {
    r := changes;
    for i := 0 to |changes|
      invariant |r| == |changes|
      invariant forall j :: 0 <= j < i ==> r[j] == WithData(changes[j], configs)
      invariant forall j :: i <= j < |r| ==> r[j] == changes[j]
    {
      if r[i].action != RemoveAction && |configs| > 0 {
        r := r[i := r[i].(configData := configs)];
      }
    }
  }

  /** Apply and await: the part of a cycle that follows the gate. */
  method ApplyAndAwait(runId: string, w: World, changes: seq<Change>, commit: string, cluster: Cluster, rec: Recorder,
                       ghost prepared: seq<Event>, ghost verified: seq<Event>, ghost observed: Services)
    returns (err: Result, ghost r: Course)
    requires cluster.Valid() && observed == cluster.Observed()
    modifies cluster`services, cluster`networks, cluster`configs, rec
    ensures ObjectsGrow(old(cluster.Held()), cluster.Held(), changes)
    ensures cluster.Valid() && Runs(changes, r)
    ensures Spans(r, observed, old(cluster.services), cluster.Observed(), cluster.services)
    ensures var o := ApplyOutcome(prepared, verified, changes, commit, AnswersOf(w, observed, r.oks));
      && err == o.result && o.closing.Some?
      && rec.log == old(rec.log) + Stamped(runId, o.applied + [o.closing.value])
  {
    var p;
    p, r := ApplyAll(changes, w.budgets, cluster, rec, runId, observed);
    var closing;
    if |p.pending| > 0 {
      err, closing := Partial, PartlyBelieved(p.applied, p.pending);
    } else {
      var awaited := ChangesToAwaitDiff(changes);
      var converged, at := AwaitConverged(w.polls, awaited);
      if !converged {
        err, closing := Unconverged, UnconvergedBelieved(p.applied);
      } else {
        err, closing := Nil, ConvergedSeen(commit, |p.services|);
      }
    }
    rec.Emit(runId, closing);
    LogConcat(old(rec.log), runId, p.events, [closing]);
  }

  /** The gate stage alone: done says the cycle ends here with err. */
  method GateStage(runId: string, cfg: Config, changes: seq<Change>, verdicts: seq<Verdict>, rec: Recorder)
    returns (passed: seq<Change>, done: bool, err: Result, ghost closing: seq<Event>)
    modifies rec
    ensures passed == Gated(changes, verdicts)
    ensures !AllPass(verdicts) && cfg.abortCycle ==> done && err == Aborted && closing == [CycleAborted]
    ensures AllPass(verdicts) || !cfg.abortCycle ==> err == Nil && closing == [] && (done <==> passed == [])
    ensures rec.log == old(rec.log) + Stamped(runId, Map(verdicts, VerifySeenOf) + closing)
  {
    rec.EmitAll(runId, Map(verdicts, VerifySeenOf));
    var allPassed;
    passed, allPassed := Verify(changes, verdicts);
    if !allPassed && cfg.abortCycle {
      rec.Emit(runId, CycleAborted);
      LogConcat(old(rec.log), runId, Map(verdicts, VerifySeenOf), [CycleAborted]);
      return passed, true, Aborted, [CycleAborted];
    }
    assert Map(verdicts, VerifySeenOf) + [] == Map(verdicts, VerifySeenOf);
    return passed, |passed| == 0, Nil, [];
  }

  lemma GateStopped(prepared: seq<Event>, changes: seq<Change>, commit: string, cfg: Config, a: Answers,
                    closing: seq<Event>, o: CycleOutcome)
    requires a.verdicts.Some? && o.prepared == prepared && o.verified == Map(a.verdicts.value, VerifySeenOf)
    requires o.applied == [] && o.gated == [] && o.closing == if closing == [] then None else Some(CycleAborted)
    requires if !AllPass(a.verdicts.value) && cfg.abortCycle then o.result == Aborted && closing == [CycleAborted]
             else Gated(changes, a.verdicts.value) == [] && o.result == Nil && closing == []
    ensures o == GateOutcome(prepared, changes, commit, cfg, a) && o.Rest() == o.verified + closing
  {
  }

  lemma GateGoesOn(prepared: seq<Event>, changes: seq<Change>, commit: string, cfg: Config, a: Answers)
    requires a.verdicts.Some? && (AllPass(a.verdicts.value) || !cfg.abortCycle) && Gated(changes, a.verdicts.value) != []
    ensures GateOutcome(prepared, changes, commit, cfg, a)
         == ApplyOutcome(prepared, Map(a.verdicts.value, VerifySeenOf), Gated(changes, a.verdicts.value), commit, a)
  {
  }

  /** What follows once the gate has let some changes through. */
  method ApplyPassed(runId: string, cfg: Config, w: World, changes: seq<Change>, passed: seq<Change>, commit: string,
                     cluster: Cluster, rec: Recorder, ghost prepared: seq<Event>, ghost observed: Services)
    returns (err: Result, ghost r: Course, ghost o: CycleOutcome)
    requires cluster.Valid() && observed == cluster.Observed() && w.verdicts.Some?
    requires (AllPass(w.verdicts.value) || !cfg.abortCycle) && passed == Gated(changes, w.verdicts.value) != []
    modifies cluster`services, cluster`networks, cluster`configs, rec
    ensures ObjectsGrow(old(cluster.Held()), cluster.Held(), o.gated)
    ensures cluster.Valid() && Spans(r, observed, old(cluster.services), cluster.Observed(), cluster.services)
    ensures o == GateOutcome(prepared, changes, commit, cfg, AnswersOf(w, observed, r.oks))
    ensures err == o.result && o.prepared == prepared && Runs(o.gated, r)
    ensures o.verified == Map(w.verdicts.value, VerifySeenOf) && o.closing.Some?
    ensures rec.log == old(rec.log) + Stamped(runId, o.applied + [o.closing.value])
  {
    ghost var verified := Map(w.verdicts.value, VerifySeenOf);
    err, r := ApplyAndAwait(runId, w, passed, commit, cluster, rec, prepared, verified, observed);
    o := ApplyOutcome(prepared, verified, passed, commit, AnswersOf(w, observed, r.oks));
    GateGoesOn(prepared, changes, commit, cfg, AnswersOf(w, observed, r.oks));
  }

  /** What follows once the gate has answered. */
  method ApplyGated(runId: string, cfg: Config, w: World, changes: seq<Change>, commit: string,
                    cluster: Cluster, rec: Recorder, ghost prepared: seq<Event>, ghost observed: Services)
    returns (err: Result, ghost r: Course, ghost o: CycleOutcome)
    requires cluster.Valid() && observed == cluster.Observed() && w.verdicts.Some?
    modifies cluster`services, cluster`networks, cluster`configs, rec
    ensures ObjectsGrow(old(cluster.Held()), cluster.Held(), o.gated)
    ensures cluster.Valid() && Spans(r, observed, old(cluster.services), cluster.Observed(), cluster.services)
    ensures o == GateOutcome(prepared, changes, commit, cfg, AnswersOf(w, observed, r.oks))
    ensures err == o.result && o.prepared == prepared && Runs(o.gated, r)
    ensures rec.log == old(rec.log) + Stamped(runId, o.Rest())
  {
    ghost var verified := Map(w.verdicts.value, VerifySeenOf);
    var passed, done;
    ghost var closing;
    passed, done, err, closing := GateStage(runId, cfg, changes, w.verdicts.value, rec);
    if done {
      r := StandStill(observed, cluster.services);
      o := CycleOutcome(prepared, verified, [], if closing == [] then None else Some(CycleAborted), err, []);
      GateStopped(prepared, changes, commit, cfg, AnswersOf(w, observed, r.oks), closing, o);
      return err, r, o;
    }
    assert verified + closing == verified;
    err, r, o := ApplyPassed(runId, cfg, w, changes, passed, commit, cluster, rec, prepared, observed);
    RestOfApply(o);
    LogConcat(old(rec.log), runId, verified, o.applied + [o.closing.value]);
  }

  lemma RestOfApply(o: CycleOutcome)
    requires o.closing.Some?
    ensures o.Rest() == o.verified + (o.applied + [o.closing.value])
  {
  }

  /** Gate, apply, await: the part of a cycle that follows a nonempty diff. */
  method GateAndApply(runId: string, cfg: Config, w: World, changes: seq<Change>, commit: string,
                      cluster: Cluster, rec: Recorder, ghost prepared: seq<Event>, ghost observed: Services)
    returns (err: Result, ghost r: Course, ghost o: CycleOutcome)
    requires cluster.Valid() && observed == cluster.Observed()
    modifies cluster`services, cluster`networks, cluster`configs, rec
    ensures ObjectsGrow(old(cluster.Held()), cluster.Held(), o.gated)
    ensures cluster.Valid() && Spans(r, observed, old(cluster.services), cluster.Observed(), cluster.services)
    ensures o == GateOutcome(prepared, changes, commit, cfg, AnswersOf(w, observed, r.oks))
    ensures err == o.result && o.prepared == prepared && Runs(o.gated, r)
    ensures rec.log == old(rec.log) + Stamped(runId, o.Rest())
  {
    if w.verdicts.None? {
      rec.Emit(runId, StageFailed("gate"));
      return PreApply("gate"), StandStill(observed, cluster.services), FailedStage(prepared, "gate");
    }
    err, r, o := ApplyGated(runId, cfg, w, changes, commit, cluster, rec, prepared, observed);
  }

  /** Parse and resolve, once the commit is known. */
  method ResolveStages(runId: string, w: World, rec: Recorder)
    returns (err: Result, desired: Services, ghost events: seq<Event>)
    modifies rec
    ensures rec.log == old(rec.log) + Stamped(runId, events)
    ensures w.parsed.None? ==> err == PreApply("parse") && events == [StageFailed("parse")]
    ensures w.parsed.Some? && w.pins.None? ==>
              err == PreApply("resolve") && events == [ParseSeen, StageFailed("resolve")]
    ensures w.parsed.Some? && w.pins.Some? ==>
              err == Nil && desired == PinImages(w.parsed.value.services, w.pins.value)
    ensures w.parsed.Some? && w.pins.Some? ==>
              events == [ParseSeen] + ResolveEvents(SortedOf(desired.Keys), w.parsed.value.services, desired)
  {
    desired := map[];
    if w.parsed.None? {
      rec.Emit(runId, StageFailed("parse"));
      return PreApply("parse"), desired, [StageFailed("parse")];
    }
    rec.Emit(runId, ParseSeen);
    if w.pins.None? {
      rec.Emit(runId, StageFailed("resolve"));
      LogConcat(old(rec.log), runId, [ParseSeen], [StageFailed("resolve")]);
      return PreApply("resolve"), desired, [ParseSeen, StageFailed("resolve")];
    }
    desired := PinImages(w.parsed.value.services, w.pins.value);
    var resolves := CollectResolves(w.parsed.value.services, desired);
    rec.EmitAll(runId, resolves);
    LogConcat(old(rec.log), runId, [ParseSeen], resolves);
    err, events := Nil, [ParseSeen] + resolves;
  }

  /** Observe and diff. */
  method DiffStage(runId: string, w: World, desired: Services, cluster: Cluster, rec: Recorder, ghost observed: Services)
    returns (d: Option<Changes>, ghost events: seq<Event>)
    requires cluster.Valid() && observed == cluster.Observed()
    modifies rec
    ensures rec.log == old(rec.log) + Stamped(runId, events)
    ensures d.Some? <==> w.observeOk
    ensures d.None? ==> events == [StageFailed("observe")]
    ensures d.Some? ==> d.value == Computed(desired, observed)
    ensures d.Some? ==> events == [ObserveSeen, DiffSeen(|d.value.creates|, |d.value.updates|, |d.value.removes|)]
  {
    if !w.observeOk {
      rec.Emit(runId, StageFailed("observe"));
      return None, [StageFailed("observe")];
    }
    var state := cluster.Snapshot();
    var diff := Compute(desired, state);
    rec.EmitAll(runId, [ObserveSeen, DiffSeen(|diff.creates|, |diff.updates|, |diff.removes|)]);
    d, events := Some(diff), [ObserveSeen, DiffSeen(|diff.creates|, |diff.updates|, |diff.removes|)];
  }

  lemma EarlyEvents(a: Answers)
    ensures a.commit.None? ==> FailedEarly(a).Events() == [StageFailed("poll")]
    ensures a.commit.Some? && a.parsed.None? ==>
              FailedEarly(a).Events() == [PollSeen(a.commit.value)] + [StageFailed("parse")]
    ensures a.commit.Some? && a.parsed.Some? && a.pins.None? ==>
              FailedEarly(a).Events() == [PollSeen(a.commit.value)] + [ParseSeen, StageFailed("resolve")]
    ensures a.commit.Some? && a.parsed.Some? && a.pins.Some? && a.observed.None? ==>
              FailedEarly(a).Events() == ResolvedEvents(a) + [StageFailed("observe")]
  {
  }

  lemma ResolvedEventsSplit(a: Answers)
    requires a.commit.Some? && a.parsed.Some? && a.pins.Some?
    ensures ResolvedEvents(a) == [PollSeen(a.commit.value)]
              + ([ParseSeen] + ResolveEvents(SortedOf(Resolved(a).Keys), a.parsed.value.services, Resolved(a)))
  {
  }

  /** The stages before the diff; nothing in the cluster changes yet. */
  method Fetch(runId: string, w: World, st: CycleState, rec: Recorder, ghost a: Answers)
    returns (err: Result, desired: Services, same: bool, since: int, ghost events: seq<Event>)
    requires a.commit == w.commit && a.parsed == w.parsed && a.pins == w.pins
    modifies st, rec
    ensures rec.log == old(rec.log) + Stamped(runId, events)
    ensures since == old(st.lastCycleStart) && st.lastCycleStart == w.now && st.hints == old(st.hints)
    ensures st.lastCommit == if w.commit.Some? then w.commit.value else old(st.lastCommit)
    ensures err == Nil <==> a.commit.Some? && a.parsed.Some? && a.pins.Some?
    ensures err == Nil ==> desired == Resolved(a) && events == ResolvedEvents(a)
    ensures err == Nil ==> same == SameCommit(old(st.View()), a.commit.value)
    ensures err != Nil ==> FailedEarly(a).result == err && FailedEarly(a).Events() == events
  {
    desired, same := map[], false;
    EarlyEvents(a);
    since := st.BeginCycle(w.now);
    if w.commit.None? {
      rec.Emit(runId, StageFailed("poll"));
      return PreApply("poll"), desired, same, since, [StageFailed("poll")];
    }
    same := st.SameCommitAsLast(w.commit.value);
    st.SetLastCommit(w.commit.value);
    rec.Emit(runId, PollSeen(w.commit.value));
    ghost var more;
    err, desired, more := ResolveStages(runId, w, rec);
    LogConcat(old(rec.log), runId, [PollSeen(w.commit.value)], more);
    events := [PollSeen(w.commit.value)] + more;
    if err == Nil { ResolvedEventsSplit(a); }
  }

  lemma DifferedEventsSplit(a: Answers)
    requires DiffReached(a)
    ensures var d := DiffOf(a);
      DifferedEvents(a) == ResolvedEvents(a) + [ObserveSeen, DiffSeen(|d.creates|, |d.updates|, |d.removes|)]
  {
  }

  /** Everything up to and including the diff. */
  method FetchAndDiff(runId: string, w: World, st: CycleState, cluster: Cluster, rec: Recorder,
                      ghost a: Answers, ghost observed: Services)
    returns (err: Result, d: Changes, same: bool, since: int, ghost events: seq<Event>)
    requires cluster.Valid() && observed == cluster.Observed() && a == AnswersOf(w, observed, [])
    modifies st, rec
    ensures rec.log == old(rec.log) + Stamped(runId, events)
    ensures since == old(st.lastCycleStart) && st.lastCycleStart == w.now && st.hints == old(st.hints)
    ensures st.lastCommit == if w.commit.Some? then w.commit.value else old(st.lastCommit)
    ensures err == Nil <==> DiffReached(a)
    ensures err == Nil ==> d == DiffOf(a) && events == DifferedEvents(a)
    ensures err == Nil ==> same == SameCommit(old(st.View()), a.commit.value)
    ensures err != Nil ==> FailedEarly(a).result == err && FailedEarly(a).Events() == events
  {
    d := Changes([], [], []);
    var desired;
    err, desired, same, since, events := Fetch(runId, w, st, rec, a);
    if err != Nil { return; }
    var diff;
    ghost var more;
    diff, more := DiffStage(runId, w, desired, cluster, rec, observed);
    LogConcat(old(rec.log), runId, events, more);
    events := events + more;
    if diff.None? {
      EarlyEvents(a);
      err := PreApply("observe");
      return;
    }
    d := diff.value;
    DifferedEventsSplit(a);
  }

  /** Drift, plan, gate, apply, await: what follows a nonempty diff. */
  method ApplyDiff(runId: string, cfg: Config, w: World, d: Changes, same: bool, since: int, st: CycleState,
                   cluster: Cluster, rec: Recorder, ghost a: Answers, ghost memory: Memory, ghost observed: Services)
    returns (err: Result, ghost r: Course, ghost o: CycleOutcome)
    requires cluster.Valid() && observed == cluster.Observed() && a == AnswersOf(w, observed, [])
    requires DiffReached(a) && d == DiffOf(a) && same == SameCommit(memory, a.commit.value)
    requires st.hints == memory.hints && since == memory.lastCycleStart
    modifies st`hints, cluster`services, cluster`networks, cluster`configs, rec
    ensures ObjectsGrow(old(cluster.Held()), cluster.Held(), o.gated)
    ensures cluster.Valid() && Spans(r, observed, old(cluster.services), cluster.Observed(), cluster.services)
    ensures o == GateOutcome(DifferedEvents(a) + DriftsOf(a, memory), PlanOf(cfg, a), w.commit.value, cfg,
                             AnswersOf(w, observed, r.oks))
    ensures o.prepared == DifferedEvents(a) + DriftsOf(a, memory)
    ensures err == o.result && Runs(o.gated, r)
    ensures rec.log == old(rec.log) + Stamped(runId, DriftsOf(a, memory) + o.Rest())
    ensures st.hints == if same then HintsAfter(DriftItems(d), memory.hints, w.arrivals)
                        else RecordedAll(memory.hints, w.arrivals)
  {
    ghost var drifts := DriftsOf(a, memory);
    if same {
      var reported := st.EmitDrift(d, since, w.arrivals);
      rec.EmitAll(runId, Map(reported, DriftSeenOf));
    } else {
      st.RecordArrivals(w.arrivals);
    }
    var changes := Plan.Plan(d, cfg.prune);
    changes := AttachData(changes, w.parsed.value.configs);
    err, r, o :=
      GateAndApply(runId, cfg, w, changes, w.commit.value, cluster, rec, DifferedEvents(a) + drifts, observed);
    LogConcat(old(rec.log), runId, drifts, o.Rest());
  }

  /** How Apply answers has no bearing on what precedes it. */
  lemma OksIrrelevant(w: World, observed: Services, oks: seq<bool>, memory: Memory, cfg: Config)
    ensures var a, b := AnswersOf(w, observed, []), AnswersOf(w, observed, oks);
      && DiffReached(a) == DiffReached(b)
      && (!DiffReached(a) ==> FailedEarly(a) == FailedEarly(b))
      && (DiffReached(a) ==> DiffOf(a) == DiffOf(b) && DifferedEvents(a) == DifferedEvents(b) && PlanOf(cfg, a) == PlanOf(cfg, b)
                             && DriftsOf(a, memory) == DriftsOf(b, memory))
  {
  }

  /** A cycle that fails before its diff, or finds nothing to do. */
  lemma RunStopsEarly(cfg: Config, a: Answers, memory: Memory)
    requires !DiffReached(a) || DiffOf(a).Empty()
    ensures var o := CycleRun(cfg, a, memory);
      && o.gated == [] && HintsLeft(a, memory) == RecordedAll(memory.hints, a.arrivals)
      && (!DiffReached(a) ==> o.result == FailedEarly(a).result && o.Events() == FailedEarly(a).Events())
      && (DiffReached(a) ==> o.result == Nil && o.Events() == DifferedEvents(a))
  {
  }

  lemma RunGates(cfg: Config, w: World, observed: Services, oks: seq<bool>, memory: Memory)
    requires var a := AnswersOf(w, observed, []); DiffReached(a) && !DiffOf(a).Empty()
    ensures var a := AnswersOf(w, observed, []);
      CycleRun(cfg, AnswersOf(w, observed, oks), memory)
      == GateOutcome(DifferedEvents(a) + DriftsOf(a, memory), PlanOf(cfg, a), a.commit.value, cfg,
                     AnswersOf(w, observed, oks))
  {
    OksIrrelevant(w, observed, oks, memory, cfg);
  }

  lemma HintsAfterRun(w: World, observed: Services, oks: seq<bool>, memory: Memory)
    requires var a := AnswersOf(w, observed, []); DiffReached(a) && !DiffOf(a).Empty()
    ensures var a := AnswersOf(w, observed, []);
      HintsLeft(AnswersOf(w, observed, oks), memory)
      == if SameCommit(memory, a.commit.value) then HintsAfter(DriftItems(DiffOf(a)), memory.hints, w.arrivals)
         else RecordedAll(memory.hints, w.arrivals)
  {
  }

  lemma EventsSplit(o: CycleOutcome, a: seq<Event>, b: seq<Event>)
    requires o.prepared == a + b
    ensures o.Events() == a + (b + o.Rest())
  {
  }

  /** The rest of a cycle whose diff found something. */
  method FinishCycle(runId: string, cfg: Config, w: World, d: Changes, same: bool, since: int, st: CycleState,
                     cluster: Cluster, rec: Recorder, ghost a: Answers, ghost memory: Memory, ghost observed: Services)
    returns (err: Result, ghost r: Course, ghost o: CycleOutcome, ghost events: seq<Event>)
    requires cluster.Valid() && observed == cluster.Observed() && a == AnswersOf(w, observed, [])
    requires DiffReached(a) && d == DiffOf(a) && !d.Empty()
    requires same == SameCommit(memory, a.commit.value) && st.hints == memory.hints && since == memory.lastCycleStart
    modifies st`hints, cluster`services, cluster`networks, cluster`configs, rec
    ensures ObjectsGrow(old(cluster.Held()), cluster.Held(), o.gated)
    ensures cluster.Valid() && Spans(r, observed, old(cluster.services), cluster.Observed(), cluster.services)
    ensures o == CycleRun(cfg, AnswersOf(w, observed, r.oks), memory)
    ensures err == o.result && Runs(o.gated, r)
    ensures rec.log == old(rec.log) + Stamped(runId, events) && o.Events() == DifferedEvents(a) + events
    ensures st.hints == HintsLeft(AnswersOf(w, observed, r.oks), memory)
  {
    err, r, o := ApplyDiff(runId, cfg, w, d, same, since, st, cluster, rec, a, memory, observed);
    events := DriftsOf(a, memory) + o.Rest();
    RunGates(cfg, w, observed, r.oks, memory);
    HintsAfterRun(w, observed, r.oks, memory);
    EventsSplit(o, DifferedEvents(a), DriftsOf(a, memory));
  }

  /** All stages of a cycle. */
  method RunStages(runId: string, cfg: Config, w: World, st: CycleState, cluster: Cluster, rec: Recorder,
               ghost observed: Services)
    returns (err: Result, ghost r: Course, ghost o: CycleOutcome)
    requires cluster.Valid() && observed == cluster.Observed()
    modifies st, cluster`services, cluster`networks, cluster`configs, rec
    ensures ObjectsGrow(old(cluster.Held()), cluster.Held(), o.gated)
    ensures cluster.Valid() && Spans(r, observed, old(cluster.services), cluster.Observed(), cluster.services)
    ensures o == CycleRun(cfg, AnswersOf(w, observed, r.oks), old(st.View()))
    ensures err == o.result && Runs(o.gated, r)
    ensures rec.log == old(rec.log) + Stamped(runId, o.Events())
    ensures st.lastCycleStart == w.now
    ensures st.lastCommit == if w.commit.Some? then w.commit.value else old(st.lastCommit)
    ensures st.hints == HintsLeft(AnswersOf(w, observed, r.oks), old(st.View()))
  {
    ghost var memory := st.View();
    ghost var a := AnswersOf(w, observed, []);
    r := StandStill(observed, cluster.services);
    var d, same, since;
    ghost var prepared, more;
    err, d, same, since, prepared := FetchAndDiff(runId, w, st, cluster, rec, a, observed);
    if err != Nil || d.Empty() {
      RunStopsEarly(cfg, a, memory);
      st.RecordArrivals(w.arrivals);
      o := CycleRun(cfg, a, memory);
      return err, r, o;
    }
    err, r, o, more := FinishCycle(runId, cfg, w, d, same, since, st, cluster, rec, a, memory, observed);
    LogConcat(old(rec.log), runId, prepared, more);
  }

  /** The desired services are stored under their own names, as parse leaves them. */
  ghost predicate KeyedWorld(w: World) {
    w.parsed.Some? ==> KeyedByName(w.parsed.value.services)
  }

  /**
   One reconcile cycle: its trace and its result are CycleRun's, and the cluster steps as the
   contract says.  Services without the managed label stay as they are, and an undisturbed
   cycle leaves nothing to do exactly when every desired service that diverged can be settled.
   */
  method Cycle(runId: string, cfg: Config, w: World, st: CycleState, cluster: Cluster, rec: Recorder,
               ghost observed: Services)
    returns (err: Result, ghost r: Course, ghost o: CycleOutcome)
    requires cluster.Valid() && observed == cluster.Observed()
    modifies st, cluster`services, cluster`networks, cluster`configs, rec
    ensures ObjectsGrow(old(cluster.Held()), cluster.Held(), o.gated)
    ensures cluster.Valid() && Spans(r, observed, old(cluster.services), cluster.Observed(), cluster.services)
    ensures o == CycleRun(cfg, AnswersOf(w, observed, r.oks), old(st.View()))
    ensures err == o.result && Runs(o.gated, r)
    ensures rec.log == old(rec.log) + Stamped(runId, o.Events())
    ensures st.lastCycleStart == w.now
    ensures st.lastCommit == if w.commit.Some? then w.commit.value else old(st.lastCommit)
    ensures st.hints == HintsLeft(AnswersOf(w, observed, r.oks), old(st.View()))
    ensures KeyedWorld(w) ==> KeepsUnmanaged(old(cluster.services), cluster.services)
    ensures RunsClean(cfg, AnswersOf(w, observed, r.oks)) ==>
              var desired := Resolved(AnswersOf(w, observed, r.oks));
              Computed(desired, cluster.Observed()).Empty() <==> AllSettle(desired, observed)
  {
    ghost var memory := st.View();
    cluster.ObservedNames();
    cluster.ObservedManaged();
    err, r, o := RunStages(runId, cfg, w, st, cluster, rec, observed);
    ghost var a := AnswersOf(w, observed, r.oks);
    cluster.ObservedNames();
    if KeyedWorld(w) { CycleKeepsUnmanaged(cfg, a, memory, r); }
    if RunsClean(cfg, a) { UndisturbedCycleLeavesNothing(cfg, a, memory, r.states); }
  }

  // ---- What a cycle achieves ----

  /** Parsed and observed services are stored under their own names. */
  ghost predicate WellKeyed(a: Answers) {
    && (a.parsed.Some? ==> KeyedByName(a.parsed.value.services))
    && (a.observed.Some? ==> KeyedByName(a.observed.value))
  }

  /** With pruning on, every change passes the gate and every Apply succeeds. */
  ghost predicate RunsClean(cfg: Config, a: Answers) {
    && cfg.prune && DiffReached(a) && WellKeyed(a)
    && a.verdicts.Some? && Undisturbed(PlanOf(cfg, a), a.verdicts.value, a.oks)
  }

  /** The poll finds the service reading back as desired, or gone if it is not desired. */
  ghost predicate AsDesired(poll: Poll, n: string, desired: Services) {
    if n in desired then
      poll.networks.Some? && n in poll.services && Matches(desired[n], ReadBack(poll.services[n].spec, poll.networks.value))
    else n !in poll.services
  }

  /** The k-th poll finds every target of the changes met, and every service they name as desired. */
  ghost predicate ReachedBy(polls: seq<Poll>, k: nat, changes: seq<Change>, desired: Services) {
    && k < |polls| && AllMet(polls[k], AwaitDiff(changes))
    && forall n :: n in NamesOf(changes) ==> AsDesired(polls[k], n, desired)
  }

  lemma MetMeansDesired(poll: Poll, changes: seq<Change>, desired: Services, observed: Services, n: string)
    requires WellPlanned(changes) && (forall c :: c in changes ==> Purposeful(c, desired, observed))
    requires AllMet(poll, AwaitDiff(changes)) && n in NamesOf(changes)
    ensures AsDesired(poll, n, desired) && Targets(AwaitDiff(changes)) != []
  {
    var i := NamedChange(changes, n);
    var c := changes[i];
    assert c in changes;
    var d := AwaitDiff(changes);
    AwaitedFromPlan(changes);
    AwaitedNamesMatch(poll, d);
    assert Holds(changes, c.action, false, c.spec);
    match c.action {
      case CreateAction => assert c.spec in d.creates;
      case UpdateAction => assert Update(c.spec.name, ZERO_SPEC, c.spec, []) in d.updates;
      case RemoveAction => assert c.spec in d.removes;
    }
  }

  lemma SomethingAwaited(changes: seq<Change>)
    requires WellPlanned(changes) && changes != []
    ensures Targets(AwaitDiff(changes)) != []
  {
    assert changes[0] in changes && changes[0].spec.name in NamesOf(changes);
    var i := NamedChange(changes, changes[0].spec.name);
    AwaitedFromPlan(changes);
    assert Holds(changes, changes[i].action, false, changes[i].spec);
  }

  /** Announcing convergence means that some poll found every service the cycle changed as desired. */
  lemma ConvergedMeansDesired(cfg: Config, a: Answers, memory: Memory)
    requires WellKeyed(a) && HasConverged(CycleRun(cfg, a, memory).Events())
    ensures DiffReached(a) && exists k :: ReachedBy(a.polls, k, CycleRun(cfg, a, memory).gated, Resolved(a))
  {
    TraceGrammar(cfg, a, memory);
    GatedFromPlan(cfg, a, memory);
    var gated := CycleRun(cfg, a, memory).gated;
    GatedPlan(Resolved(a), a.observed.value, cfg.prune, a.parsed.value.configs, a.verdicts.value);
    SomethingAwaited(gated);
    var k :| 0 <= k < |a.polls| && AllMet(a.polls[k], AwaitDiff(gated));
    forall n | n in NamesOf(gated) ensures AsDesired(a.polls[k], n, Resolved(a)) {
      MetMeansDesired(a.polls[k], gated, Resolved(a), a.observed.value, n);
    }
    assert ReachedBy(a.polls, k, gated, Resolved(a));
  }

  /** Some poll finds the service as desired. */
  ghost predicate FoundAsDesired(polls: seq<Poll>, n: string, desired: Services) {
    exists k :: 0 <= k < |polls| && AsDesired(polls[k], n, desired)
  }

  lemma ReachedFinds(polls: seq<Poll>, k: nat, changes: seq<Change>, desired: Services, n: string)
    requires ReachedBy(polls, k, changes, desired) && n in NamesOf(changes)
    ensures FoundAsDesired(polls, n, desired)
  {
  }

  lemma ConvergedFinds(cfg: Config, a: Answers, memory: Memory, n: string)
    requires WellKeyed(a) && HasConverged(CycleRun(cfg, a, memory).Events())
    requires n in NamesOf(CycleRun(cfg, a, memory).gated)
    ensures DiffReached(a) && FoundAsDesired(a.polls, n, Resolved(a))
  {
    ConvergedMeansDesired(cfg, a, memory);
    var gated := CycleRun(cfg, a, memory).gated;
    var k :| ReachedBy(a.polls, k, gated, Resolved(a));
    ReachedFinds(a.polls, k, gated, Resolved(a), n);
  }

  lemma {:induction false} DriftEventsNameItems(items: seq<Item>, hints: map<string, int>, since: int, arrivals: Arrivals,
                                               e: DriftEvent)
    requires e in DriftEvents(items, hints, since, arrivals)
    ensures exists i :: i in items && i.service == e.service
  {
    if e != DriftEvents(items, hints, since, arrivals)[0] {
      DriftEventsNameItems(items[1..], Recorded(hints, FirstOf(arrivals)) - {items[0].service}, since, LaterOf(arrivals), e);
      var i :| i in items[1..] && i.service == e.service;
      assert i in items;
    } else {
      assert items[0] in items;
    }
  }

  /** A drift is reported only for a name the cycle finds diverging, on the commit polled before. */
  lemma DriftNamesDivergence(cfg: Config, a: Answers, memory: Memory, e: DriftEvent)
    requires DriftSeen(e) in CycleRun(cfg, a, memory).Events() && WellKeyed(a)
    ensures DiffReached(a) && SameCommit(memory, a.commit.value) && Diverges(e.service, Resolved(a), a.observed.value)
  {
    DriftComesFromDiff(cfg, a, memory, e);
    var d := DiffOf(a);
    var items := DriftItems(d);
    DriftEventsNameItems(items, memory.hints, memory.lastCycleStart, a.arrivals, e);
    var i :| i in items && i.service == e.service;
    ComputeClassifies(Resolved(a), a.observed.value);
    DriftItemsDiverge(d, Resolved(a), a.observed.value, i);
  }

  lemma GatePrepared(prepared: seq<Event>, changes: seq<Change>, commit: string, cfg: Config, a: Answers)
    ensures GateOutcome(prepared, changes, commit, cfg, a).prepared == prepared
  {
  }

  lemma PreparedOf(cfg: Config, a: Answers, memory: Memory)
    ensures var o := CycleRun(cfg, a, memory);
      && (!DiffReached(a) ==> o.prepared == FailedEarly(a).prepared)
      && (DiffReached(a) && DiffOf(a).Empty() ==> o.prepared == DifferedEvents(a))
      && (DiffReached(a) && !DiffOf(a).Empty() ==> o.prepared == DifferedEvents(a) + DriftsOf(a, memory))
  {
    if DiffReached(a) && !DiffOf(a).Empty() {
      GatePrepared(DifferedEvents(a) + DriftsOf(a, memory), PlanOf(cfg, a), a.commit.value, cfg, a);
    }
  }

  /** No drift among the events before the diff. */
  lemma EarlyTyped(a: Answers)
    ensures !DiffReached(a) ==> Below(FailedEarly(a).prepared, 3)
    ensures DiffReached(a) ==> Below(DifferedEvents(a), 5)
  {
    if a.commit.Some? && a.parsed.Some? && a.pins.Some? {
      ResolvedTyped(a);
      if a.observed.Some? { PreparedTyped(a, NEW_MEMORY); }
    }
  }

  lemma DriftIsPrepared(o: CycleOutcome, e: DriftEvent)
    requires PartsTyped(o) && DriftSeen(e) in o.Events()
    ensures DriftSeen(e) in o.prepared
  {
    EventsByPart(o, DriftSeen(e));
  }

  lemma NoDriftBelow(events: seq<Event>, rank: nat, e: DriftEvent)
    requires Below(events, rank) && rank <= 5
    ensures DriftSeen(e) !in events
  {
  }

  lemma DriftComesFromDiff(cfg: Config, a: Answers, memory: Memory, e: DriftEvent)
    requires DriftSeen(e) in CycleRun(cfg, a, memory).Events()
    ensures DiffReached(a) && SameCommit(memory, a.commit.value)
    ensures e in DriftEvents(DriftItems(DiffOf(a)), memory.hints, memory.lastCycleStart, a.arrivals)
  {
    RunTyped(cfg, a, memory);
    DriftIsPrepared(CycleRun(cfg, a, memory), e);
    PreparedOf(cfg, a, memory);
    EarlyTyped(a);
    if !DiffReached(a) {
      NoDriftBelow(FailedEarly(a).prepared, 3, e);
    } else {
      NoDriftBelow(DifferedEvents(a), 5, e);
      DriftsListed(a, memory, e);
    }
  }

  lemma DriftsListed(a: Answers, memory: Memory, e: DriftEvent)
    requires DiffReached(a) && DriftSeen(e) in DriftsOf(a, memory)
    ensures SameCommit(memory, a.commit.value)
    ensures e in DriftEvents(DriftItems(DiffOf(a)), memory.hints, memory.lastCycleStart, a.arrivals)
  {
    var k :| 0 <= k < |DriftsOf(a, memory)| && DriftsOf(a, memory)[k] == DriftSeen(e);
    assert DriftEvents(DriftItems(DiffOf(a)), memory.hints, memory.lastCycleStart, a.arrivals)[k] == e;
  }

  lemma {:induction false} ReportedFromUpdates(updates: seq<Update>, i: Item)
    requires i in ReportedUpdates(updates)
    ensures exists u :: u in updates && u.name == i.service
  {
    var n := |updates| - 1;
    if i in ReportedUpdates(updates[..n]) {
      ReportedFromUpdates(updates[..n], i);
      var u :| u in updates[..n] && u.name == i.service;
      assert u in updates;
    } else {
      assert updates[n] in updates;
    }
  }

  lemma DriftItemsDiverge(d: Changes, desired: Services, observed: Services, i: Item)
    requires Classifies(d, desired, observed) && i in DriftItems(d)
    ensures Diverges(i.service, desired, observed)
  {
    if i in Map(d.creates, RemovedItem) {
      var k :| 0 <= k < |d.creates| && Map(d.creates, RemovedItem)[k] == i;
      assert Map(d.creates, SpecName)[k] in Map(d.creates, SpecName);
    } else if i in ReportedUpdates(d.updates) {
      ReportedFromUpdates(d.updates, i);
      var u :| u in d.updates && u.name == i.service;
      var k :| 0 <= k < |d.updates| && d.updates[k] == u;
      assert Map(d.updates, UpdateName)[k] in Map(d.updates, UpdateName);
    } else {
      var k :| 0 <= k < |d.removes| && Map(d.removes, UnmanagedItem)[k] == i;
      assert Map(d.removes, SpecName)[k] in Map(d.removes, SpecName);
    }
  }

  /** No cycle touches a service without the managed label. */
  lemma CycleKeepsUnmanaged(cfg: Config, a: Answers, memory: Memory, r: Course)
    requires Runs(CycleRun(cfg, a, memory).gated, r) && WellKeyed(a)
    requires a.observed.Some? ==> ShowsManaged(a.observed.value, r.stores[0])
    ensures KeepsUnmanaged(r.stores[0], LastStore(r.stores))
  {
    var gated := CycleRun(cfg, a, memory).gated;
    if gated != [] {
      GatedFromPlan(cfg, a, memory);
      GatedUpdatesManaged(Resolved(a), cfg.prune, a.parsed.value.configs, a.verdicts.value, a.observed.value, r.stores[0]);
    }
    RunKeepsUnmanaged(gated, r.oks, r.stores, |gated|);
  }

  /** In a cycle towards these desired services, a refused mixed update leaves its service as it was, and diverging. */
  lemma CycleRefusesMixedUpdate(cfg: Config, a: Answers, memory: Memory, r: Course, n: string)
    requires Runs(CycleRun(cfg, a, memory).gated, r) && r.oks == a.oks && DiffReached(a) && WellKeyed(a)
    requires r.states[0] == a.observed.value
    requires n in Resolved(a) && n in a.observed.value && DiffersElsewhere(Resolved(a)[n], a.observed.value[n])
    requires n in r.stores[0] && !AttachmentsUnchanged(r.stores[0][n], Resolved(a)[n])
    ensures SameEntry(n, r.stores[0], LastStore(r.stores)) && SameAt(n, r.states[0], Final(r.states))
  {
    if CycleRun(cfg, a, memory).gated != [] {
      GatedFromPlan(cfg, a, memory);
      MixedUpdateRefused(Resolved(a), cfg.prune, a.parsed.value.configs, a.verdicts.value, r, n);
    }
  }

  lemma GatedFromPlan(cfg: Config, a: Answers, memory: Memory)
    requires CycleRun(cfg, a, memory).gated != []
    ensures DiffReached(a) && a.verdicts.Some?
    ensures CycleRun(cfg, a, memory).gated
            == Gated(PlanFor(Resolved(a), a.observed.value, cfg.prune, a.parsed.value.configs), a.verdicts.value)
  {
    assert PlanOf(cfg, a) == PlanFor(Resolved(a), a.observed.value, cfg.prune, a.parsed.value.configs);
  }

  /** The applier ran over exactly the gated plan, or not at all. */
  lemma CycleStepsOfRun(cfg: Config, a: Answers, memory: Memory, states: seq<Services>)
    requires StepRun(CycleRun(cfg, a, memory).gated, a.oks, states) && DiffReached(a)
    requires KeyedByName(a.parsed.value.services) && KeyedByName(a.observed.value) && states[0] == a.observed.value
    ensures Final(states) == states[0]
            || (a.verdicts.Some?
                && CycleSteps(Resolved(a), cfg.prune, a.parsed.value.configs, a.verdicts.value, a.oks, states))
  {
    if CycleRun(cfg, a, memory).gated != [] { GatedFromPlan(cfg, a, memory); }
  }

  /** Every cycle is a step of the runs over which divergence only shrinks. */
  lemma CycleNeverAddsDivergence(cfg: Config, a: Answers, memory: Memory, states: seq<Services>, n: string)
    requires StepRun(CycleRun(cfg, a, memory).gated, a.oks, states) && DiffReached(a)
    requires KeyedByName(a.parsed.value.services) && KeyedByName(a.observed.value) && states[0] == a.observed.value
    requires Diverges(n, Resolved(a), Final(states))
    ensures Diverges(n, Resolved(a), a.observed.value)
  {
    CycleStepsOfRun(cfg, a, memory, states);
    if Final(states) != states[0] {
      DivergenceNeverGrows(Resolved(a), cfg.prune, a.parsed.value.configs, a.verdicts.value, a.oks, states, n);
    }
  }

  /** A name that a cycle found diverging has left the diff exactly when the cycle's final change of it settles it. */
  lemma CycleLeavesExactly(cfg: Config, a: Answers, memory: Memory, states: seq<Services>, n: string)
    requires StepRun(CycleRun(cfg, a, memory).gated, a.oks, states) && DiffReached(a)
    requires KeyedByName(a.parsed.value.services) && KeyedByName(a.observed.value) && states[0] == a.observed.value
    requires Diverges(n, Resolved(a), a.observed.value)
    ensures !Diverges(n, Resolved(a), Final(states)) <==> NameSettles(CycleRun(cfg, a, memory).gated, a.oks, n)
  {
    if CycleRun(cfg, a, memory).gated != [] {
      GatedFromPlan(cfg, a, memory);
      LeavesDiffExactly(Resolved(a), cfg.prune, a.parsed.value.configs, a.verdicts.value, a.oks, states, n);
    }
  }

  lemma EmptyDiffAppliesNothing(cfg: Config, a: Answers, memory: Memory)
    requires DiffReached(a) && DiffOf(a).Empty()
    ensures CycleRun(cfg, a, memory).gated == []
  {
  }

  lemma UndisturbedGates(cfg: Config, a: Answers, memory: Memory)
    requires DiffReached(a) && !DiffOf(a).Empty() && PlanOf(cfg, a) != []
    requires a.verdicts.Some? && Undisturbed(PlanOf(cfg, a), a.verdicts.value, a.oks)
    ensures CycleRun(cfg, a, memory).gated != []
  {
    FullVerdictsKeepAll(PlanOf(cfg, a), a.verdicts.value);
  }

  /**
   With pruning on, a passing verdict for every change and every Apply succeeding, one cycle
   from any cluster leaves nothing to do, if and only if every desired service that diverged
   can be settled: then diffing the same desired services against the next snapshot is empty.
   */
  lemma UndisturbedCycleLeavesNothing(cfg: Config, a: Answers, memory: Memory, states: seq<Services>)
    requires StepRun(CycleRun(cfg, a, memory).gated, a.oks, states) && RunsClean(cfg, a)
    requires states[0] == a.observed.value && KeyedByName(Final(states))
    ensures Computed(Resolved(a), Final(states)).Empty() <==> AllSettle(Resolved(a), a.observed.value)
  {
    var desired, observed, configs := Resolved(a), a.observed.value, a.parsed.value.configs;
    if DiffOf(a).Empty() {
      EmptyDiffAppliesNothing(cfg, a, memory);
      EmptyDiffSettles(a);
    } else {
      PlanNonempty(a, cfg);
      UndisturbedGates(cfg, a, memory);
      GatedFromPlan(cfg, a, memory);
      assert CycleSteps(desired, true, configs, a.verdicts.value, a.oks, states);
      OneCycleFixpoint(desired, configs, a.verdicts.value, a.oks, states);
    }
  }

  lemma EmptyDiffSettles(a: Answers)
    requires DiffReached(a) && WellKeyed(a) && DiffOf(a).Empty()
    ensures AllSettle(Resolved(a), a.observed.value)
  {
    ComputeClassifies(Resolved(a), a.observed.value);
    EmptyMeansNoDivergence(DiffOf(a), Resolved(a), a.observed.value);
  }

  lemma PlanNonempty(a: Answers, cfg: Config)
    requires DiffReached(a) && KeyedByName(a.parsed.value.services) && KeyedByName(a.observed.value)
    requires cfg.prune && !DiffOf(a).Empty()
    ensures PlanOf(cfg, a) != []
  {
    ComputeClassifies(Resolved(a), a.observed.value);
    EmptyMeansNoDivergence(DiffOf(a), Resolved(a), a.observed.value);
    PlanShape(DiffOf(a), true, Resolved(a), a.observed.value);
    var n :| Diverges(n, Resolved(a), a.observed.value);
    assert n in NamesOf(Planned(DiffOf(a), true));
  }
}
