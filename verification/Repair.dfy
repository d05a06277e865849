/** Provoking a drift and matching its repair in the telemetry stream (internal/harness/drift.go). */
module Repair {
  import opened Basics
  import opened Drift
  import opened Loop
  import opened Plan
  import opened Swarm
  import opened Text
  import opened Trace

  // ---- The matcher ----

  predicate AppliesTo(r: Record, target: string) {
    r.event.ApplySeen? && r.event.service == target
  }

  /** The run that applied to the target last; "" when none has. */
  function Tracked(stream: seq<Record>, target: string): string {
    if stream == [] then ""
    else
      var last := stream[|stream| - 1];
      if AppliesTo(last, target) then last.runId else Tracked(stream[..|stream| - 1], target)
  }

  /** The matcher, having read all before it, takes the i-th record. */
  predicate MatchesAt(stream: seq<Record>, target: string, i: nat) {
    && i < |stream| && stream[i].event.ConvergedSeen?
    && Tracked(stream[..i], target) != "" && Tracked(stream[..i], target) == stream[i].runId
  }

  ghost predicate FirstMatch(stream: seq<Record>, target: string, r: Record) {
    exists i: nat :: MatchesAt(stream, target, i) && r == stream[i] && forall j: nat :: j < i ==> !MatchesAt(stream, target, j)
  }

  /** Reads until a match; None when the channel closes without one. */
  method AwaitRepair(stream: seq<Record>, target: string) returns (r: Option<Record>)
    ensures r.None? ==> forall i: nat :: !MatchesAt(stream, target, i)
    ensures r.Some? ==> FirstMatch(stream, target, r.value)
  {
    var applyRunId := "";
    for i := 0 to |stream|
      invariant applyRunId == Tracked(stream[..i], target)
      invariant forall j: nat :: j < i ==> !MatchesAt(stream, target, j)
    {
      var e := stream[i];
      assert stream[..i + 1][..i] == stream[..i];
      if AppliesTo(e, target) {
        applyRunId := e.runId;
      } else if e.event.ConvergedSeen? && applyRunId != "" && e.runId == applyRunId {
        assert MatchesAt(stream, target, i);
        return Some(e);
      }
    }
    return None;
  }

  lemma {:induction false} TrackedMeaning(stream: seq<Record>, target: string)
    ensures (forall j :: 0 <= j < |stream| ==> !AppliesTo(stream[j], target))
            || exists k :: 0 <= k < |stream| && LastApplyAt(stream, target, k)
    ensures (forall j :: 0 <= j < |stream| ==> !AppliesTo(stream[j], target)) ==> Tracked(stream, target) == ""
    ensures forall k :: 0 <= k < |stream| && LastApplyAt(stream, target, k) ==> Tracked(stream, target) == stream[k].runId
  {
    if stream != [] {
      var n := |stream| - 1;
      var init := stream[..n];
      TrackedMeaning(init, target);
      if AppliesTo(stream[n], target) {
        assert LastApplyAt(stream, target, n);
      } else {
        forall k | 0 <= k < n ensures LastApplyAt(init, target, k) <==> LastApplyAt(stream, target, k) {
        }
        assert forall j :: 0 <= j < n ==> init[j] == stream[j];
      }
    }
  }

  ghost predicate LastApplyAt(stream: seq<Record>, target: string, k: nat) {
    k < |stream| && AppliesTo(stream[k], target) && forall j :: k < j < |stream| ==> !AppliesTo(stream[j], target)
  }

  // ---- Streams of cycles ----

  ghost predicate SameRun(log: seq<Record>, i: nat, j: nat) {
    i < |log| && j < |log| && log[i].runId == log[j].runId
  }

  /** Cycles follow one another, and each is well formed. */
  ghost predicate InTurn(log: seq<Record>) {
    && (forall i :: 0 <= i < |log| ==> log[i].runId != "")
    && (forall i: nat, j: nat, k: nat :: i <= j <= k && SameRun(log, i, k) ==> SameRun(log, i, j))
    && (forall i: nat, j: nat :: i < j && SameRun(log, i, j) ==> Rank(log[i].event) <= Rank(log[j].event))
    && (forall i: nat, j: nat :: SameRun(log, i, j) && log[i].event.ConvergedSeen? && log[j].event.ApplySeen?
          ==> log[j].event.outcome == Ok)
  }

  /** Everything one cycle was given, under its run ID. */
  datatype Cycled = Cycled(runId: string, cfg: Config, answers: Answers, memory: Memory, now: int)
  {
    ghost function Outcome(): CycleOutcome {
      CycleRun(cfg, answers, memory)
    }
  }

  /** What the recorder holds after the cycles, one after the other. */
  ghost function LogOf(cycles: seq<Cycled>): seq<Record> {
    if cycles == [] then []
    else
      var last := cycles[|cycles| - 1];
      LogOf(cycles[..|cycles| - 1]) + Stamped(last.runId, last.Outcome().Events())
  }

  ghost predicate OwnRunIds(cycles: seq<Cycled>) {
    && (forall i :: 0 <= i < |cycles| ==> cycles[i].runId != "")
    && (forall i, j :: 0 <= i < j < |cycles| ==> cycles[i].runId != cycles[j].runId)
  }

  ghost predicate CleanAt(events: seq<Event>, i: nat, j: nat) {
    i < |events| && j < |events| && events[i].ConvergedSeen? && events[j].ApplySeen? ==> events[j].outcome == Ok
  }

  lemma WellFormedAt(events: seq<Event>, i: nat, j: nat)
    requires WellFormed(events)
    ensures CleanAt(events, i, j)
  {
    if i < |events| && j < |events| && events[i].ConvergedSeen? {
      assert events[i] in events && events[j] in events;
    }
  }

  lemma AppendCycle(log: seq<Record>, runId: string, events: seq<Event>)
    requires InTurn(log) && runId != "" && WellFormed(events)
    requires forall i :: 0 <= i < |log| ==> log[i].runId != runId
    ensures InTurn(log + Stamped(runId, events))
  {
    var both, n := log + Stamped(runId, events), |log|;
    forall i: nat, j: nat ensures SameRun(both, i, j) ==> (i < n && j < n && SameRun(log, i, j)) || (i >= n && j >= n) {
    }
    forall i: nat, j: nat | SameRun(both, i, j) && both[i].event.ConvergedSeen? && both[j].event.ApplySeen?
      ensures both[j].event.outcome == Ok
    {
      if i >= n { WellFormedAt(events, i - n, j - n); }
    }
    forall i: nat, j: nat, k: nat | i <= j <= k && SameRun(both, i, k) ensures SameRun(both, i, j) {
      if i < n { assert SameRun(log, i, k); }
    }
  }

  /** A record belongs to a cycle: its run and one of its events. */
  ghost predicate RecordOf(r: Record, c: Cycled) {
    r.runId == c.runId && r.event in c.Outcome().Events()
  }

  ghost predicate Logged(r: Record, cycles: seq<Cycled>) {
    exists k :: 0 <= k < |cycles| && RecordOf(r, cycles[k])
  }

  lemma StampedRecord(c: Cycled, r: Record)
    requires r in Stamped(c.runId, c.Outcome().Events())
    ensures RecordOf(r, c)
  {
  }

  lemma {:induction false} LogRecords(cycles: seq<Cycled>, r: Record)
    requires r in LogOf(cycles)
    ensures Logged(r, cycles)
  {
    var n := |cycles| - 1;
    if r in LogOf(cycles[..n]) {
      LogRecords(cycles[..n], r);
      var k :| 0 <= k < n && RecordOf(r, cycles[..n][k]);
      assert RecordOf(r, cycles[k]);
    } else {
      StampedRecord(cycles[n], r);
    }
  }

  lemma EarlierRunsDiffer(cycles: seq<Cycled>, r: Record)
    requires OwnRunIds(cycles) && cycles != [] && r in LogOf(cycles[..|cycles| - 1])
    ensures r.runId != cycles[|cycles| - 1].runId
  {
    var init := cycles[..|cycles| - 1];
    LogRecords(init, r);
    var k :| 0 <= k < |init| && RecordOf(r, init[k]);
    assert cycles[k].runId != cycles[|cycles| - 1].runId;
  }

  lemma {:induction false} LogInTurn(cycles: seq<Cycled>)
    requires OwnRunIds(cycles)
    ensures InTurn(LogOf(cycles))
  {
    if cycles != [] {
      var last, init := cycles[|cycles| - 1], cycles[..|cycles| - 1];
      LogInTurn(init);
      TraceGrammar(last.cfg, last.answers, last.memory);
      var log := LogOf(init);
      forall i | 0 <= i < |log| ensures log[i].runId != last.runId {
        EarlierRunsDiffer(cycles, log[i]);
      }
      AppendCycle(log, last.runId, last.Outcome().Events());
    }
  }

  lemma WindowInTurn(log: seq<Record>, from: nat, to: nat)
    requires InTurn(log) && from <= to <= |log|
    ensures InTurn(log[from..to])
  {
    var w := log[from..to];
    forall i: nat, j: nat ensures SameRun(w, i, j) <==> i < |w| && j < |w| && SameRun(log, from + i, from + j) {
    }
  }

  // ---- Matching is sound and complete ----

  /** The i-th record is convergence of a cycle that, in this stream, applied to the target. */
  ghost predicate RepairedAt(stream: seq<Record>, target: string, i: nat) {
    && i < |stream| && stream[i].event.ConvergedSeen?
    && exists j :: 0 <= j < |stream| && AppliesTo(stream[j], target) && stream[j].runId == stream[i].runId
  }

  lemma MatchIsRepair(stream: seq<Record>, target: string, i: nat)
    requires InTurn(stream) && i < |stream|
    ensures MatchesAt(stream, target, i) <==> RepairedAt(stream, target, i)
  {
    var past := stream[..i];
    TrackedMeaning(past, target);
    if RepairedAt(stream, target, i) {
      var j :| 0 <= j < |stream| && AppliesTo(stream[j], target) && stream[j].runId == stream[i].runId;
      assert SameRun(stream, i, j) && SameRun(stream, j, i);
      assert j < i && past[j] == stream[j];
      var k :| 0 <= k < |past| && LastApplyAt(past, target, k);
      assert j <= k <= i && SameRun(stream, j, k);
    }
  }

  /**
   The cycle of this run submitted every change it was left with after the gate, and all
   succeeded; the target was among them, and some poll found it as desired.
   */
  ghost predicate Repairs(c: Cycled, runId: string, target: string) {
    && c.runId == runId && DiffReached(c.answers)
    && EveryApplyOk(c.Outcome(), c.answers.oks) && AllApplied(c.Outcome().Events())
    && target in NamesOf(c.Outcome().gated)
    && FoundAsDesired(c.answers.polls, target, Resolved(c.answers))
  }

  lemma SameRunSameCycle(cycles: seq<Cycled>, k: nat, l: nat)
    requires OwnRunIds(cycles) && k < |cycles| && l < |cycles| && cycles[k].runId == cycles[l].runId
    ensures k == l
  {
  }

  lemma ConvergedCycleRepairs(c: Cycled, target: string, converged: Event, applied: Event)
    requires WellKeyed(c.answers) && converged in c.Outcome().Events() && converged.ConvergedSeen?
    requires applied in c.Outcome().Events() && applied.ApplySeen? && applied.service == target
    ensures Repairs(c, c.runId, target)
  {
    assert HasConverged(c.Outcome().Events());
    TraceGrammar(c.cfg, c.answers, c.memory);
    ApplyNamesChange(c.cfg, c.answers, c.memory, applied);
    ConvergedFinds(c.cfg, c.answers, c.memory, target);
  }

  /**
   Wherever a reader opens and leaves the telemetry of sequential cycles with run IDs of their
   own, the matcher takes exactly the converged events of cycles that applied to the target in
   its sight.  Every change of such a cycle, in sight or not, was applied without error, and at
   some poll of its wait the target read back as desired, or was gone if not desired.
   */
  lemma RepairMatching(cycles: seq<Cycled>, from: nat, to: nat, target: string, i: nat)
    requires OwnRunIds(cycles) && from <= to <= |LogOf(cycles)| && i < to - from
    ensures var stream := LogOf(cycles)[from..to];
      MatchesAt(stream, target, i) <==> RepairedAt(stream, target, i)
    ensures var stream := LogOf(cycles)[from..to];
      MatchesAt(stream, target, i) ==>
        exists k :: 0 <= k < |cycles| && (WellKeyed(cycles[k].answers) ==> Repairs(cycles[k], stream[i].runId, target))
                    && cycles[k].runId == stream[i].runId && AllApplied(cycles[k].Outcome().Events())
  {
    var log := LogOf(cycles);
    var stream := log[from..to];
    LogInTurn(cycles);
    WindowInTurn(log, from, to);
    MatchIsRepair(stream, target, i);
    if MatchesAt(stream, target, i) {
      var j :| 0 <= j < |stream| && AppliesTo(stream[j], target) && stream[j].runId == stream[i].runId;
      assert stream[i] == log[from + i] && stream[j] == log[from + j];
      LogRecords(cycles, stream[i]);
      LogRecords(cycles, stream[j]);
      var k :| 0 <= k < |cycles| && RecordOf(stream[i], cycles[k]);
      var l :| 0 <= l < |cycles| && RecordOf(stream[j], cycles[l]);
      SameRunSameCycle(cycles, k, l);
      var c := cycles[k];
      CleanWhenConverged(c, stream[i].event);
      if WellKeyed(c.answers) { ConvergedCycleRepairs(c, target, stream[i].event, stream[j].event); }
    }
  }

  lemma CleanWhenConverged(c: Cycled, converged: Event)
    requires converged in c.Outcome().Events() && converged.ConvergedSeen?
    ensures AllApplied(c.Outcome().Events())
  {
    assert HasConverged(c.Outcome().Events());
    TraceGrammar(c.cfg, c.answers, c.memory);
  }

  // ---- Provoking an environment drift ----

  function Setting(key: string): string {
    key + "="
  }

  /** Replaces the first entry for the key, or appends one. */
  function SetEnv(env: seq<string>, key: string, value: string): seq<string> {
    if env == [] then [EnvEntry(key, value)]
    else if HasPrefix(env[0], Setting(key)) then [EnvEntry(key, value)] + env[1..]
    else [env[0]] + SetEnv(env[1..], key, value)
  }

  method DriftSetEnv(env: seq<string>, key: string, value: string) returns (out: seq<string>)
    ensures out == SetEnv(env, key, value)
  {
    out := env;
    for i := 0 to |env|
      invariant out == env
      invariant SetEnv(env, key, value) == env[..i] + SetEnv(env[i..], key, value)
    {
      if HasPrefix(out[i], Setting(key)) {
        out := out[i := EnvEntry(key, value)];
        return;
      }
      assert env[i..][1..] == env[i + 1..];
    }
    out := out + [EnvEntry(key, value)];
  }

  /** The entries after the first one for the key; none when there is no such entry. */
  function After(env: seq<string>, key: string): seq<string> {
    if env == [] then []
    else if HasPrefix(env[0], Setting(key)) then env[1..]
    else After(env[1..], key)
  }

  lemma {:induction false} DecodeConcat(a: seq<string>, b: seq<string>)
    ensures DecodeEnv(a + b) == DecodeEnv(a) + DecodeEnv(b)
    decreases |b|
  {
    if b == [] {
      assert a + b == a;
    } else {
      DecodeConcat(a, b[..|b| - 1]);
      assert (a + b)[..|a + b| - 1] == a + b[..|b| - 1];
    }
  }

  lemma PrefixGivesKey(e: string, key: string)
    requires '=' !in key && HasPrefix(e, Setting(key))
    ensures CutKey(e, '=') == key
  {
    assert e == key + ['='] + e[|key| + 1..];
    CutOfJoin(key, e[|key| + 1..], '=');
  }

  /** A later entry for the key hides the one that was set. */
  predicate Shadowed(env: seq<string>, key: string, value: string) {
    var later := DecodeEnv(After(env, key));
    key in later && later[key] != value
  }

  /** Setting splits the entries at the first one for the key. */
  lemma {:induction false} SetEnvSplits(env: seq<string>, key: string, value: string)
    returns (before: seq<string>, replaced: Option<string>)
    ensures replaced.Some? ==> HasPrefix(replaced.value, Setting(key)) && env == before + [replaced.value] + After(env, key)
    ensures replaced.None? ==> env == before && After(env, key) == []
    ensures SetEnv(env, key, value) == before + [EnvEntry(key, value)] + After(env, key)
  {
    if env == [] {
      before, replaced := [], None;
    } else if HasPrefix(env[0], Setting(key)) {
      before, replaced := [], Some(env[0]);
    } else {
      before, replaced := SetEnvSplits(env[1..], key, value);
      before := [env[0]] + before;
      assert env == [env[0]] + env[1..];
    }
  }

  lemma DecodeSplit(before: seq<string>, e: string, later: seq<string>)
    ensures DecodeEnv(before + [e] + later)
            == DecodeEnv(before) + map[CutKey(e, '=') := CutValue(e, '=')] + DecodeEnv(later)
  {
    DecodeConcat(before + [e], later);
    DecodeOneMore(before, e);
    Updated(DecodeEnv(before), CutKey(e, '='), CutValue(e, '='));
  }

  lemma DecodeOneMore(before: seq<string>, e: string)
    ensures DecodeEnv(before + [e]) == DecodeEnv(before)[CutKey(e, '=') := CutValue(e, '=')]
  {
    assert (before + [e])[..|before|] == before;
  }

  lemma Updated(m: map<string, string>, k: string, v: string)
    ensures m[k := v] == m + map[k := v]
  {
  }

  lemma Overlaid(b: map<string, string>, mid: map<string, string>, a: map<string, string>, key: string, value: string)
    requires mid.Keys <= {key}
    ensures var was, now := b + mid + a, b + map[key := value] + a;
      now - {key} == was - {key} && (now == was[key := value] <==> !(key in a && a[key] != value))
  {
    var was, now := b + mid + a, b + map[key := value] + a;
    assert now[key] == if key in a then a[key] else value;
    assert was[key := value][key] == value;
  }

  /** Setting a variable changes just that variable, and takes effect unless a later entry hides it. */
  lemma SetEnvTakesEffect(env: seq<string>, key: string, value: string)
    requires '=' !in key
    ensures DecodeEnv(SetEnv(env, key, value)) - {key} == DecodeEnv(env) - {key}
    ensures DecodeEnv(SetEnv(env, key, value)) == DecodeEnv(env)[key := value] <==> !Shadowed(env, key, value)
  {
    CutOfJoin(key, value, '=');
    var before, replaced := SetEnvSplits(env, key, value);
    var later := After(env, key);
    DecodeSplit(before, EnvEntry(key, value), later);
    if replaced.Some? {
      DecodeSplit(before, replaced.value, later);
      PrefixGivesKey(replaced.value, key);
      Overlaid(DecodeEnv(before), map[key := CutValue(replaced.value, '=')], DecodeEnv(later), key, value);
    } else {
      Overlaid(DecodeEnv(before), map[], DecodeEnv(later), key, value);
    }
  }
}
