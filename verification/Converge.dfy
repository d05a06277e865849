/** The convergence wait (internal/observe/converged.go) and how it relates to the differ. */
module Converge {
  import opened Basics
  import opened Diff
  import Engine
  import opened Normal
  import opened Ordering
  import opened Spec
  import opened Swarm

  // ---- Clause (a) ----

  /** The deploy labels desired does not name are deleted in place: what is left stays non-nil. */
  function Pruned(got: ServiceSpec, desired: ServiceSpec): ServiceSpec {
    if got.deployLabels.None? then got
    else
      var kept := map k | k in got.deployLabels.value && k in Entries(desired.deployLabels)
                    :: got.deployLabels.value[k];
      got.(deployLabels := Some(kept))
  }

  /** reflect.DeepEqual after pruning. */
  predicate ClauseA(got: ServiceSpec, desired: ServiceSpec) {
    Pruned(got, desired) == desired
  }

  /** Whatever passes clause (a) shows no difference to the differ. */
  lemma ClauseAMatches(got: ServiceSpec, desired: ServiceSpec)
    requires ClauseA(got, desired)
    ensures Matches(desired, got)
  {
    assert Entries(Pruned(got, desired).deployLabels) == Entries(desired.deployLabels);
  }

  /** Deleting every live deploy label leaves an empty map, which is not nil. */
  predicate StrippedToEmpty(got: ServiceSpec, desired: ServiceSpec) {
    desired.deployLabels.None? && got.deployLabels.Some?
  }

  /** A wanted deploy label is missing from the service. */
  ghost predicate LabelMissing(got: ServiceSpec, desired: ServiceSpec) {
    exists k :: k in Entries(desired.deployLabels) && k !in Entries(got.deployLabels)
  }

  lemma MatchingTightSpecsAgree(got: ServiceSpec, desired: ServiceSpec)
    requires NoEmpties(got) && NoEmpties(desired) && got.name == desired.name && Matches(desired, got)
    ensures got.(deployLabels := desired.deployLabels) == desired
  {
  }

  /** On matching normal forms clause (a) fails in exactly two cases. */
  lemma ClauseAExactly(got: ServiceSpec, desired: ServiceSpec)
    requires NoEmpties(got) && NoEmpties(desired) && got.name == desired.name && Matches(desired, got)
    ensures ClauseA(got, desired) <==> !StrippedToEmpty(got, desired) && !LabelMissing(got, desired)
  {
    MatchingTightSpecsAgree(got, desired);
    var want, have := Entries(desired.deployLabels), Entries(got.deployLabels);
    if !StrippedToEmpty(got, desired) && !LabelMissing(got, desired) && got.deployLabels.Some? {
      var kept := map k | k in have && k in want :: have[k];
      assert kept == want;
    }
    if ClauseA(got, desired) && got.deployLabels.Some? {
      assert Pruned(got, desired).deployLabels.value == want;
      assert desired.deployLabels.Some?;
    }
  }

  // ---- One poll ----

  datatype Task = Task(wantedRunning: bool, running: bool, image: Option<string>)

  /** An inspected service; no task list means the listing call failed. */
  datatype ServiceView = ServiceView(spec: Engine.EngineSpec, updateState: Option<string>, tasks: Option<seq<Task>>)

  /** What the engine answers during one poll. */
  datatype Poll = Poll(services: map<string, ServiceView>, unreachable: set<string>, networks: Option<map<string, string>>)

  datatype Target = Target(name: string, desired: Option<ServiceSpec>)

  function CountRunning(tasks: seq<Task>, image: string): nat {
    if tasks == [] then 0
    else
      var t := tasks[|tasks| - 1];
      CountRunning(tasks[..|tasks| - 1], image)
        + if t.wantedRunning && t.running && t.image == Some(image) then 1 else 0
  }

  /** The tasks that are meant to run, do run, and do so on the image. */
  ghost function RunningOn(tasks: seq<Task>, image: string): set<nat> {
    set i | 0 <= i < |tasks| && tasks[i].wantedRunning && tasks[i].running && tasks[i].image == Some(image)
  }

  lemma {:induction false} CountRunningMeaning(tasks: seq<Task>, image: string)
    ensures CountRunning(tasks, image) == |RunningOn(tasks, image)|
  {
    if tasks != [] {
      var n := |tasks| - 1;
      CountRunningMeaning(tasks[..n], image);
      var before := RunningOn(tasks[..n], image);
      assert RunningOn(tasks, image) == before + RunningOn(tasks, image) * {n};
    }
  }

  method CountRunningTasks(tasks: seq<Task>, image: string) returns (running: nat)
    ensures running == CountRunning(tasks, image)
  {
    running := 0;
    for i := 0 to |tasks|
      invariant running == CountRunning(tasks[..i], image)
    {
      assert tasks[..i + 1][..i] == tasks[..i];
      if !tasks[i].wantedRunning || !tasks[i].running { continue; }
      if tasks[i].image != Some(image) { continue; }
      running := running + 1;
    }
    assert tasks[..|tasks|] == tasks;
  }

  /** Clauses (a), (b) and (c) of a service that must be live. */
  predicate Live(v: ServiceView, desired: ServiceSpec, names: map<string, string>) {
    && ClauseA(ReadBack(v.spec, names), desired)
    && (v.updateState.Some? ==> v.updateState.value == "completed")
    && v.tasks.Some?
    && CountRunning(v.tasks.value, desired.image) == desired.replicas
  }

  predicate Met(poll: Poll, t: Target) {
    && t.name !in poll.unreachable
    && if t.desired.None? then t.name !in poll.services
       else poll.networks.Some? && t.name in poll.services
            && Live(poll.services[t.name], t.desired.value, poll.networks.value)
  }

  /** Deletes the unwanted labels; a nil map has none. */
  method PruneLabels(got: ServiceSpec, desired: ServiceSpec) returns (r: ServiceSpec)
    ensures r == Pruned(got, desired)
  {
    if got.deployLabels.None? { return got; }
    var have, wanted := got.deployLabels.value, Entries(desired.deployLabels);
    var labels, rest := have, have.Keys;
    while rest != {}
      invariant rest <= have.Keys
      invariant labels == map k | k in have && (k in rest || k in wanted) :: have[k]
      decreases |rest|
    {
      var k :| k in rest;
      if k !in wanted {
        labels := labels - {k};
      }
      rest := rest - {k};
    }
    r := got.(deployLabels := Some(labels));
    assert labels == Pruned(got, desired).deployLabels.value;
  }

  method CheckTarget(poll: Poll, t: Target, names: map<string, string>) returns (ok: bool)
    requires t.desired.Some? ==> poll.networks == Some(names)
    ensures ok == Met(poll, t)
  {
    if t.name in poll.unreachable { return false; }
    if t.desired.None? { return t.name !in poll.services; }
    if t.name !in poll.services { return false; }
    var svc := poll.services[t.name];
    var desired := t.desired.value;
    var got := FromSwarm(svc.spec, names);
    got := PruneLabels(got, desired);
    if got != desired { return false; }
    if svc.updateState.Some? && svc.updateState.value != "completed" { return false; }
    if svc.tasks.None? { return false; }
    var running := CountRunningTasks(svc.tasks.value, desired.image);
    ok := running == desired.replicas;
  }

  function Unmet(poll: Poll, targets: seq<Target>): (r: seq<string>)
    ensures r == [] <==> forall t :: t in targets ==> Met(poll, t)
  {
    if targets == [] then []
    else
      var init := Unmet(poll, targets[..|targets| - 1]);
      var t := targets[|targets| - 1];
      assert targets == targets[..|targets| - 1] + [t];
      if Met(poll, t) then init else init + [t.name]
  }

  /** Of all targets exactly the unmet ones are named, each once and in order. */
  ghost predicate NamesUnmet(poll: Poll, targets: seq<Target>, names: seq<string>, at: seq<nat>) {
    && Positions(at, |targets|) && (forall i: nat :: i in at <==> i < |targets| && !Met(poll, targets[i]))
    && |names| == |at| && forall k :: 0 <= k < |at| ==> names[k] == targets[at[k]].name
  }

  lemma {:induction false} UnmetExactly(poll: Poll, targets: seq<Target>) returns (at: seq<nat>)
    ensures NamesUnmet(poll, targets, Unmet(poll, targets), at)
  {
    if targets == [] { return []; }
    var n := |targets| - 1;
    var before := UnmetExactly(poll, targets[..n]);
    NamesUnmetNext(poll, targets[..n], targets[n], Unmet(poll, targets[..n]), before);
    assert targets == targets[..n] + [targets[n]];
    at := if Met(poll, targets[n]) then before else before + [n];
  }

  lemma NamesUnmetNext(poll: Poll, init: seq<Target>, t: Target, names: seq<string>, at: seq<nat>)
    requires NamesUnmet(poll, init, names, at)
    ensures Met(poll, t) ==> NamesUnmet(poll, init + [t], names, at)
    ensures !Met(poll, t) ==> NamesUnmet(poll, init + [t], names + [t.name], at + [|init|])
  {
    PositionsNext(at, |init|);
  }

  /** The names of the unconverged targets, in target order. */
  method PollTargets(poll: Poll, targets: seq<Target>) returns (pending: seq<string>)
    ensures pending == Unmet(poll, targets)
  {
    pending := [];
    for i := 0 to |targets|
      invariant pending == Unmet(poll, targets[..i])
    {
      assert targets[..i + 1][..i] == targets[..i];
      var t := targets[i];
      if t.desired.Some? && poll.networks.None? {
        pending := pending + [t.name];
        continue;
      }
      var ok := CheckTarget(poll, t, if poll.networks.Some? then poll.networks.value else map[]);
      if !ok { pending := pending + [t.name]; }
    }
    assert targets[..|targets|] == targets;
  }

  // ---- The wait ----

  predicate TargetLe(a: Target, b: Target) {
    Le(a.name, b.name)
  }

  function CreateTarget(s: ServiceSpec): Target { Target(s.name, Some(s)) }
  function UpdateTarget(u: Update): Target { Target(u.name, Some(u.wanted)) }
  function RemoveTarget(s: ServiceSpec): Target { Target(s.name, None) }

  function Targets(d: Changes): seq<Target> {
    Map(d.creates, CreateTarget) + Map(d.updates, UpdateTarget) + Map(d.removes, RemoveTarget)
  }

  ghost predicate AllMet(poll: Poll, d: Changes) {
    forall t :: t in Targets(d) ==> Met(poll, t)
  }

  /** Some poll before the deadline finds every target met, or there is nothing to wait for. */
  ghost predicate Settles(polls: seq<Poll>, d: Changes) {
    Targets(d) == [] || exists i :: 0 <= i < |polls| && AllMet(polls[i], d)
  }

  /** The targets in the order in which the waiting list names them. */
  method SortedTargets(d: Changes) returns (targets: seq<Target>)
    ensures (targets == [] <==> Targets(d) == []) && forall t :: t in targets <==> t in Targets(d)
    ensures forall i, j :: 0 <= i < j < |targets| ==> Le(targets[i].name, targets[j].name)
  {
    var creates := Collect(d.creates, CreateTarget);
    var updates := Collect(d.updates, UpdateTarget);
    var removes := Collect(d.removes, RemoveTarget);
    targets := creates + updates + removes;
    if |targets| == 0 { return; }
    LePreorder();
    SortKeepsElements(targets, TargetLe);
    SortOrders(targets, TargetLe);
    assert Sorted(Sort(targets, TargetLe), TargetLe);
    assert targets[0] in targets;
    targets := Sort(targets, TargetLe);
  }

  lemma UnmetNone(poll: Poll, targets: seq<Target>, d: Changes)
    requires forall t :: t in targets <==> t in Targets(d)
    ensures Unmet(poll, targets) == [] <==> AllMet(poll, d)
  {
  }

  /** One poll of the wait. */
  method PollAll(poll: Poll, targets: seq<Target>, ghost d: Changes) returns (met: bool)
    requires forall t :: t in targets <==> t in Targets(d)
    ensures met <==> AllMet(poll, d)
  {
    var pending := PollTargets(poll, targets);
    UnmetNone(poll, targets, d);
    met := |pending| == 0;
  }

  /** None of the first n polls finds every target met. */
  ghost predicate NoneMet(polls: seq<Poll>, n: nat, d: Changes) {
    n <= |polls| && forall j :: 0 <= j < n ==> !AllMet(polls[j], d)
  }

  lemma NoneMetNext(polls: seq<Poll>, n: nat, d: Changes)
    requires NoneMet(polls, n, d) && n < |polls| && !AllMet(polls[n], d)
    ensures NoneMet(polls, n + 1, d)
  {
  }

  /** Polls until every target is met; running out of polls is the deadline. */
  method AwaitConverged(polls: seq<Poll>, d: Changes) returns (converged: bool, at: nat)
    ensures converged <==> Settles(polls, d)
    ensures Targets(d) == [] ==> converged && at == 0
    ensures Targets(d) != [] && converged ==> at < |polls| && AllMet(polls[at], d)
    ensures Targets(d) != [] ==> NoneMet(polls, if converged then at else |polls|, d)
  {
    var targets := SortedTargets(d);
    if |targets| == 0 { return true, 0; }
    for i := 0 to |polls|
      invariant NoneMet(polls, i, d)
    {
      var met := PollAll(polls[i], targets, d);
      if met { return true, i; }
      NoneMetNext(polls, i, d);
    }
    return false, |polls|;
  }

  /** After a successful wait the differ has nothing left to say about any awaited name. */
  lemma AwaitedNamesMatch(poll: Poll, d: Changes)
    requires AllMet(poll, d)
    ensures forall s :: s in d.creates ==>
              poll.networks.Some? && s.name in poll.services
              && Matches(s, ReadBack(poll.services[s.name].spec, poll.networks.value))
    ensures forall u :: u in d.updates ==>
              poll.networks.Some? && u.name in poll.services
              && Matches(u.wanted, ReadBack(poll.services[u.name].spec, poll.networks.value))
    ensures forall s :: s in d.removes ==> s.name !in poll.services
  {
    var c, u, r := Map(d.creates, CreateTarget), Map(d.updates, UpdateTarget), Map(d.removes, RemoveTarget);
    forall s | s in d.creates
      ensures Met(poll, CreateTarget(s))
    {
      var i :| 0 <= i < |d.creates| && d.creates[i] == s;
      assert Targets(d)[i] == CreateTarget(s);
    }
    forall s | s in d.updates
      ensures Met(poll, UpdateTarget(s))
    {
      var i :| 0 <= i < |d.updates| && d.updates[i] == s;
      assert Targets(d)[|c| + i] == UpdateTarget(s);
    }
    forall s | s in d.removes
      ensures Met(poll, RemoveTarget(s))
    {
      var i :| 0 <= i < |d.removes| && d.removes[i] == s;
      assert Targets(d)[|c| + |u| + i] == RemoveTarget(s);
    }
    forall v: ServiceView, s: ServiceSpec, names | Live(v, s, names)
      ensures Matches(s, ReadBack(v.spec, names))
    {
      ClauseAMatches(ReadBack(v.spec, names), s);
    }
  }

  /** A service in any mode but replicated converges only while none of its tasks runs. */
  lemma NonReplicatedConvergesOnlyIdle(v: ServiceView, s: ServiceSpec, names: map<string, string>)
    requires Live(v, s, names) && s.mode != "replicated"
    ensures s.replicas == 0 && CountRunning(v.tasks.value, s.image) == 0
  {
    ClauseAMatches(ReadBack(v.spec, names), s);
    MatchesNeedsObservable(s, v.spec, names);
  }

  /** What a poll must show of a service before the wait lets go of it. */
  ghost predicate ShowsDone(poll: Poll, n: string, desired: ServiceSpec) {
    && n !in poll.unreachable && poll.networks.Some? && n in poll.services
    && var v := poll.services[n];
      && ClauseA(ReadBack(v.spec, poll.networks.value), desired)
      && (v.updateState == None || v.updateState == Some("completed"))
      && v.tasks.Some? && |RunningOn(v.tasks.value, desired.image)| == desired.replicas
  }

  /**
   A service is awaited until, in one poll, it reads back as desired, no update of it is in any
   state but completed, and exactly as many tasks as desired run on the desired image; a
   removal until the service is known to be gone.
   */
  lemma MetExactly(poll: Poll, t: Target)
    ensures t.desired.Some? ==> (Met(poll, t) <==> ShowsDone(poll, t.name, t.desired.value))
    ensures t.desired.None? ==> (Met(poll, t) <==> t.name !in poll.unreachable && t.name !in poll.services)
  {
    if t.desired.Some? && t.name in poll.services && poll.services[t.name].tasks.Some? {
      CountRunningMeaning(poll.services[t.name].tasks.value, t.desired.value.image);
    }
  }

  lemma TargetsListed(d: Changes)
    ensures forall t :: t in Targets(d) <==>
              || (exists s :: s in d.creates && t == Target(s.name, Some(s)))
              || (exists u :: u in d.updates && t == Target(u.name, Some(u.wanted)))
              || (exists s :: s in d.removes && t == Target(s.name, None))
  {
    var c, u, r := Map(d.creates, CreateTarget), Map(d.updates, UpdateTarget), Map(d.removes, RemoveTarget);
    assert forall i :: 0 <= i < |d.creates| ==> c[i] in c && d.creates[i] in d.creates;
    assert forall i :: 0 <= i < |d.updates| ==> u[i] in u && d.updates[i] in d.updates;
    assert forall i :: 0 <= i < |d.removes| ==> r[i] in r && d.removes[i] in d.removes;
    assert forall t :: t in Targets(d) <==> t in c || t in u || t in r;
  }

  /** What a poll that ends the wait has shown, of every service it was for. */
  lemma AwaitedExactly(poll: Poll, d: Changes)
    ensures AllMet(poll, d)
       <==> && (forall s :: s in d.creates ==> ShowsDone(poll, s.name, s))
            && (forall u :: u in d.updates ==> ShowsDone(poll, u.name, u.wanted))
            && (forall s :: s in d.removes ==> s.name !in poll.unreachable && s.name !in poll.services)
  {
    TargetsListed(d);
    forall t: Target
      ensures t.desired.Some? ==> (Met(poll, t) <==> ShowsDone(poll, t.name, t.desired.value))
      ensures t.desired.None? ==> (Met(poll, t) <==> t.name !in poll.unreachable && t.name !in poll.services)
    {
      MetExactly(poll, t);
    }
    assert forall s :: s in d.creates ==> Target(s.name, Some(s)) in Targets(d);
    assert forall u :: u in d.updates ==> Target(u.name, Some(u.wanted)) in Targets(d);
    assert forall s :: s in d.removes ==> Target(s.name, None) in Targets(d);
  }
}
