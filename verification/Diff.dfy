/** The differ (internal/diff/diff.go): which services differ, and in which fields. */
module Diff {
  import opened Basics
  import Engine
  import opened Ordering
  import opened Spec
  import opened Swarm

  datatype Field =
    | Image | Replicas | Env | Labels | DeployLabels | Networks | Ports | Healthcheck | Command | Entrypoint
    | Hostname | CapAdd | User | StopGracePeriod | Ulimits | Volumes | Configs | Secrets | Mode
    | RestartPolicy | Resources | Placement | UpdateConfig

  const FIRST_FIELDS := [Image, Replicas, Env]

  const OTHER_FIELDS := [
    Labels, DeployLabels, Networks, Ports, Healthcheck, Command, Entrypoint,
    Hostname, CapAdd, User, StopGracePeriod, Ulimits, Volumes, Configs, Secrets, Mode,
    RestartPolicy, Resources, Placement, UpdateConfig]

  /** The order in which differing fields are reported. */
  const ALL_FIELDS := FIRST_FIELDS + OTHER_FIELDS

  /** Every wanted pair is there; a missing key counts as holding "". */
  predicate MapContains(have: map<string, string>, want: map<string, string>) {
    forall k :: k in want ==> Lookup(have, k) == want[k]
  }

  /** maps.Equal and slices.Equal ignore nil against empty; pointers are compared in depth. */
  predicate Differs(f: Field, want: ServiceSpec, have: ServiceSpec) {
    match f
    case Image => want.image != have.image
    case Replicas => want.replicas != have.replicas
    case Env => Entries(want.env) != Entries(have.env)
    case Labels => Entries(want.labels) != Entries(have.labels)
    case DeployLabels => !MapContains(Entries(have.deployLabels), Entries(want.deployLabels))
    case Networks => Elems(want.networks) != Elems(have.networks)
    case Ports => Elems(want.ports) != Elems(have.ports)
    case Healthcheck => want.healthcheck != have.healthcheck
    case Command => Elems(want.command) != Elems(have.command)
    case Entrypoint => Elems(want.entrypoint) != Elems(have.entrypoint)
    case Hostname => want.hostname != have.hostname
    case CapAdd => Elems(want.capAdd) != Elems(have.capAdd)
    case User => want.user != have.user
    case StopGracePeriod => want.stopGracePeriod != have.stopGracePeriod
    case Ulimits => Elems(want.ulimits) != Elems(have.ulimits)
    case Volumes => Elems(want.volumes) != Elems(have.volumes)
    case Configs => Elems(want.configs) != Elems(have.configs)
    case Secrets => Elems(want.secrets) != Elems(have.secrets)
    case Mode => want.mode != have.mode
    case RestartPolicy => want.restartPolicy != have.restartPolicy
    case Resources => want.resources != have.resources
    case Placement => want.placement != have.placement
    case UpdateConfig => want.updateConfig != have.updateConfig
  }

  function Differing(fields: seq<Field>, want: ServiceSpec, have: ServiceSpec): (r: seq<Field>)
    ensures forall f :: f in r <==> f in fields && Differs(f, want, have)
  {
    if fields == [] then []
    else
      var init := Differing(fields[..|fields| - 1], want, have);
      var f := fields[|fields| - 1];
      assert fields == fields[..|fields| - 1] + [f];
      if Differs(f, want, have) then init + [f] else init
  }

  function ChangedFields(want: ServiceSpec, have: ServiceSpec): seq<Field> {
    Differing(ALL_FIELDS, want, have)
  }

  method CollectChangedFields(want: ServiceSpec, have: ServiceSpec) returns (changed: seq<Field>)
    ensures changed == ChangedFields(want, have)
  {
    var fields := ALL_FIELDS;
    changed := CollectDiffering(fields, want, have);
  }

  method CollectDiffering(fields: seq<Field>, want: ServiceSpec, have: ServiceSpec) returns (changed: seq<Field>)
    ensures changed == Differing(fields, want, have)
  {
    changed := [];
    for i := 0 to |fields|
      invariant changed == Differing(fields[..i], want, have)
    {
      assert fields[..i + 1][..i] == fields[..i];
      if Differs(fields[i], want, have) {
        changed := changed + [fields[i]];
      }
    }
    assert fields[..|fields|] == fields;
  }

  predicate SameScalars(want: ServiceSpec, have: ServiceSpec) {
    && want.image == have.image && want.replicas == have.replicas && want.mode == have.mode
    && want.hostname == have.hostname && want.user == have.user
    && want.stopGracePeriod == have.stopGracePeriod
  }

  predicate SamePointers(want: ServiceSpec, have: ServiceSpec) {
    && want.healthcheck == have.healthcheck && want.restartPolicy == have.restartPolicy
    && want.resources == have.resources && want.placement == have.placement
    && want.updateConfig == have.updateConfig
  }

  predicate SameMaps(want: ServiceSpec, have: ServiceSpec) {
    && Entries(want.env) == Entries(have.env)
    && Entries(want.labels) == Entries(have.labels)
    && MapContains(Entries(have.deployLabels), Entries(want.deployLabels))
  }

  predicate SameLists(want: ServiceSpec, have: ServiceSpec) {
    && Elems(want.networks) == Elems(have.networks) && Elems(want.ports) == Elems(have.ports)
    && Elems(want.command) == Elems(have.command) && Elems(want.entrypoint) == Elems(have.entrypoint)
    && Elems(want.capAdd) == Elems(have.capAdd) && Elems(want.ulimits) == Elems(have.ulimits)
    && Elems(want.volumes) == Elems(have.volumes)
    && Elems(want.configs) == Elems(have.configs) && Elems(want.secrets) == Elems(have.secrets)
  }

  /** have needs no update to serve as want: nil against empty aside, every field agrees. */
  predicate Matches(want: ServiceSpec, have: ServiceSpec) {
    SameScalars(want, have) && SamePointers(want, have) && SameMaps(want, have) && SameLists(want, have)
  }

  lemma MatchesLeavesNoDifference(want: ServiceSpec, have: ServiceSpec, f: Field)
    requires Matches(want, have)
    ensures !Differs(f, want, have)
  {
  }

  lemma NoDifferenceInLists(want: ServiceSpec, have: ServiceSpec)
    requires forall f :: !Differs(f, want, have)
    ensures SameLists(want, have)
  {
    assert !Differs(Networks, want, have) && !Differs(Ports, want, have) && !Differs(Command, want, have);
    assert !Differs(Entrypoint, want, have) && !Differs(CapAdd, want, have) && !Differs(Ulimits, want, have);
    assert !Differs(Volumes, want, have) && !Differs(Configs, want, have) && !Differs(Secrets, want, have);
  }

  lemma NoDifferenceElsewhere(want: ServiceSpec, have: ServiceSpec)
    requires forall f :: !Differs(f, want, have)
    ensures SameScalars(want, have) && SameMaps(want, have)
  {
    assert !Differs(Image, want, have) && !Differs(Replicas, want, have) && !Differs(Mode, want, have);
    assert !Differs(Hostname, want, have) && !Differs(User, want, have) && !Differs(StopGracePeriod, want, have);
    assert !Differs(Env, want, have) && !Differs(Labels, want, have) && !Differs(DeployLabels, want, have);
  }

  lemma NoDifferenceMatches(want: ServiceSpec, have: ServiceSpec)
    requires forall f :: !Differs(f, want, have)
    ensures Matches(want, have)
  {
    NoDifferenceInLists(want, have);
    NoDifferenceElsewhere(want, have);
    assert !Differs(Healthcheck, want, have) && !Differs(RestartPolicy, want, have);
    assert !Differs(Resources, want, have) && !Differs(Placement, want, have);
    assert !Differs(UpdateConfig, want, have);
  }

  lemma EveryFieldListed(f: Field)
    ensures f in ALL_FIELDS
  {
    match f
    case Image => assert ALL_FIELDS[0] == f;
    case Replicas => assert ALL_FIELDS[1] == f;
    case Env => assert ALL_FIELDS[2] == f;
    case Labels => assert ALL_FIELDS[3] == f;
    case DeployLabels => assert ALL_FIELDS[4] == f;
    case Networks => assert ALL_FIELDS[5] == f;
    case Ports => assert ALL_FIELDS[6] == f;
    case Healthcheck => assert ALL_FIELDS[7] == f;
    case Command => assert ALL_FIELDS[8] == f;
    case Entrypoint => assert ALL_FIELDS[9] == f;
    case Hostname => assert ALL_FIELDS[10] == f;
    case CapAdd => assert ALL_FIELDS[11] == f;
    case User => assert ALL_FIELDS[12] == f;
    case StopGracePeriod => assert ALL_FIELDS[13] == f;
    case Ulimits => assert ALL_FIELDS[14] == f;
    case Volumes => assert ALL_FIELDS[15] == f;
    case Configs => assert ALL_FIELDS[16] == f;
    case Secrets => assert ALL_FIELDS[17] == f;
    case Mode => assert ALL_FIELDS[18] == f;
    case RestartPolicy => assert ALL_FIELDS[19] == f;
    case Resources => assert ALL_FIELDS[20] == f;
    case Placement => assert ALL_FIELDS[21] == f;
    case UpdateConfig => assert ALL_FIELDS[22] == f;
  }

  lemma NoChangedFields(want: ServiceSpec, have: ServiceSpec)
    ensures ChangedFields(want, have) == [] <==> Matches(want, have)
    ensures forall f :: f in ChangedFields(want, have) <==> Differs(f, want, have)
  {
    var changed := ChangedFields(want, have);
    forall f ensures f in changed <==> Differs(f, want, have) {
      EveryFieldListed(f);
    }
    if Matches(want, have) && changed != [] {
      assert changed[0] in changed;
      MatchesLeavesNoDifference(want, have, changed[0]);
    }
    if changed == [] {
      assert forall f :: f !in changed;
      NoDifferenceMatches(want, have);
    }
  }

  // ---- Compute ----

  datatype Update = Update(name: string, live: ServiceSpec, wanted: ServiceSpec, changed: seq<Field>)

  datatype Changes = Changes(creates: seq<ServiceSpec>, updates: seq<Update>, removes: seq<ServiceSpec>) {
    predicate Empty() {
      creates == [] && updates == [] && removes == []
    }
  }

  /** The specs of the listed names that a has and b lacks. */
  function OnlyIn(names: seq<string>, a: Services, b: Services): seq<ServiceSpec> {
    if names == [] then []
    else
      var n := names[|names| - 1];
      OnlyIn(names[..|names| - 1], a, b) + if n in a && n !in b then [a[n]] else []
  }

  function UpdatesAmong(names: seq<string>, desired: Services, observed: Services): seq<Update> {
    if names == [] then []
    else
      var n := names[|names| - 1];
      UpdatesAmong(names[..|names| - 1], desired, observed)
        + if n in desired && n in observed && ChangedFields(desired[n], observed[n]) != []
          then [Update(n, observed[n], desired[n], ChangedFields(desired[n], observed[n]))] else []
  }

  ghost function Computed(desired: Services, observed: Services): Changes {
    Changes(OnlyIn(SortedOf(desired.Keys), desired, observed),
            UpdatesAmong(SortedOf(desired.Keys), desired, observed),
            OnlyIn(SortedOf(observed.Keys), observed, desired))
  }

  method CollectRemoves(desired: Services, observed: Services) returns (removes: seq<ServiceSpec>)
    ensures removes == OnlyIn(SortedOf(observed.Keys), observed, desired)
  {
    var names := SortedKeys(observed);
    removes := [];
    for i := 0 to |names|
      invariant removes == OnlyIn(names[..i], observed, desired)
    {
      OnlyInNext(names, i, observed, desired);
      assert names[i] in names;
      if names[i] !in desired {
        removes := removes + [observed[names[i]]];
      }
    }
    assert names[..|names|] == names;
  }

  lemma OnlyInNext(names: seq<string>, i: nat, a: Services, b: Services)
    requires i < |names|
    ensures OnlyIn(names[..i + 1], a, b)
            == OnlyIn(names[..i], a, b) + if names[i] in a && names[i] !in b then [a[names[i]]] else []
  {
    assert names[..i + 1][..i] == names[..i];
  }

  lemma UpdatesAmongNext(names: seq<string>, i: nat, desired: Services, observed: Services, changed: seq<Field>)
    requires i < |names| && names[i] in desired
    requires names[i] in observed ==> changed == ChangedFields(desired[names[i]], observed[names[i]])
    ensures UpdatesAmong(names[..i + 1], desired, observed)
            == UpdatesAmong(names[..i], desired, observed)
               + if names[i] in observed && changed != []
                 then [Update(names[i], observed[names[i]], desired[names[i]], changed)] else []
  {
    assert names[..i + 1][..i] == names[..i];
  }

  method CollectWanted(desired: Services, observed: Services)
    returns (creates: seq<ServiceSpec>, updates: seq<Update>)
    ensures creates == OnlyIn(SortedOf(desired.Keys), desired, observed)
    ensures updates == UpdatesAmong(SortedOf(desired.Keys), desired, observed)
  {
    var names := SortedKeys(desired);
    creates, updates := [], [];
    for i := 0 to |names|
      invariant creates == OnlyIn(names[..i], desired, observed)
      invariant updates == UpdatesAmong(names[..i], desired, observed)
    {
      var name := names[i];
      assert name in names;
      OnlyInNext(names, i, desired, observed);
      if name !in observed {
        UpdatesAmongNext(names, i, desired, observed, []);
        creates := creates + [desired[name]];
        continue;
      }
      var changed := CollectChangedFields(desired[name], observed[name]);
      UpdatesAmongNext(names, i, desired, observed, changed);
      if |changed| > 0 {
        updates := updates + [Update(name, observed[name], desired[name], changed)];
      }
    }
    assert names[..|names|] == names;
  }

  method Compute(desired: Services, observed: Services) returns (d: Changes)
    ensures d == Computed(desired, observed)
  {
    var creates, updates := CollectWanted(desired, observed);
    var removes := CollectRemoves(desired, observed);
    d := Changes(creates, updates, removes);
  }

  // ---- What a diff says about each name ----

  function SpecName(s: ServiceSpec): string {
    s.name
  }

  function UpdateName(u: Update): string {
    u.name
  }

  /** Reconciling desired onto observed must touch n. */
  ghost predicate Diverges(n: string, desired: Services, observed: Services) {
    if n in desired then n in observed ==> !Matches(desired[n], observed[n]) else n in observed
  }

  ghost predicate UpdateDescribes(u: Update, desired: Services, observed: Services) {
    && u.name in desired && u.name in observed
    && u.wanted == desired[u.name] && u.live == observed[u.name]
    && u.changed == ChangedFields(u.wanted, u.live)
  }

  lemma IncreasingNext(names: seq<string>, listed: seq<string>, n: string)
    requires Increasing(names + [n]) && Increasing(listed) && forall x :: x in listed ==> x in names
    ensures Increasing(listed + [n])
  {
    forall i | 0 <= i < |listed| ensures Lt(listed[i], n) {
      assert listed[i] in names;
      var j :| 0 <= j < |names| && names[j] == listed[i];
      assert Lt((names + [n])[j], (names + [n])[|names|]);
    }
  }

  lemma MapNext<A, B>(l: seq<A>, x: A, f: A -> B)
    ensures Map(l + [x], f) == Map(l, f) + [f(x)]
  {
  }

  lemma {:induction false} OnlyInNames(names: seq<string>, a: Services, b: Services)
    requires Increasing(names) && KeyedByName(a)
    ensures Increasing(Map(OnlyIn(names, a, b), SpecName))
    ensures forall n :: n in Map(OnlyIn(names, a, b), SpecName) <==> n in names && n in a && n !in b
    ensures forall s :: s in OnlyIn(names, a, b) ==> s.name in a && s == a[s.name]
  {
    if names != [] {
      var init, n := names[..|names| - 1], names[|names| - 1];
      assert names == init + [n];
      OnlyInNames(init, a, b);
      if n in a && n !in b {
        var l := OnlyIn(init, a, b);
        assert OnlyIn(names, a, b) == l + [a[n]];
        MapNext(l, a[n], SpecName);
        IncreasingNext(init, Map(l, SpecName), n);
      } else {
        assert OnlyIn(names, a, b) == OnlyIn(init, a, b);
      }
    }
  }

  lemma {:induction false} UpdatesAmongNames(names: seq<string>, desired: Services, observed: Services)
    requires Increasing(names)
    ensures Increasing(Map(UpdatesAmong(names, desired, observed), UpdateName))
    ensures forall n :: n in Map(UpdatesAmong(names, desired, observed), UpdateName)
                        <==> n in names && n in desired && n in observed && !Matches(desired[n], observed[n])
    ensures forall u :: u in UpdatesAmong(names, desired, observed) ==> UpdateDescribes(u, desired, observed)
  {
    if names != [] {
      var init, n := names[..|names| - 1], names[|names| - 1];
      assert names == init + [n];
      UpdatesAmongNames(init, desired, observed);
      var l := UpdatesAmong(init, desired, observed);
      if n in desired && n in observed { NoChangedFields(desired[n], observed[n]); }
      if n in desired && n in observed && !Matches(desired[n], observed[n]) {
        var u := Update(n, observed[n], desired[n], ChangedFields(desired[n], observed[n]));
        assert UpdatesAmong(names, desired, observed) == l + [u];
        MapNext(l, u, UpdateName);
        IncreasingNext(init, Map(l, UpdateName), n);
      } else {
        assert UpdatesAmong(names, desired, observed) == l;
      }
    }
  }

  /** Each list is strictly sorted by name, and each name falls in exactly the list its divergence calls for. */
  ghost predicate Classifies(d: Changes, desired: Services, observed: Services) {
    && Increasing(Map(d.creates, SpecName))
    && Increasing(Map(d.updates, UpdateName))
    && Increasing(Map(d.removes, SpecName))
    && (forall n :: n in Map(d.creates, SpecName) <==> n in desired && n !in observed)
    && (forall n :: n in Map(d.updates, UpdateName)
                    <==> n in desired && n in observed && !Matches(desired[n], observed[n]))
    && (forall n :: n in Map(d.removes, SpecName) <==> n in observed && n !in desired)
    && (forall s :: s in d.creates ==> s.name in desired && s == desired[s.name])
    && (forall u :: u in d.updates ==> UpdateDescribes(u, desired, observed))
    && (forall s :: s in d.removes ==> s.name in observed && s == observed[s.name])
  }

  lemma ComputeClassifies(desired: Services, observed: Services)
    requires KeyedByName(desired) && KeyedByName(observed)
    ensures Classifies(Computed(desired, observed), desired, observed)
  {
    OnlyInNames(SortedOf(desired.Keys), desired, observed);
    UpdatesAmongNames(SortedOf(desired.Keys), desired, observed);
    OnlyInNames(SortedOf(observed.Keys), observed, desired);
  }

  /** A diff is empty exactly when no name diverges. */
  lemma EmptyMeansNoDivergence(d: Changes, desired: Services, observed: Services)
    requires Classifies(d, desired, observed)
    ensures d.Empty() <==> forall n :: !Diverges(n, desired, observed)
  {
    var c, u, r := Map(d.creates, SpecName), Map(d.updates, UpdateName), Map(d.removes, SpecName);
    if c != [] {
      assert c[0] in c;
      assert Diverges(c[0], desired, observed);
    } else if u != [] {
      assert u[0] in u;
      assert Diverges(u[0], desired, observed);
    } else if r != [] {
      assert r[0] in r;
      assert Diverges(r[0], desired, observed);
    } else {
      forall n ensures !Diverges(n, desired, observed) {
        assert n !in c && n !in u && n !in r;
      }
    }
  }

  // ---- Specs no engine state can satisfy ----

  lemma MatchesObservable(want: ServiceSpec, have: ServiceSpec)
    requires Matches(want, have) && Observable(have)
    ensures Observable(want.(deployLabels := None))
  {
  }

  /**
   Only a spec observable outside its deploy labels can ever match something read back.  In
   particular the default of one replica rules out every mode but replicated, and a config
   mode of 0444, an environment key with '=' or an empty placement diverges on every cycle.
   */
  lemma MatchesNeedsObservable(want: ServiceSpec, e: Engine.EngineSpec, names: map<string, string>)
    requires Matches(want, ReadBack(e, names))
    ensures Observable(want.(deployLabels := None))
  {
    ReadBackObservable(e, names);
    MatchesObservable(want, ReadBack(e, names));
  }

  ghost function Missing(desired: Services, observed: Services): set<string> {
    set n | n in desired && n !in observed
  }

  ghost function Outdated(desired: Services, observed: Services): set<string> {
    set n | n in desired && n in observed && !Matches(desired[n], observed[n])
  }

  /** A diff is as long as there are missing, modified and unwanted services. */
  lemma DiffCounted(d: Changes, desired: Services, observed: Services)
    requires Classifies(d, desired, observed)
    ensures |d.creates| == |Missing(desired, observed)| && |d.updates| == |Outdated(desired, observed)|
    ensures |d.removes| == |Missing(observed, desired)|
  {
    IncreasingCount(Map(d.creates, SpecName), Missing(desired, observed));
    IncreasingCount(Map(d.updates, UpdateName), Outdated(desired, observed));
    IncreasingCount(Map(d.removes, SpecName), Missing(observed, desired));
  }
}
