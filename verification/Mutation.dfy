/**
 The read-modify-write of an update (internal/apply/apply.go): the spec it stores, what
 that keeps of the live one, how it reads back, and when it is refused.
 */
module Mutation {
  import opened Basics
  import opened Converge
  import opened Diff
  import Engine
  import opened Normal
  import opened Ordering
  import opened Spec
  import opened Swarm
  import opened Text

  type EngineSpec = Engine.EngineSpec

  type Unmodelled = Engine.Unmodelled

  /** A spec the engine gives back as submitted. */
  ghost predicate Deployable(s: ServiceSpec) {
    InNormalForm(s) && Representable(s)
  }

  /** The service is swarmgate's own. */
  predicate Managed(e: EngineSpec) {
    Lookup(e.labels, MANAGED_LABEL) == "true"
  }

  // ---- Attachments resolved to IDs ----

  function WithConfigIDs(refs: seq<Engine.ConfigReference>, ids: map<string, string>): seq<Engine.ConfigReference> {
    seq(|refs|, i requires 0 <= i < |refs| => refs[i].(configID := Lookup(ids, refs[i].configName)))
  }

  function WithSecretIDs(refs: seq<Engine.SecretReference>, ids: map<string, string>): seq<Engine.SecretReference> {
    seq(|refs|, i requires 0 <= i < |refs| => refs[i].(secretID := Lookup(ids, refs[i].secretName)))
  }

  /** A container spec with its config and secret references resolved. */
  function WithReferences(cs: Engine.ContainerSpec, configIDs: map<string, string>, secretIDs: map<string, string>)
    : Engine.ContainerSpec
  {
    cs.(configs := WithConfigIDs(cs.configs, configIDs), secrets := WithSecretIDs(cs.secrets, secretIDs))
  }

  function WithIDs(e: EngineSpec, configIDs: map<string, string>, secretIDs: map<string, string>): EngineSpec
    requires e.task.container.Some?
  {
    e.(task := e.task.(container := Some(WithReferences(e.task.container.value, configIDs, secretIDs))))
  }

  /** What create submits: networks by ID, attachments resolved. */
  ghost function Prepared(s: ServiceSpec, ids: map<string, string>,
                          configIDs: map<string, string>, secretIDs: map<string, string>): EngineSpec {
    WithIDs(Attached(Submitted(s), ids), configIDs, secretIDs)
  }

  lemma PreparedReadsBack(s: ServiceSpec, ids: map<string, string>, configIDs: map<string, string>,
                          secretIDs: map<string, string>, names: map<string, string>)
    ensures ReadBack(Prepared(s, ids, configIDs, secretIDs), names) == ReadBack(Attached(Submitted(s), ids), names)
  {
    var cs := WriteContainer(s);
    assert Map(WithConfigIDs(cs.configs, configIDs), ReadConfig) == Map(cs.configs, ReadConfig);
    assert Map(WithSecretIDs(cs.secrets, secretIDs), ReadSecret) == Map(cs.secrets, ReadSecret);
  }

  // ---- The merged spec ----

  /** swarmgate.* labels are replaced wholesale; the rest are kept unless desired sets them. */
  function MergedLabels(current: map<string, string>, desired: map<string, string>): map<string, string> {
    (map k | k in current && !HasPrefix(k, LABEL_PREFIX) :: current[k]) + desired
  }

  function MergedContainer(current: Option<Engine.ContainerSpec>, desired: Engine.ContainerSpec): Engine.ContainerSpec {
    desired.(other := if current.Some? then current.value.other else map[])
  }

  function MergedEndpoint(current: Option<Engine.EndpointSpec>, desired: Option<Engine.EndpointSpec>)
    : Option<Engine.EndpointSpec>
  {
    var ports := if desired.Some? then desired.value.ports else [];
    if current.Some? then Some(current.value.(ports := ports))
    else if ports != [] then Some(Engine.EndpointSpec(ports, ""))
    else None
  }

  function Mutated(current: EngineSpec, desired: EngineSpec): EngineSpec
    requires desired.task.container.Some?
  {
    current.(
      name := desired.name,
      labels := MergedLabels(current.labels, desired.labels),
      task := desired.task.(
        container := Some(MergedContainer(current.task.container, desired.task.container.value)),
        other := current.task.other),
      mode := desired.mode,
      updateConfig := desired.updateConfig,
      endpoint := MergedEndpoint(current.endpoint, desired.endpoint))
  }

  /** What has been merged of the live labels when those in rest are still to come. */
  function Kept(current: map<string, string>, rest: set<string>): map<string, string> {
    map k | k in current && k !in rest && !HasPrefix(k, LABEL_PREFIX) :: current[k]
  }

  lemma KeptNext(current: map<string, string>, rest: set<string>, k: string)
    requires k in rest && k in current
    ensures Kept(current, rest - {k})
         == if HasPrefix(k, LABEL_PREFIX) then Kept(current, rest) else Kept(current, rest)[k := current[k]]
  {
  }

  lemma KeptEnds(current: map<string, string>, desired: map<string, string>)
    ensures Kept(current, current.Keys) == map[] && Kept(current, {}) + desired == MergedLabels(current, desired)
  {
  }

  method MergeLabels(current: map<string, string>, desired: map<string, string>) returns (merged: map<string, string>)
    ensures merged == MergedLabels(current, desired)
  {
    merged := map[];
    var rest := current.Keys;
    KeptEnds(current, desired);
    while rest != {}
      invariant rest <= current.Keys
      invariant merged == Kept(current, rest)
      decreases |rest|
    {
      var k :| k in rest;
      KeptNext(current, rest, k);
      if !HasPrefix(k, LABEL_PREFIX) {
        merged := merged[k := current[k]];
      }
      rest := rest - {k};
    }
    merged := CopyLabels(merged, desired);
  }

  /** Starts from the inspected spec and overwrites the modelled fields one by one. */
  method Overwrite(current: EngineSpec, desired: EngineSpec) returns (mutated: EngineSpec)
    requires desired.task.container.Some?
    ensures mutated == Mutated(current, desired)
  {
    mutated := current;
    mutated := mutated.(name := desired.name);
    var labels := MergeLabels(mutated.labels, desired.labels);
    mutated := mutated.(labels := labels);
    var cs := OverwriteContainer(mutated.task.container, desired.task.container.value);
    mutated := mutated.(task := mutated.task.(container := Some(cs)));
    mutated := mutated.(mode := desired.mode);
    mutated := mutated.(task := mutated.task.(networks := desired.task.networks));
    mutated := mutated.(task := mutated.task.(restartPolicy := desired.task.restartPolicy));
    mutated := mutated.(task := mutated.task.(resources := desired.task.resources));
    mutated := mutated.(task := mutated.task.(placement := desired.task.placement));
    mutated := mutated.(updateConfig := desired.updateConfig);
    var ports: seq<Engine.PortConfig> := [];
    if desired.endpoint.Some? { ports := desired.endpoint.value.ports; }
    if mutated.endpoint.Some? {
      mutated := mutated.(endpoint := Some(mutated.endpoint.value.(ports := ports)));
    } else if |ports| > 0 {
      mutated := mutated.(endpoint := Some(Engine.EndpointSpec(ports, "")));
    }
  }

  method OverwriteContainer(current: Option<Engine.ContainerSpec>, desired: Engine.ContainerSpec)
    returns (cs: Engine.ContainerSpec)
    ensures cs == MergedContainer(current, desired)
  {
    cs := Engine.EMPTY_CONTAINER;
    if current.Some? { cs := current.value; }
    cs := cs.(image := desired.image);
    cs := cs.(env := desired.env);
    cs := cs.(healthcheck := desired.healthcheck);
    cs := cs.(command := desired.command, args := desired.args);
    cs := cs.(hostname := desired.hostname, user := desired.user);
    cs := cs.(capabilityAdd := desired.capabilityAdd);
    cs := cs.(stopGracePeriod := desired.stopGracePeriod);
    cs := cs.(ulimits := desired.ulimits, mounts := desired.mounts);
    cs := cs.(configs := desired.configs, secrets := desired.secrets);
  }

  /** Both specs read alike except for the deploy labels the live service brings along. */
  lemma MutatedReadsBack(current: EngineSpec, desired: EngineSpec, names: map<string, string>)
    requires desired.task.container.Some?
    ensures ReadBack(Mutated(current, desired), names)
            == ReadBack(desired, names).(
                 deployLabels := NilIfEmptyDict(Some(ReadDeployLabels(MergedLabels(current.labels, desired.labels)))))
  {
    MutatedReadsRaw(current, desired, names);
    StackLabelKept(current.labels, desired.labels);
    NormalDeployLabels(Lookup(desired.labels, STACK_LABEL), Raw(desired, names),
                       Some(ReadDeployLabels(MergedLabels(current.labels, desired.labels))));
  }

  lemma StackLabelKept(current: map<string, string>, desired: map<string, string>)
    ensures Lookup(MergedLabels(current, desired), STACK_LABEL) == Lookup(desired, STACK_LABEL)
  {
    LabelNamesPrefixed();
  }

  lemma NormalDeployLabels(stack: string, s: ServiceSpec, d: Dict)
    ensures NormalForm(stack, s.(deployLabels := d)) == NormalForm(stack, s).(deployLabels := NilIfEmptyDict(d))
  {
  }

  lemma MutatedReadsRaw(current: EngineSpec, desired: EngineSpec, names: map<string, string>)
    requires desired.task.container.Some?
    ensures Raw(Mutated(current, desired), names)
            == Raw(desired, names).(deployLabels := Some(ReadDeployLabels(MergedLabels(current.labels, desired.labels))))
  {
    var merged := Mutated(current, desired);
    assert PrefixedLabels(merged.labels) == PrefixedLabels(desired.labels);
    assert ReadPorts(merged.endpoint) == ReadPorts(desired.endpoint);
  }

  /** The labels an operator set on the live service that the model would read as deploy labels. */
  ghost predicate HasForeignLabel(current: EngineSpec) {
    exists k :: k in current.labels && DeployLabelKey(k)
  }

  lemma MergedDeployLabels(current: EngineSpec, s: ServiceSpec)
    requires Deployable(s)
    ensures var merged := ReadDeployLabels(MergedLabels(current.labels, Entries(s.labels) + Entries(s.deployLabels)));
      && (forall k :: k in merged <==> k in Entries(s.deployLabels) || (k in current.labels && DeployLabelKey(k)))
      && (forall k :: k in Entries(s.deployLabels) ==> merged[k] == Entries(s.deployLabels)[k])
      && (forall k :: k in merged && k !in Entries(s.deployLabels) ==> merged[k] == current.labels[k])
  {
    LabelNamesPrefixed();
    assert forall k :: k in Entries(s.labels) ==> HasPrefix(k, LABEL_PREFIX);
  }

  /** The desired deploy labels, along with those the live service has of its own. */
  ghost predicate DeployMerged(d: Dict, current: EngineSpec, s: ServiceSpec) {
    && (forall k :: k in Entries(d) <==> k in Entries(s.deployLabels) || (k in current.labels && DeployLabelKey(k)))
    && (forall k :: k in Entries(s.deployLabels) ==> Entries(d)[k] == Entries(s.deployLabels)[k])
    && TightDict(d)
  }

  lemma ReadDeployMerged(current: EngineSpec, s: ServiceSpec)
    requires Deployable(s)
    ensures DeployMerged(NilIfEmptyDict(Some(ReadDeployLabels(MergedLabels(current.labels,
                           Entries(s.labels) + Entries(s.deployLabels))))), current, s)
  {
    MergedDeployLabels(current, s);
  }

  /** An update is read back as the desired spec plus the operator's own labels. */
  lemma UpdateReadsBack(current: EngineSpec, s: ServiceSpec, ids: map<string, string>, configIDs: map<string, string>,
                        secretIDs: map<string, string>, names: map<string, string>)
    requires Deployable(s) && NetworksReturn(s, ids, names)
    ensures var back := ReadBack(Mutated(current, Prepared(s, ids, configIDs, secretIDs)), names);
      back.(deployLabels := s.deployLabels) == s && DeployMerged(back.deployLabels, current, s)
  {
    var d := Prepared(s, ids, configIDs, secretIDs);
    PreparedReadsBack(s, ids, configIDs, secretIDs, names);
    RoundTripHolds(s, ids, names);
    MutatedReadsBack(current, d, names);
    ReadDeployMerged(current, s);
  }

  /** After an update the differ finds nothing left to change. */
  lemma UpdateSettles(current: EngineSpec, s: ServiceSpec, ids: map<string, string>, configIDs: map<string, string>,
                      secretIDs: map<string, string>, names: map<string, string>)
    requires Deployable(s) && NetworksReturn(s, ids, names)
    ensures Matches(s, ReadBack(Mutated(current, Prepared(s, ids, configIDs, secretIDs)), names))
  {
    UpdateReadsBack(current, s, ids, configIDs, secretIDs, names);
  }

  lemma DeployableConverges(current: EngineSpec, s: ServiceSpec, ids: map<string, string>, configIDs: map<string, string>,
                            secretIDs: map<string, string>, names: map<string, string>)
    requires Deployable(s) && NetworksReturn(s, ids, names)
    ensures ClauseA(ReadBack(Mutated(current, Prepared(s, ids, configIDs, secretIDs)), names), s)
            <==> s.deployLabels.Some? || !HasForeignLabel(current)
  {
    var back := ReadBack(Mutated(current, Prepared(s, ids, configIDs, secretIDs)), names);
    UpdateReadsBack(current, s, ids, configIDs, secretIDs, names);
    UpdateSettles(current, s, ids, configIDs, secretIDs, names);
    NormalFormTight(Entries(s.labels)[STACK_LABEL], s);
    assert NoEmpties(back);
    ClauseAExactly(back, s);
    assert !LabelMissing(back, s);
    if s.deployLabels.None? { ForeignLabelsRead(current, back.deployLabels); }
  }

  lemma ForeignLabelsRead(current: EngineSpec, d: Dict)
    requires TightDict(d) && forall k :: k in Entries(d) <==> k in current.labels && DeployLabelKey(k)
    ensures d.Some? <==> HasForeignLabel(current)
  {
    if d.Some? {
      var k :| k in d.value;
      assert k in current.labels && DeployLabelKey(k);
    }
    if HasForeignLabel(current) {
      var k :| k in current.labels && DeployLabelKey(k);
      assert k in Entries(d);
    }
  }

  /** The deploy labels of what is read back are never reserved ones. */
  lemma ReadDeployLabelsPlain(e: EngineSpec, names: map<string, string>)
    ensures forall k :: k in Entries(ReadBack(e, names).deployLabels) ==> DeployLabelKey(k)
  {
  }

  /** What passes clause (a) shows that s itself reads back as submitted. */
  lemma AcceptedReturns(s: ServiceSpec, ids: map<string, string>, names: map<string, string>, back: ServiceSpec)
    requires InNormalForm(s) && ClauseA(back, s) && forall k :: k in Entries(back.deployLabels) ==> DeployLabelKey(k)
    requires back == ReadBack(Attached(Submitted(s), ids), names).(deployLabels := back.deployLabels)
    ensures ReadBack(Attached(Submitted(s), ids), names) == s
  {
    forall k | k in Entries(s.deployLabels) ensures DeployLabelKey(k) {
      assert k in Entries(Pruned(back, s).deployLabels);
    }
    LabelsReturn(Entries(s.labels)[STACK_LABEL], s);
    assert back.(deployLabels := s.deployLabels) == s;
  }

  /**
   The wait after an update is another matter than the differ: for every normal form, clause (a)
   holds exactly when the spec reads back as submitted at all, and desired sets deploy labels of
   its own or the live service carried none.
   */
  lemma UpdateConvergesExactly(current: EngineSpec, s: ServiceSpec, ids: map<string, string>,
                               configIDs: map<string, string>, secretIDs: map<string, string>,
                               names: map<string, string>)
    requires InNormalForm(s)
    ensures ClauseA(ReadBack(Mutated(current, Prepared(s, ids, configIDs, secretIDs)), names), s)
            <==> Representable(s) && NetworksReturn(s, ids, names) && (s.deployLabels.Some? || !HasForeignLabel(current))
  {
    var p := Prepared(s, ids, configIDs, secretIDs);
    var back := ReadBack(Mutated(current, p), names);
    if ClauseA(back, s) {
      PreparedReadsBack(s, ids, configIDs, secretIDs, names);
      MutatedReadsBack(current, p, names);
      ReadDeployLabelsPlain(Mutated(current, p), names);
      AcceptedReturns(s, ids, names, back);
      RoundTripNeeds(s, ids, names);
    }
    if Deployable(s) && NetworksReturn(s, ids, names) {
      DeployableConverges(current, s, ids, configIDs, secretIDs, names);
    }
  }

  /** The same for a create, which brings along no labels but its own. */
  lemma CreateConvergesExactly(s: ServiceSpec, ids: map<string, string>, configIDs: map<string, string>,
                               secretIDs: map<string, string>, names: map<string, string>)
    requires InNormalForm(s)
    ensures ClauseA(ReadBack(Prepared(s, ids, configIDs, secretIDs), names), s)
            <==> Representable(s) && NetworksReturn(s, ids, names)
  {
    PreparedReadsBack(s, ids, configIDs, secretIDs, names);
    SubmittedConvergesExactly(s, ids, names);
  }

  lemma SubmittedConvergesExactly(s: ServiceSpec, ids: map<string, string>, names: map<string, string>)
    requires InNormalForm(s)
    ensures ClauseA(ReadBack(Attached(Submitted(s), ids), names), s) <==> Representable(s) && NetworksReturn(s, ids, names)
  {
    var back := ReadBack(Attached(Submitted(s), ids), names);
    if ClauseA(back, s) {
      ReadDeployLabelsPlain(Attached(Submitted(s), ids), names);
      AcceptedReturns(s, ids, names, back);
    }
    RoundTrip(s, ids, names);
    AcceptsItself(s);
  }

  lemma AcceptsItself(s: ServiceSpec)
    ensures ClauseA(s, s)
  {
    if s.deployLabels.Some? { assert Pruned(s, s).deployLabels.value == s.deployLabels.value; }
  }

  // ---- Whose service it is afterwards ----

  /** The managed label is among what is submitted, and set to "true". */
  predicate CarriesOwnership(s: ServiceSpec) {
    Lookup(Entries(s.labels) + Entries(s.deployLabels), MANAGED_LABEL) == "true"
  }

  /** A create or an update leaves swarmgate the owner exactly when the submitted labels say so, whoever owned the service. */
  lemma OwnershipExactly(current: EngineSpec, s: ServiceSpec, ids: map<string, string>, configIDs: map<string, string>,
                         secretIDs: map<string, string>)
    ensures var p := Prepared(s, ids, configIDs, secretIDs);
      (Managed(p) <==> CarriesOwnership(s)) && (Managed(Mutated(current, p)) <==> CarriesOwnership(s))
  {
    LabelNamesPrefixed();
  }

  /** create's guard looks at the labels alone: a deploy label can still take the ownership away. */
  lemma GuardedOwnershipExactly(s: ServiceSpec)
    requires Lookup(Entries(s.labels), MANAGED_LABEL) == "true"
    ensures CarriesOwnership(s)
       <==> (MANAGED_LABEL in Entries(s.deployLabels) ==> Entries(s.deployLabels)[MANAGED_LABEL] == "true")
  {
  }

  // ---- What an update keeps, and what it drops ----

  /** Everything a spec holds that the model has no field for; lists contribute their nonempty bags. */
  datatype Outside = Outside(
    service: Unmodelled, task: Unmodelled, container: Unmodelled, resolution: string, lossy: Lossy)

  /** The part of it that lies within fields an update overwrites. */
  datatype Lossy = Lossy(
    healthcheck: Unmodelled, limits: Unmodelled, reservations: Unmodelled, preferences: Unmodelled,
    updateConfig: Unmodelled, job: Unmodelled, mounts: set<Unmodelled>, foreignMounts: set<Engine.Mount>,
    networks: set<Unmodelled>, ports: set<Unmodelled>, configs: set<Unmodelled>, secrets: set<Unmodelled>,
    secretModes: set<nat>)

  const NOTHING_TO_LOSE := Lossy(map[], map[], map[], map[], map[], map[], {}, {}, {}, {}, {}, {}, {})

  /** Mounts the model cannot express. */
  predicate Foreign(m: Engine.Mount) {
    m.kind != "volume" && m.kind != "bind"
  }

  function LiveMounts(e: EngineSpec): seq<Engine.Mount> {
    if e.task.container.Some? then e.task.container.value.mounts else []
  }

  function LivePorts(e: EngineSpec): seq<Engine.PortConfig> {
    if e.endpoint.Some? then e.endpoint.value.ports else []
  }

  function HealthExtras(e: EngineSpec): Unmodelled {
    if e.task.container.Some? && e.task.container.value.healthcheck.Some?
    then e.task.container.value.healthcheck.value.other else map[]
  }

  function LimitExtras(r: Option<Engine.ResourceRequirements>): Unmodelled {
    if r.Some? && r.value.limits.Some? then r.value.limits.value.other else map[]
  }

  function FileExtras(f: Option<Engine.FileTarget>): Unmodelled {
    if f.Some? then f.value.other else map[]
  }

  ghost function LossyOf(e: EngineSpec): Lossy {
    Lossy(
      HealthExtras(e),
      LimitExtras(e.task.resources),
      if e.task.resources.Some? then e.task.resources.value.reservations else map[],
      if e.task.placement.Some? then e.task.placement.value.preferences else map[],
      if e.updateConfig.Some? then e.updateConfig.value.other else map[],
      if e.mode.replicatedJob.Some? then e.mode.replicatedJob.value else map[],
      set m | m in LiveMounts(e) && !Foreign(m) && m.other != map[] :: m.other,
      set m | m in LiveMounts(e) && Foreign(m),
      set n | n in e.task.networks && n.other != map[] :: n.other,
      set p | p in LivePorts(e) && p.other != map[] :: p.other,
      set c | c in LiveConfigs(e) && FileExtras(c.file) + c.other != map[] :: FileExtras(c.file) + c.other,
      set c | c in LiveSecrets(e) && FileExtras(c.file) != map[] :: FileExtras(c.file),
      set c | c in LiveSecrets(e) && c.file.Some? && c.file.value.mode != 0 :: c.file.value.mode)
  }

  ghost function OutsideOf(e: EngineSpec): Outside {
    Outside(
      e.other, e.task.other,
      if e.task.container.Some? then e.task.container.value.other else map[],
      if e.endpoint.Some? then e.endpoint.value.resolution else "",
      LossyOf(e))
  }

  /** What the comment on update promises: everything the model does not cover is still there. */
  ghost predicate SameOutsideModel(current: EngineSpec, stored: EngineSpec) {
    OutsideOf(stored) == OutsideOf(current)
  }

  lemma StoredLists(current: EngineSpec, s: ServiceSpec, ids: map<string, string>, configIDs: map<string, string>,
                    secretIDs: map<string, string>)
    ensures var stored := Mutated(current, Prepared(s, ids, configIDs, secretIDs));
      && (forall m :: m in LiveMounts(stored) ==> !Foreign(m) && m.other == map[])
      && (forall n :: n in stored.task.networks ==> n.other == map[])
      && (forall p :: p in LivePorts(stored) ==> p.other == map[])
      && (forall c :: c in LiveConfigs(stored) ==> FileExtras(c.file) == map[] && c.other == map[])
      && (forall c :: c in LiveSecrets(stored) ==> FileExtras(c.file) == map[] && c.file.value.mode == 0)
  {
  }

  lemma StoredLosesAll(current: EngineSpec, s: ServiceSpec, ids: map<string, string>, configIDs: map<string, string>,
                       secretIDs: map<string, string>)
    ensures LossyOf(Mutated(current, Prepared(s, ids, configIDs, secretIDs))) == NOTHING_TO_LOSE
  {
    StoredLists(current, s, ids, configIDs, secretIDs);
  }

  /** What an update keeps of the live labels: those outside the prefix that desired does not set. */
  lemma UpdateKeepsLabels(current: EngineSpec, s: ServiceSpec, ids: map<string, string>, configIDs: map<string, string>,
                          secretIDs: map<string, string>)
    ensures var d := Entries(s.labels) + Entries(s.deployLabels);
      var stored := Mutated(current, Prepared(s, ids, configIDs, secretIDs));
      && (forall k :: !HasPrefix(k, LABEL_PREFIX) && k !in d ==>
            (k in stored.labels <==> k in current.labels) && Lookup(stored.labels, k) == Lookup(current.labels, k))
      && (forall k :: HasPrefix(k, LABEL_PREFIX) ==> (k in stored.labels <==> k in d))
      && (forall k :: k in d ==> k in stored.labels && stored.labels[k] == d[k])
  {
  }

  /**
   Everything outside the model survives an update exactly when the live spec holds nothing of
   it within the fields the update overwrites; whatever lies elsewhere is always kept.
   */
  lemma UpdateFrame(current: EngineSpec, s: ServiceSpec, ids: map<string, string>, configIDs: map<string, string>,
                    secretIDs: map<string, string>)
    ensures var stored := Mutated(current, Prepared(s, ids, configIDs, secretIDs));
      && (SameOutsideModel(current, stored) <==> LossyOf(current) == NOTHING_TO_LOSE)
      && OutsideOf(stored) == OutsideOf(current).(lossy := NOTHING_TO_LOSE)
  {
    StoredLosesAll(current, s, ids, configIDs, secretIDs);
  }

  /** The endpoint stays as it was but for its ports; without one, one is made only to hold ports. */
  lemma UpdateEndpoint(current: EngineSpec, s: ServiceSpec, ids: map<string, string>, configIDs: map<string, string>,
                       secretIDs: map<string, string>)
    ensures var stored := Mutated(current, Prepared(s, ids, configIDs, secretIDs));
      && (stored.endpoint.Some? <==> current.endpoint.Some? || Elems(s.ports) != [])
      && (stored.endpoint.Some? ==>
            && stored.endpoint.value.resolution == (if current.endpoint.Some? then current.endpoint.value.resolution else "")
            && |stored.endpoint.value.ports| == |Elems(s.ports)|
            && forall i :: 0 <= i < |Elems(s.ports)| ==> PortCarried(Elems(s.ports)[i], stored.endpoint.value.ports[i]))
  {
  }

  // ---- The refusal of attachment changes ----

  function TargetName(f: Option<Engine.FileTarget>): string {
    if f.Some? then f.value.name else ""
  }

  function ConfigPair(c: Engine.ConfigReference): (string, string) { (c.configName, TargetName(c.file)) }
  function SecretPair(c: Engine.SecretReference): (string, string) { (c.secretName, TargetName(c.file)) }
  function RefPair(r: FileRef): (string, string) { (r.source, r.target) }

  /** The (source, target) pairs as the "source:target" keys the check compares. */
  function PairKey(p: (string, string)): string {
    p.0 + [':'] + p.1
  }

  function ConfigKey(c: Engine.ConfigReference): string { PairKey(ConfigPair(c)) }
  function SecretKey(c: Engine.SecretReference): string { PairKey(SecretPair(c)) }
  function RefKey(r: FileRef): string { PairKey(RefPair(r)) }

  function FileRefKeys(refs: Slice<FileRef>): seq<string> {
    Sort(Map(Elems(refs), RefKey), Le)
  }

  function LiveConfigs(e: EngineSpec): seq<Engine.ConfigReference> {
    if e.task.container.Some? then e.task.container.value.configs else []
  }

  function LiveSecrets(e: EngineSpec): seq<Engine.SecretReference> {
    if e.task.container.Some? then e.task.container.value.secrets else []
  }

  /** checkImmutableChange returns nil. */
  predicate AttachmentsUnchanged(current: EngineSpec, s: ServiceSpec) {
    && Sort(Map(LiveConfigs(current), ConfigKey), Le) == FileRefKeys(s.configs)
    && Sort(Map(LiveSecrets(current), SecretKey), Le) == FileRefKeys(s.secrets)
  }

  method CollectFileRefKeys(refs: Slice<FileRef>) returns (keys: seq<string>)
    ensures keys == FileRefKeys(refs)
  {
    keys := Collect(Elems(refs), RefKey);
    keys := Sort(keys, Le);
  }

  method CheckImmutableChange(current: EngineSpec, s: ServiceSpec) returns (ok: bool)
    ensures ok == AttachmentsUnchanged(current, s)
  {
    var currentConfigs := Collect(LiveConfigs(current), ConfigKey);
    var currentSecrets := Collect(LiveSecrets(current), SecretKey);
    currentConfigs := Sort(currentConfigs, Le);
    currentSecrets := Sort(currentSecrets, Le);
    var desiredConfigs := CollectFileRefKeys(s.configs);
    var desiredSecrets := CollectFileRefKeys(s.secrets);
    if currentConfigs != desiredConfigs { return false; }
    ok := currentSecrets == desiredSecrets;
  }

  ghost predicate ColonFree(pairs: seq<(string, string)>) {
    forall p :: p in pairs ==> ':' !in p.0
  }

  /** The check as it stands: the live keys are the wanted ones, with the same multiplicities. */
  ghost predicate SameKeys(current: EngineSpec, s: ServiceSpec) {
    && multiset(Map(LiveConfigs(current), ConfigKey)) == multiset(Map(Elems(s.configs), RefKey))
    && multiset(Map(LiveSecrets(current), SecretKey)) == multiset(Map(Elems(s.secrets), RefKey))
  }

  lemma SortedAlike(a: seq<string>, b: seq<string>)
    ensures Sort(a, Le) == Sort(b, Le) <==> multiset(a) == multiset(b)
  {
    LePreorder();
    SortOrders(a, Le);
    SortOrders(b, Le);
    if multiset(a) == multiset(b) {
      LeTieFree(a);
      SortIsOrderInsensitive(a, b, Le);
    }
  }

  /** Comparing sorted key lists compares the keys as multisets, whatever the names are. */
  lemma RefusalByKeys(current: EngineSpec, s: ServiceSpec)
    ensures AttachmentsUnchanged(current, s) <==> SameKeys(current, s)
  {
    SortedAlike(Map(LiveConfigs(current), ConfigKey), Map(Elems(s.configs), RefKey));
    SortedAlike(Map(LiveSecrets(current), SecretKey), Map(Elems(s.secrets), RefKey));
  }

  lemma KeysDecidePairs(a: seq<(string, string)>, b: seq<(string, string)>)
    requires ColonFree(a) && ColonFree(b)
    ensures multiset(Map(a, PairKey)) == multiset(Map(b, PairKey)) <==> multiset(a) == multiset(b)
  {
    if multiset(a) == multiset(b) { MapMultiset(a, b, PairKey); }
    if multiset(Map(a, PairKey)) == multiset(Map(b, PairKey)) {
      forall x, y | x in a + b && y in a + b && PairKey(x) == PairKey(y)
        ensures x == y
      {
        JoinInjective(x.0, x.1, y.0, y.1, ':');
      }
      InjectiveMultiset(a, b, PairKey);
    }
  }

  /** No attached or wanted source has a ':' in its name. */
  ghost predicate PlainSources(current: EngineSpec, s: ServiceSpec) {
    && ColonFree(Map(LiveConfigs(current), ConfigPair)) && ColonFree(Map(Elems(s.configs), RefPair))
    && ColonFree(Map(LiveSecrets(current), SecretPair)) && ColonFree(Map(Elems(s.secrets), RefPair))
  }

  /** The live (source, target) pairs are the wanted ones, with the same multiplicities. */
  ghost predicate SamePairs(current: EngineSpec, s: ServiceSpec) {
    && multiset(Map(LiveConfigs(current), ConfigPair)) == multiset(Map(Elems(s.configs), RefPair))
    && multiset(Map(LiveSecrets(current), SecretPair)) == multiset(Map(Elems(s.secrets), RefPair))
  }

  lemma KeysOfPairs(current: EngineSpec, s: ServiceSpec)
    ensures Map(Map(LiveConfigs(current), ConfigPair), PairKey) == Map(LiveConfigs(current), ConfigKey)
    ensures Map(Map(LiveSecrets(current), SecretPair), PairKey) == Map(LiveSecrets(current), SecretKey)
    ensures Map(Map(Elems(s.configs), RefPair), PairKey) == Map(Elems(s.configs), RefKey)
    ensures Map(Map(Elems(s.secrets), RefPair), PairKey) == Map(Elems(s.secrets), RefKey)
  {
  }

  /**
   The same pairs always pass the check; with source names free of ':' nothing else does, so it
   passes exactly when both attachment multisets are the live ones.
   */
  lemma RefusalExactly(current: EngineSpec, s: ServiceSpec)
    ensures SamePairs(current, s) ==> AttachmentsUnchanged(current, s)
    ensures PlainSources(current, s) ==> (AttachmentsUnchanged(current, s) <==> SamePairs(current, s))
  {
    RefusalByKeys(current, s);
    KeysOfPairs(current, s);
    if SamePairs(current, s) {
      MapMultiset(Map(LiveConfigs(current), ConfigPair), Map(Elems(s.configs), RefPair), PairKey);
      MapMultiset(Map(LiveSecrets(current), SecretPair), Map(Elems(s.secrets), RefPair), PairKey);
    }
    if PlainSources(current, s) {
      KeysDecidePairs(Map(LiveConfigs(current), ConfigPair), Map(Elems(s.configs), RefPair));
      KeysDecidePairs(Map(LiveSecrets(current), SecretPair), Map(Elems(s.secrets), RefPair));
    }
  }

  /** An accepted update stores the live attachments: same (source, target) pairs, same multiplicities. */
  lemma UpdateKeepsAttachments(current: EngineSpec, s: ServiceSpec, ids: map<string, string>,
                               configIDs: map<string, string>, secretIDs: map<string, string>)
    requires PlainSources(current, s) && AttachmentsUnchanged(current, s)
    ensures var stored := Mutated(current, Prepared(s, ids, configIDs, secretIDs));
      && multiset(Map(LiveConfigs(stored), ConfigPair)) == multiset(Map(LiveConfigs(current), ConfigPair))
      && multiset(Map(LiveSecrets(stored), SecretPair)) == multiset(Map(LiveSecrets(current), SecretPair))
  {
    RefusalExactly(current, s);
    var stored := Mutated(current, Prepared(s, ids, configIDs, secretIDs));
    assert Map(LiveConfigs(stored), ConfigPair) == Map(Elems(s.configs), RefPair);
    assert Map(LiveSecrets(stored), SecretPair) == Map(Elems(s.secrets), RefPair);
  }

  /** With a ':' in a source name two different attachments share a key and slip through. */
  lemma ColonConfusesKeys()
    ensures RefPair(FileRef("a:b", "c", 0)) != RefPair(FileRef("a", "b:c", 0))
    ensures RefKey(FileRef("a:b", "c", 0)) == RefKey(FileRef("a", "b:c", 0))
  {
    assert "a:b" + [':'] + "c" == "a" + [':'] + "b:c";
    assert |"a:b"| != |"a"|;
  }
}
