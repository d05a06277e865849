/**
 The two directions of the engine mapping (internal/spec/swarm.go) and when one
 undoes the other.
 */
module Swarm {
  import opened Basics
  import opened Engine
  import opened Normal
  import opened Ordering
  import opened Spec
  import opened Text

  /** The engine's default file mode, 0444. */
  const DEFAULT_MODE := 292

  function AsSlice<T>(s: seq<T>): Slice<T> {
    if s == [] then None else Some(s)
  }

  // ---- Environment ----

  function EnvEntry(k: string, v: string): string {
    k + ['='] + v
  }

  /** One KEY=VALUE entry per listed key. */
  function EnvEntries(keys: seq<string>, m: map<string, string>): seq<string>
    requires forall k :: k in keys ==> k in m
  {
    seq(|keys|, i requires 0 <= i < |keys| => EnvEntry(keys[i], m[keys[i]]))
  }

  ghost function EncodeEnv(m: map<string, string>): seq<string> {
    Sort(EnvEntries(SortedOf(m.Keys), m), Le)
  }

  /** Later entries win. */
  function DecodeEnv(env: seq<string>): map<string, string> {
    if env == [] then map[]
    else
      var kv := env[|env| - 1];
      DecodeEnv(env[..|env| - 1])[CutKey(kv, '=') := CutValue(kv, '=')]
  }

  lemma {:induction false} DecodedKeysPlain(env: seq<string>)
    ensures forall k :: k in DecodeEnv(env) ==> '=' !in k
  {
    if env != [] {
      DecodedKeysPlain(env[..|env| - 1]);
    }
  }

  lemma {:induction false} DecodeAgrees(env: seq<string>, m: map<string, string>)
    requires forall e :: e in env ==> CutKey(e, '=') in m && m[CutKey(e, '=')] == CutValue(e, '=')
    ensures forall k :: k in DecodeEnv(env) ==> k in m && DecodeEnv(env)[k] == m[k]
    ensures forall e :: e in env ==> CutKey(e, '=') in DecodeEnv(env)
  {
    if env != [] {
      var init := env[..|env| - 1];
      DecodeAgrees(init, m);
      assert env == init + [env[|env| - 1]];
    }
  }

  ghost predicate IsEntryOf(e: string, m: map<string, string>) {
    exists k :: k in m && e == EnvEntry(k, m[k])
  }

  lemma ListedEntries(keys: seq<string>, m: map<string, string>, e: string)
    requires forall k :: k in keys <==> k in m
    ensures e in EnvEntries(keys, m) <==> IsEntryOf(e, m)
  {
    var list := EnvEntries(keys, m);
    if e in list {
      var i :| 0 <= i < |list| && list[i] == e;
      assert keys[i] in m && e == EnvEntry(keys[i], m[keys[i]]);
    }
    if IsEntryOf(e, m) {
      var k :| k in m && e == EnvEntry(k, m[k]);
      assert k in keys;
      var i :| 0 <= i < |keys| && keys[i] == k;
      assert list[i] == e;
    }
  }

  lemma EncodedEntries(m: map<string, string>)
    ensures forall e :: e in EncodeEnv(m) <==> IsEntryOf(e, m)
    ensures EncodeEnv(m) == [] <==> m == map[]
  {
    var list := EnvEntries(SortedOf(m.Keys), m);
    LePreorder();
    SortKeepsElements(list, Le);
    forall e ensures e in EncodeEnv(m) <==> IsEntryOf(e, m) {
      ListedEntries(SortedOf(m.Keys), m, e);
    }
    if m != map[] {
      var k :| k in m;
      assert IsEntryOf(EnvEntry(k, m[k]), m);
    }
    if EncodeEnv(m) != [] {
      assert IsEntryOf(EncodeEnv(m)[0], m);
    }
  }

  /** Encoding and decoding an environment returns it exactly when no key holds an '='. */
  lemma EnvRoundTrip(m: map<string, string>)
    ensures DecodeEnv(EncodeEnv(m)) == m <==> forall k :: k in m ==> '=' !in k
  {
    DecodedKeysPlain(EncodeEnv(m));
    if forall k :: k in m ==> '=' !in k {
      EncodedEntries(m);
      forall e | e in EncodeEnv(m)
        ensures CutKey(e, '=') in m && m[CutKey(e, '=')] == CutValue(e, '=')
      {
        var k :| k in m && e == EnvEntry(k, m[k]);
        CutOfJoin(k, m[k], '=');
      }
      DecodeAgrees(EncodeEnv(m), m);
      forall k | k in m ensures k in DecodeEnv(EncodeEnv(m)) {
        assert IsEntryOf(EnvEntry(k, m[k]), m);
        CutOfJoin(k, m[k], '=');
      }
    }
  }

  // ---- Reading a field back ----

  function ReadReplicas(m: ServiceMode): nat {
    if m.replicated.Some? && m.replicated.value.Some? then m.replicated.value.value else 0
  }

  function ReadMode(m: ServiceMode): string {
    if m.replicated.Some? then "replicated"
    else if m.global then "global"
    else if m.replicatedJob.Some? then "replicated-job"
    else if m.globalJob then "global-job"
    else ""
  }

  function ReadHealthcheck(hc: Option<HealthConfig>): Option<HealthcheckSpec> {
    if hc.Some? && hc.value.test != []
    then Some(HealthcheckSpec(Some(hc.value.test), hc.value.interval, hc.value.timeout,
                              hc.value.retries, hc.value.startPeriod))
    else None
  }

  /** Volume and bind mounts; the other kinds are skipped. */
  function ReadMounts(mounts: seq<Mount>): seq<VolumeMount> {
    if mounts == [] then []
    else
      var init := ReadMounts(mounts[..|mounts| - 1]);
      var m := mounts[|mounts| - 1];
      if m.kind != "volume" && m.kind != "bind" then init
      else init + [VolumeMount(m.source, m.target, m.readOnly, m.kind == "bind")]
  }

  /** A mode of 0444 reads back as 0. */
  function ReadConfig(c: ConfigReference): FileRef {
    if c.file.None? then FileRef(c.configName, "", 0)
    else FileRef(c.configName, c.file.value.name,
                 if c.file.value.mode != DEFAULT_MODE then c.file.value.mode else 0)
  }

  /** A secret's mode is not read at all. */
  function ReadSecret(s: SecretReference): FileRef {
    FileRef(s.secretName, if s.file.Some? then s.file.value.name else "", 0)
  }

  function OrZero(d: Option<int>): int {
    if d.Some? then d.value else 0
  }

  function ReadRestartPolicy(rp: Option<RestartPolicy>): Option<RestartPolicySpec> {
    if rp.None? then None
    else Some(RestartPolicySpec(rp.value.condition, OrZero(rp.value.delay),
                                if rp.value.maxAttempts.Some? then rp.value.maxAttempts.value else 0,
                                OrZero(rp.value.window)))
  }

  function ReadResources(r: Option<ResourceRequirements>): Option<ResourcesSpec> {
    if r.Some? && r.value.limits.Some?
    then Some(ResourcesSpec(r.value.limits.value.memoryBytes, r.value.limits.value.nanoCPUs))
    else None
  }

  function ReadPlacement(p: Option<Placement>): Option<PlacementSpec> {
    if p.Some? && p.value.constraints != [] then Some(PlacementSpec(Some(p.value.constraints))) else None
  }

  function ReadUpdateConfig(u: Option<UpdateConfig>): Option<UpdateConfigSpec> {
    if u.Some? then Some(UpdateConfigSpec(u.value.parallelism)) else None
  }

  function ReadPort(p: PortConfig): PortSpec {
    PortSpec(p.targetPort, p.publishedPort, p.protocol, p.publishMode)
  }

  function ReadPorts(e: Option<EndpointSpec>): Slice<PortSpec> {
    if e.Some? then AsSlice(Map(e.value.ports, ReadPort)) else None
  }

  predicate DeployLabelKey(k: string) {
    !HasPrefix(k, LABEL_PREFIX) && k != NAMESPACE_LABEL
  }

  function ReadDeployLabels(labels: map<string, string>): map<string, string> {
    map k | k in labels && DeployLabelKey(k) :: labels[k]
  }

  /** Map lookup with the key itself as the fallback. */
  function Rename(t: string, m: map<string, string>): string {
    if t in m then m[t] else t
  }

  function ReadNetworks(networks: seq<NetworkAttachment>, names: map<string, string>): (r: seq<string>)
    ensures |r| == |networks|
  {
    seq(|networks|, i requires 0 <= i < |networks| => Rename(networks[i].target, names))
  }

  /** FromSwarm's result before it is normalised. */
  function Raw(e: EngineSpec, names: map<string, string>): ServiceSpec {
    var cs := if e.task.container.Some? then e.task.container.value else EMPTY_CONTAINER;
    ServiceSpec(
      e.name,
      cs.image,
      ReadReplicas(e.mode),
      if cs.env == [] then None else Some(DecodeEnv(cs.env)),
      Some(PrefixedLabels(e.labels)),
      Some(ReadDeployLabels(e.labels)),
      AsSlice(ReadNetworks(e.task.networks, names)),
      ReadPorts(e.endpoint),
      ReadHealthcheck(cs.healthcheck),
      AsSlice(cs.args),
      AsSlice(cs.command),
      cs.hostname,
      AsSlice(cs.capabilityAdd),
      cs.user,
      OrZero(cs.stopGracePeriod),
      AsSlice(cs.ulimits),
      AsSlice(ReadMounts(cs.mounts)),
      AsSlice(Map(cs.configs, ReadConfig)),
      AsSlice(Map(cs.secrets, ReadSecret)),
      ReadMode(e.mode),
      ReadRestartPolicy(e.task.restartPolicy),
      ReadResources(e.task.resources),
      ReadPlacement(e.task.placement),
      ReadUpdateConfig(e.updateConfig))
  }

  /** What the observer sees of an engine-side service. */
  function ReadBack(e: EngineSpec, names: map<string, string>): ServiceSpec {
    NormalForm(Lookup(e.labels, STACK_LABEL), Raw(e, names))
  }

  // ---- Submitting a spec ----

  function WriteMode(s: ServiceSpec): ServiceMode {
    if s.mode == "global" then ServiceMode(None, true, None, false)
    else if s.mode == "replicated-job" then ServiceMode(None, false, Some(map[]), false)
    else if s.mode == "global-job" then ServiceMode(None, false, None, true)
    else ServiceMode(Some(Some(s.replicas)), false, None, false)
  }

  function WriteHealthcheck(hc: Option<HealthcheckSpec>): Option<HealthConfig> {
    if hc.None? then None
    else Some(HealthConfig(Elems(hc.value.test), hc.value.interval, hc.value.timeout,
                           hc.value.retries, hc.value.startPeriod, map[]))
  }

  function WriteMount(v: VolumeMount): Mount {
    Mount(if v.bind then "bind" else "volume", v.source, v.target, v.readOnly, map[])
  }

  function WriteConfig(c: FileRef): ConfigReference {
    ConfigReference(c.source, "", Some(FileTarget(c.target, c.mode, map[])), map[])
  }

  function WriteSecret(c: FileRef): SecretReference {
    SecretReference(c.source, "", Some(FileTarget(c.target, 0, map[])))
  }

  function IfPositive(d: int): Option<int> {
    if d > 0 then Some(d) else None
  }

  function WriteRestartPolicy(rp: Option<RestartPolicySpec>): Option<RestartPolicy> {
    if rp.None? then None
    else Some(RestartPolicy(rp.value.condition, IfPositive(rp.value.delay),
                            if rp.value.maxAttempts > 0 then Some(rp.value.maxAttempts) else None,
                            IfPositive(rp.value.window)))
  }

  function WriteResources(r: Option<ResourcesSpec>): Option<ResourceRequirements> {
    if r.None? then None
    else Some(ResourceRequirements(Some(Limit(r.value.memoryBytes, r.value.nanoCPUs, map[])), map[]))
  }

  function WritePlacement(p: Option<PlacementSpec>): Option<Placement> {
    if p.None? then None else Some(Placement(Elems(p.value.constraints), map[]))
  }

  function WriteUpdateConfig(u: Option<UpdateConfigSpec>): Option<UpdateConfig> {
    if u.None? then None else Some(UpdateConfig(u.value.parallelism, map[]))
  }

  function WriteNetwork(n: string): NetworkAttachment {
    NetworkAttachment(n, map[])
  }

  function WritePort(p: PortSpec): PortConfig {
    PortConfig(p.protocol, p.target, p.published, p.mode, map[])
  }

  function WritePorts(ports: Slice<PortSpec>): Option<EndpointSpec> {
    if Elems(ports) == [] then None else Some(EndpointSpec(Map(ports.value, WritePort), ""))
  }

  ghost function WriteContainer(s: ServiceSpec): ContainerSpec {
    ContainerSpec(
      s.image,
      EncodeEnv(Entries(s.env)),
      WriteHealthcheck(s.healthcheck),
      Elems(s.entrypoint),
      Elems(s.command),
      s.hostname,
      s.user,
      Elems(s.capAdd),
      IfPositive(s.stopGracePeriod),
      Elems(s.ulimits),
      Map(Elems(s.volumes), WriteMount),
      Map(Elems(s.configs), WriteConfig),
      Map(Elems(s.secrets), WriteSecret),
      map[])
  }

  ghost function WriteTask(s: ServiceSpec): TaskSpec {
    TaskSpec(
      Some(WriteContainer(s)),
      WriteRestartPolicy(s.restartPolicy),
      WriteResources(s.resources),
      WritePlacement(s.placement),
      Map(Elems(s.networks), WriteNetwork),
      map[])
  }

  /** The engine-side spec ToSwarm builds: networks by name, config and secret IDs still blank. */
  ghost function Submitted(s: ServiceSpec): EngineSpec {
    EngineSpec(
      s.name,
      Entries(s.labels) + Entries(s.deployLabels),
      WriteTask(s),
      WriteMode(s),
      WriteUpdateConfig(s.updateConfig),
      WritePorts(s.ports),
      map[])
  }

  function AttachedNetworks(networks: seq<NetworkAttachment>, ids: map<string, string>): seq<NetworkAttachment> {
    seq(|networks|, i requires 0 <= i < |networks| => networks[i].(target := Rename(networks[i].target, ids)))
  }

  /** Network targets rewritten from names to IDs. */
  function Attached(e: EngineSpec, ids: map<string, string>): EngineSpec {
    e.(task := e.task.(networks := AttachedNetworks(e.task.networks, ids)))
  }

  // ---- The round trip ----

  predicate KnownMode(mode: string) {
    mode == "replicated" || mode == "global" || mode == "replicated-job" || mode == "global-job"
  }

  /** What the observer can read off an engine-side service at all. */
  ghost predicate Observable(s: ServiceSpec) {
    && KnownMode(s.mode)
    && (s.mode != "replicated" ==> s.replicas == 0)
    && (forall k :: k in Entries(s.env) ==> '=' !in k)
    && (forall k :: k in Entries(s.deployLabels) ==> DeployLabelKey(k))
    && (forall c :: c in Elems(s.configs) ==> c.mode != DEFAULT_MODE)
    && (forall c :: c in Elems(s.secrets) ==> c.mode == 0)
    && (s.placement.Some? ==> Elems(s.placement.value.constraints) != [])
  }

  /** What a normal-form spec must also satisfy to survive the trip through the engine. */
  ghost predicate Representable(s: ServiceSpec) {
    && Observable(s)
    && s.stopGracePeriod >= 0
    && (s.restartPolicy.Some? ==> s.restartPolicy.value.delay >= 0 && s.restartPolicy.value.window >= 0)
  }

  /** Network names after a trip to IDs and back. */
  function Returned(networks: seq<string>, ids: map<string, string>, names: map<string, string>): seq<string> {
    seq(|networks|, i requires 0 <= i < |networks| => Rename(Rename(networks[i], ids), names))
  }

  ghost predicate NetworksReturn(s: ServiceSpec, ids: map<string, string>, names: map<string, string>) {
    ToSet(Returned(Elems(s.networks), ids, names)) == ToSet(Elems(s.networks))
  }

  /** names inverts ids on the given networks. */
  ghost predicate Inverts(networks: seq<string>, ids: map<string, string>, names: map<string, string>) {
    forall n :: n in networks ==> n in ids && ids[n] in names && names[ids[n]] == n
  }

  lemma InverseReturns(s: ServiceSpec, ids: map<string, string>, names: map<string, string>)
    requires Inverts(Elems(s.networks), ids, names)
    ensures NetworksReturn(s, ids, names)
  {
    assert Returned(Elems(s.networks), ids, names) == Elems(s.networks);
  }

  lemma {:induction false} MountsReturn(volumes: seq<VolumeMount>)
    ensures ReadMounts(Map(volumes, WriteMount)) == volumes
  {
    if volumes != [] {
      var init := volumes[..|volumes| - 1];
      var mounts := Map(volumes, WriteMount);
      MountsReturn(init);
      assert mounts[..|mounts| - 1] == Map(init, WriteMount);
      assert volumes == init + [volumes[|volumes| - 1]];
    }
  }

  /** The config references with their modes squashed the way reading squashes them. */
  function SquashMode(c: FileRef): FileRef {
    c.(mode := if c.mode != DEFAULT_MODE then c.mode else 0)
  }

  function ClearMode(c: FileRef): FileRef {
    c.(mode := 0)
  }

  lemma FileRefsReturn(s: ServiceSpec)
    ensures Map(Map(Elems(s.configs), WriteConfig), ReadConfig) == Map(Elems(s.configs), SquashMode)
    ensures Map(Map(Elems(s.secrets), WriteSecret), ReadSecret) == Map(Elems(s.secrets), ClearMode)
    ensures Map(Map(Elems(s.ports), WritePort), ReadPort) == Elems(s.ports)
  {
  }

  lemma SquashIsIdentity(refs: seq<FileRef>)
    ensures (forall c :: c in refs ==> c.mode != DEFAULT_MODE) ==> Map(refs, SquashMode) == refs
    ensures (forall c :: c in refs ==> c.mode == 0) ==> Map(refs, ClearMode) == refs
  {
  }

  lemma SortKeepsElements<T(!new)>(s: seq<T>, le: (T, T) -> bool)
    requires Preorder(le)
    ensures forall x :: x in Sort(s, le) <==> x in s
  {
    SortOrders(s, le);
    assert forall x :: x in Sort(s, le) <==> x in multiset(s);
  }

  lemma ReadRefModes(configs: seq<ConfigReference>, secrets: seq<SecretReference>)
    ensures forall c :: c in Elems(NormalSorted(AsSlice(Map(configs, ReadConfig)), FileRefLe)) ==> c.mode != DEFAULT_MODE
    ensures forall c :: c in Elems(NormalSorted(AsSlice(Map(secrets, ReadSecret)), FileRefLe)) ==> c.mode == 0
  {
    ComparatorsArePreorders();
    SortKeepsElements(Map(configs, ReadConfig), FileRefLe);
    SortKeepsElements(Map(secrets, ReadSecret), FileRefLe);
  }

  lemma ReadPlacementNonempty(p: Option<Placement>)
    ensures var r := NormalPlacement(ReadPlacement(p)); r.Some? ==> Elems(r.value.constraints) != []
  {
    if p.Some? { SortUniqueStable(p.value.constraints); }
  }

  /** Whatever the engine holds, what is read back is in normal form and observable. */
  lemma ReadBackObservable(e: EngineSpec, names: map<string, string>)
    ensures InNormalForm(ReadBack(e, names)) && Observable(ReadBack(e, names))
  {
    NormalFormIdempotent(Lookup(e.labels, STACK_LABEL), Raw(e, names));
    ReadScalarsObservable(e, names);
    ReadListsObservable(e, names);
  }

  lemma ReadScalarsObservable(e: EngineSpec, names: map<string, string>)
    ensures var s := ReadBack(e, names);
      && KnownMode(s.mode) && (s.mode != "replicated" ==> s.replicas == 0)
      && (forall k :: k in Entries(s.deployLabels) ==> DeployLabelKey(k))
      && (s.placement.Some? ==> Elems(s.placement.value.constraints) != [])
  {
    ReadPlacementNonempty(e.task.placement);
  }

  lemma ReadListsObservable(e: EngineSpec, names: map<string, string>)
    ensures var s := ReadBack(e, names);
      && (forall k :: k in Entries(s.env) ==> '=' !in k)
      && (forall c :: c in Elems(s.configs) ==> c.mode != DEFAULT_MODE)
      && (forall c :: c in Elems(s.secrets) ==> c.mode == 0)
  {
    var cs := if e.task.container.Some? then e.task.container.value else EMPTY_CONTAINER;
    ReadRefModes(cs.configs, cs.secrets);
    DecodedKeysPlain(cs.env);
  }

  lemma NetworksRoundTrip(s: ServiceSpec, ids: map<string, string>, names: map<string, string>)
    ensures var back := ReadNetworks(AttachedNetworks(Map(Elems(s.networks), WriteNetwork), ids), names);
      back == Returned(Elems(s.networks), ids, names)
  {
  }

  lemma NetworksNormal(stack: string, s: ServiceSpec, ids: map<string, string>, names: map<string, string>)
    requires NormalNetworks(stack, s.networks) == s.networks
    ensures NormalNetworks(stack, AsSlice(Returned(Elems(s.networks), ids, names))) == s.networks
            <==> NetworksReturn(s, ids, names)
  {
    var back := Returned(Elems(s.networks), ids, names);
    NormalSetsIncreasingNetworks(stack, s.networks);
    SortUniqueMeaning(back);
    if NetworksReturn(s, ids, names) {
      forall x ensures x in Elems(s.networks) <==> x in back {
        assert x in ToSet(back) <==> x in ToSet(Elems(s.networks));
      }
      SortUniqueDetermined(back, Elems(s.networks));
    }
  }

  lemma NormalSetsIncreasingNetworks(stack: string, networks: Slice<string>)
    requires NormalNetworks(stack, networks) == networks
    ensures Elems(networks) != [] && Increasing(Elems(networks))
  {
    SortUniqueMeaning(Elems(networks));
  }

  /** The labels split back into the two maps they were merged from. */
  lemma LabelsReturn(stack: string, s: ServiceSpec)
    requires NormalLabels(stack, s.labels) == s.labels
    requires forall k :: k in Entries(s.deployLabels) ==> DeployLabelKey(k)
    ensures var labels := Entries(s.labels) + Entries(s.deployLabels);
      && Some(PrefixedLabels(labels)) == s.labels
      && ReadDeployLabels(labels) == Entries(s.deployLabels)
      && Lookup(labels, STACK_LABEL) == stack
  {
    LabelNamesPrefixed();
    assert forall k :: k in Entries(s.labels) ==> HasPrefix(k, LABEL_PREFIX);
    var labels := Entries(s.labels) + Entries(s.deployLabels);
    assert PrefixedLabels(labels) == Entries(s.labels);
    assert STACK_LABEL in Entries(s.labels) && STACK_LABEL !in Entries(s.deployLabels);
  }

  lemma ScalarsReturn(s: ServiceSpec)
    requires Representable(s)
    requires NormalHealthcheck(s.healthcheck) == s.healthcheck && NormalPlacement(s.placement) == s.placement
    ensures ReadReplicas(WriteMode(s)) == s.replicas && ReadMode(WriteMode(s)) == s.mode
    ensures ReadHealthcheck(WriteHealthcheck(s.healthcheck)) == s.healthcheck
    ensures OrZero(IfPositive(s.stopGracePeriod)) == s.stopGracePeriod
    ensures ReadRestartPolicy(WriteRestartPolicy(s.restartPolicy)) == s.restartPolicy
    ensures ReadResources(WriteResources(s.resources)) == s.resources
    ensures ReadPlacement(WritePlacement(s.placement)) == s.placement
    ensures ReadUpdateConfig(WriteUpdateConfig(s.updateConfig)) == s.updateConfig
  {
  }

  lemma ListsReturn(s: ServiceSpec)
    requires forall c :: c in Elems(s.configs) ==> c.mode != DEFAULT_MODE
    requires forall c :: c in Elems(s.secrets) ==> c.mode == 0
    ensures ReadMounts(Map(Elems(s.volumes), WriteMount)) == Elems(s.volumes)
    ensures Map(Map(Elems(s.configs), WriteConfig), ReadConfig) == Elems(s.configs)
    ensures Map(Map(Elems(s.secrets), WriteSecret), ReadSecret) == Elems(s.secrets)
    ensures AsSlice(Elems(s.ports)) == s.ports ==> ReadPorts(WritePorts(s.ports)) == s.ports
  {
    MountsReturn(Elems(s.volumes));
    FileRefsReturn(s);
    SquashIsIdentity(Elems(s.configs));
    SquashIsIdentity(Elems(s.secrets));
  }

  lemma EnvReturns(env: Dict)
    requires NilIfEmptyDict(env) == env && forall k :: k in Entries(env) ==> '=' !in k
    ensures (if EncodeEnv(Entries(env)) == [] then None else Some(DecodeEnv(EncodeEnv(Entries(env))))) == env
  {
    EnvRoundTrip(Entries(env));
    EncodedEntries(Entries(env));
  }

  /** Before normalisation a representable spec comes back up to its networks and its empty collections. */
  lemma RawReturns(s: ServiceSpec, ids: map<string, string>, names: map<string, string>)
    requires InNormalForm(s) && Representable(s)
    ensures var raw := Raw(Attached(Submitted(s), ids), names);
      && raw.(networks := s.networks, deployLabels := s.deployLabels) == s
      && raw.networks == AsSlice(Returned(Elems(s.networks), ids, names))
      && Entries(raw.deployLabels) == Entries(s.deployLabels)
  {
    LabelsReturn(Entries(s.labels)[STACK_LABEL], s);
    ScalarsReturn(s);
    EnvReturns(s.env);
    ListsReturn(s);
    NetworksRoundTrip(s, ids, names);
  }

  /** A normal-form, representable spec is read back as submitted when its networks come back. */
  lemma RoundTripHolds(s: ServiceSpec, ids: map<string, string>, names: map<string, string>)
    requires InNormalForm(s) && Representable(s) && NetworksReturn(s, ids, names)
    ensures ReadBack(Attached(Submitted(s), ids), names) == s
  {
    var stack := Entries(s.labels)[STACK_LABEL];
    LabelsReturn(stack, s);
    RawReturns(s, ids, names);
    NetworksNormal(stack, s, ids, names);
    var raw := Raw(Attached(Submitted(s), ids), names);
    assert NormalForm(stack, raw) == NormalForm(stack, s);
  }

  /** Nothing outside those conditions survives. */
  lemma RoundTripNeeds(s: ServiceSpec, ids: map<string, string>, names: map<string, string>)
    requires ReadBack(Attached(Submitted(s), ids), names) == s
    ensures InNormalForm(s) && Representable(s) && NetworksReturn(s, ids, names)
  {
    ReadBackObservable(Attached(Submitted(s), ids), names);
    NetworksNeeded(s, ids, names);
    DurationsRead(s, ids, names);
  }

  lemma NetworksNeeded(s: ServiceSpec, ids: map<string, string>, names: map<string, string>)
    requires InNormalForm(s) && ReadBack(Attached(Submitted(s), ids), names) == s
    ensures NetworksReturn(s, ids, names)
  {
    NetworksRoundTrip(s, ids, names);
    NetworksNormal(Lookup(Attached(Submitted(s), ids).labels, STACK_LABEL), s, ids, names);
  }

  lemma DurationsRead(s: ServiceSpec, ids: map<string, string>, names: map<string, string>)
    ensures var back := ReadBack(Attached(Submitted(s), ids), names);
      && back.stopGracePeriod == OrZero(IfPositive(s.stopGracePeriod))
      && back.restartPolicy == NormalRestartPolicy(ReadRestartPolicy(WriteRestartPolicy(s.restartPolicy)))
  {
  }

  /** The promise of the mapping, with its exact side conditions. */
  lemma RoundTrip(s: ServiceSpec, ids: map<string, string>, names: map<string, string>)
    ensures ReadBack(Attached(Submitted(s), ids), names) == s
            <==> InNormalForm(s) && Representable(s) && NetworksReturn(s, ids, names)
  {
    if InNormalForm(s) && Representable(s) && NetworksReturn(s, ids, names) {
      RoundTripHolds(s, ids, names);
    }
    if ReadBack(Attached(Submitted(s), ids), names) == s {
      RoundTripNeeds(s, ids, names);
    }
  }

  /** The same promise when slices.SortFunc may return any ordered permutation. */
  lemma RoundTripAnySort(s: ServiceSpec, ids: map<string, string>, names: map<string, string>, r: ServiceSpec)
    requires InNormalForm(s) && Representable(s) && Inverts(Elems(s.networks), ids, names)
    requires SortKeysDistinct(s)
    requires var e := Attached(Submitted(s), ids); NormalizesTo(Lookup(e.labels, STACK_LABEL), Raw(e, names), r)
    ensures r == s
  {
    var e := Attached(Submitted(s), ids);
    var stack := Entries(s.labels)[STACK_LABEL];
    InverseReturns(s, ids, names);
    LabelsReturn(stack, s);
    RawReturns(s, ids, names);
    assert SortKeysDistinct(Raw(e, names));
    AnySortGivesNormalForm(stack, Raw(e, names), r);
    RoundTripHolds(s, ids, names);
  }

  // ---- What is submitted, field by field ----

  /** A duration is submitted only when it is positive. */
  ghost predicate DurationCarried(d: int, e: Option<int>) {
    (d > 0 ==> e == Some(d)) && (d <= 0 ==> e.None?)
  }

  ghost predicate HealthcheckCarried(hc: Option<HealthcheckSpec>, e: Option<HealthConfig>) {
    && (e.Some? <==> hc.Some?)
    && (hc.Some? ==>
          && e.value.test == Elems(hc.value.test) && e.value.interval == hc.value.interval
          && e.value.timeout == hc.value.timeout && e.value.retries == hc.value.retries
          && e.value.startPeriod == hc.value.startPeriod && e.value.other == map[])
  }

  /** One KEY=VALUE entry per variable, in dictionary order. */
  ghost predicate EnvCarried(env: map<string, string>, e: seq<string>) {
    (forall x :: x in e <==> exists k :: k in env && x == k + "=" + env[k]) && Sorted(e, Le)
  }

  ghost predicate MountCarried(v: VolumeMount, m: Mount) {
    && m.kind == (if v.bind then "bind" else "volume") && m.source == v.source && m.target == v.target
    && m.readOnly == v.readOnly && m.other == map[]
  }

  ghost predicate FileCarried(c: FileRef, name: string, file: Option<FileTarget>) {
    name == c.source && file.Some? && file.value.name == c.target && file.value.other == map[]
  }

  ghost predicate FilesCarried(s: ServiceSpec, cs: ContainerSpec) {
    && |cs.mounts| == |Elems(s.volumes)| && |cs.configs| == |Elems(s.configs)| && |cs.secrets| == |Elems(s.secrets)|
    && (forall i :: 0 <= i < |cs.mounts| ==> MountCarried(Elems(s.volumes)[i], cs.mounts[i]))
    && (forall i :: 0 <= i < |cs.configs| ==>
          && FileCarried(Elems(s.configs)[i], cs.configs[i].configName, cs.configs[i].file)
          && cs.configs[i].file.value.mode == Elems(s.configs)[i].mode && cs.configs[i].configID == "")
    && (forall i :: 0 <= i < |cs.secrets| ==>
          && FileCarried(Elems(s.secrets)[i], cs.secrets[i].secretName, cs.secrets[i].file)
          && cs.secrets[i].file.value.mode == 0 && cs.secrets[i].secretID == "")
  }

  /** The engine calls the entrypoint a command, and the command arguments. */
  ghost predicate ContainerCarried(s: ServiceSpec, cs: ContainerSpec) {
    && cs.image == s.image && cs.command == Elems(s.entrypoint) && cs.args == Elems(s.command)
    && cs.hostname == s.hostname && cs.user == s.user && cs.capabilityAdd == Elems(s.capAdd)
    && cs.ulimits == Elems(s.ulimits) && DurationCarried(s.stopGracePeriod, cs.stopGracePeriod)
    && HealthcheckCarried(s.healthcheck, cs.healthcheck) && cs.other == map[]
  }

  ghost predicate RestartCarried(rp: Option<RestartPolicySpec>, e: Option<RestartPolicy>) {
    && (e.Some? <==> rp.Some?)
    && (rp.Some? ==>
          && e.value.condition == rp.value.condition && DurationCarried(rp.value.delay, e.value.delay)
          && DurationCarried(rp.value.window, e.value.window)
          && e.value.maxAttempts == if rp.value.maxAttempts == 0 then None else Some(rp.value.maxAttempts))
  }

  ghost predicate ResourcesCarried(r: Option<ResourcesSpec>, e: Option<ResourceRequirements>) {
    && (e.Some? <==> r.Some?)
    && (r.Some? ==>
          && e.value.limits.Some? && e.value.limits.value.memoryBytes == r.value.memoryBytes
          && e.value.limits.value.nanoCPUs == r.value.nanoCPUs && e.value.limits.value.other == map[]
          && e.value.reservations == map[])
  }

  ghost predicate TaskCarried(s: ServiceSpec, task: TaskSpec) {
    && RestartCarried(s.restartPolicy, task.restartPolicy) && ResourcesCarried(s.resources, task.resources)
    && (task.placement.Some? <==> s.placement.Some?)
    && (s.placement.Some? ==>
          task.placement.value.constraints == Elems(s.placement.value.constraints) && task.placement.value.preferences == map[])
    && |task.networks| == |Elems(s.networks)|
    && (forall i :: 0 <= i < |task.networks| ==>
          task.networks[i].target == Elems(s.networks)[i] && task.networks[i].other == map[])
    && task.other == map[]
  }

  ghost predicate PortCarried(p: PortSpec, e: PortConfig) {
    && e.protocol == p.protocol && e.targetPort == p.target && e.publishedPort == p.published
    && e.publishMode == p.mode && e.other == map[]
  }

  ghost predicate PortsCarried(ports: Slice<PortSpec>, e: Option<EndpointSpec>) {
    && (e.Some? <==> Elems(ports) != [])
    && (e.Some? ==>
          && e.value.resolution == "" && |e.value.ports| == |Elems(ports)|
          && forall i :: 0 <= i < |Elems(ports)| ==> PortCarried(Elems(ports)[i], e.value.ports[i]))
  }

  /** Exactly one mode is set; only a replicated one has a count, and any unknown mode counts as replicated. */
  ghost predicate ModeCarried(s: ServiceSpec, m: ServiceMode) {
    && m.global == (s.mode == "global") && m.globalJob == (s.mode == "global-job")
    && m.replicatedJob == (if s.mode == "replicated-job" then Some(map[]) else None)
    && m.replicated == if s.mode in {"global", "replicated-job", "global-job"} then None else Some(Some(s.replicas))
  }

  /** Where both maps hold a label, the deploy label is submitted. */
  ghost predicate LabelsCarried(s: ServiceSpec, labels: map<string, string>) {
    && (forall k :: k in labels <==> k in Entries(s.labels) || k in Entries(s.deployLabels))
    && (forall k :: k in Entries(s.deployLabels) ==> labels[k] == Entries(s.deployLabels)[k])
    && (forall k :: k in Entries(s.labels) && k !in Entries(s.deployLabels) ==> labels[k] == Entries(s.labels)[k])
  }

  /** e is what ToSwarm is to submit for s, told without its own steps. */
  ghost predicate Carries(s: ServiceSpec, e: EngineSpec) {
    && e.name == s.name && LabelsCarried(s, e.labels) && ModeCarried(s, e.mode) && PortsCarried(s.ports, e.endpoint)
    && (e.updateConfig.Some? <==> s.updateConfig.Some?)
    && (s.updateConfig.Some? ==> e.updateConfig.value == UpdateConfig(s.updateConfig.value.parallelism, map[]))
    && e.other == map[] && TaskCarried(s, e.task) && e.task.container.Some?
    && var cs := e.task.container.value;
      ContainerCarried(s, cs) && EnvCarried(Entries(s.env), cs.env) && FilesCarried(s, cs)
  }

  lemma EnvSubmitted(env: map<string, string>)
    ensures EnvCarried(env, EncodeEnv(env))
  {
    EncodedEntries(env);
    LePreorder();
    SortOrders(EnvEntries(SortedOf(env.Keys), env), Le);
    forall x ensures IsEntryOf(x, env) <==> exists k :: k in env && x == k + "=" + env[k] {
      forall k | k in env ensures EnvEntry(k, env[k]) == k + "=" + env[k] {
      }
    }
  }

  lemma ContainerSubmitted(s: ServiceSpec)
    ensures ContainerCarried(s, WriteContainer(s)) && FilesCarried(s, WriteContainer(s))
    ensures EnvCarried(Entries(s.env), WriteContainer(s).env)
  {
    EnvSubmitted(Entries(s.env));
  }

  lemma TaskSubmitted(s: ServiceSpec)
    ensures TaskCarried(s, WriteTask(s))
  {
  }

  lemma SubmittedCarries(s: ServiceSpec)
    ensures Carries(s, Submitted(s))
  {
    ContainerSubmitted(s);
    TaskSubmitted(s);
  }

  // ---- What is read back, field by field ----

  /** Of the entries for a name the last one counts. */
  ghost predicate EnvRead(e: seq<string>, env: map<string, string>) {
    && (forall x :: x in e ==> CutKey(x, '=') in env)
    && forall k :: k in env ==> exists i :: LastFor(e, k, i, env[k])
  }

  ghost predicate LastFor(e: seq<string>, k: string, i: nat, v: string) {
    i < |e| && CutKey(e[i], '=') == k && CutValue(e[i], '=') == v && forall j :: i < j < |e| ==> CutKey(e[j], '=') != k
  }

  ghost predicate MountRead(m: Mount, v: VolumeMount) {
    v.source == m.source && v.target == m.target && v.readOnly == m.readOnly && v.bind == (m.kind == "bind")
  }

  ghost predicate Readable(m: Mount) {
    m.kind == "volume" || m.kind == "bind"
  }

  /** Volumes and binds are read in order; any other mount is passed over. */
  ghost predicate MountsRead(mounts: seq<Mount>, volumes: seq<VolumeMount>) {
    exists at: seq<nat> ::
      && Positions(at, |mounts|) && (forall i: nat :: i in at <==> i < |mounts| && Readable(mounts[i]))
      && |volumes| == |at| && forall k :: 0 <= k < |at| ==> MountRead(mounts[at[k]], volumes[k])
  }

  ghost predicate FileRead(name: string, file: Option<FileTarget>, c: FileRef) {
    c.source == name && c.target == if file.Some? then file.value.name else ""
  }

  ghost predicate FilesRead(cs: ContainerSpec, s: ServiceSpec) {
    && |Elems(s.configs)| == |cs.configs| && |Elems(s.secrets)| == |cs.secrets|
    && (forall i :: 0 <= i < |cs.configs| ==>
          && FileRead(cs.configs[i].configName, cs.configs[i].file, Elems(s.configs)[i])
          && Elems(s.configs)[i].mode
             == if cs.configs[i].file.Some? && cs.configs[i].file.value.mode != 0x124 then cs.configs[i].file.value.mode else 0)
    && (forall i :: 0 <= i < |cs.secrets| ==>
          FileRead(cs.secrets[i].secretName, cs.secrets[i].file, Elems(s.secrets)[i]) && Elems(s.secrets)[i].mode == 0)
    && MountsRead(cs.mounts, Elems(s.volumes))
  }

  ghost predicate DurationRead(e: Option<int>, d: int) {
    (e.Some? ==> d == e.value) && (e.None? ==> d == 0)
  }

  /** A healthcheck without a test is none. */
  ghost predicate HealthcheckRead(e: Option<HealthConfig>, hc: Option<HealthcheckSpec>) {
    && (hc.Some? <==> e.Some? && e.value.test != [])
    && (hc.Some? ==>
          && hc.value.test == Some(e.value.test) && hc.value.interval == e.value.interval
          && hc.value.timeout == e.value.timeout && hc.value.retries == e.value.retries
          && hc.value.startPeriod == e.value.startPeriod)
  }

  ghost predicate ContainerRead(cs: ContainerSpec, s: ServiceSpec) {
    && s.image == cs.image && Elems(s.command) == cs.args && Elems(s.entrypoint) == cs.command
    && s.hostname == cs.hostname && s.user == cs.user && Elems(s.capAdd) == cs.capabilityAdd
    && Elems(s.ulimits) == cs.ulimits && DurationRead(cs.stopGracePeriod, s.stopGracePeriod)
    && HealthcheckRead(cs.healthcheck, s.healthcheck)
  }

  /** Without a container spec there is nothing of it to read. */
  ghost predicate NoContainerRead(s: ServiceSpec) {
    && s.image == "" && Entries(s.env) == map[] && Elems(s.command) == [] && Elems(s.entrypoint) == []
    && s.hostname == "" && s.user == "" && Elems(s.capAdd) == [] && Elems(s.ulimits) == []
    && s.stopGracePeriod == 0 && s.healthcheck.None? && Elems(s.volumes) == [] && Elems(s.configs) == []
    && Elems(s.secrets) == []
  }

  ghost predicate RestartRead(e: Option<RestartPolicy>, rp: Option<RestartPolicySpec>) {
    && (rp.Some? <==> e.Some?)
    && (rp.Some? ==>
          && rp.value.condition == e.value.condition && DurationRead(e.value.delay, rp.value.delay)
          && DurationRead(e.value.window, rp.value.window)
          && rp.value.maxAttempts == if e.value.maxAttempts.Some? then e.value.maxAttempts.value else 0)
  }

  ghost predicate TaskRead(task: TaskSpec, names: map<string, string>, s: ServiceSpec) {
    && RestartRead(task.restartPolicy, s.restartPolicy)
    && (s.resources.Some? <==> task.resources.Some? && task.resources.value.limits.Some?)
    && (s.resources.Some? ==>
          && s.resources.value.memoryBytes == task.resources.value.limits.value.memoryBytes
          && s.resources.value.nanoCPUs == task.resources.value.limits.value.nanoCPUs)
    && (s.placement.Some? <==> task.placement.Some? && task.placement.value.constraints != [])
    && (s.placement.Some? ==> s.placement.value.constraints == Some(task.placement.value.constraints))
    && |Elems(s.networks)| == |task.networks|
    && forall i :: 0 <= i < |task.networks| ==>
         var t := task.networks[i].target; Elems(s.networks)[i] == if t in names then names[t] else t
  }

  /** The first mode that is set counts, in this order; a count is read from a replicated one alone. */
  ghost predicate ModeRead(m: ServiceMode, s: ServiceSpec) {
    && s.mode == (if m.replicated.Some? then "replicated" else if m.global then "global"
                  else if m.replicatedJob.Some? then "replicated-job" else if m.globalJob then "global-job" else "")
    && s.replicas == match m.replicated case Some(Some(n)) => n case _ => 0
  }

  ghost predicate LabelsRead(labels: map<string, string>, s: ServiceSpec) {
    && (forall k :: k in Entries(s.labels) <==> k in labels && HasPrefix(k, "swarmgate."))
    && (forall k :: k in Entries(s.deployLabels)
                    <==> k in labels && !HasPrefix(k, "swarmgate.") && k != "com.docker.stack.namespace")
    && (forall k :: k in Entries(s.labels) ==> Entries(s.labels)[k] == labels[k])
    && (forall k :: k in Entries(s.deployLabels) ==> Entries(s.deployLabels)[k] == labels[k])
  }

  ghost predicate PortsRead(e: Option<EndpointSpec>, ports: Slice<PortSpec>) {
    if e.None? then Elems(ports) == []
    else
      && |Elems(ports)| == |e.value.ports|
      && forall i :: 0 <= i < |e.value.ports| ==>
           && Elems(ports)[i].target == e.value.ports[i].targetPort && Elems(ports)[i].mode == e.value.ports[i].publishMode
           && Elems(ports)[i].published == e.value.ports[i].publishedPort
           && Elems(ports)[i].protocol == e.value.ports[i].protocol
  }

  /** s is what an observer reads off e before it takes the normal form, told without its own steps. */
  ghost predicate ReadsAs(e: EngineSpec, names: map<string, string>, s: ServiceSpec) {
    && s.name == e.name && LabelsRead(e.labels, s) && ModeRead(e.mode, s) && PortsRead(e.endpoint, s.ports)
    && TaskRead(e.task, names, s)
    && (s.updateConfig.Some? <==> e.updateConfig.Some?)
    && (s.updateConfig.Some? ==> s.updateConfig.value.parallelism == e.updateConfig.value.parallelism)
    && match e.task.container
       case None => NoContainerRead(s)
       case Some(cs) => ContainerRead(cs, s) && EnvRead(cs.env, Entries(s.env)) && FilesRead(cs, s)
  }

  lemma {:induction false} DecodedLast(e: seq<string>)
    ensures EnvRead(e, DecodeEnv(e))
  {
    if e != [] {
      var n := |e| - 1;
      DecodedLast(e[..n]);
      EnvReadNext(e[..n], DecodeEnv(e[..n]), e[n]);
      assert e == e[..n] + [e[n]];
    }
  }

  lemma EnvReadNext(init: seq<string>, env: map<string, string>, x: string)
    requires EnvRead(init, env)
    ensures EnvRead(init + [x], env[CutKey(x, '=') := CutValue(x, '=')])
  {
    var e, next := init + [x], env[CutKey(x, '=') := CutValue(x, '=')];
    forall k | k in next ensures exists i :: LastFor(e, k, i, next[k]) {
      if k == CutKey(x, '=') {
        assert LastFor(e, k, |init|, next[k]);
      } else {
        var i :| LastFor(init, k, i, env[k]);
        assert LastFor(e, k, i, next[k]);
      }
    }
  }

  lemma {:induction false} MountsPicked(mounts: seq<Mount>) returns (at: seq<nat>)
    ensures Positions(at, |mounts|) && (forall i: nat :: i in at <==> i < |mounts| && Readable(mounts[i]))
    ensures |ReadMounts(mounts)| == |at| && forall k :: 0 <= k < |at| ==> MountRead(mounts[at[k]], ReadMounts(mounts)[k])
  {
    if mounts == [] { return []; }
    var n := |mounts| - 1;
    at := MountsPicked(mounts[..n]);
    PositionsNext(at, n);
    if Readable(mounts[n]) {
      at := at + [n];
    }
  }

  lemma ContainerReads(e: EngineSpec, names: map<string, string>)
    requires e.task.container.Some?
    ensures var cs, s := e.task.container.value, Raw(e, names);
      ContainerRead(cs, s) && EnvRead(cs.env, Entries(s.env)) && FilesRead(cs, s)
  {
    DecodedLast(e.task.container.value.env);
    FilesReadBack(e, names);
  }

  lemma FilesReadBack(e: EngineSpec, names: map<string, string>)
    requires e.task.container.Some?
    ensures FilesRead(e.task.container.value, Raw(e, names))
  {
    var at := MountsPicked(e.task.container.value.mounts);
  }

  lemma TaskReads(e: EngineSpec, names: map<string, string>)
    ensures TaskRead(e.task, names, Raw(e, names))
  {
  }

  lemma RawReads(e: EngineSpec, names: map<string, string>)
    ensures ReadsAs(e, names, Raw(e, names))
  {
    TaskReads(e, names);
    if e.task.container.Some? { ContainerReads(e, names); }
  }

  /** What the observer shows is the normal form, by its rules, of what it reads field by field. */
  lemma ReadBackExactly(e: EngineSpec, names: map<string, string>)
    ensures var stack := if "swarmgate.stack" in e.labels then e.labels["swarmgate.stack"] else "";
      exists raw :: ReadsAs(e, names, raw) && Canonical(stack, raw, ReadBack(e, names))
  {
    RawReads(e, names);
    FormIsCanonical(Lookup(e.labels, STACK_LABEL), Raw(e, names));
  }

  // ---- The source's step-by-step forms ----

  method Collect<A, B>(s: seq<A>, f: A -> B) returns (r: seq<B>)
    ensures r == Map(s, f)
  {
    r := [];
    for i := 0 to |s|
      invariant r == Map(s[..i], f)
    {
      r := r + [f(s[i])];
    }
    assert s[..|s|] == s;
  }

  method DecodeEntries(env: seq<string>) returns (m: map<string, string>)
    ensures m == DecodeEnv(env)
  {
    m := map[];
    for i := 0 to |env|
      invariant m == DecodeEnv(env[..i])
    {
      assert env[..i + 1][..i] == env[..i];
      m := m[CutKey(env[i], '=') := CutValue(env[i], '=')];
    }
    assert env[..|env|] == env;
  }

  method CollectMounts(mounts: seq<Mount>) returns (r: seq<VolumeMount>)
    ensures r == ReadMounts(mounts)
  {
    r := [];
    for i := 0 to |mounts|
      invariant r == ReadMounts(mounts[..i])
    {
      var m := mounts[i];
      assert mounts[..i + 1][..i] == mounts[..i];
      if m.kind != "volume" && m.kind != "bind" { continue; }
      r := r + [VolumeMount(m.source, m.target, m.readOnly, m.kind == "bind")];
    }
    assert mounts[..|mounts|] == mounts;
  }

  method SplitLabels(labels: map<string, string>) returns (own: map<string, string>, deploy: map<string, string>)
    ensures own == PrefixedLabels(labels) && deploy == ReadDeployLabels(labels)
  {
    own, deploy := map[], map[];
    var rest := labels.Keys;
    while rest != {}
      invariant rest <= labels.Keys
      invariant own == map k | k in labels.Keys - rest && HasPrefix(k, LABEL_PREFIX) :: labels[k]
      invariant deploy == map k | k in labels.Keys - rest && DeployLabelKey(k) :: labels[k]
      decreases |rest|
    {
      var k :| k in rest;
      rest := rest - {k};
      if HasPrefix(k, LABEL_PREFIX) {
        own := own[k := labels[k]];
      } else if k != NAMESPACE_LABEL {
        deploy := deploy[k := labels[k]];
      }
    }
  }

  method CollectNetworks(networks: seq<NetworkAttachment>, names: map<string, string>) returns (r: seq<string>)
    ensures r == ReadNetworks(networks, names)
  {
    r := [];
    for i := 0 to |networks|
      invariant r == ReadNetworks(networks[..i], names)
    {
      var name := networks[i].target;
      if name in names { name := names[name]; }
      r := r + [name];
    }
    assert networks[..|networks|] == networks;
  }

  method FromSwarm(e: EngineSpec, names: map<string, string>) returns (r: ServiceSpec)
    ensures r == ReadBack(e, names)
  {
    var cs := if e.task.container.Some? then e.task.container.value else EMPTY_CONTAINER;
    var env: Dict := None;
    if |cs.env| > 0 {
      var m := DecodeEntries(cs.env);
      env := Some(m);
    }
    var mounts := CollectMounts(cs.mounts);
    var configs := Collect(cs.configs, ReadConfig);
    var secrets := Collect(cs.secrets, ReadSecret);
    var own, deploy := SplitLabels(e.labels);
    var networks := CollectNetworks(e.task.networks, names);
    var ports: seq<PortSpec> := [];
    if e.endpoint.Some? {
      ports := Collect(e.endpoint.value.ports, ReadPort);
    }
    var raw := ServiceSpec(
      e.name, cs.image, ReadReplicas(e.mode), env, Some(own), Some(deploy), AsSlice(networks), AsSlice(ports),
      ReadHealthcheck(cs.healthcheck), AsSlice(cs.args), AsSlice(cs.command), cs.hostname,
      AsSlice(cs.capabilityAdd), cs.user, OrZero(cs.stopGracePeriod), AsSlice(cs.ulimits), AsSlice(mounts),
      AsSlice(configs), AsSlice(secrets), ReadMode(e.mode), ReadRestartPolicy(e.task.restartPolicy),
      ReadResources(e.task.resources), ReadPlacement(e.task.placement), ReadUpdateConfig(e.updateConfig));
    r := Normalize(Lookup(e.labels, STACK_LABEL), raw);
  }

  ghost predicate Distinct(s: seq<string>) {
    forall i, j :: 0 <= i < j < |s| ==> s[i] != s[j]
  }

  lemma {:induction false} DistinctCount(s: seq<string>, x: string)
    requires Distinct(s)
    ensures multiset(s)[x] == if x in s then 1 else 0
  {
    if s != [] {
      assert s == [s[0]] + s[1..];
      DistinctCount(s[1..], x);
    }
  }

  lemma DistinctPermutation(a: seq<string>, b: seq<string>)
    requires Distinct(a) && Distinct(b) && forall x :: x in a <==> x in b
    ensures multiset(a) == multiset(b)
  {
    forall x ensures multiset(a)[x] == multiset(b)[x] {
      DistinctCount(a, x);
      DistinctCount(b, x);
    }
  }

  lemma EntriesPermuted(a: seq<string>, b: seq<string>, m: map<string, string>)
    requires Distinct(a) && Distinct(b) && (forall x :: x in a <==> x in m) && (forall x :: x in b <==> x in m)
    ensures multiset(EnvEntries(a, m)) == multiset(EnvEntries(b, m))
  {
    DistinctPermutation(a, b);
    var f := k => EnvEntry(k, Lookup(m, k));
    MapMultiset(a, b, f);
    assert Map(a, f) == EnvEntries(a, m) && Map(b, f) == EnvEntries(b, m);
  }

  /** The entries are gathered in whatever order the map is walked, then sorted. */
  method EncodeEntries(m: map<string, string>) returns (env: seq<string>)
    ensures env == EncodeEnv(m)
  {
    env := [];
    var rest := m.Keys;
    ghost var keys: seq<string> := [];
    while rest != {}
      invariant rest <= m.Keys
      invariant Distinct(keys) && forall x :: x in keys <==> x in m.Keys - rest
      invariant env == EnvEntries(keys, m)
      decreases |rest|
    {
      var k :| k in rest;
      assert k !in keys;
      rest := rest - {k};
      keys := keys + [k];
      env := env + [EnvEntry(k, m[k])];
    }
    EntriesPermuted(keys, SortedOf(m.Keys), m);
    LePreorder();
    LeTieFree(env);
    SortIsOrderInsensitive(env, EnvEntries(SortedOf(m.Keys), m), Le);
    env := Sort(env, Le);
  }

  lemma LeTieFree(s: seq<string>)
    ensures TieFree(s, Le)
  {
    forall x, y | Le(x, y) && Le(y, x) ensures x == y { LeTotal(x, y); }
  }

  method CopyLabels(into: map<string, string>, labels: map<string, string>) returns (r: map<string, string>)
    ensures r == into + labels
  {
    r := into;
    var rest := labels.Keys;
    while rest != {}
      invariant rest <= labels.Keys
      invariant r == into + map k | k in labels.Keys - rest :: labels[k]
      decreases |rest|
    {
      var k :| k in rest;
      rest := rest - {k};
      r := r[k := labels[k]];
    }
  }

  method ToContainer(s: ServiceSpec) returns (cs: ContainerSpec)
    ensures cs == WriteContainer(s)
  {
    var env: seq<string> := [];
    EncodedEntries(Entries(s.env));
    if |Entries(s.env)| > 0 {
      env := EncodeEntries(Entries(s.env));
    }
    var mounts := Collect(Elems(s.volumes), WriteMount);
    var configs := Collect(Elems(s.configs), WriteConfig);
    var secrets := Collect(Elems(s.secrets), WriteSecret);
    cs := ContainerSpec(
      s.image, env, WriteHealthcheck(s.healthcheck), Elems(s.entrypoint), Elems(s.command), s.hostname, s.user,
      Elems(s.capAdd), IfPositive(s.stopGracePeriod), Elems(s.ulimits), mounts, configs, secrets, map[]);
  }

  method ToTask(s: ServiceSpec) returns (task: TaskSpec)
    ensures task == WriteTask(s)
  {
    var cs := ToContainer(s);
    var networks := Collect(Elems(s.networks), WriteNetwork);
    task := TaskSpec(Some(cs), WriteRestartPolicy(s.restartPolicy), WriteResources(s.resources),
                     WritePlacement(s.placement), networks, map[]);
  }

  method ToSwarm(s: ServiceSpec) returns (e: EngineSpec)
    ensures e == Submitted(s)
  {
    var labels := CopyLabels(map[], Entries(s.labels));
    labels := CopyLabels(labels, Entries(s.deployLabels));
    var task := ToTask(s);
    var endpoint: Option<EndpointSpec> := None;
    if |Elems(s.ports)| > 0 {
      var ports := Collect(s.ports.value, WritePort);
      endpoint := Some(EndpointSpec(ports, ""));
    }
    e := EngineSpec(s.name, labels, task, WriteMode(s), WriteUpdateConfig(s.updateConfig), endpoint, map[]);
  }

  method AttachByID(e: EngineSpec, ids: map<string, string>) returns (r: EngineSpec)
    ensures r == Attached(e, ids)
  {
    var networks := e.task.networks;
    for i := 0 to |networks|
      invariant |networks| == |e.task.networks|
      invariant forall j :: 0 <= j < i ==> networks[j] == AttachedNetworks(e.task.networks, ids)[j]
      invariant forall j :: i <= j < |networks| ==> networks[j] == e.task.networks[j]
    {
      if networks[i].target in ids {
        networks := networks[i := networks[i].(target := ids[networks[i].target])];
      }
    }
    assert networks == AttachedNetworks(e.task.networks, ids);
    r := e.(task := e.task.(networks := networks));
  }
}
