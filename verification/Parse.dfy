/**
 Merging stack files into one desired state (internal/spec/parse.go).  What the YAML and compose
 libraries make of a file is part of the input.
 */
module Parse {
  import opened Basics
  import opened Convert
  import opened Normal
  import opened Ordering
  import opened Settle
  import opened Spec
  import opened Swarm
  import opened Text

  /** One service as loaded; fields holds what carries over as it is, ulimits come in the order their map yields them. */
  datatype RawService = RawService(
    fields: ServiceSpec, ports: seq<RawPort>, healthcheck: Option<RawHealthcheck>, volumes: seq<RawVolume>,
    ulimits: seq<RawUlimit>, replicas: Option<nat>, mode: string, limits: Option<ResourcesSpec>,
    parallelism: Option<Option<nat>>, constraints: seq<string>, configRefs: seq<FileRef>, secretRefs: seq<FileRef>)

  /** A loaded compose project: services by key, and the declared config and secret keys. */
  datatype Project = Project(services: map<string, RawService>, configs: set<string>, secrets: set<string>)

  /** The file-backed configs of a stack, their object names by key, and the loaded project. */
  datatype Prepared = Prepared(configs: map<string, seq<bv8>>, names: map<string, string>, project: Option<Project>)

  /** None is a stage that fails on this file. */
  datatype Content = Content(resolved: bool, allowed: bool, prepared: Option<Prepared>)

  datatype StackFile = StackFile(name: string, content: Content)

  // ---- One service ----

  const MAX_REPLICAS := 1000
  const MAX_PORTS := 100
  const MAX_NETWORKS := 50
  const MAX_ENV_VARS := 1000
  const MAX_VOLUMES := 50
  const MAX_CONFIGS := 50
  const MAX_SECRETS := 50
  const MAX_CAP_ADD := 50
  const MAX_ULIMITS := 20
  const MAX_COMMAND_ARGS := 200
  const MAX_PLACEMENT_CONSTRAINTS := 50

  const DEPLOY_MODES := {"replicated", "global", "replicated-job", "global-job"}

  predicate WithinLimits(s: ServiceSpec) {
    && s.replicas <= MAX_REPLICAS
    && |Elems(s.ports)| <= MAX_PORTS
    && |Elems(s.networks)| <= MAX_NETWORKS
    && |Entries(s.env)| <= MAX_ENV_VARS
    && |Elems(s.volumes)| <= MAX_VOLUMES
    && |Elems(s.configs)| <= MAX_CONFIGS
    && |Elems(s.secrets)| <= MAX_SECRETS
    && |Elems(s.capAdd)| <= MAX_CAP_ADD
    && |Elems(s.ulimits)| <= MAX_ULIMITS
    && |Elems(s.command)| <= MAX_COMMAND_ARGS
    && |Elems(s.entrypoint)| <= MAX_COMMAND_ARGS
    && (s.placement.Some? ==> |Elems(s.placement.value.constraints)| <= MAX_PLACEMENT_CONSTRAINTS)
  }

  /** An omitted target is /<kind>s/<source>. */
  function DefaultTarget(r: FileRef, kind: string): FileRef {
    if r.target == "" then r.(target := "/" + kind + "s/" + r.source) else r
  }

  ghost predicate AllDeclared(refs: seq<FileRef>, declared: set<string>) {
    forall r :: r in refs ==> r.source in declared
  }

  /** A file-backed config is mounted under its object name. */
  function RenameSource(r: FileRef, names: map<string, string>): FileRef {
    if r.source in names then r.(source := names[r.source]) else r
  }

  function ConfigRef(r: FileRef, names: map<string, string>): FileRef {
    RenameSource(DefaultTarget(r, "config"), names)
  }

  /** Secret references carry no mode. */
  function SecretRef(r: FileRef): FileRef {
    DefaultTarget(r.(mode := 0), "secret")
  }

  function Assembled(stack: string, key: string, raw: RawService, names: map<string, string>): ServiceSpec {
    raw.fields.(
      name := ServiceName(stack, key),
      replicas := DefaultReplicas(raw.replicas),
      ports := AsSlice(Map(raw.ports, PortOf)),
      healthcheck := HealthcheckOf(raw.healthcheck),
      ulimits := AsSlice(Map(raw.ulimits, UlimitOf)),
      volumes := AsSlice(Map(raw.volumes, VolumeOf)),
      configs := AsSlice(Map(raw.configRefs, (r: FileRef) => ConfigRef(r, names))),
      secrets := AsSlice(Map(raw.secretRefs, SecretRef)),
      mode := raw.mode,
      resources := raw.limits,
      placement := if raw.constraints == [] then None else Some(PlacementSpec(Some(raw.constraints))),
      updateConfig := if raw.parallelism.None? || raw.parallelism.value.None? then None
                      else Some(UpdateConfigSpec(raw.parallelism.value.value)))
  }

  /** Every conversion of the service succeeds. */
  ghost predicate Converts(raw: RawService, project: Project) {
    && PortsConvert(raw.ports) && HealthcheckConverts(raw.healthcheck) && VolumesConvert(raw.volumes)
    && AllDeclared(raw.configRefs, project.configs) && AllDeclared(raw.secretRefs, project.secrets)
    && (raw.mode == "" || raw.mode in DEPLOY_MODES)
    && (raw.limits.Some? ==> raw.limits.value.memoryBytes != 0)
    && (raw.parallelism.Some? ==> raw.parallelism.value.Some? && raw.parallelism.value.value != 0)
  }

  function ServiceOf(stack: string, key: string, raw: RawService, names: map<string, string>): ServiceSpec {
    NormalForm(stack, Assembled(stack, key, raw, names))
  }

  ghost predicate Accepted(stack: string, key: string, raw: RawService, p: Prepared)
    requires p.project.Some?
  {
    Converts(raw, p.project.value) && WithinLimits(ServiceOf(stack, key, raw, p.names))
  }

  method ConfigRefs(refs: seq<FileRef>, declared: set<string>, names: map<string, string>)
    returns (r: Option<Slice<FileRef>>)
    ensures r.Some? <==> AllDeclared(refs, declared)
    ensures r.Some? ==> r.value == AsSlice(Map(refs, (x: FileRef) => ConfigRef(x, names)))
  {
    var out: seq<FileRef> := [];
    for i := 0 to |refs|
      invariant AllDeclared(refs[..i], declared)
      invariant |out| == i && forall j :: 0 <= j < i ==> out[j] == DefaultTarget(refs[j], "config")
    {
      if refs[i].source !in declared {
        assert refs[i] in refs;
        return None;
      }
      out := out + [DefaultTarget(refs[i], "config")];
    }
    assert refs[..|refs|] == refs;
    for i := 0 to |out|
      invariant |out| == |refs|
      invariant forall j :: 0 <= j < i ==> out[j] == ConfigRef(refs[j], names)
      invariant forall j :: i <= j < |out| ==> out[j] == DefaultTarget(refs[j], "config")
    {
      if out[i].source in names {
        out := out[i := out[i].(source := names[out[i].source])];
      }
    }
    assert out == Map(refs, (x: FileRef) => ConfigRef(x, names));
    return Some(AsSlice(out));
  }

  method SecretRefs(refs: seq<FileRef>, declared: set<string>) returns (r: Option<Slice<FileRef>>)
    ensures r.Some? <==> AllDeclared(refs, declared)
    ensures r.Some? ==> r.value == AsSlice(Map(refs, SecretRef))
  {
    var out: seq<FileRef> := [];
    for i := 0 to |refs|
      invariant AllDeclared(refs[..i], declared)
      invariant |out| == i && forall j :: 0 <= j < i ==> out[j] == SecretRef(refs[j])
    {
      if refs[i].source !in declared {
        assert refs[i] in refs;
        return None;
      }
      out := out + [SecretRef(refs[i])];
    }
    assert refs[..|refs|] == refs;
    assert out == Map(refs, SecretRef);
    return Some(AsSlice(out));
  }

  /** Every part of the service, each converted or refused. */
  method ConvertParts(stack: string, key: string, raw: RawService, p: Prepared) returns (r: Option<ServiceSpec>)
    requires p.project.Some?
    ensures r.Some? <==> Converts(raw, p.project.value)
    ensures r.Some? ==> r.value == Assembled(stack, key, raw, p.names)
  {
    var ports := ServicePorts(raw.ports);
    var volumes := ServiceVolumes(raw.volumes);
    var configs := ConfigRefs(raw.configRefs, p.project.value.configs, p.names);
    var secrets := SecretRefs(raw.secretRefs, p.project.value.secrets);
    var ulimits := ServiceUlimits(raw.ulimits);
    if ports.None? || !HealthcheckConverts(raw.healthcheck) || volumes.None? || configs.None? || secrets.None? {
      return None;
    }
    if raw.mode != "" && raw.mode !in DEPLOY_MODES {
      return None;
    }
    if raw.limits.Some? && raw.limits.value.memoryBytes == 0 {
      return None;
    }
    if raw.parallelism.Some? && (raw.parallelism.value.None? || raw.parallelism.value.value == 0) {
      return None;
    }
    var parts := raw.fields.(
      name := ServiceName(stack, key), replicas := DefaultReplicas(raw.replicas), ports := ports.value,
      healthcheck := HealthcheckOf(raw.healthcheck), ulimits := ulimits, volumes := volumes.value,
      configs := configs.value, secrets := secrets.value, mode := raw.mode, resources := raw.limits);
    if |raw.constraints| > 0 {
      parts := parts.(placement := Some(PlacementSpec(Some(raw.constraints))));
    } else {
      parts := parts.(placement := None);
    }
    if raw.parallelism.Some? {
      parts := parts.(updateConfig := Some(UpdateConfigSpec(raw.parallelism.value.value)));
    } else {
      parts := parts.(updateConfig := None);
    }
    return Some(parts);
  }

  method ConvertService(stack: string, key: string, raw: RawService, p: Prepared) returns (r: Option<ServiceSpec>)
    requires p.project.Some?
    ensures r.Some? <==> Accepted(stack, key, raw, p)
    ensures r.Some? ==> r.value == ServiceOf(stack, key, raw, p.names)
  {
    var parts := ConvertParts(stack, key, raw, p);
    if parts.None? {
      return None;
    }
    var spec := Normalize(stack, parts.value);
    if !WithinLimits(spec) {
      return None;
    }
    return Some(spec);
  }

  // ---- One stack ----

  /** The file gets through every stage up to a loaded project. */
  predicate Loads(f: StackFile) {
    f.content.resolved && f.content.allowed && f.content.prepared.Some? && f.content.prepared.value.project.Some?
  }

  function ServicesOf(f: StackFile): map<string, RawService> {
    if Loads(f) then f.content.prepared.value.project.value.services else map[]
  }

  function PayloadsOf(f: StackFile): map<string, seq<bv8>> {
    if f.content.prepared.Some? then f.content.prepared.value.configs else map[]
  }

  /** The file parses on its own. */
  ghost predicate Alone(f: StackFile) {
    Loads(f) && forall k :: k in ServicesOf(f) ==> Accepted(f.name, k, ServicesOf(f)[k], f.content.prepared.value)
  }

  function KeyOf(stack: string, name: string): string {
    if |name| > |stack| then name[|stack| + 1..] else ""
  }

  predicate Claims(f: StackFile, n: string) {
    KeyOf(f.name, n) in ServicesOf(f) && n == ServiceName(f.name, KeyOf(f.name, n))
  }

  lemma ClaimsItsServices(f: StackFile, k: string)
    ensures KeyOf(f.name, ServiceName(f.name, k)) == k
    ensures Claims(f, ServiceName(f.name, k)) <==> k in ServicesOf(f)
  {
    assert ServiceName(f.name, k)[|f.name| + 1..] == k;
  }

  function Claimed(f: StackFile): (r: set<string>)
    ensures forall n :: n in r <==> Claims(f, n)
  {
    var r := set k | k in ServicesOf(f) :: ServiceName(f.name, k);
    assert forall n :: n in r ==> Claims(f, n) by {
      forall n | n in r ensures Claims(f, n) {
        var k :| k in ServicesOf(f) && n == ServiceName(f.name, k);
        ClaimsItsServices(f, k);
      }
    }
    assert forall n :: Claims(f, n) ==> n == ServiceName(f.name, KeyOf(f.name, n)) && n in r;
    r
  }

  /** What the file contributes, by qualified name. */
  function StackServices(f: StackFile): Services {
    map n | n in Claimed(f) ::
      ServiceOf(f.name, KeyOf(f.name, n), ServicesOf(f)[KeyOf(f.name, n)],
                if f.content.prepared.Some? then f.content.prepared.value.names else map[])
  }

  function Ownership(f: StackFile): map<string, string> {
    map n | n in Claimed(f) :: f.name
  }

  // ---- All stacks ----

  function Merged(files: seq<StackFile>): Services {
    if files == [] then map[] else Merged(files[..|files| - 1]) + StackServices(files[|files| - 1])
  }

  function Owners(files: seq<StackFile>): map<string, string> {
    if files == [] then map[] else Owners(files[..|files| - 1]) + Ownership(files[|files| - 1])
  }

  function MergedConfigs(files: seq<StackFile>): map<string, seq<bv8>> {
    if files == [] then map[] else MergedConfigs(files[..|files| - 1]) + PayloadsOf(files[|files| - 1])
  }

  ghost predicate Agree(f: StackFile, g: StackFile) {
    forall n :: n in PayloadsOf(f) && n in PayloadsOf(g) ==> PayloadsOf(f)[n] == PayloadsOf(g)[n]
  }

  ghost predicate ConfigsAgree(files: seq<StackFile>) {
    forall f, g :: f in files && g in files ==> Agree(f, g)
  }

  /** Stacks of different names claim one qualified name. */
  ghost predicate Clash(f: StackFile, g: StackFile) {
    f.name != g.name && exists n :: Claims(f, n) && Claims(g, n)
  }

  ghost predicate NoClash(files: seq<StackFile>) {
    forall f, g :: f in files && g in files ==> !Clash(f, g)
  }

  ghost predicate AllAlone(files: seq<StackFile>) {
    forall f :: f in files ==> Alone(f)
  }

  ghost predicate Parses(files: seq<StackFile>) {
    AllAlone(files) && ConfigsAgree(files) && NoClash(files)
  }

  lemma OwnersLast(files: seq<StackFile>, n: string)
    requires files != []
    ensures var init, last := files[..|files| - 1], files[|files| - 1];
      && (n in Owners(files) <==> n in Owners(init) || Claims(last, n))
      && (Claims(last, n) ==> Owners(files)[n] == last.name)
      && (!Claims(last, n) && n in Owners(init) ==> Owners(files)[n] == Owners(init)[n])
  {
  }

  ghost predicate Owns(files: seq<StackFile>, f: StackFile, n: string) {
    f in files && Claims(f, n) && n in Owners(files) && Owners(files)[n] == f.name
  }

  lemma {:induction false} OwnersMeaning(files: seq<StackFile>, n: string)
    ensures n in Owners(files) ==> exists f :: Owns(files, f, n)
    ensures forall f :: f in files && Claims(f, n) ==> n in Owners(files)
  {
    if files != [] {
      var init, last := files[..|files| - 1], files[|files| - 1];
      OwnersMeaning(init, n);
      OwnersLast(files, n);
      assert forall f :: f in files <==> f in init || f == last;
      if n in Owners(files) {
        if Claims(last, n) {
          assert Owns(files, last, n);
        } else {
          var f :| Owns(init, f, n);
          assert Owns(files, f, n);
        }
      }
    }
  }

  lemma {:induction false} ConfigsMeaning(files: seq<StackFile>, n: string)
    ensures n in MergedConfigs(files) <==> exists f :: f in files && n in PayloadsOf(f)
    ensures n in MergedConfigs(files) ==>
              exists f :: f in files && n in PayloadsOf(f) && MergedConfigs(files)[n] == PayloadsOf(f)[n]
  {
    if files != [] {
      var init, last := files[..|files| - 1], files[|files| - 1];
      ConfigsMeaning(init, n);
      assert files == init + [last];
    }
  }

  /** The owner map gives these names to no other stack. */
  ghost predicate Own(name: string, owner: map<string, string>, names: set<string>) {
    forall n :: n in names && n in owner ==> owner[n] == name
  }

  ghost predicate SameWhereBoth(payloads: map<string, seq<bv8>>, configs: map<string, seq<bv8>>) {
    forall n :: n in payloads && n in configs ==> configs[n] == payloads[n]
  }

  /** What parse holds against one more file. */
  ghost predicate Fits(f: StackFile, owner: map<string, string>, configs: map<string, seq<bv8>>) {
    && Alone(f)
    && SameWhereBoth(PayloadsOf(f), configs)
    && Own(f.name, owner, Claimed(f))
  }

  lemma NoOwnerMeansNoClash(files: seq<StackFile>, f: StackFile)
    requires NoClash(files)
    ensures Own(f.name, Owners(files), Claimed(f)) <==> forall g :: g in files ==> !Clash(f, g)
  {
    forall n | n in Claimed(f) && n in Owners(files) && Owners(files)[n] != f.name
      ensures exists g :: g in files && Clash(f, g)
    {
      OwnersMeaning(files, n);
      var g :| Owns(files, g, n);
      assert Clash(f, g);
    }
    forall g | g in files && Clash(f, g)
      ensures exists n :: n in Claimed(f) && n in Owners(files) && Owners(files)[n] != f.name
    {
      var n :| Claims(f, n) && Claims(g, n);
      OwnersMeaning(files, n);
      var h :| Owns(files, h, n);
      assert !Clash(g, h);
      assert n in Claimed(f) && n in Owners(files) && Owners(files)[n] != f.name;
    }
  }

  lemma FitsMeansAgree(files: seq<StackFile>, f: StackFile)
    requires ConfigsAgree(files)
    ensures SameWhereBoth(PayloadsOf(f), MergedConfigs(files)) <==> forall g :: g in files ==> Agree(f, g)
  {
    forall n | n in PayloadsOf(f) && n in MergedConfigs(files) && MergedConfigs(files)[n] != PayloadsOf(f)[n]
      ensures exists g :: g in files && !Agree(f, g)
    {
      ConfigsMeaning(files, n);
      var g :| g in files && n in PayloadsOf(g) && MergedConfigs(files)[n] == PayloadsOf(g)[n];
      assert !Agree(f, g);
    }
    forall g | g in files && !Agree(f, g)
      ensures exists n :: n in PayloadsOf(f) && n in MergedConfigs(files) && MergedConfigs(files)[n] != PayloadsOf(f)[n]
    {
      var n :| n in PayloadsOf(f) && n in PayloadsOf(g) && PayloadsOf(f)[n] != PayloadsOf(g)[n];
      ConfigsMeaning(files, n);
      var h :| h in files && n in PayloadsOf(h) && MergedConfigs(files)[n] == PayloadsOf(h)[n];
      assert Agree(g, h);
    }
  }

  lemma AloneOneMore(files: seq<StackFile>, f: StackFile)
    ensures AllAlone(files + [f]) <==> AllAlone(files) && Alone(f)
  {
    var all := files + [f];
    assert all[|files|] == f && forall i :: 0 <= i < |files| ==> all[i] == files[i];
    assert f in all && forall g :: g in files ==> g in all;
  }

  lemma AgreeOneMore(files: seq<StackFile>, f: StackFile)
    ensures ConfigsAgree(files + [f]) <==> ConfigsAgree(files) && forall g :: g in files ==> Agree(f, g)
  {
    var all := files + [f];
    assert f in all && (forall g :: g in files ==> g in all) && forall g :: g in all ==> g in files || g == f;
    forall g, h ensures Agree(g, h) == Agree(h, g) && Agree(g, g) {}
  }

  lemma NoClashOneMore(files: seq<StackFile>, f: StackFile)
    ensures NoClash(files + [f]) <==> NoClash(files) && forall g :: g in files ==> !Clash(f, g)
  {
    var all := files + [f];
    assert f in all && (forall g :: g in files ==> g in all) && forall g :: g in all ==> g in files || g == f;
    forall g, h ensures Clash(g, h) == Clash(h, g) && !Clash(g, g) {}
  }

  /** Checking each file against what came before it checks every pair. */
  lemma ParsesOneMore(files: seq<StackFile>, f: StackFile)
    ensures Parses(files + [f]) <==> Parses(files) && Fits(f, Owners(files), MergedConfigs(files))
  {
    AloneOneMore(files, f);
    AgreeOneMore(files, f);
    NoClashOneMore(files, f);
    if Parses(files) {
      NoOwnerMeansNoClash(files, f);
      FitsMeansAgree(files, f);
    }
  }

  lemma MergeOneMore(files: seq<StackFile>, f: StackFile)
    ensures Merged(files + [f]) == Merged(files) + StackServices(f)
    ensures Owners(files + [f]) == Owners(files) + Ownership(f)
    ensures MergedConfigs(files + [f]) == MergedConfigs(files) + PayloadsOf(f)
  {
    assert (files + [f])[..|files|] == files;
  }

  lemma {:induction false} FailsForGood(files: seq<StackFile>, i: nat)
    requires i <= |files| && !Parses(files[..i])
    ensures !Parses(files)
    decreases |files| - i
  {
    if i < |files| {
      assert files[..i + 1] == files[..i] + [files[i]];
      ParsesOneMore(files[..i], files[i]);
      FailsForGood(files, i + 1);
    } else {
      assert files[..i] == files;
    }
  }

  /** One turn of the loop over the files. */
  lemma OneMoreFile(files: seq<StackFile>, i: nat)
    requires i < |files| && Parses(files[..i])
    ensures Parses(files[..i + 1]) <==> Fits(files[i], Owners(files[..i]), MergedConfigs(files[..i]))
    ensures !Fits(files[i], Owners(files[..i]), MergedConfigs(files[..i])) ==> !Parses(files)
    ensures Merged(files[..i + 1]) == Merged(files[..i]) + StackServices(files[i])
    ensures Owners(files[..i + 1]) == Owners(files[..i]) + Ownership(files[i])
    ensures MergedConfigs(files[..i + 1]) == MergedConfigs(files[..i]) + PayloadsOf(files[i])
  {
    assert files[..i + 1] == files[..i] + [files[i]];
    ParsesOneMore(files[..i], files[i]);
    MergeOneMore(files[..i], files[i]);
    if !Parses(files[..i + 1]) { FailsForGood(files, i + 1); }
  }

  function Part<V>(m: map<string, V>, keys: set<string>): map<string, V> {
    map n | n in keys && n in m :: m[n]
  }

  lemma ContributionAt(f: StackFile, k: string)
    requires Loads(f) && k in ServicesOf(f)
    ensures var n := ServiceName(f.name, k);
      && n in Claimed(f) && n in StackServices(f) && n in Ownership(f) && Ownership(f)[n] == f.name
      && StackServices(f)[n] == ServiceOf(f.name, k, ServicesOf(f)[k], f.content.prepared.value.names)
  {
    ClaimsItsServices(f, k);
  }

  /** The keys in rest are those whose qualified names are not done. */
  ghost predicate Remaining(f: StackFile, rest: set<string>, done: set<string>) {
    && rest <= ServicesOf(f).Keys && done <= Claimed(f)
    && forall k :: k in ServicesOf(f) ==> (k in rest <==> ServiceName(f.name, k) !in done)
  }

  lemma RemainingStart(f: StackFile)
    ensures Remaining(f, ServicesOf(f).Keys, {})
  {
  }

  lemma RemainingStep(f: StackFile, k: string, rest: set<string>, done: set<string>)
    requires Remaining(f, rest, done) && k in rest
    ensures ServiceName(f.name, k) in Claimed(f) - done
    ensures Remaining(f, rest - {k}, done + {ServiceName(f.name, k)})
  {
    ClaimsItsServices(f, k);
    forall j | ServiceName(f.name, j) == ServiceName(f.name, k) ensures j == k {
      ClaimsItsServices(f, j);
    }
  }

  lemma RemainingDone(f: StackFile, done: set<string>)
    requires Remaining(f, {}, done)
    ensures done == Claimed(f)
  {
  }

  /** What was there, with the entries of m named in done on top. */
  ghost predicate Extended<V>(m: map<string, V>, done: set<string>, before: map<string, V>, now: map<string, V>) {
    done <= m.Keys && now == before + Part(m, done)
  }

  lemma ExtendedStep<V>(m: map<string, V>, done: set<string>, before: map<string, V>, now: map<string, V>, n: string)
    requires Extended(m, done, before, now) && n in m
    ensures Extended(m, done + {n}, before, now[n := m[n]])
  {
  }

  lemma ExtendedDone<V>(m: map<string, V>, done: set<string>, before: map<string, V>, now: map<string, V>)
    requires Extended(m, done, before, now) && done == m.Keys
    ensures now == before + m
  {
    assert Part(m, done) == m;
  }

  lemma ContributionKeys(f: StackFile)
    ensures StackServices(f).Keys == Claimed(f) && Ownership(f).Keys == Claimed(f)
  {
  }

  lemma OwnStep(name: string, done: set<string>, owned: map<string, string>, before: map<string, string>,
                now: map<string, string>, n: string)
    requires Extended(owned, done, before, now) && Own(name, before, done) && n !in done
    ensures Own(name, before, done + {n}) <==> n in now ==> now[n] == name
  {
  }

  /** The service converts, and no other stack owns its name. */
  ghost predicate Admits(f: StackFile, k: string, owner: map<string, string>)
    requires Loads(f) && k in ServicesOf(f)
  {
    && Accepted(f.name, k, ServicesOf(f)[k], f.content.prepared.value)
    && (ServiceName(f.name, k) in owner ==> owner[ServiceName(f.name, k)] == f.name)
  }

  ghost predicate AcceptedApart(f: StackFile, rest: set<string>)
    requires Loads(f)
  {
    forall k :: k in ServicesOf(f) && k !in rest ==> Accepted(f.name, k, ServicesOf(f)[k], f.content.prepared.value)
  }

  /** Where ParseStack stands: all but the services in rest have been added to what was there. */
  ghost predicate Partway(f: StackFile, rest: set<string>, done: set<string>, services0: Services, services: Services,
                          owner0: map<string, string>, owner: map<string, string>) {
    && Loads(f) && Remaining(f, rest, done) && AcceptedApart(f, rest) && Own(f.name, owner0, done)
    && Extended(StackServices(f), done, services0, services) && Extended(Ownership(f), done, owner0, owner)
  }

  lemma StackStart(f: StackFile, services0: Services, owner0: map<string, string>)
    requires Loads(f)
    ensures Partway(f, ServicesOf(f).Keys, {}, services0, services0, owner0, owner0)
  {
    RemainingStart(f);
    NothingAdded(StackServices(f), services0);
    NothingAdded(Ownership(f), owner0);
  }

  lemma NothingAdded<V>(m: map<string, V>, before: map<string, V>)
    ensures Extended(m, {}, before, before)
  {
  }

  lemma AcceptedStep(f: StackFile, k: string, rest: set<string>)
    requires Loads(f) && AcceptedApart(f, rest) && k in ServicesOf(f)
    requires Accepted(f.name, k, ServicesOf(f)[k], f.content.prepared.value)
    ensures AcceptedApart(f, rest - {k})
  {
  }

  lemma MapsStep(f: StackFile, k: string, done: set<string>, services0: Services, services: Services,
                 owner0: map<string, string>, owner: map<string, string>)
    requires Extended(StackServices(f), done, services0, services) && Extended(Ownership(f), done, owner0, owner)
    requires Loads(f) && k in ServicesOf(f)
    ensures ServiceName(f.name, k) in StackServices(f)
    ensures var n := ServiceName(f.name, k);
      && Extended(StackServices(f), done + {n}, services0, services[n := StackServices(f)[n]])
      && Extended(Ownership(f), done + {n}, owner0, owner[n := f.name])
  {
    ContributionAt(f, k);
    ExtendedStep(StackServices(f), done, services0, services, ServiceName(f.name, k));
    ExtendedStep(Ownership(f), done, owner0, owner, ServiceName(f.name, k));
  }

  lemma StackStep(f: StackFile, k: string, rest: set<string>, done: set<string>, services0: Services, services: Services,
                  owner0: map<string, string>, owner: map<string, string>)
    requires Partway(f, rest, done, services0, services, owner0, owner) && k in rest && Admits(f, k, owner)
    ensures ServiceName(f.name, k) in StackServices(f)
    ensures var n := ServiceName(f.name, k);
      Partway(f, rest - {k}, done + {n}, services0, services[n := StackServices(f)[n]], owner0, owner[n := f.name])
  {
    RemainingStep(f, k, rest, done);
    MapsStep(f, k, done, services0, services, owner0, owner);
    AcceptedStep(f, k, rest);
    OwnStep(f.name, done, Ownership(f), owner0, owner, ServiceName(f.name, k));
  }

  lemma StackBlocked(f: StackFile, k: string, rest: set<string>, done: set<string>, services0: Services, services: Services,
                     owner0: map<string, string>, owner: map<string, string>)
    requires Partway(f, rest, done, services0, services, owner0, owner) && k in rest && !Admits(f, k, owner)
    ensures !Alone(f) || !Own(f.name, owner0, Claimed(f))
  {
    var n := ServiceName(f.name, k);
    RemainingStep(f, k, rest, done);
    if n in owner { assert n in owner0 && owner[n] == owner0[n]; }
  }

  lemma RestShrinks(rest: set<string>, k: string)
    requires k in rest
    ensures |rest - {k}| < |rest|
  {
  }

  /** All services of the file are in. */
  lemma StackDone(f: StackFile, done: set<string>, services0: Services, services: Services,
                  owner0: map<string, string>, owner: map<string, string>)
    requires Partway(f, {}, done, services0, services, owner0, owner)
    ensures Alone(f) && Own(f.name, owner0, Claimed(f))
    ensures services == services0 + StackServices(f) && owner == owner0 + Ownership(f)
  {
    RemainingDone(f, done);
    ContributionKeys(f);
    ExtendedDone(Ownership(f), done, owner0, owner);
    ExtendedDone(StackServices(f), done, services0, services);
  }

  /** The maps the stacks share while parse runs. */
  class Merger {
    var services: Services
    var owner: map<string, string>
    var configs: map<string, seq<bv8>>

    constructor ()
      ensures services == map[] && owner == map[] && configs == map[]
    {
      services, owner, configs := map[], map[], map[];
    }

    method AddConfigs(f: StackFile) returns (ok: bool)
      modifies this`configs
      ensures ok <==> SameWhereBoth(PayloadsOf(f), old(configs))
      ensures ok ==> configs == old(configs) + PayloadsOf(f)
    {
      var payloads := PayloadsOf(f);
      var rest := payloads.Keys;
      ghost var configs0, done: set<string> := configs, {};
      while rest != {}
        invariant rest !! done && rest + done == payloads.Keys
        invariant Extended(payloads, done, configs0, configs)
        invariant forall n :: n in done && n in configs0 ==> configs0[n] == payloads[n]
        decreases |rest|
      {
        var n :| n in rest;
        if n in configs && configs[n] != payloads[n] {
          assert configs0[n] != payloads[n];
          return false;
        }
        ExtendedStep(payloads, done, configs0, configs, n);
        configs := configs[n := payloads[n]];
        rest, done := rest - {n}, done + {n};
      }
      ExtendedDone(payloads, done, configs0, configs);
      return true;
    }

    /** Converts one service and claims its qualified name, unless another stack has it. */
    method AddService(f: StackFile, k: string) returns (ok: bool)
      requires Loads(f) && k in ServicesOf(f)
      modifies this`services, this`owner
      ensures ok <==> Admits(f, k, old(owner))
      ensures ok ==> services == old(services)[ServiceName(f.name, k) := StackServices(f)[ServiceName(f.name, k)]]
      ensures ok ==> owner == old(owner)[ServiceName(f.name, k) := f.name]
    {
      var p := f.content.prepared.value;
      var name := ServiceName(f.name, k);
      ContributionAt(f, k);
      var spec := ConvertService(f.name, k, ServicesOf(f)[k], p);
      if spec.None? {
        return false;
      }
      ok := Claim(f.name, name, spec.value);
    }

    method Claim(stack: string, name: string, spec: ServiceSpec) returns (ok: bool)
      modifies this`services, this`owner
      ensures ok <==> (name in old(owner) ==> old(owner)[name] == stack)
      ensures ok ==> services == old(services)[name := spec] && owner == old(owner)[name := stack]
    {
      if name in owner && owner[name] != stack {
        return false;
      }
      owner := owner[name := stack];
      services := services[name := spec];
      return true;
    }

    /** Adds the services of one loaded stack, whatever order they come in. */
    method ParseStack(f: StackFile) returns (ok: bool)
      requires Loads(f)
      modifies this`services, this`owner
      ensures ok <==> Alone(f) && Own(f.name, old(owner), Claimed(f))
      ensures ok ==> services == old(services) + StackServices(f) && owner == old(owner) + Ownership(f)
    {
      var rest := ServicesOf(f).Keys;
      ghost var done: set<string> := {};
      ghost var services0, owner0 := services, owner;
      StackStart(f, services0, owner0);
      while rest != {}
        invariant Partway(f, rest, done, services0, services, owner0, owner)
        decreases |rest|
      {
        var k :| k in rest;
        RestShrinks(rest, k);
        ghost var services', owner' := services, owner;
        ok := AddService(f, k);
        if !ok {
          StackBlocked(f, k, rest, done, services0, services', owner0, owner');
          return;
        }
        StackStep(f, k, rest, done, services0, services', owner0, owner');
        rest, done := rest - {k}, done + {ServiceName(f.name, k)};
      }
      StackDone(f, done, services0, services, owner0, owner);
      return true;
    }

    /** One file's configs and services. */
    method AddFile(f: StackFile) returns (ok: bool)
      requires f.content.resolved && f.content.allowed
      modifies this
      ensures ok <==> Fits(f, old(owner), old(configs))
      ensures ok ==> services == old(services) + StackServices(f)
      ensures ok ==> owner == old(owner) + Ownership(f) && configs == old(configs) + PayloadsOf(f)
    {
      if f.content.prepared.None? {
        return false;
      }
      ok := AddConfigs(f);
      if !ok || !Loads(f) {
        return false;
      }
      ok := ParseStack(f);
    }
  }

  /** The two checks made on every file before any is loaded. */
  method CheckEach(files: seq<StackFile>) returns (ok: bool)
    ensures ok <==> forall f :: f in files ==> f.content.resolved && f.content.allowed
  {
    ok := true;
    for i := 0 to |files|
      invariant ok <==> forall f :: f in files[..i] ==> f.content.resolved
    {
      ok := ok && files[i].content.resolved;
      assert files[..i + 1] == files[..i] + [files[i]];
    }
    assert files[..|files|] == files;
    if !ok {
      return;
    }
    for i := 0 to |files|
      invariant ok <==> forall f :: f in files[..i] ==> f.content.allowed
    {
      ok := ok && files[i].content.allowed;
      assert files[..i + 1] == files[..i] + [files[i]];
    }
  }

  /** Succeeds exactly on files that parse alone, agree on configs and never clash. */
  method ParseFiles(files: seq<StackFile>) returns (r: Option<DesiredState>)
    ensures r.Some? <==> Parses(files)
    ensures r.Some? ==> r.value == DesiredState(Merged(files), MergedConfigs(files))
  {
    var ok := CheckEach(files);
    if !ok {
      assert !AllAlone(files);
      return None;
    }
    var merger := new Merger();
    for i := 0 to |files|
      invariant Parses(files[..i])
      invariant merger.services == Merged(files[..i]) && merger.owner == Owners(files[..i])
      invariant merger.configs == MergedConfigs(files[..i])
    {
      var f := files[i];
      OneMoreFile(files, i);
      var fits := merger.AddFile(f);
      if !fits {
        return None;
      }
    }
    assert files[..|files|] == files;
    return Some(DesiredState(merger.services, merger.configs));
  }

  // ---- What a successful parse means ----

  /** What the Git source guarantees. */
  ghost predicate DistinctNames(files: seq<StackFile>) {
    forall i, j :: 0 <= i < j < |files| ==> files[i].name != files[j].name
  }

  lemma ContributionNormal(f: StackFile, n: string)
    requires n in StackServices(f)
    ensures var s := StackServices(f)[n]; s.name == n && InNormalForm(s) && Entries(s.labels)[STACK_LABEL] == f.name
  {
    var raw := ServicesOf(f)[KeyOf(f.name, n)];
    var names := if f.content.prepared.Some? then f.content.prepared.value.names else map[];
    NormalFormIdempotent(f.name, Assembled(f.name, KeyOf(f.name, n), raw, names));
    NormalLabelsStable(f.name, raw.fields.labels);
  }

  lemma OnlyClaimant(files: seq<StackFile>, f: StackFile, g: StackFile, n: string)
    requires NoClash(files) && DistinctNames(files) && f in files && g in files && Claims(f, n) && Claims(g, n)
    ensures f == g
  {
    assert !Clash(f, g);
  }

  lemma MergedLast(files: seq<StackFile>, n: string)
    requires files != []
    ensures var init, last := files[..|files| - 1], files[|files| - 1];
      && (n in Merged(files) <==> n in Merged(init) || Claims(last, n))
      && (Claims(last, n) ==> n in StackServices(last) && Merged(files)[n] == StackServices(last)[n])
      && (!Claims(last, n) && n in Merged(init) ==> Merged(files)[n] == Merged(init)[n])
  {
  }

  /** f is in files and wrote what the merge holds for n. */
  ghost predicate Wrote(files: seq<StackFile>, f: StackFile, n: string) {
    f in files && Claims(f, n) && n in Merged(files) && n in StackServices(f) && Merged(files)[n] == StackServices(f)[n]
  }

  lemma {:induction false} MergedMeaning(files: seq<StackFile>, n: string)
    ensures n in Merged(files) ==> exists f :: Wrote(files, f, n)
    ensures forall f :: f in files && Claims(f, n) ==> n in Merged(files)
  {
    if files != [] {
      var init, last := files[..|files| - 1], files[|files| - 1];
      MergedMeaning(init, n);
      MergedLast(files, n);
      assert forall f :: f in files <==> f in init || f == last;
      if n in Merged(files) {
        if Claims(last, n) {
          assert Wrote(files, last, n);
        } else {
          var f :| Wrote(init, f, n);
          assert Wrote(files, f, n);
        }
      }
    }
  }

  /**
   With distinct stack names the merge is a disjoint union: every service of every stack
   survives as that stack wrote it, under its qualified name and with its stack's label, and
   every merged service is some stack's, and only that stack's.
   */
  lemma DisjointUnion(files: seq<StackFile>, n: string)
    requires Parses(files) && DistinctNames(files)
    ensures n in Merged(files) <==> exists f :: f in files && Claims(f, n)
    ensures forall f :: f in files && Claims(f, n) ==> OwnContribution(f, n, Merged(files))
    ensures forall f, g :: f in files && g in files && Claims(f, n) && Claims(g, n) ==> f == g
  {
    MergedMeaning(files, n);
    forall f, g | f in files && g in files && Claims(f, n) && Claims(g, n) ensures f == g {
      OnlyClaimant(files, f, g, n);
    }
    forall f | f in files && Claims(f, n) ensures OwnContribution(f, n, Merged(files)) {
      ContributionNormal(f, n);
    }
  }

  ghost predicate OwnContribution(f: StackFile, n: string, merged: Services) {
    && n in merged && n in StackServices(f) && merged[n] == StackServices(f)[n]
    && merged[n].name == n && InNormalForm(merged[n]) && Entries(merged[n].labels)[STACK_LABEL] == f.name
  }

  lemma MergedKeyed(files: seq<StackFile>)
    ensures KeyedByName(Merged(files))
  {
    forall n | n in Merged(files) ensures Merged(files)[n].name == n {
      MergedMeaning(files, n);
      var f :| Wrote(files, f, n);
      ContributionNormal(f, n);
    }
  }

  /** The number of services declared in all files. */
  function Declared(files: seq<StackFile>): nat {
    if files == [] then 0 else Declared(files[..|files| - 1]) + |ServicesOf(files[|files| - 1])|
  }

  lemma {:induction false} SameSize(keys: set<string>, stack: string)
    ensures |set k | k in keys :: ServiceName(stack, k)| == |keys|
  {
    if keys != {} {
      var k :| k in keys;
      SameSize(keys - {k}, stack);
      forall j | j in keys && ServiceName(stack, j) == ServiceName(stack, k) ensures j == k {
        assert ServiceName(stack, j)[|stack| + 1..] == j && ServiceName(stack, k)[|stack| + 1..] == k;
      }
      assert (set j | j in keys :: ServiceName(stack, j))
          == (set j | j in keys - {k} :: ServiceName(stack, j)) + {ServiceName(stack, k)};
    }
  }

  lemma ClaimedSize(f: StackFile)
    ensures |StackServices(f)| == |ServicesOf(f)|
  {
    SameSize(ServicesOf(f).Keys, f.name);
    forall n ensures n in Claimed(f) <==> n in (set k | k in ServicesOf(f).Keys :: ServiceName(f.name, k)) {
      if Claims(f, n) { assert KeyOf(f.name, n) in ServicesOf(f).Keys; }
      forall k | k in ServicesOf(f) && n == ServiceName(f.name, k) ensures Claims(f, n) { ClaimsItsServices(f, k); }
    }
    assert Claimed(f) == (set k | k in ServicesOf(f).Keys :: ServiceName(f.name, k));
    assert StackServices(f).Keys == Claimed(f);
    assert |StackServices(f)| == |StackServices(f).Keys|;
  }

  lemma DisjointSizes(a: Services, b: Services)
    requires a.Keys !! b.Keys
    ensures |a + b| == |a| + |b|
  {
    assert (a + b).Keys == a.Keys + b.Keys;
    assert |(a + b).Keys| == |a.Keys| + |b.Keys|;
    assert |a + b| == |(a + b).Keys| && |a| == |a.Keys| && |b| == |b.Keys|;
  }

  lemma ClaimsNew(files: seq<StackFile>, f: StackFile, n: string)
    requires forall g :: g in files ==> !Clash(f, g) && f.name != g.name
    requires n in Merged(files)
    ensures !Claims(f, n)
  {
    MergedMeaning(files, n);
    var g :| Wrote(files, g, n);
  }

  lemma LastIsNew(files: seq<StackFile>, f: StackFile)
    requires forall g :: g in files ==> !Clash(f, g) && f.name != g.name
    ensures Merged(files).Keys !! StackServices(f).Keys
  {
    var merged, more := Merged(files), StackServices(f);
    forall n | n in merged ensures n !in more {
      ClaimsNew(files, f, n);
    }
  }

  /** No service is lost or merged into another: as many come out as were declared. */
  lemma {:induction false} NoServiceLost(files: seq<StackFile>)
    requires NoClash(files) && DistinctNames(files)
    ensures |Merged(files)| == Declared(files)
  {
    if files != [] {
      var init, last := files[..|files| - 1], files[|files| - 1];
      assert files == init + [last];
      NoClashOneMore(init, last);
      NoServiceLost(init);
      forall g | g in init ensures g.name != last.name {
        var i :| 0 <= i < |init| && init[i] == g;
        assert files[i].name != files[|files| - 1].name;
      }
      LastIsNew(init, last);
      ClaimedSize(last);
      DisjointSizes(Merged(init), StackServices(last));
    }
  }

  lemma SameService(files: seq<StackFile>, files': seq<StackFile>, n: string)
    requires NoClash(files) && DistinctNames(files)
    requires forall f :: f in files <==> f in files'
    ensures n in Merged(files) <==> n in Merged(files')
    ensures n in Merged(files) ==> Merged(files)[n] == Merged(files')[n]
  {
    MergedMeaning(files, n);
    MergedMeaning(files', n);
    if n in Merged(files) && n in Merged(files') {
      var f :| Wrote(files, f, n);
      var g :| Wrote(files', g, n);
      OnlyClaimant(files, f, g, n);
    }
  }

  lemma SameConfigs(files: seq<StackFile>, files': seq<StackFile>, n: string)
    requires ConfigsAgree(files)
    requires forall f :: f in files <==> f in files'
    ensures n in MergedConfigs(files) <==> n in MergedConfigs(files')
    ensures n in MergedConfigs(files) ==> MergedConfigs(files)[n] == MergedConfigs(files')[n]
  {
    ConfigsMeaning(files, n);
    ConfigsMeaning(files', n);
    if n in MergedConfigs(files) && n in MergedConfigs(files') { SameConfig(files, files', n); }
  }

  /** The files' order decides nothing. */
  lemma OrderOfFilesIrrelevant(files: seq<StackFile>, files': seq<StackFile>)
    requires multiset(files) == multiset(files') && DistinctNames(files)
    ensures Parses(files) <==> Parses(files')
    ensures Parses(files) ==> Merged(files) == Merged(files') && MergedConfigs(files) == MergedConfigs(files')
  {
    forall f ensures f in files <==> f in files' {
      assert f in multiset(files) <==> f in multiset(files');
    }
    if Parses(files) {
      forall n ensures n in Merged(files) <==> n in Merged(files')
               ensures n in Merged(files) ==> Merged(files)[n] == Merged(files')[n]
      {
        SameService(files, files', n);
      }
      forall n ensures n in MergedConfigs(files) <==> n in MergedConfigs(files')
               ensures n in MergedConfigs(files) ==> MergedConfigs(files)[n] == MergedConfigs(files')[n]
      {
        SameConfigs(files, files', n);
      }
    }
  }

  lemma SameConfig(files: seq<StackFile>, files': seq<StackFile>, n: string)
    requires ConfigsAgree(files) && n in MergedConfigs(files) && n in MergedConfigs(files')
    requires forall f :: f in files <==> f in files'
    ensures MergedConfigs(files)[n] == MergedConfigs(files')[n]
  {
    ConfigsMeaning(files, n);
    ConfigsMeaning(files', n);
    var f :| f in files && n in PayloadsOf(f) && MergedConfigs(files)[n] == PayloadsOf(f)[n];
    var g :| g in files' && n in PayloadsOf(g) && MergedConfigs(files')[n] == PayloadsOf(g)[n];
    assert Agree(f, g);
  }

  // ---- Where distinct names and the collision check are needed ----

  /** A second file of one name silently replaces what both declare. */
  lemma DuplicateNamesOverwrite(files: seq<StackFile>, f: StackFile, g: StackFile, n: string)
    requires Parses(files) && Alone(g) && forall h :: h in files ==> Agree(g, h) && !Clash(g, h)
    requires f in files && f.name == g.name && Claims(f, n) && Claims(g, n)
    requires StackServices(f)[n] != StackServices(g)[n]
    ensures Parses(files + [g]) && n in Merged(files + [g])
    ensures Merged(files + [g])[n] == StackServices(g)[n] != StackServices(f)[n]
  {
    AloneOneMore(files, g);
    AgreeOneMore(files, g);
    NoClashOneMore(files, g);
    MergeOneMore(files, g);
  }

  /** Qualified names are ambiguous across stacks. */
  lemma QualifiedNamesCollide()
    ensures "payments" != "payments_db"
    ensures ServiceName("payments", "db_writer") == ServiceName("payments_db", "writer")
  {
    assert ServiceName("payments", "db_writer") == "payments_db_writer";
    assert ServiceName("payments_db", "writer") == "payments_db_writer";
  }

  /** Services of two stacks share a qualified name. */
  ghost predicate Collide(f: StackFile, g: StackFile) {
    exists k, l :: k in ServicesOf(f) && l in ServicesOf(g) && ServiceName(f.name, k) == ServiceName(g.name, l)
  }

  lemma CollideMeansClash(f: StackFile, g: StackFile)
    requires f.name != g.name
    ensures Collide(f, g) <==> Clash(f, g)
  {
    if Collide(f, g) {
      var k, l :| k in ServicesOf(f) && l in ServicesOf(g) && ServiceName(f.name, k) == ServiceName(g.name, l);
      ClaimsItsServices(f, k);
      ClaimsItsServices(g, l);
    }
    if Clash(f, g) {
      var n :| Claims(f, n) && Claims(g, n);
      assert ServiceName(f.name, KeyOf(f.name, n)) == ServiceName(g.name, KeyOf(g.name, n));
    }
  }

  lemma ClashIndices(files: seq<StackFile>) returns (i: nat, j: nat)
    requires !NoClash(files)
    ensures i < j < |files| && Clash(files[i], files[j])
  {
    var f, g :| f in files && g in files && Clash(f, g);
    i :| 0 <= i < |files| && files[i] == f;
    j :| 0 <= j < |files| && files[j] == g;
    assert Clash(g, f);
    if j < i { i, j := j, i; }
  }

  /** Stacks that parse alone and agree fail to parse together exactly when services of two of them share a qualified name. */
  lemma FailsIffCollision(files: seq<StackFile>)
    requires AllAlone(files) && ConfigsAgree(files) && DistinctNames(files)
    ensures !Parses(files) <==> exists i, j :: 0 <= i < j < |files| && Collide(files[i], files[j])
  {
    if !Parses(files) {
      var i, j := ClashIndices(files);
      CollideMeansClash(files[i], files[j]);
    }
    forall i, j | 0 <= i < j < |files| && Collide(files[i], files[j]) ensures !Parses(files) {
      CollideMeansClash(files[i], files[j]);
    }
  }

  // ---- Which parsed services the engine gives back ----

  /** What the author of a stack file can check of one service, deploy labels and durations aside. */
  ghost predicate EngineKeeps(raw: RawService) {
    && (raw.mode == "" || raw.mode == "replicated" || raw.replicas == Some(0))
    && (forall k :: k in Entries(raw.fields.env) ==> '=' !in k)
    && (forall c :: c in raw.configRefs ==> c.mode != DEFAULT_MODE)
  }

  ghost predicate WrittenToReturn(raw: RawService) {
    EngineKeeps(raw) && forall k :: k in Entries(raw.fields.deployLabels) ==> DeployLabelKey(k)
  }

  /** No duration that is submitted only when positive is negative. */
  predicate DurationsHold(raw: RawService) {
    && raw.fields.stopGracePeriod >= 0
    && (raw.fields.restartPolicy.Some? ==>
          raw.fields.restartPolicy.value.delay >= 0 && raw.fields.restartPolicy.value.window >= 0)
  }

  /** The label is blank among the service's labels: one of the author's own, or the name of a stack without one. */
  ghost predicate BlankLabel(stack: string, raw: RawService, k: string) {
    if k == STACK_LABEL then stack == ""
    else k != MANAGED_LABEL && k in Entries(raw.fields.labels) && Entries(raw.fields.labels)[k] == ""
  }

  /** A reserved deploy label is blank, and blank among the labels too when it shares their prefix. */
  ghost predicate WrittenBlank(stack: string, raw: RawService) {
    forall k :: k in Entries(raw.fields.deployLabels) && !DeployLabelKey(k) ==>
      Entries(raw.fields.deployLabels)[k] == "" && (HasPrefix(k, LABEL_PREFIX) ==> BlankLabel(stack, raw, k))
  }

  ghost predicate WrittenToSettle(stack: string, raw: RawService) {
    EngineKeeps(raw) && DurationsHold(raw) && WrittenBlank(stack, raw)
  }

  lemma NormalRefs(refs: seq<FileRef>)
    ensures forall x :: x in Elems(NormalSorted(AsSlice(refs), FileRefLe)) <==> x in refs
  {
    ComparatorsArePreorders();
    SortOrders(refs, FileRefLe);
    forall x ensures x in Elems(NormalSorted(AsSlice(refs), FileRefLe)) <==> x in refs {
      assert x in multiset(refs) <==> x in multiset(Sort(refs, FileRefLe));
    }
  }

  lemma ConfigModes(refs: seq<FileRef>, names: map<string, string>)
    ensures var out := Map(refs, (r: FileRef) => ConfigRef(r, names));
      (forall c :: c in out ==> c.mode != DEFAULT_MODE) <==> (forall c :: c in refs ==> c.mode != DEFAULT_MODE)
  {
    var out := Map(refs, (r: FileRef) => ConfigRef(r, names));
    forall i | 0 <= i < |refs| ensures out[i].mode == refs[i].mode && out[i] in out && refs[i] in refs {
    }
  }

  /** What of the file shows in the spec it is parsed into. */
  ghost predicate ParsedFrom(raw: RawService, s: ServiceSpec) {
    && s.mode == (if raw.mode == "" then "replicated" else raw.mode)
    && s.replicas == DefaultReplicas(raw.replicas)
    && Entries(s.env) == Entries(raw.fields.env) && Entries(s.deployLabels) == Entries(raw.fields.deployLabels)
    && (s.placement.Some? ==> Elems(s.placement.value.constraints) != [])
    && ((forall c :: c in Elems(s.configs) ==> c.mode != DEFAULT_MODE)
         <==> (forall c :: c in raw.configRefs ==> c.mode != DEFAULT_MODE))
    && (forall c :: c in Elems(s.secrets) ==> c.mode == 0)
    && s.stopGracePeriod == raw.fields.stopGracePeriod
    && (s.restartPolicy.Some? <==> raw.fields.restartPolicy.Some?)
    && (s.restartPolicy.Some? ==>
          && s.restartPolicy.value.delay == raw.fields.restartPolicy.value.delay
          && s.restartPolicy.value.window == raw.fields.restartPolicy.value.window)
  }

  lemma ParsedRefs(stack: string, key: string, raw: RawService, names: map<string, string>)
    ensures var s := ServiceOf(stack, key, raw, names);
      && ((forall c :: c in Elems(s.configs) ==> c.mode != DEFAULT_MODE)
           <==> (forall c :: c in raw.configRefs ==> c.mode != DEFAULT_MODE))
      && (forall c :: c in Elems(s.secrets) ==> c.mode == 0)
  {
    NormalRefs(Map(raw.configRefs, (r: FileRef) => ConfigRef(r, names)));
    NormalRefs(Map(raw.secretRefs, SecretRef));
    ConfigModes(raw.configRefs, names);
  }

  lemma ParsedFields(stack: string, key: string, raw: RawService, names: map<string, string>)
    ensures ParsedFrom(raw, ServiceOf(stack, key, raw, names))
  {
    if raw.constraints != [] { SortUniqueStable(raw.constraints); }
    ParsedRefs(stack, key, raw, names);
  }

  ghost predicate KnownOrBlank(raw: RawService) {
    raw.mode == "" || raw.mode in DEPLOY_MODES
  }

  lemma ReturnRules(raw: RawService, s: ServiceSpec)
    requires ParsedFrom(raw, s) && KnownOrBlank(raw)
    ensures Observable(s) <==> WrittenToReturn(raw)
  {
  }

  lemma SettleRules(raw: RawService, s: ServiceSpec)
    requires ParsedFrom(raw, s) && KnownOrBlank(raw)
    ensures Representable(s.(deployLabels := None)) <==> EngineKeeps(raw) && DurationsHold(raw)
  {
  }

  /**
   A parsed service is one the observer can read back exactly when its file follows four rules:
   replicas explicitly zero outside replicated mode (the default of one never reads back), no
   '=' in variable names, no reserved deploy labels, and no config mounted with mode 0444.
   */
  lemma ParsedObservableExactly(stack: string, key: string, raw: RawService, p: Prepared)
    requires p.project.Some? && Accepted(stack, key, raw, p)
    ensures InNormalForm(ServiceOf(stack, key, raw, p.names))
    ensures Observable(ServiceOf(stack, key, raw, p.names)) <==> WrittenToReturn(raw)
  {
    NormalFormIdempotent(stack, Assembled(stack, key, raw, p.names));
    ParsedFields(stack, key, raw, p.names);
    ReturnRules(raw, ServiceOf(stack, key, raw, p.names));
  }

  lemma ParsedReserved(stack: string, key: string, raw: RawService, names: map<string, string>)
    ensures ReservedBlank(ServiceOf(stack, key, raw, names)) <==> WrittenBlank(stack, raw)
  {
    var s := ServiceOf(stack, key, raw, names);
    LabelNamesPrefixed();
    assert Entries(s.deployLabels) == Entries(raw.fields.deployLabels);
    forall k | HasPrefix(k, LABEL_PREFIX)
      ensures (k in Entries(s.labels) && Entries(s.labels)[k] == "") <==> BlankLabel(stack, raw, k)
    {
    }
  }

  /**
   Deploying a parsed service settles it, and a retried deployment ever ends, exactly when its
   file keeps to the rules: replicas explicitly zero outside replicated mode, no '=' in variable
   names, no config mounted with mode 0444, no negative duration, and reserved deploy labels blank.
   */
  lemma ParsedSettlesExactly(stack: string, key: string, raw: RawService, p: Prepared)
    requires p.project.Some? && Accepted(stack, key, raw, p)
    ensures Settling(ServiceOf(stack, key, raw, p.names)) <==> WrittenToSettle(stack, raw)
  {
    var s := ServiceOf(stack, key, raw, p.names);
    NormalFormIdempotent(stack, Assembled(stack, key, raw, p.names));
    NormalSettlesExactly(s);
    ParsedFields(stack, key, raw, p.names);
    SettleRules(raw, s);
    ParsedReserved(stack, key, raw, p.names);
  }

  // ---- What a service in a file becomes, and which are accepted ----

  /** An omitted target is the engine's default mount point; a file-backed config is mounted under its object name. */
  ghost predicate FileFrom(raw: FileRef, kind: string, names: map<string, string>, r: FileRef) {
    && r.target == (if raw.target == "" then "/" + kind + "s/" + raw.source else raw.target)
    && (raw.source in names ==> r.source == names[raw.source])
    && (raw.source !in names ==> r.source == raw.source)
  }

  ghost predicate ListsFrom(raw: RawService, names: map<string, string>, s: ServiceSpec) {
    && |Elems(s.ports)| == |raw.ports| && (forall i :: 0 <= i < |raw.ports| ==> PortFrom(raw.ports[i], Elems(s.ports)[i]))
    && |Elems(s.ulimits)| == |raw.ulimits|
    && (forall i :: 0 <= i < |raw.ulimits| ==> UlimitFrom(raw.ulimits[i], Elems(s.ulimits)[i]))
    && |Elems(s.volumes)| == |raw.volumes|
    && (forall i :: 0 <= i < |raw.volumes| ==> VolumeFrom(raw.volumes[i], Elems(s.volumes)[i]))
    && |Elems(s.configs)| == |raw.configRefs|
    && (forall i :: 0 <= i < |raw.configRefs| ==>
          FileFrom(raw.configRefs[i], "config", names, Elems(s.configs)[i]) && Elems(s.configs)[i].mode == raw.configRefs[i].mode)
    && |Elems(s.secrets)| == |raw.secretRefs|
    && (forall i :: 0 <= i < |raw.secretRefs| ==>
          FileFrom(raw.secretRefs[i], "secret", map[], Elems(s.secrets)[i]) && Elems(s.secrets)[i].mode == 0)
  }

  ghost predicate ScalarsFrom(stack: string, key: string, raw: RawService, s: ServiceSpec) {
    && s.name == stack + "_" + key && s.mode == raw.mode && s.resources == raw.limits
    && (raw.replicas.None? ==> s.replicas == 1) && (raw.replicas.Some? ==> s.replicas == raw.replicas.value)
    && (raw.constraints == [] ==> s.placement.None?)
    && (raw.constraints != [] ==> s.placement.Some? && s.placement.value.constraints == Some(raw.constraints))
    && (s.updateConfig.Some? <==> raw.parallelism.Some? && raw.parallelism.value.Some?)
    && (s.updateConfig.Some? ==> s.updateConfig.value.parallelism == raw.parallelism.value.value)
    && HealthcheckFrom(raw.healthcheck, s.healthcheck)
  }

  ghost predicate CarriedOver(raw: RawService, s: ServiceSpec) {
    && s.image == raw.fields.image && s.env == raw.fields.env && s.labels == raw.fields.labels
    && s.deployLabels == raw.fields.deployLabels && s.networks == raw.fields.networks
    && s.command == raw.fields.command && s.entrypoint == raw.fields.entrypoint && s.hostname == raw.fields.hostname
    && s.capAdd == raw.fields.capAdd && s.user == raw.fields.user && s.stopGracePeriod == raw.fields.stopGracePeriod
    && s.restartPolicy == raw.fields.restartPolicy
  }

  /** What the file says of a service, part by part, before its normal form is taken. */
  ghost predicate PartsFrom(stack: string, key: string, raw: RawService, names: map<string, string>, s: ServiceSpec) {
    ScalarsFrom(stack, key, raw, s) && ListsFrom(raw, names, s) && CarriedOver(raw, s)
  }

  lemma ListsAssembled(stack: string, key: string, raw: RawService, names: map<string, string>)
    requires VolumesConvert(raw.volumes)
    ensures ListsFrom(raw, names, Assembled(stack, key, raw, names))
  {
    PartsConverted(raw.ports, raw.healthcheck, raw.ulimits);
    forall i | 0 <= i < |raw.volumes| ensures VolumeFrom(raw.volumes[i], Map(raw.volumes, VolumeOf)[i]) {
      VolumeConverted(raw.volumes[i]);
    }
  }

  lemma ScalarsAssembled(stack: string, key: string, raw: RawService, names: map<string, string>)
    ensures ScalarsFrom(stack, key, raw, Assembled(stack, key, raw, names)) && CarriedOver(raw, Assembled(stack, key, raw, names))
  {
    PartsConverted(raw.ports, raw.healthcheck, raw.ulimits);
  }

  /** An accepted service is its parts as the file states them, brought into normal form by the rules of it. */
  lemma ServiceFromFile(stack: string, key: string, raw: RawService, p: Prepared)
    requires p.project.Some? && Accepted(stack, key, raw, p)
    ensures exists parts ::
              PartsFrom(stack, key, raw, p.names, parts) && Canonical(stack, parts, ServiceOf(stack, key, raw, p.names))
  {
    var parts := Assembled(stack, key, raw, p.names);
    ListsAssembled(stack, key, raw, p.names);
    ScalarsAssembled(stack, key, raw, p.names);
    FormIsCanonical(stack, parts);
  }

  /** Every part of the service, as written, can be converted. */
  ghost predicate WrittenConvertibly(raw: RawService, project: Project) {
    && (forall p :: p in raw.ports ==> PublishedWritten(p.published))
    && (raw.healthcheck.Some? && !raw.healthcheck.value.disable ==> raw.healthcheck.value.test != [])
    && (forall v :: v in raw.volumes ==>
          !v.exotic && ((v.kind == "volume" && !v.bindOptions) || (v.kind == "bind" && v.resolved.Some?)))
    && (forall r :: r in raw.configRefs ==> r.source in project.configs)
    && (forall r :: r in raw.secretRefs ==> r.source in project.secrets)
    && raw.mode in {"", "replicated", "global", "replicated-job", "global-job"}
    && (raw.limits.Some? ==> raw.limits.value.memoryBytes != 0)
    && (raw.parallelism.Some? ==> raw.parallelism.value.Some? && raw.parallelism.value.value > 0)
  }

  /** The limits as they read on the file; of networks, capabilities and constraints only the different ones count. */
  ghost predicate WrittenWithinLimits(raw: RawService) {
    && (raw.replicas.Some? ==> raw.replicas.value <= 1000)
    && |raw.ports| <= 100 && |ToSet(Elems(raw.fields.networks))| <= 50 && |Entries(raw.fields.env)| <= 1000
    && |raw.volumes| <= 50 && |raw.configRefs| <= 50 && |raw.secretRefs| <= 50
    && |ToSet(Elems(raw.fields.capAdd))| <= 50 && |raw.ulimits| <= 20
    && |Elems(raw.fields.command)| <= 200 && |Elems(raw.fields.entrypoint)| <= 200
    && |ToSet(raw.constraints)| <= 50
  }

  lemma SetSize(s: Slice<string>)
    ensures |Elems(NormalSet(s))| == |ToSet(Elems(s))|
  {
    SortUniqueMeaning(Elems(s));
    IncreasingCount(Elems(NormalSet(s)), ToSet(Elems(s)));
  }

  lemma ListSize<T(!new)>(s: seq<T>, le: (T, T) -> bool)
    requires Preorder(le)
    ensures |Elems(NormalSorted(AsSlice(s), le))| == |s|
  {
    SortStable(s, le);
  }

  lemma PortsSize(ports: seq<PortSpec>)
    ensures |Elems(NormalPorts(AsSlice(ports)))| == |ports|
  {
    ComparatorsArePreorders();
    SortStable(Map(ports, DefaultPort), PortLe);
  }

  lemma LimitsOnFile(stack: string, key: string, raw: RawService, names: map<string, string>)
    ensures WithinLimits(ServiceOf(stack, key, raw, names)) <==> WrittenWithinLimits(raw)
  {
    var parts := Assembled(stack, key, raw, names);
    ComparatorsArePreorders();
    PortsSize(Map(raw.ports, PortOf));
    ListSize(Map(raw.ulimits, UlimitOf), UlimitLe);
    ListSize(Map(raw.volumes, VolumeOf), VolumeLe);
    ListSize(Map(raw.configRefs, (r: FileRef) => ConfigRef(r, names)), FileRefLe);
    ListSize(Map(raw.secretRefs, SecretRef), FileRefLe);
    SetSize(raw.fields.networks);
    SetSize(raw.fields.capAdd);
    SetSize(Some(raw.constraints));
  }

  /** Which services are accepted, in terms of the file alone. */
  lemma AcceptedExactly(stack: string, key: string, raw: RawService, p: Prepared)
    requires p.project.Some?
    ensures Accepted(stack, key, raw, p) <==> WrittenConvertibly(raw, p.project.value) && WrittenWithinLimits(raw)
  {
    LimitsOnFile(stack, key, raw, p.names);
    ConvertsAsWritten(raw, p.project.value);
  }

  lemma ConvertsAsWritten(raw: RawService, project: Project)
    ensures Converts(raw, project) <==> WrittenConvertibly(raw, project)
  {
    forall q | q in raw.ports ensures Published(q.published).Some? <==> PublishedWritten(q.published) {
      PublishedAccepted(q.published);
    }
  }

  /** A file parses alone exactly when every stage gets through it and all its services are acceptable as written. */
  lemma AloneExactly(f: StackFile)
    ensures Alone(f)
       <==> && f.content.resolved && f.content.allowed && f.content.prepared.Some?
            && f.content.prepared.value.project.Some?
            && var project := f.content.prepared.value.project.value;
               forall k :: k in project.services ==>
                 WrittenConvertibly(project.services[k], project) && WrittenWithinLimits(project.services[k])
  {
    if Loads(f) {
      var project := f.content.prepared.value.project.value;
      assert ServicesOf(f) == project.services;
      forall k | k in ServicesOf(f)
        ensures Accepted(f.name, k, project.services[k], f.content.prepared.value)
           <==> WrittenConvertibly(project.services[k], project) && WrittenWithinLimits(project.services[k])
      {
        AcceptedExactly(f.name, k, project.services[k], f.content.prepared.value);
      }
    }
  }
}
