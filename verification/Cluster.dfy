/**
 The live cluster behind the Docker API, with the applier's operations and the observer's
 snapshot (internal/apply/apply.go, internal/observe/snapshot.go).  Each operation gets a
 budget of API calls: the calls within it succeed as the store allows, the first one beyond
 it fails.  Every failure aborts the operation, so a budget describes any failure.
 */
module Cluster {
  import opened Apply
  import opened Basics
  import opened Diff
  import Engine
  import opened Mutation
  import opened Settle
  import opened Spec
  import opened Store
  import opened Swarm

  datatype Network = Network(id: string, name: string)

  datatype ConfigObject = ConfigObject(id: string, data: seq<bv8>)

  /** IDs to names, as networkNames builds the map. */
  function NamesById(networks: seq<Network>): map<string, string> {
    if networks == [] then map[]
    else
      var n := networks[|networks| - 1];
      NamesById(networks[..|networks| - 1])[n.id := n.name]
  }

  ghost predicate DistinctIds(networks: seq<Network>) {
    forall i, j :: 0 <= i < j < |networks| ==> networks[i].id != networks[j].id
  }

  lemma {:induction false} NamesByIdMeaning(networks: seq<Network>)
    requires DistinctIds(networks)
    ensures forall n :: n in networks ==> n.id in NamesById(networks) && NamesById(networks)[n.id] == n.name
    ensures forall id :: id in NamesById(networks) ==> exists n :: n in networks && n.id == id
  {
    if networks != [] {
      var init := networks[..|networks| - 1];
      NamesByIdMeaning(init);
      assert networks == init + [networks[|networks| - 1]];
    }
  }

  /** The entries that pass keep, each as read shows it. */
  function View<A, B>(m: map<string, A>, keep: A -> bool, read: A -> B): map<string, B> {
    map n | n in m && keep(m[n]) :: read(m[n])
  }

  lemma ViewPut<A, B>(m: map<string, A>, keep: A -> bool, read: A -> B, n: string, a: A)
    ensures View(m[n := a], keep, read)
            == if keep(a) then View(m, keep, read)[n := read(a)] else View(m, keep, read) - {n}
  {
  }

  lemma ViewSame<A, B>(m: map<string, A>, keep: A -> bool, read: A -> B, read': A -> B)
    requires forall n :: n in m ==> read(m[n]) == read'(m[n])
    ensures View(m, keep, read) == View(m, keep, read')
  {
  }

  lemma ViewDrop<A, B>(m: map<string, A>, keep: A -> bool, read: A -> B, n: string)
    ensures View(m - {n}, keep, read) == View(m, keep, read) - {n}
  {
  }

  function Reader(names: map<string, string>): EngineSpec -> ServiceSpec {
    e => ReadBack(e, names)
  }

  /** The managed services in normal form, by name. */
  function SnapshotOf(services: Stored, names: map<string, string>): Services {
    View(services, Managed, Reader(names))
  }

  function AttachmentTargets(e: EngineSpec): set<string> {
    set a | a in e.task.networks :: a.target
  }

  /** Every network reference in the store. */
  function UsedRefs(services: Stored, networks: seq<Network>): set<string> {
    (set n, t | n in services && t in AttachmentTargets(services[n]) :: t) + (set n | n in networks :: n.id)
  }

  /** An ID the engine has not handed out exists. */
  lemma FreshRefExists(used: set<string>)
    ensures exists id: string :: id !in used
  {
    var n := LengthBound(used);
    var id := seq(n, _ => 'x');
    assert id !in used;
  }

  lemma {:induction false} LengthBound(used: set<string>) returns (n: nat)
    ensures forall s :: s in used ==> |s| < n
    decreases |used|
  {
    if used == {} {
      n := 0;
    } else {
      var s :| s in used;
      var m := LengthBound(used - {s});
      n := if |s| < m then m else |s| + 1;
    }
  }

  lemma ReadBackName(e: EngineSpec, names: map<string, string>)
    ensures ReadBack(e, names).name == e.name
  {
  }

  /** v is the view of the entries outside rest. */
  ghost predicate Shows<A, B>(v: map<string, B>, m: map<string, A>, keep: A -> bool, read: A -> B, rest: set<string>) {
    && (forall n :: n in v <==> n in m && keep(m[n]) && n !in rest)
    && (forall n :: n in v ==> v[n] == read(m[n]))
  }

  lemma ShowsOneMore<A, B>(v: map<string, B>, m: map<string, A>, keep: A -> bool, read: A -> B, rest: set<string>, n: string)
    requires Shows(v, m, keep, read, rest) && n in rest && n in m && keep(m[n])
    ensures Shows(v[n := read(m[n])], m, keep, read, rest - {n})
  {
  }

  lemma ShowsAll<A, B>(v: map<string, B>, m: map<string, A>, keep: A -> bool, read: A -> B)
    requires Shows(v, m, keep, read, {})
    ensures v == View(m, keep, read)
  {
  }

  method ReadOne(e: EngineSpec, names: map<string, string>) returns (svc: ServiceSpec)
    ensures svc == ReadBack(e, names) && svc.name == e.name
  {
    svc := FromSwarm(e, names);
    ReadBackName(e, names);
  }

  method ReadManaged(services: Stored, names: map<string, string>) returns (state: Services)
    requires forall n :: n in services ==> services[n].name == n
    ensures state == SnapshotOf(services, names)
  {
    state := map[];
    var rest := set n | n in services && Managed(services[n]);
    while rest != {}
      invariant forall n :: n in rest ==> n in services && Managed(services[n])
      invariant Shows(state, services, Managed, Reader(names), rest)
      decreases |rest|
    {
      var n :| n in rest;
      ShowsOneMore(state, services, Managed, Reader(names), rest, n);
      rest := rest - {n};
      var svc := ReadOne(services[n], names);
      state := state[svc.name := svc];
    }
    ShowsAll(state, services, Managed, Reader(names));
  }

  /** Names unknown to a service's attachments do not change how it reads. */
  lemma ReadBackIgnoresOthers(e: EngineSpec, names: map<string, string>, names': map<string, string>)
    requires forall t :: t in AttachmentTargets(e) ==> Rename(t, names) == Rename(t, names')
    ensures ReadBack(e, names) == ReadBack(e, names')
  {
    forall i | 0 <= i < |e.task.networks|
      ensures Rename(e.task.networks[i].target, names) == Rename(e.task.networks[i].target, names')
    {
      assert e.task.networks[i].target in AttachmentTargets(e);
    }
    assert ReadNetworks(e.task.networks, names) == ReadNetworks(e.task.networks, names');
  }

  lemma ReadBackIgnoresNewNetwork(services: Stored, networks: seq<Network>, n: string,
                                  id: string, name: string)
    requires n in services && id !in UsedRefs(services, networks)
    ensures ReadBack(services[n], NamesById(networks)) == ReadBack(services[n], NamesById(networks)[id := name])
  {
    forall t | t in AttachmentTargets(services[n])
      ensures t != id
    {
      assert t in UsedRefs(services, networks);
    }
    ReadBackIgnoresOthers(services[n], NamesById(networks), NamesById(networks)[id := name]);
  }

  lemma NamesByIdOneMore(networks: seq<Network>, id: string, name: string)
    ensures NamesById(networks + [Network(id, name)]) == NamesById(networks)[id := name]
  {
    assert (networks + [Network(id, name)])[..|networks|] == networks;
  }

  lemma SnapshotIgnoresNewNetwork(services: Stored, networks: seq<Network>, id: string, name: string)
    requires id !in UsedRefs(services, networks)
    ensures var names := NamesById(networks);
      && NamesById(networks + [Network(id, name)]) == names[id := name]
      && SnapshotOf(services, names[id := name]) == SnapshotOf(services, names)
  {
    var names := NamesById(networks);
    NamesByIdOneMore(networks, id, name);
    var read, read' := Reader(names), Reader(names[id := name]);
    forall n | n in services ensures read(services[n]) == read'(services[n]) {
      ReadBackIgnoresNewNetwork(services, networks, n, id, name);
    }
    ViewSame(services, Managed, read, read');
  }

  /** Every reference has the ID of the store's object of that name. */
  ghost predicate ConfigsResolved(refs: seq<Engine.ConfigReference>, ids: map<string, string>,
                                  configs: map<string, ConfigObject>) {
    forall r :: r in refs ==>
      r.configName in configs && r.configName in ids && ids[r.configName] == configs[r.configName].id
  }

  ghost predicate SecretsResolved(refs: seq<Engine.SecretReference>, ids: map<string, string>,
                                  secrets: map<string, string>) {
    forall r :: r in refs ==> r.secretName in secrets && r.secretName in ids && ids[r.secretName] == secrets[r.secretName]
  }

  /** The IDs attached to what is submitted for s are those of the store's objects. */
  ghost predicate AttachmentsResolved(s: ServiceSpec, configIDs: map<string, string>, secretIDs: map<string, string>,
                                      configs: map<string, ConfigObject>, secrets: map<string, string>) {
    && ConfigsResolved(WriteContainer(s).configs, configIDs, configs)
    && SecretsResolved(WriteContainer(s).secrets, secretIDs, secrets)
  }

  // ---- What is stored ----

  /** The i-th config is mounted as wanted, and by the ID of the store's object of its name. */
  ghost predicate ConfigStored(r: Engine.ConfigReference, wanted: FileRef, configs: map<string, ConfigObject>) {
    && r.configName == wanted.source && r.file.Some? && r.file.value.name == wanted.target
    && r.file.value.mode == wanted.mode && wanted.source in configs && r.configID == configs[wanted.source].id
  }

  ghost predicate SecretStored(r: Engine.SecretReference, wanted: FileRef, secrets: map<string, string>) {
    && r.secretName == wanted.source && r.file.Some? && r.file.value.name == wanted.target
    && wanted.source in secrets && r.secretID == secrets[wanted.source]
  }

  ghost predicate FilesStored(e: EngineSpec, s: ServiceSpec, configs: map<string, ConfigObject>, secrets: map<string, string>) {
    && e.task.container.Some?
    && var cs := e.task.container.value;
      && |cs.configs| == |Elems(s.configs)| && |cs.secrets| == |Elems(s.secrets)|
      && (forall i :: 0 <= i < |cs.configs| ==> ConfigStored(cs.configs[i], Elems(s.configs)[i], configs))
      && (forall i :: 0 <= i < |cs.secrets| ==> SecretStored(cs.secrets[i], Elems(s.secrets)[i], secrets))
  }

  /** The i-th attachment names by ID a network that goes by the i-th wanted name. */
  ghost predicate NetworksStored(e: EngineSpec, wanted: seq<string>, networks: seq<Network>) {
    |e.task.networks| == |wanted| && forall i :: 0 <= i < |wanted| ==> Network(e.task.networks[i].target, wanted[i]) in networks
  }

  lemma ConfigsPrepared(s: ServiceSpec, configIDs: map<string, string>, configs: map<string, ConfigObject>, i: nat)
    requires ConfigsResolved(WriteContainer(s).configs, configIDs, configs) && i < |Elems(s.configs)|
    ensures ConfigStored(WithConfigIDs(WriteContainer(s).configs, configIDs)[i], Elems(s.configs)[i], configs)
  {
    assert WriteContainer(s).configs[i] in WriteContainer(s).configs;
  }

  lemma SecretsPrepared(s: ServiceSpec, secretIDs: map<string, string>, secrets: map<string, string>, i: nat)
    requires SecretsResolved(WriteContainer(s).secrets, secretIDs, secrets) && i < |Elems(s.secrets)|
    ensures SecretStored(WithSecretIDs(WriteContainer(s).secrets, secretIDs)[i], Elems(s.secrets)[i], secrets)
  {
    assert WriteContainer(s).secrets[i] in WriteContainer(s).secrets;
  }

  lemma FilesPrepared(s: ServiceSpec, e: EngineSpec, configIDs: map<string, string>, secretIDs: map<string, string>,
                      configs: map<string, ConfigObject>, secrets: map<string, string>)
    requires e.task.container == Some(WriteContainer(s))
    requires AttachmentsResolved(s, configIDs, secretIDs, configs, secrets)
    ensures FilesStored(WithIDs(e, configIDs, secretIDs), s, configs, secrets)
  {
    forall i | 0 <= i < |Elems(s.configs)|
      ensures ConfigStored(WithConfigIDs(WriteContainer(s).configs, configIDs)[i], Elems(s.configs)[i], configs)
    {
      ConfigsPrepared(s, configIDs, configs, i);
    }
    forall i | 0 <= i < |Elems(s.secrets)|
      ensures SecretStored(WithSecretIDs(WriteContainer(s).secrets, secretIDs)[i], Elems(s.secrets)[i], secrets)
    {
      SecretsPrepared(s, secretIDs, secrets, i);
    }
  }

  /** An update stores the files and networks that a creation would. */
  lemma MutatedStores(current: EngineSpec, e: EngineSpec, s: ServiceSpec, configs: map<string, ConfigObject>,
                      secrets: map<string, string>, networks: seq<Network>)
    requires e.task.container.Some?
    ensures FilesStored(e, s, configs, secrets) ==> FilesStored(Mutated(current, e), s, configs, secrets)
    ensures NetworksStored(e, Elems(s.networks), networks) ==> NetworksStored(Mutated(current, e), Elems(s.networks), networks)
  {
  }

  ghost function ConfigNames(s: ServiceSpec): set<string> {
    set c | c in Elems(s.configs) :: c.source
  }

  /** Existing config objects are left alone; new ones were wanted and carry the data they were declared with. */
  ghost predicate ConfigsGrow(before: map<string, ConfigObject>, after: map<string, ConfigObject>,
                              wanted: set<string>, configData: map<string, seq<bv8>>) {
    && before.Keys <= after.Keys <= before.Keys + wanted
    && (forall n :: n in before ==> after[n] == before[n])
    && (forall n :: n in after && n !in before ==> n in configData && after[n].data == configData[n])
  }

  /** The references of the submitted container are those of the spec. */
  lemma ReferencesOf(s: ServiceSpec)
    ensures |WriteContainer(s).configs| == |Elems(s.configs)| && |WriteContainer(s).secrets| == |Elems(s.secrets)|
    ensures (set r | r in WriteContainer(s).configs :: r.configName) == ConfigNames(s)
    ensures forall c :: c in Elems(s.configs) ==> WriteConfig(c) in WriteContainer(s).configs
    ensures forall c :: c in Elems(s.secrets) ==> WriteSecret(c) in WriteContainer(s).secrets
  {
    var cs := WriteContainer(s);
    forall c | c in Elems(s.configs) ensures WriteConfig(c) in cs.configs {
      var i :| 0 <= i < |Elems(s.configs)| && Elems(s.configs)[i] == c;
      assert cs.configs[i] == WriteConfig(c);
    }
    forall c | c in Elems(s.secrets) ensures WriteSecret(c) in cs.secrets {
      var i :| 0 <= i < |Elems(s.secrets)| && Elems(s.secrets)[i] == c;
      assert cs.secrets[i] == WriteSecret(c);
    }
    forall n ensures n in (set r | r in cs.configs :: r.configName) <==> n in ConfigNames(s) {
      forall c | c in Elems(s.configs) && c.source == n ensures n in (set r | r in cs.configs :: r.configName) {
        assert WriteConfig(c) in cs.configs && WriteConfig(c).configName == n;
      }
      forall r | r in cs.configs && r.configName == n ensures n in ConfigNames(s) {
        var i :| 0 <= i < |cs.configs| && cs.configs[i] == r;
        assert Elems(s.configs)[i].source == n;
      }
    }
  }

  ghost predicate Known(name: string, networks: seq<Network>) {
    exists n :: n in networks && n.name == name
  }

  /** Existing networks are left alone; each new one was wanted and had no network of its name before it. */
  ghost predicate NetworksGrow(before: seq<Network>, after: seq<Network>, wanted: seq<string>) {
    && before <= after
    && forall i :: |before| <= i < |after| ==> after[i].name in wanted && !Known(after[i].name, after[..i])
  }

  /** Every wanted name has the ID of a network of that name, an existing one when there was one. */
  ghost predicate NetworkIDs(wanted: seq<string>, ids: map<string, string>, before: seq<Network>, after: seq<Network>) {
    forall n :: n in wanted ==> n in ids && Network(ids[n], n) in if Known(n, before) then before else after
  }

  // ---- What the changes of a run may add ----

  /** The networks and configs beside the services. */
  datatype Objects = Objects(networks: seq<Network>, configs: map<string, ConfigObject>)

  ghost predicate AsksNetwork(changes: seq<Change>, name: string) {
    exists c :: c in changes && c.action != RemoveAction && name in Elems(c.spec.networks)
  }

  ghost predicate SuppliesConfig(changes: seq<Change>, name: string, data: seq<bv8>) {
    exists c :: c in changes && c.action == CreateAction && name in ConfigNames(c.spec)
                && name in c.configData && c.configData[name] == data
  }

  /**
   Existing networks and configs are left alone.  Each new network was asked for by some change
   and had no network of its name before it; each new config was referenced by some creation,
   and holds the data that came with it.
   */
  ghost predicate ObjectsGrow(before: Objects, after: Objects, changes: seq<Change>) {
    && before.networks <= after.networks
    && (forall i :: |before.networks| <= i < |after.networks| ==>
          AsksNetwork(changes, after.networks[i].name) && !Known(after.networks[i].name, after.networks[..i]))
    && before.configs.Keys <= after.configs.Keys
    && (forall n :: n in before.configs ==> after.configs[n] == before.configs[n])
    && (forall n :: n in after.configs && n !in before.configs ==> SuppliesConfig(changes, n, after.configs[n].data))
  }

  lemma ObjectsStay(o: Objects, changes: seq<Change>)
    ensures ObjectsGrow(o, o, changes)
  {
  }

  lemma NothingAsked(before: Objects, after: Objects)
    requires ObjectsGrow(before, after, [])
    ensures after == before
  {
    var i := |before.networks|;
    assert i < |after.networks| ==> !AsksNetwork([], after.networks[i].name);
    assert forall n, data :: !SuppliesConfig([], n, data);
    assert after.configs == before.configs;
  }

  lemma AskedByMore(xs: seq<Change>, ys: seq<Change>, name: string, data: seq<bv8>)
    ensures AsksNetwork(xs, name) || AsksNetwork(ys, name) ==> AsksNetwork(xs + ys, name)
    ensures SuppliesConfig(xs, name, data) || SuppliesConfig(ys, name, data) ==> SuppliesConfig(xs + ys, name, data)
  {
    assert forall c :: c in xs || c in ys ==> c in xs + ys;
  }

  lemma ObjectsGrowOn(a: Objects, b: Objects, c: Objects, xs: seq<Change>, ys: seq<Change>)
    requires ObjectsGrow(a, b, xs) && ObjectsGrow(b, c, ys)
    ensures ObjectsGrow(a, c, xs + ys)
  {
    forall i | |a.networks| <= i < |c.networks|
      ensures AsksNetwork(xs + ys, c.networks[i].name) && !Known(c.networks[i].name, c.networks[..i])
    {
      AskedByMore(xs, ys, c.networks[i].name, []);
      if i < |b.networks| { assert c.networks[i] == b.networks[i] && c.networks[..i] == b.networks[..i]; }
    }
    forall n | n in c.configs && n !in a.configs ensures SuppliesConfig(xs + ys, n, c.configs[n].data) {
      AskedByMore(xs, ys, n, c.configs[n].data);
    }
  }

  /** One change that is no removal, as create and update leave the networks and configs. */
  lemma ChangeGrows(c: Change, before: Objects, after: Objects, configData: map<string, seq<bv8>>)
    requires c.action != RemoveAction && NetworksGrow(before.networks, after.networks, Elems(c.spec.networks))
    requires ConfigsGrow(before.configs, after.configs, ConfigNames(c.spec), configData)
    requires after.configs == before.configs || (c.action == CreateAction && configData == c.configData)
    ensures ObjectsGrow(before, after, [c])
  {
    assert c in [c];
  }

  lemma NetworksPrepared(s: ServiceSpec, ids: map<string, string>, configIDs: map<string, string>,
                         secretIDs: map<string, string>, before: seq<Network>, after: seq<Network>)
    requires NetworkIDs(Elems(s.networks), ids, before, after) && before <= after
    ensures NetworksStored(Prepared(s, ids, configIDs, secretIDs), Elems(s.networks), after)
  {
    var e, wanted := Prepared(s, ids, configIDs, secretIDs), Elems(s.networks);
    forall i | 0 <= i < |wanted| ensures Network(e.task.networks[i].target, wanted[i]) in after {
      assert wanted[i] in wanted && e.task.networks[i].target == ids[wanted[i]];
      assert forall n :: n in before ==> n in after;
    }
  }

  lemma NetworkFound(wanted: seq<string>, i: nat, ids: map<string, string>, before: seq<Network>, after: seq<Network>,
                     id: string)
    requires i < |wanted| && NetworkIDs(wanted[..i], ids, before, after) && NetworksGrow(before, after, wanted)
    requires Network(id, wanted[i]) in after
    ensures NetworkIDs(wanted[..i + 1], ids[wanted[i] := id], before, after)
  {
    assert forall j, n :: |before| <= j < |after| && n in before ==> n in after[..j];
  }

  lemma NetworkAdded(wanted: seq<string>, i: nat, ids: map<string, string>, before: seq<Network>, after: seq<Network>,
                     id: string)
    requires i < |wanted| && NetworkIDs(wanted[..i], ids, before, after) && NetworksGrow(before, after, wanted)
    requires !Known(wanted[i], after)
    ensures NetworksGrow(before, after + [Network(id, wanted[i])], wanted)
    ensures NetworkIDs(wanted[..i], ids, before, after + [Network(id, wanted[i])])
  {
    var next := after + [Network(id, wanted[i])];
    forall k | |before| <= k < |next| ensures next[k].name in wanted && !Known(next[k].name, next[..k]) {
      if k < |after| { assert next[..k] == after[..k]; } else { assert next[..k] == after; }
    }
  }

  lemma NetworkIDsInvert(wanted: seq<string>, ids: map<string, string>, before: seq<Network>, after: seq<Network>)
    requires NetworkIDs(wanted, ids, before, after) && NetworksGrow(before, after, wanted) && DistinctIds(after)
    ensures Inverts(wanted, ids, NamesById(after))
  {
    NamesByIdMeaning(after);
    forall n | n in wanted ensures n in ids && Network(ids[n], n) in after {
      if Network(ids[n], n) in before { assert Network(ids[n], n) in after; }
    }
  }

  /** Showing `read` under the spec's name, or hiding it, is an exact create or update step. */
  lemma PutStep(c: Change, before: Services, managed: bool, read: ServiceSpec)
    requires !c.action.RemoveAction?
    requires managed && Matches(c.spec, read) <==> Settling(c.spec)
    ensures ExactStep(c, true, before, if managed then before[c.spec.name := read] else before - {c.spec.name})
  {
  }

  /** Storing e under the spec's name is an exact step once e is shown matching exactly for a settling spec. */
  lemma StoreStep(c: Change, services: Stored, names: map<string, string>, e: EngineSpec)
    requires !c.action.RemoveAction?
    requires Managed(e) && Matches(c.spec, Reader(names)(e)) <==> Settling(c.spec)
    ensures ExactStep(c, true, SnapshotOf(services, names), SnapshotOf(services[c.spec.name := e], names))
  {
    ViewPut(services, Managed, Reader(names), c.spec.name, e);
    PutStep(c, SnapshotOf(services, names), Managed(e), Reader(names)(e));
  }

  lemma CreateStep(c: Change, services: Stored, names: map<string, string>, ids: map<string, string>,
                   configIDs: map<string, string>, secretIDs: map<string, string>)
    requires c.action.CreateAction? && Inverts(Elems(c.spec.networks), ids, names)
    ensures ExactStep(c, true, SnapshotOf(services, names),
                      SnapshotOf(services[c.spec.name := Prepared(c.spec, ids, configIDs, secretIDs)], names))
  {
    InverseReturns(c.spec, ids, names);
    CreateSettlesExactly(c.spec, ids, configIDs, secretIDs, names);
    StoreStep(c, services, names, Prepared(c.spec, ids, configIDs, secretIDs));
  }

  lemma UpdateStep(c: Change, services: Stored, names: map<string, string>, ids: map<string, string>,
                   configIDs: map<string, string>, secretIDs: map<string, string>)
    requires c.action.UpdateAction? && Inverts(Elems(c.spec.networks), ids, names) && c.spec.name in services
    ensures var stored := Mutated(services[c.spec.name], Prepared(c.spec, ids, configIDs, secretIDs));
      ExactStep(c, true, SnapshotOf(services, names), SnapshotOf(services[c.spec.name := stored], names))
  {
    var current := services[c.spec.name];
    InverseReturns(c.spec, ids, names);
    UpdateSettlesExactly(current, c.spec, ids, configIDs, secretIDs, names);
    StoreStep(c, services, names, Mutated(current, Prepared(c.spec, ids, configIDs, secretIDs)));
  }

  lemma HideStep(c: Change, before: Services)
    requires c.action.RemoveAction?
    ensures ExactStep(c, true, before, before - {c.spec.name})
  {
  }

  lemma RemoveStep(c: Change, services: Stored, names: map<string, string>)
    requires c.action.RemoveAction?
    ensures ExactStep(c, true, SnapshotOf(services, names), SnapshotOf(services - {c.spec.name}, names))
  {
    ViewDrop(services, Managed, Reader(names), c.spec.name);
    HideStep(c, SnapshotOf(services, names));
  }

  /** Every config the spec refers to exists or comes with the stack; every secret exists. */
  predicate AttachmentsAvailable(s: ServiceSpec, configs: set<string>, secrets: set<string>) {
    && (forall c :: c in Elems(s.configs) ==> c.source in configs)
    && (forall c :: c in Elems(s.secrets) ==> c.source in secrets)
  }

  /** More API calls than one change can need. */
  function CallBound(s: ServiceSpec): nat {
    3 * |Elems(s.networks)| + |Elems(s.configs)| + 4
  }

  class Cluster {
    var services: Stored
    var networks: seq<Network>
    var configs: map<string, ConfigObject>
    var secrets: map<string, string>

    ghost predicate Valid()
      reads this
    {
      DistinctIds(networks) && forall n :: n in services ==> services[n].name == n
    }

    /** What Snapshot shows. */
    function Observed(): Services
      reads this
    {
      SnapshotOf(services, NamesById(networks))
    }

    function Held(): Objects
      reads this
    {
      Objects(networks, configs)
    }

    constructor ()
      ensures Valid() && services == map[] && networks == [] && configs == map[] && secrets == map[]
    {
      services, networks, configs, secrets := map[], [], map[], map[];
    }

    method NetworkNames() returns (names: map<string, string>)
      ensures names == NamesById(networks)
    {
      names := map[];
      for i := 0 to |networks|
        invariant names == NamesById(networks[..i])
      {
        assert networks[..i + 1][..i] == networks[..i];
        names := names[networks[i].id := networks[i].name];
      }
      assert networks[..|networks|] == networks;
    }

    method Snapshot() returns (state: Services)
      requires Valid()
      ensures state == Observed() && KeyedByName(state)
    {
      var names := NetworkNames();
      state := ReadManaged(services, names);
      ObservedNames();
    }

    lemma ObservedNames()
      requires Valid()
      ensures KeyedByName(Observed())
    {
      forall n | n in Observed() ensures Observed()[n].name == n {
        ReadBackName(services[n], NamesById(networks));
      }
    }

    lemma ObservedManaged()
      ensures ShowsManaged(Observed(), services)
    {
    }

    /** The first network with exactly this name. */
    method FindNetwork(name: string) returns (id: Option<string>)
      ensures id.Some? ==> Network(id.value, name) in networks
      ensures id.None? ==> forall n :: n in networks ==> n.name != name
    {
      for i := 0 to |networks|
        invariant forall j :: 0 <= j < i ==> networks[j].name != name
      {
        if networks[i].name == name {
          assert networks[i] == Network(networks[i].id, name);
          return Some(networks[i].id);
        }
      }
      id := None;
    }

    /** A just-created network gets an ID that nothing in the store refers to. */
    method CreateNetwork(name: string) returns (id: string)
      requires Valid()
      modifies this`networks
      ensures Valid()
      ensures id !in UsedRefs(services, old(networks))
      ensures networks == old(networks) + [Network(id, name)]
      ensures NamesById(networks) == NamesById(old(networks))[id := name]
      ensures Observed() == old(Observed())
    {
      FreshRefExists(UsedRefs(services, networks));
      id :| id !in UsedRefs(services, networks);
      assert forall n :: n in networks ==> n.id != id;
      SnapshotIgnoresNewNetwork(services, networks, id, name);
      networks := networks + [Network(id, name)];
    }

    /** Name-to-ID map for every network of the spec, creating exactly the missing ones. */
    method EnsureNetworks(s: ServiceSpec, budget: nat) returns (ids: Option<map<string, string>>, left: nat)
      requires Valid()
      modifies this`networks
      ensures Valid() && NetworksGrow(old(networks), networks, Elems(s.networks)) && Observed() == old(Observed())
      ensures ids.Some? ==> NetworkIDs(Elems(s.networks), ids.value, old(networks), networks)
      ensures ids.Some? ==> Inverts(Elems(s.networks), ids.value, NamesById(networks))
      ensures left <= budget <= left + 3 * |Elems(s.networks)|
      ensures budget >= 3 * |Elems(s.networks)| ==> ids.Some?
    {
      var wanted := Elems(s.networks);
      var found: map<string, string> := map[];
      left := budget;
      for i := 0 to |wanted|
        invariant Valid() && NetworksGrow(old(networks), networks, wanted) && Observed() == old(Observed())
        invariant NetworkIDs(wanted[..i], found, old(networks), networks)
        invariant left <= budget <= left + 3 * i
      {
        var name := wanted[i];
        if left == 0 { return None, left; }
        left := left - 1;
        var id := FindNetwork(name);
        if id.Some? {
          NetworkFound(wanted, i, found, old(networks), networks, id.value);
          found := found[name := id.value];
          continue;
        }
        if left == 0 { return None, left; }
        left := left - 1;
        ghost var before := networks;
        var created := CreateNetwork(name);
        NetworkAdded(wanted, i, found, old(networks), before, created);
        if left == 0 { return None, left; }
        left := left - 1;
        NetworkFound(wanted, i, found, old(networks), networks, created);
        found := found[name := created];
      }
      assert wanted[..|wanted|] == wanted;
      NetworkIDsInvert(wanted, found, old(networks), networks);
      ids := Some(found);
    }

    /** The ID of every referenced config, creating from the stack's own files those that do not exist yet. */
    method AttachConfigs(refs: seq<Engine.ConfigReference>, configData: map<string, seq<bv8>>, budget: nat)
      returns (ids: Option<map<string, string>>, left: nat)
      modifies this`configs
      ensures ConfigsGrow(old(configs), configs, set r | r in refs :: r.configName, configData)
      ensures ids.Some? ==> ConfigsResolved(refs, ids.value, configs)
      ensures left <= budget <= left + |refs|
      ensures budget >= |refs| ==>
                (ids.Some? <==> forall r :: r in refs ==> r.configName in old(configs) || r.configName in configData)
    {
      var found: map<string, string> := map[];
      left := budget;
      for i := 0 to |refs|
        invariant ConfigsGrow(old(configs), configs, set r | r in refs :: r.configName, configData)
        invariant ConfigsResolved(refs[..i], found, configs)
        invariant forall r :: r in refs[..i] ==> r.configName in old(configs) || r.configName in configData
        invariant left <= budget <= left + i
      {
        var name := refs[i].configName;
        assert refs[i] in refs;
        if name !in configs {
          if name !in configData { return None, left; }
          if left == 0 { return None, left; }
          left := left - 1;
          var id: string := *;
          configs := configs[name := ConfigObject(id, configData[name])];
        }
        found := found[name := configs[name].id];
      }
      assert refs[..|refs|] == refs;
      ids := Some(found);
    }

    /** The ID of every referenced secret; secrets are never created. */
    method AttachSecrets(refs: seq<Engine.SecretReference>) returns (ids: Option<map<string, string>>)
      ensures ids.Some? <==> forall r :: r in refs ==> r.secretName in secrets
      ensures ids.Some? ==> SecretsResolved(refs, ids.value, secrets)
    {
      var found: map<string, string> := map[];
      for i := 0 to |refs|
        invariant SecretsResolved(refs[..i], found, secrets)
      {
        assert refs[i] in refs;
        if refs[i].secretName !in secrets { return None; }
        found := found[refs[i].secretName := secrets[refs[i].secretName]];
      }
      assert refs[..|refs|] == refs;
      ids := Some(found);
    }

    /** The configs are listed only when some are referenced. */
    method ResolveConfigs(s: ServiceSpec, cs: Engine.ContainerSpec, configData: map<string, seq<bv8>>, budget: nat)
      returns (ids: Option<map<string, string>>, left: nat)
      requires cs == WriteContainer(s)
      modifies this`configs
      ensures ConfigsGrow(old(configs), configs, ConfigNames(s), configData)
      ensures ids.Some? ==> ConfigsResolved(cs.configs, ids.value, configs)
      ensures ids.Some? ==> configs.Keys == old(configs).Keys + ConfigNames(s)
      ensures left <= budget <= left + |Elems(s.configs)| + 1
      ensures budget >= |Elems(s.configs)| + 1 ==>
                (ids.Some? <==> forall c :: c in Elems(s.configs) ==> c.source in old(configs).Keys + configData.Keys)
    {
      left := budget;
      ReferencesOf(s);
      if |Elems(s.configs)| == 0 { return Some(map[]), left; }
      if left == 0 { return None, left; }
      ids, left := AttachConfigs(cs.configs, configData, left - 1);
    }

    method ResolveSecrets(s: ServiceSpec, cs: Engine.ContainerSpec, budget: nat)
      returns (ids: Option<map<string, string>>, left: nat)
      requires cs == WriteContainer(s)
      ensures ids.Some? ==> SecretsResolved(cs.secrets, ids.value, secrets)
      ensures left <= budget <= left + 1
      ensures budget >= 1 ==> (ids.Some? <==> forall c :: c in Elems(s.secrets) ==> c.source in secrets)
    {
      left := budget;
      ReferencesOf(s);
      if |Elems(s.secrets)| == 0 { return Some(map[]), left; }
      if left == 0 { return None, left; }
      left := left - 1;
      ids := AttachSecrets(cs.secrets);
    }

    /** attachConfigsAndSecrets: the prepared spec, or nothing when a reference has no object. */
    method AttachConfigsAndSecrets(s: ServiceSpec, e: EngineSpec, configData: map<string, seq<bv8>>, budget: nat)
      returns (r: Option<EngineSpec>, left: nat, ghost configIDs: map<string, string>, ghost secretIDs: map<string, string>)
      requires e.task.container == Some(WriteContainer(s))
      modifies this`configs
      ensures ConfigsGrow(old(configs), configs, ConfigNames(s), configData)
      ensures r.Some? ==> r.value == WithIDs(e, configIDs, secretIDs)
      ensures r.Some? ==> AttachmentsResolved(s, configIDs, secretIDs, configs, secrets)
      ensures r.Some? ==> FilesStored(r.value, s, configs, secrets)
      ensures r.Some? ==> configs.Keys == old(configs).Keys + ConfigNames(s)
      ensures left <= budget <= left + |Elems(s.configs)| + 2
      ensures budget >= |Elems(s.configs)| + 2 ==>
                (r.Some? <==> AttachmentsAvailable(s, old(configs).Keys + configData.Keys, secrets.Keys))
    {
      configIDs, secretIDs := map[], map[];
      var cids, sids;
      cids, left := ResolveConfigs(s, e.task.container.value, configData, budget);
      if cids.None? { return None, left, configIDs, secretIDs; }
      sids, left := ResolveSecrets(s, e.task.container.value, left);
      if sids.None? { return None, left, configIDs, secretIDs; }
      configIDs, secretIDs := cids.value, sids.value;
      r := Some(WithIDs(e, cids.value, sids.value));
      FilesPrepared(s, e, cids.value, sids.value, configs, secrets);
    }

    /** The part create and update share: networks, the engine-side spec, attachments. */
    method Prepare(s: ServiceSpec, configData: map<string, seq<bv8>>, budget: nat)
      returns (prepared: Option<EngineSpec>, left: nat, ghost ids: map<string, string>,
               ghost configIDs: map<string, string>, ghost secretIDs: map<string, string>)
      requires Valid()
      modifies this`networks, this`configs
      ensures Valid() && Observed() == old(Observed())
      ensures NetworksGrow(old(networks), networks, Elems(s.networks))
      ensures ConfigsGrow(old(configs), configs, ConfigNames(s), configData)
      ensures prepared.Some? ==> prepared.value == Prepared(s, ids, configIDs, secretIDs)
      ensures prepared.Some? ==> Inverts(Elems(s.networks), ids, NamesById(networks))
      ensures prepared.Some? ==> NetworkIDs(Elems(s.networks), ids, old(networks), networks)
      ensures prepared.Some? ==> AttachmentsResolved(s, configIDs, secretIDs, configs, secrets)
      ensures prepared.Some? ==>
                FilesStored(prepared.value, s, configs, secrets) && NetworksStored(prepared.value, Elems(s.networks), networks)
      ensures prepared.Some? ==> configs.Keys == old(configs).Keys + ConfigNames(s)
      ensures left <= budget <= left + 3 * |Elems(s.networks)| + |Elems(s.configs)| + 2
      ensures budget >= 3 * |Elems(s.networks)| + |Elems(s.configs)| + 2 ==>
                (prepared.Some? <==> AttachmentsAvailable(s, old(configs).Keys + configData.Keys, secrets.Keys))
    {
      ids, configIDs, secretIDs := map[], map[], map[];
      var found;
      found, left := EnsureNetworks(s, budget);
      if found.None? { return None, left, ids, configIDs, secretIDs; }
      ids := found.value;
      var desired := ToSwarm(s);
      desired := AttachByID(desired, found.value);
      prepared, left, configIDs, secretIDs := AttachConfigsAndSecrets(s, desired, configData, left);
      NetworksPrepared(s, ids, configIDs, secretIDs, old(networks), networks);
    }

    method Create(s: ServiceSpec, configData: map<string, seq<bv8>>, budget: nat)
      returns (ok: bool, ghost ids: map<string, string>, ghost configIDs: map<string, string>,
               ghost secretIDs: map<string, string>)
      requires Valid()
      modifies this`services, this`networks, this`configs
      ensures Valid() && SnapshotOf(old(services), NamesById(networks)) == old(Observed())
      ensures NetworksGrow(old(networks), networks, Elems(s.networks))
      ensures ConfigsGrow(old(configs), configs, ConfigNames(s), configData)
      ensures !ok ==> services == old(services)
      ensures ok ==> s.name !in old(services) && Lookup(Entries(s.labels), MANAGED_LABEL) == "true"
      ensures ok ==> services == old(services)[s.name := Prepared(s, ids, configIDs, secretIDs)]
      ensures ok ==> NetworkIDs(Elems(s.networks), ids, old(networks), networks)
      ensures ok ==> Inverts(Elems(s.networks), ids, NamesById(networks))
      ensures ok ==> AttachmentsResolved(s, configIDs, secretIDs, configs, secrets)
      ensures ok ==> s.name in services && FilesStored(services[s.name], s, configs, secrets)
                     && NetworksStored(services[s.name], Elems(s.networks), networks)
      ensures ok ==> configs.Keys == old(configs).Keys + ConfigNames(s)
      ensures Lookup(Entries(s.labels), MANAGED_LABEL) != "true" ==> networks == old(networks) && configs == old(configs)
      ensures budget >= CallBound(s) ==>
                (ok <==> && Lookup(Entries(s.labels), MANAGED_LABEL) == "true" && s.name !in old(services)
                         && AttachmentsAvailable(s, old(configs).Keys + configData.Keys, secrets.Keys))
    {
      ids, configIDs, secretIDs := map[], map[], map[];
      if Lookup(Entries(s.labels), MANAGED_LABEL) != "true" { return false, ids, configIDs, secretIDs; }
      var prepared, left;
      prepared, left, ids, configIDs, secretIDs := Prepare(s, configData, budget);
      if prepared.None? || left == 0 || s.name in services { return false, ids, configIDs, secretIDs; }
      services := services[s.name := prepared.value];
      ok := true;
    }

    /** The live service under that name, unless its attachments are to change. */
    method FindUpdatable(s: ServiceSpec, budget: nat) returns (current: Option<EngineSpec>)
      ensures current.Some? <==> budget > 0 && s.name in services && AttachmentsUnchanged(services[s.name], s)
      ensures current.Some? ==> current.value == services[s.name]
    {
      if budget == 0 || s.name !in services { return None; }
      var same := CheckImmutableChange(services[s.name], s);
      return if same then Some(services[s.name]) else None;
    }

    /** An update declares no configs of its own, so it creates none; one call is left for the update itself. */
    method PrepareUpdate(s: ServiceSpec, budget: nat)
      returns (prepared: Option<EngineSpec>, ghost ids: map<string, string>, ghost configIDs: map<string, string>,
               ghost secretIDs: map<string, string>)
      requires Valid()
      modifies this`networks, this`configs
      ensures Valid() && Observed() == old(Observed()) && configs == old(configs)
      ensures NetworksGrow(old(networks), networks, Elems(s.networks))
      ensures prepared.Some? ==> prepared.value == Prepared(s, ids, configIDs, secretIDs)
      ensures prepared.Some? ==> NetworkIDs(Elems(s.networks), ids, old(networks), networks)
      ensures prepared.Some? ==> Inverts(Elems(s.networks), ids, NamesById(networks))
      ensures prepared.Some? ==> AttachmentsResolved(s, configIDs, secretIDs, configs, secrets)
      ensures prepared.Some? ==>
                FilesStored(prepared.value, s, configs, secrets) && NetworksStored(prepared.value, Elems(s.networks), networks)
      ensures budget + 1 >= CallBound(s) ==> (prepared.Some? <==> AttachmentsAvailable(s, configs.Keys, secrets.Keys))
    {
      var left;
      var noData: map<string, seq<bv8>> := map[];
      prepared, left, ids, configIDs, secretIDs := Prepare(s, noData, budget);
      assert configs == old(configs) && configs.Keys + noData.Keys == configs.Keys;
      if left == 0 { prepared := None; }
    }

    method Update(s: ServiceSpec, budget: nat)
      returns (ok: bool, ghost ids: map<string, string>, ghost configIDs: map<string, string>,
               ghost secretIDs: map<string, string>)
      requires Valid()
      modifies this`services, this`networks, this`configs
      ensures Valid() && SnapshotOf(old(services), NamesById(networks)) == old(Observed())
      ensures NetworksGrow(old(networks), networks, Elems(s.networks)) && configs == old(configs)
      ensures !ok ==> services == old(services)
      ensures ok ==> s.name in old(services) && AttachmentsUnchanged(old(services)[s.name], s)
      ensures ok ==> services == old(services)[s.name :=
                       Mutated(old(services)[s.name], Prepared(s, ids, configIDs, secretIDs))]
      ensures ok ==> NetworkIDs(Elems(s.networks), ids, old(networks), networks)
      ensures ok ==> Inverts(Elems(s.networks), ids, NamesById(networks))
      ensures ok ==> AttachmentsResolved(s, configIDs, secretIDs, configs, secrets)
      ensures ok ==> s.name in services && FilesStored(services[s.name], s, configs, secrets)
                     && NetworksStored(services[s.name], Elems(s.networks), networks)
      ensures budget >= CallBound(s) ==>
                (ok <==> && s.name in old(services) && AttachmentsUnchanged(old(services)[s.name], s)
                         && AttachmentsAvailable(s, configs.Keys, secrets.Keys))
    {
      ids, configIDs, secretIDs := map[], map[], map[];
      var current := FindUpdatable(s, budget);
      if current.None? { return false, ids, configIDs, secretIDs; }
      var prepared;
      prepared, ids, configIDs, secretIDs := PrepareUpdate(s, budget - 1);
      if prepared.None? { return false, ids, configIDs, secretIDs; }
      var mutated := Overwrite(current.value, prepared.value);
      MutatedStores(current.value, prepared.value, s, configs, secrets, networks);
      services := services[s.name := mutated];
      ok := true;
    }

    /** Only a service that carries the managed label is ever deleted. */
    method Remove(s: ServiceSpec, budget: nat) returns (ok: bool)
      modifies this`services
      ensures services == if ok then old(services) - {s.name} else old(services)
      ensures ok ==> s.name in old(services) && Managed(old(services)[s.name])
      ensures budget >= 2 ==> (ok <==> s.name in old(services) && Managed(old(services)[s.name]))
    {
      if budget == 0 || s.name !in services { return false; }
      if !Managed(services[s.name]) { return false; }
      if budget == 1 { return false; }
      services := services - {s.name};
      ok := true;
    }

    method ApplyCreate(c: Change, budget: nat) returns (ok: bool)
      requires Valid() && c.action.CreateAction?
      modifies this`services, this`networks, this`configs
      ensures Valid() && ExactStep(c, ok, old(Observed()), Observed()) && Touches(c, ok, old(services), services)
      ensures ObjectsGrow(old(Held()), Held(), [c])
    {
      ghost var ids, configIDs, secretIDs;
      ok, ids, configIDs, secretIDs := Create(c.spec, c.configData, budget);
      ChangeGrows(c, old(Held()), Held(), c.configData);
      if ok {
        CreateStep(c, old(services), NamesById(networks), ids, configIDs, secretIDs);
        OwnershipExactly(services[c.spec.name], c.spec, ids, configIDs, secretIDs);
        PutTouches(c, old(services), Prepared(c.spec, ids, configIDs, secretIDs));
      }
    }

    method ApplyUpdate(c: Change, budget: nat) returns (ok: bool)
      requires Valid() && c.action.UpdateAction?
      modifies this`services, this`networks, this`configs
      ensures Valid() && ExactStep(c, ok, old(Observed()), Observed()) && Touches(c, ok, old(services), services)
      ensures ObjectsGrow(old(Held()), Held(), [c])
    {
      ghost var ids, configIDs, secretIDs;
      ok, ids, configIDs, secretIDs := Update(c.spec, budget);
      ChangeGrows(c, old(Held()), Held(), map[]);
      if ok {
        UpdateStep(c, old(services), NamesById(networks), ids, configIDs, secretIDs);
        OwnershipExactly(old(services)[c.spec.name], c.spec, ids, configIDs, secretIDs);
        PutTouches(c, old(services), services[c.spec.name]);
      }
    }

    method ApplyRemove(c: Change, budget: nat) returns (ok: bool)
      requires Valid() && c.action.RemoveAction?
      modifies this`services
      ensures Valid() && ExactStep(c, ok, old(Observed()), Observed()) && Touches(c, ok, old(services), services)
      ensures ObjectsGrow(old(Held()), Held(), [c])
    {
      ok := Remove(c.spec, budget);
      if ok {
        RemoveStep(c, old(services), NamesById(networks));
        DropTouches(c, old(services));
      }
    }

    /**
     Dispatches on the action; every outcome meets the appliers' common contract, and touches
     the store as the real applier may: services without the managed label are never removed.
     */
    method Apply(c: Change, budget: nat) returns (ok: bool)
      requires Valid()
      modifies this`services, this`networks, this`configs
      ensures Valid() && ExactStep(c, ok, old(Observed()), Observed()) && Touches(c, ok, old(services), services)
      ensures ObjectsGrow(old(Held()), Held(), [c])
      ensures UpdatesUnmanaged(c, old(services)) || KeepsUnmanaged(old(services), services)
    {
      match c.action {
        case CreateAction => ok := ApplyCreate(c, budget);
        case UpdateAction => ok := ApplyUpdate(c, budget);
        case RemoveAction => ok := ApplyRemove(c, budget);
      }
    }
  }
}
