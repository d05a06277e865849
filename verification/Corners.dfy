/** Concrete inputs on which the mapping, the differ and the wait fall short of what they are meant to do. */
module Corners {
  import opened Basics
  import opened Cluster
  import opened Converge
  import opened Daemon
  import opened Diff
  import Engine
  import opened Mutation
  import opened Normal
  import opened Ordering
  import opened Settle
  import opened Spec
  import opened Swarm
  import opened Text

  const PLAIN := ZERO_SPEC.(name := "app_web", image := "app:1", replicas := 1)

  /** The spec in normal form does not survive the trip through the engine, whatever the network IDs. */
  ghost predicate DoesNotReturn(s: ServiceSpec) {
    InNormalForm(s) && forall ids, names :: ReadBack(Attached(Submitted(s), ids), names) != s
  }

  lemma UnrepresentableDoesNotReturn(s: ServiceSpec)
    requires !Representable(NormalForm("app", s))
    ensures DoesNotReturn(NormalForm("app", s))
  {
    NormalFormIdempotent("app", s);
    forall ids, names ensures ReadBack(Attached(Submitted(NormalForm("app", s)), ids), names) != NormalForm("app", s) {
      RoundTrip(NormalForm("app", s), ids, names);
    }
  }

  /** An ordinary replicated service does return, so the conditions of the round trip can be met. */
  lemma PlainIsDeployable()
    ensures Deployable(NormalForm("app", PLAIN))
  {
    NormalFormIdempotent("app", PLAIN);
  }

  const SHARED_CONFIG := FileRef("conf", "/conf", DEFAULT_MODE)

  /** A config mounted with mode 0444 reads back with mode 0. */
  lemma DefaultModeDoesNotReturn()
    ensures DoesNotReturn(NormalForm("app", PLAIN.(configs := Some([SHARED_CONFIG]))))
  {
    var s := PLAIN.(configs := Some([SHARED_CONFIG]));
    assert [SHARED_CONFIG][1..] == [];
    assert Sort([SHARED_CONFIG], FileRefLe) == [SHARED_CONFIG];
    assert SHARED_CONFIG in Elems(NormalForm("app", s).configs);
    UnrepresentableDoesNotReturn(s);
  }

  /** A global service has no replica count to read back, so the default of one does not return. */
  lemma GlobalReplicasDoNotReturn()
    ensures DefaultReplicas(None) == 1
    ensures DoesNotReturn(NormalForm("app", PLAIN.(mode := "global", replicas := DefaultReplicas(None))))
  {
    UnrepresentableDoesNotReturn(PLAIN.(mode := "global", replicas := 1));
  }

  /** A deploy label with the reserved prefix, or the stack namespace, is not read back as a deploy label. */
  lemma ReservedDeployLabelsDoNotReturn()
    ensures DoesNotReturn(NormalForm("app", PLAIN.(deployLabels := Some(map[NAMESPACE_LABEL := "x"]))))
    ensures DoesNotReturn(NormalForm("app", PLAIN.(deployLabels := Some(map[STACK_LABEL := "x"]))))
  {
    LabelNamesPrefixed();
    var a, b := PLAIN.(deployLabels := Some(map[NAMESPACE_LABEL := "x"])), PLAIN.(deployLabels := Some(map[STACK_LABEL := "x"]));
    assert NAMESPACE_LABEL in Entries(NormalForm("app", a).deployLabels);
    assert STACK_LABEL in Entries(NormalForm("app", b).deployLabels);
    UnrepresentableDoesNotReturn(a);
    UnrepresentableDoesNotReturn(b);
  }

  /** A variable name with '=' is cut at its first '='. */
  lemma EqualsInNameDoesNotReturn()
    ensures DoesNotReturn(NormalForm("app", PLAIN.(env := Some(map["A=B" := "c"]))))
  {
    var s := PLAIN.(env := Some(map["A=B" := "c"]));
    assert "A=B" in Entries(NormalForm("app", s).env) && "A=B"[1] == '=';
    UnrepresentableDoesNotReturn(s);
  }

  /** A placement without constraints reads back as no placement. */
  lemma EmptyPlacementDoesNotReturn()
    ensures DoesNotReturn(NormalForm("app", PLAIN.(placement := Some(PlacementSpec(None)))))
  {
    UnrepresentableDoesNotReturn(PLAIN.(placement := Some(PlacementSpec(None))));
  }

  /** A mode the engine does not know is submitted as replicated. */
  lemma UnknownModeDoesNotReturn()
    ensures DoesNotReturn(NormalForm("app", PLAIN.(mode := "daemon")))
  {
    UnrepresentableDoesNotReturn(PLAIN.(mode := "daemon"));
  }

  const SHARED_SECRET := FileRef("key", "/key", 256)

  /** A secret's mode is neither written nor read. */
  lemma SecretModeDoesNotReturn()
    ensures DoesNotReturn(NormalForm("app", PLAIN.(secrets := Some([SHARED_SECRET]))))
  {
    var s := PLAIN.(secrets := Some([SHARED_SECRET]));
    assert [SHARED_SECRET][1..] == [];
    assert Sort([SHARED_SECRET], FileRefLe) == [SHARED_SECRET];
    assert SHARED_SECRET in Elems(NormalForm("app", s).secrets);
    UnrepresentableDoesNotReturn(s);
  }

  /** Durations are submitted only when positive. */
  lemma NegativeDurationsDoNotReturn()
    ensures DoesNotReturn(NormalForm("app", PLAIN.(stopGracePeriod := -1)))
    ensures DoesNotReturn(NormalForm("app", PLAIN.(restartPolicy := Some(RestartPolicySpec("any", -1, 0, 0)))))
    ensures DoesNotReturn(NormalForm("app", PLAIN.(restartPolicy := Some(RestartPolicySpec("any", 0, 0, -1)))))
  {
    UnrepresentableDoesNotReturn(PLAIN.(stopGracePeriod := -1));
    UnrepresentableDoesNotReturn(PLAIN.(restartPolicy := Some(RestartPolicySpec("any", -1, 0, 0))));
    UnrepresentableDoesNotReturn(PLAIN.(restartPolicy := Some(RestartPolicySpec("any", 0, 0, -1))));
  }

  /** A network whose ID has no name any more reads back as that ID. */
  lemma UnnamedNetworkDoesNotReturn()
    ensures var s := NormalForm("app", PLAIN);
      ReadBack(Attached(Submitted(s), map[DefaultNetwork("app") := "id1"]), map[]) != s
  {
    var s, ids, names := NormalForm("app", PLAIN), map[DefaultNetwork("app") := "id1"], map[];
    var back := Returned(Elems(s.networks), ids, names);
    assert back[0] == "id1" && back[0] in ToSet(back);
    assert Elems(s.networks) == [DefaultNetwork("app")] && "id1"[0] != DefaultNetwork("app")[0];
    assert "id1" !in ToSet(Elems(s.networks));
    RoundTrip(s, ids, names);
  }

  // ---- Matching without converging ----

  /** Normal forms between which the differ finds nothing to change; but no poll that reads have accepts it. */
  ghost predicate MatchesButNeverAccepted(want: ServiceSpec, have: ServiceSpec) {
    && InNormalForm(want) && InNormalForm(have) && ChangedFields(want, have) == []
    && forall v: ServiceView, names :: ReadBack(v.spec, names) == have ==> !Live(v, want, names)
  }

  lemma FailingClauseANeverAccepted(want: ServiceSpec, have: ServiceSpec)
    requires InNormalForm(want) && InNormalForm(have) && Matches(want, have) && !ClauseA(have, want)
    ensures MatchesButNeverAccepted(want, have)
  {
    NoChangedFields(want, have);
  }

  lemma NormalPair(a: ServiceSpec, b: ServiceSpec)
    ensures InNormalForm(NormalForm("app", a)) && InNormalForm(NormalForm("app", b))
    ensures NoEmpties(NormalForm("app", a)) && NoEmpties(NormalForm("app", b))
  {
    NormalFormIdempotent("app", a);
    NormalFormIdempotent("app", b);
    NormalFormTight("app", NormalForm("app", a));
    NormalFormTight("app", NormalForm("app", b));
  }

  /** Pruning an operator's label leaves an empty map where desired has none. */
  lemma ForeignLabelNotAccepted()
    ensures MatchesButNeverAccepted(NormalForm("app", PLAIN),
                                    NormalForm("app", PLAIN.(deployLabels := Some(map["team" := "ops"]))))
  {
    var labelled := PLAIN.(deployLabels := Some(map["team" := "ops"]));
    NormalPair(PLAIN, labelled);
    assert "team" in map["team" := "ops"];
    ClauseAExactly(NormalForm("app", labelled), NormalForm("app", PLAIN));
    FailingClauseANeverAccepted(NormalForm("app", PLAIN), NormalForm("app", labelled));
  }

  /** An update removes neither the operator's label nor, therefore, the obstacle to convergence. */
  lemma ForeignLabelOutlastsUpdates(current: EngineSpec, s: ServiceSpec, ids: map<string, string>,
                                    configIDs: map<string, string>, secretIDs: map<string, string>, names: map<string, string>)
    requires Deployable(s) && NetworksReturn(s, ids, names) && s.deployLabels.None? && HasForeignLabel(current)
    ensures var stored := Mutated(current, Prepared(s, ids, configIDs, secretIDs));
      HasForeignLabel(stored) && MatchesButNeverAccepted(s, ReadBack(stored, names))
  {
    var stored := Mutated(current, Prepared(s, ids, configIDs, secretIDs));
    UpdateKeepsLabels(current, s, ids, configIDs, secretIDs);
    UpdateSettles(current, s, ids, configIDs, secretIDs, names);
    UpdateConvergesExactly(current, s, ids, configIDs, secretIDs, names);
    ReadBackObservable(stored, names);
    FailingClauseANeverAccepted(s, ReadBack(stored, names));
    LabelsOutsidePrefix(s);
    var k :| k in current.labels && DeployLabelKey(k);
    assert k in stored.labels;
  }

  lemma LabelsOutsidePrefix(s: ServiceSpec)
    requires Deployable(s)
    ensures forall k :: k in Entries(s.labels) ==> HasPrefix(k, LABEL_PREFIX)
  {
    LabelNamesPrefixed();
  }

  /**
   A missing deploy label counts as one with the value "".  An update stores this label, which is
   not a reserved one, so the wait meets this state only when somebody removes it again.
   */
  lemma EmptyLabelNotAccepted()
    ensures MatchesButNeverAccepted(NormalForm("app", PLAIN.(deployLabels := Some(map["team" := ""]))), NormalForm("app", PLAIN))
  {
    var labelled := PLAIN.(deployLabels := Some(map["team" := ""]));
    NormalPair(PLAIN, labelled);
    assert "team" in Entries(NormalForm("app", labelled).deployLabels);
    ClauseAExactly(NormalForm("app", PLAIN), NormalForm("app", labelled));
    FailingClauseANeverAccepted(NormalForm("app", labelled), NormalForm("app", PLAIN));
  }

  /** The stack namespace as a blank deploy label, which a stack file may well set. */
  const BLANK_RESERVED := PLAIN.(deployLabels := Some(map[NAMESPACE_LABEL := ""]))

  /**
   A blank reserved label is stored but never read back: the differ is silent from the first
   update on, and every poll refuses, with nobody removing anything.
   */
  lemma BlankReservedNotAccepted(current: EngineSpec, ids: map<string, string>, configIDs: map<string, string>,
                                 secretIDs: map<string, string>, names: map<string, string>)
    requires NetworksReturn(NormalForm("app", BLANK_RESERVED), ids, names)
    ensures var s := NormalForm("app", BLANK_RESERVED);
      && Settling(s) && !Representable(s)
      && MatchesButNeverAccepted(s, ReadBack(Mutated(current, Prepared(s, ids, configIDs, secretIDs)), names))
  {
    var s := NormalForm("app", BLANK_RESERVED);
    var stored := Mutated(current, Prepared(s, ids, configIDs, secretIDs));
    NormalFormIdempotent("app", BLANK_RESERVED);
    BlankReservedSettles();
    SilentButRefusedExactly(current, s, ids, configIDs, secretIDs, names);
    ReadBackObservable(stored, names);
    FailingClauseANeverAccepted(s, ReadBack(stored, names));
  }

  lemma BlankReservedSettles()
    ensures var s := NormalForm("app", BLANK_RESERVED); Settling(s) && HasReservedLabel(s) && !Representable(s)
  {
    var s := NormalForm("app", BLANK_RESERVED);
    LabelNamesPrefixed();
    PlainIsDeployable();
    NormalFormIdempotent("app", BLANK_RESERVED);
    NormalFormTight("app", s);
    assert NAMESPACE_LABEL in Entries(s.deployLabels) && !DeployLabelKey(NAMESPACE_LABEL);
    assert OwnDeployLabels(s) == map[];
    assert Tightened(s) == NormalForm("app", PLAIN);
  }

  // ---- Whose service it is ----

  /** A service somebody else runs under the name the stack wants. */
  ghost function Others(): EngineSpec {
    Submitted(NormalForm("app", PLAIN)).(labels := map["team" := "ops"])
  }

  /**
   An update of a service goes through whoever owns it, as long as the attachments stay the same;
   it makes the service swarmgate's own, and a removal then takes it away.
   */
  method AdoptsAndRemoves(cluster: Cluster, s: ServiceSpec) returns (updated: bool, removed: bool)
    requires cluster.Valid() && s.name in cluster.services && AttachmentsUnchanged(cluster.services[s.name], s)
    requires CarriesOwnership(s) && AttachmentsAvailable(s, cluster.configs.Keys, cluster.secrets.Keys)
    modifies cluster`services, cluster`networks, cluster`configs
    ensures updated && removed && cluster.services == old(cluster.services) - {s.name}
  {
    updated := Adopts(cluster, s);
    removed := cluster.Remove(s, 2);
  }

  method Adopts(cluster: Cluster, s: ServiceSpec) returns (updated: bool)
    requires cluster.Valid() && s.name in cluster.services && AttachmentsUnchanged(cluster.services[s.name], s)
    requires CarriesOwnership(s) && AttachmentsAvailable(s, cluster.configs.Keys, cluster.secrets.Keys)
    modifies cluster`services, cluster`networks, cluster`configs
    ensures cluster.Valid() && updated && s.name in cluster.services && Managed(cluster.services[s.name])
    ensures cluster.services == old(cluster.services)[s.name := cluster.services[s.name]]
  {
    ghost var live := cluster.services[s.name];
    ghost var ids, configIDs, secretIDs;
    updated, ids, configIDs, secretIDs := cluster.Update(s, CallBound(s));
    OwnershipExactly(live, s, ids, configIDs, secretIDs);
  }

  /** Such a service: the cluster held nothing but somebody else's service, and is left with nothing. */
  method TakesOver(cluster: Cluster) returns (updated: bool, removed: bool)
    requires cluster.Valid() && cluster.services == map["app_web" := Others()]
    modifies cluster`services, cluster`networks, cluster`configs
    ensures updated && removed && cluster.services == map[] && !Managed(Others())
  {
    ForeignTakesUpdate();
    updated, removed := AdoptsAndRemoves(cluster, NormalForm("app", PLAIN));
  }

  lemma ForeignTakesUpdate()
    ensures var s := NormalForm("app", PLAIN);
      && s.name == "app_web" && CarriesOwnership(s) && !Managed(Others())
      && AttachmentsUnchanged(Others(), s) && AttachmentsAvailable(s, {}, {})
  {
    LabelNamesPrefixed();
    assert LiveConfigs(Others()) == [] && LiveSecrets(Others()) == [];
    assert MANAGED_LABEL != "team";
  }

  /** The managed label set again as a deploy label, to another value. */
  const DISOWNED := PLAIN.(deployLabels := Some(map[MANAGED_LABEL := "no"]))

  /** A creation that passes the guard against orphans and yet leaves one: the removal refuses it. */
  method CreatesAnOrphan() returns (cluster: Cluster, created: bool, removed: bool)
    ensures created && !removed
    ensures "app_web" in cluster.services && !Managed(cluster.services["app_web"])
  {
    var s := NormalForm("app", DISOWNED);
    DisownedPassesGuard();
    cluster := new Cluster();
    ghost var ids, configIDs, secretIDs;
    created, ids, configIDs, secretIDs := cluster.Create(s, map[], CallBound(s));
    OwnershipExactly(Submitted(s), s, ids, configIDs, secretIDs);
    removed := cluster.Remove(s, 2);
  }

  lemma DisownedPassesGuard()
    ensures var s := NormalForm("app", DISOWNED);
      && s.name == "app_web" && Lookup(Entries(s.labels), MANAGED_LABEL) == "true" && !CarriesOwnership(s)
      && AttachmentsAvailable(s, {}, {})
  {
    LabelNamesPrefixed();
    GuardedOwnershipExactly(NormalForm("app", DISOWNED));
  }

  // ---- Config objects ----

  /** A creation adds the config the store lacks, with the content the stack declares. */
  method CreatesConfig(data: seq<bv8>) returns (cluster: Cluster, created: bool)
    ensures created && cluster.configs.Keys == {"conf"} && cluster.configs["conf"].data == data
  {
    var s := NormalForm("app", MIXED);
    MixedConfigs();
    cluster := new Cluster();
    ghost var ids, configIDs, secretIDs;
    created, ids, configIDs, secretIDs := cluster.Create(s, map["conf" := data], CallBound(s));
  }

  // ---- What an update drops ----

  /** What was submitted for the plain service, with a placement preference and a tmpfs mount an operator has added. */
  ghost function Tuned(): EngineSpec {
    var e := Submitted(NormalForm("app", PLAIN));
    e.(task := e.task.(
         placement := Some(Engine.Placement([], map["spread" := "node.labels.zone"])),
         container := Some(e.task.container.value.(
           mounts := [Engine.Mount("tmpfs", "", "/scratch", false, map["size" := "64m"])]))))
  }

  lemma TuningIsThere()
    ensures LossyOf(Tuned()).preferences != map[] && LossyOf(Tuned()).foreignMounts != {}
  {
    assert "spread" in LossyOf(Tuned()).preferences;
    var tmpfs := Engine.Mount("tmpfs", "", "/scratch", false, map["size" := "64m"]);
    assert LiveMounts(Tuned()) == [tmpfs] && Foreign(tmpfs) && tmpfs in LossyOf(Tuned()).foreignMounts;
  }

  /** Updating that service with anything at all loses both. */
  lemma UpdateLosesTuning(s: ServiceSpec, ids: map<string, string>, configIDs: map<string, string>,
                          secretIDs: map<string, string>)
    ensures var stored := Mutated(Tuned(), Prepared(s, ids, configIDs, secretIDs));
      && !SameOutsideModel(Tuned(), stored)
      && LossyOf(stored).preferences == map[] && LossyOf(stored).foreignMounts == {}
  {
    TuningIsThere();
    UpdateFrame(Tuned(), s, ids, configIDs, secretIDs);
    StoredLosesAll(Tuned(), s, ids, configIDs, secretIDs);
  }

  // ---- Updates that are never applied ----

  /** A new image along with a first config. */
  const MIXED := PLAIN.(image := "app:2", configs := Some([FileRef("conf", "/conf", 0)]))

  /** The plain service is running and the mixed one is wanted: an update that no run ever applies. */
  lemma MixedUpdateExists(ids: map<string, string>, names: map<string, string>)
    ensures var live, s := Attached(Submitted(NormalForm("app", PLAIN)), ids), NormalForm("app", MIXED);
      && PlainSources(live, s) && !SamePairs(live, s)
      && WantsMixedUpdate(Scene(map["app_web" := live], map["app_web" := ReadBack(live, names)], Objects([], map[])),
                          map["app_web" := s], "app_web")
  {
    var live, s := Attached(Submitted(NormalForm("app", PLAIN)), ids), NormalForm("app", MIXED);
    assert Differs(Image, s, ReadBack(live, names));
    MixedConfigs();
    assert LiveConfigs(live) == [] && LiveSecrets(live) == [];
    FirstConfigRefused(live, s);
  }

  lemma FirstConfigRefused(live: EngineSpec, s: ServiceSpec)
    requires LiveConfigs(live) == [] && LiveSecrets(live) == []
    requires Elems(s.configs) == [FileRef("conf", "/conf", 0)] && Elems(s.secrets) == []
    ensures PlainSources(live, s) && !SamePairs(live, s) && !AttachmentsUnchanged(live, s)
  {
    assert |multiset(Map(Elems(s.configs), RefPair))| == 1;
    RefusalExactly(live, s);
  }

  lemma MixedConfigs()
    ensures Elems(NormalForm("app", MIXED).configs) == [FileRef("conf", "/conf", 0)]
  {
    assert [FileRef("conf", "/conf", 0)][1..] == [];
    assert Sort([FileRef("conf", "/conf", 0)], FileRefLe) == [FileRef("conf", "/conf", 0)];
  }

  /** A change of mode alone is a changed field, but not one the applier refuses. */
  lemma ModeChangeIsAccepted(current: EngineSpec, s: ServiceSpec, refs: seq<FileRef>)
    requires AttachmentsUnchanged(current, s) && Map(refs, RefPair) == Map(Elems(s.configs), RefPair)
    ensures AttachmentsUnchanged(current, s.(configs := Some(refs)))
  {
    assert Map(refs, RefKey) == Map(Map(refs, RefPair), PairKey);
    assert Map(Elems(s.configs), RefKey) == Map(Map(Elems(s.configs), RefPair), PairKey);
  }

  /** Ports that differ only in mode tie, so sorting may leave either order. */
  lemma PortModesTie(p: PortSpec, q: PortSpec)
    requires p == q.(mode := p.mode) && p != q
    ensures OrderedPermutation([p, q], [p, q], PortLe) && OrderedPermutation([p, q], [q, p], PortLe)
    ensures [p, q] != [q, p]
  {
    LeTotal(p.protocol, p.protocol);
    assert multiset([p, q]) == multiset([q, p]);
    assert [p, q][0] != [q, p][0];
  }
}
