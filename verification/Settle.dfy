/** Exactly which specs a create or an update makes the differ fall silent about. */
module Settle {
  import opened Basics
  import opened Converge
  import opened Diff
  import opened Mutation
  import opened Normal
  import opened Spec
  import opened Swarm
  import opened Text

  /** The deploy labels that can be read back as such. */
  function OwnDeployLabels(s: ServiceSpec): map<string, string> {
    map k | k in Entries(s.deployLabels) && DeployLabelKey(k) :: s.deployLabels.value[k]
  }

  /** s with its empty collections as in normal form, and without reserved deploy labels. */
  function Tightened(s: ServiceSpec): ServiceSpec {
    s.(env := NilIfEmptyDict(s.env), labels := Some(Entries(s.labels)),
       deployLabels := NilIfEmptyDict(Some(OwnDeployLabels(s))), networks := Some(Elems(s.networks)),
       ports := NilIfEmpty(s.ports), command := NilIfEmpty(s.command), entrypoint := NilIfEmpty(s.entrypoint),
       capAdd := NilIfEmpty(s.capAdd), ulimits := NilIfEmpty(s.ulimits), volumes := NilIfEmpty(s.volumes),
       configs := NilIfEmpty(s.configs), secrets := NilIfEmpty(s.secrets))
  }

  /** A reserved deploy label must be blank, and blank among the labels too when it shares their prefix. */
  ghost predicate ReservedBlank(s: ServiceSpec) {
    forall k :: k in Entries(s.deployLabels) && !DeployLabelKey(k) ==>
      && Entries(s.deployLabels)[k] == ""
      && (HasPrefix(k, LABEL_PREFIX) ==> k in Entries(s.labels) && Entries(s.labels)[k] == "")
  }

  ghost predicate Settling(s: ServiceSpec) {
    ReservedBlank(s) && Deployable(Tightened(s))
  }

  lemma DeployableIsSettling(s: ServiceSpec)
    requires Deployable(s)
    ensures Settling(s) && Tightened(s) == s
  {
    NormalFormTight(Entries(s.labels)[STACK_LABEL], s);
    assert OwnDeployLabels(s) == Entries(s.deployLabels);
  }

  /** In normal form only the reserved deploy labels stand apart from what has to survive the engine. */
  lemma NormalSettlesExactly(s: ServiceSpec)
    requires InNormalForm(s)
    ensures Settling(s) <==> ReservedBlank(s) && Representable(s.(deployLabels := None))
  {
    var stack := Entries(s.labels)[STACK_LABEL];
    NormalFormTight(stack, s);
    var own := NilIfEmptyDict(Some(OwnDeployLabels(s)));
    assert Tightened(s) == s.(deployLabels := own);
    assert NormalForm(stack, s.(deployLabels := own)) == s.(deployLabels := own);
  }

  /** Both specs are submitted alike but for the reserved deploy labels. */
  lemma SameSubmission(s: ServiceSpec, ids: map<string, string>)
    ensures Attached(Submitted(Tightened(s)), ids)
            == Attached(Submitted(s), ids).(labels := Entries(s.labels) + OwnDeployLabels(s))
    ensures Attached(Submitted(s), ids).labels == Entries(s.labels) + Entries(s.deployLabels)
  {
    var t := Tightened(s);
    assert WriteContainer(t) == WriteContainer(s) && WriteTask(t) == WriteTask(s);
    assert WritePorts(t.ports) == WritePorts(s.ports) && WriteMode(t) == WriteMode(s);
  }

  lemma SameReading(e: EngineSpec, labels: map<string, string>, names: map<string, string>)
    requires PrefixedLabels(labels) == PrefixedLabels(e.labels) && ReadDeployLabels(labels) == ReadDeployLabels(e.labels)
    requires Lookup(labels, STACK_LABEL) == Lookup(e.labels, STACK_LABEL)
    ensures ReadBack(e.(labels := labels), names) == ReadBack(e, names)
  {
  }

  lemma ReservedUnread(s: ServiceSpec)
    requires ReservedBlank(s)
    ensures var full, own := Entries(s.labels) + Entries(s.deployLabels), Entries(s.labels) + OwnDeployLabels(s);
      && PrefixedLabels(full) == PrefixedLabels(own) && ReadDeployLabels(full) == ReadDeployLabels(own)
      && Lookup(full, STACK_LABEL) == Lookup(own, STACK_LABEL)
  {
    LabelNamesPrefixed();
  }

  lemma TightenedReadsAlike(s: ServiceSpec, ids: map<string, string>, names: map<string, string>)
    requires ReservedBlank(s)
    ensures ReadBack(Attached(Submitted(Tightened(s)), ids), names) == ReadBack(Attached(Submitted(s), ids), names)
  {
    SameSubmission(s, ids);
    ReservedUnread(s);
    SameReading(Attached(Submitted(s), ids), Entries(s.labels) + OwnDeployLabels(s), names);
  }

  /** d holds the deploy labels of s that can be read back, perhaps among others, and nothing reserved. */
  ghost predicate Covers(d: Dict, s: ServiceSpec) {
    && TightDict(d) && (forall k :: k in Entries(d) ==> DeployLabelKey(k))
    && forall k :: k in OwnDeployLabels(s) ==> k in Entries(d) && Entries(d)[k] == OwnDeployLabels(s)[k]
  }

  lemma CoveringLabelsMatch(d: Dict, s: ServiceSpec)
    requires Covers(d, s)
    ensures MapContains(Entries(d), Entries(s.deployLabels))
       <==> forall k :: k in Entries(s.deployLabels) && !DeployLabelKey(k) ==> Entries(s.deployLabels)[k] == ""
  {
    var want, have := Entries(s.deployLabels), Entries(d);
    forall k | k in want ensures Lookup(have, k) == want[k] <==> DeployLabelKey(k) || want[k] == "" {
      if DeployLabelKey(k) { assert k in OwnDeployLabels(s); }
    }
  }

  ghost predicate BlankWhereReserved(s: ServiceSpec) {
    forall k :: k in Entries(s.deployLabels) && !DeployLabelKey(k) ==> Entries(s.deployLabels)[k] == ""
  }

  /** Deploy labels aside, back is s tightened. */
  ghost predicate IsTightened(back: ServiceSpec, s: ServiceSpec) {
    back.(deployLabels := Tightened(s).deployLabels) == Tightened(s)
  }

  lemma MatchingIsTightened(s: ServiceSpec, back: ServiceSpec)
    requires NoEmpties(back) && back.name == s.name && Matches(s, back)
    ensures IsTightened(back, s)
  {
    var t := Tightened(s);
    assert SameScalars(s, back) && SamePointers(s, back);
    assert back.env == t.env && back.labels == t.labels && back.networks == t.networks && back.ports == t.ports;
    assert back.command == t.command && back.entrypoint == t.entrypoint && back.capAdd == t.capAdd;
    assert back.ulimits == t.ulimits && back.volumes == t.volumes && back.configs == t.configs && back.secrets == t.secrets;
  }

  lemma TightenedMatches(s: ServiceSpec, back: ServiceSpec)
    requires IsTightened(back, s) && MapContains(Entries(back.deployLabels), Entries(s.deployLabels))
    ensures Matches(s, back)
  {
    var t := Tightened(s);
    assert SameScalars(s, t) && SamePointers(s, t) && SameLists(s, t);
    assert Entries(s.env) == Entries(t.env) && Entries(s.labels) == Entries(t.labels);
    assert SameScalars(t, back) && SamePointers(t, back) && SameLists(t, back);
  }

  /** Deploy labels aside, a spec read back matches s exactly when it is s tightened. */
  lemma MatchesTightened(s: ServiceSpec, back: ServiceSpec)
    requires NoEmpties(back) && back.name == s.name && Covers(back.deployLabels, s)
    ensures Matches(s, back) <==> IsTightened(back, s) && BlankWhereReserved(s)
  {
    CoveringLabelsMatch(back.deployLabels, s);
    if Matches(s, back) { MatchingIsTightened(s, back); }
    if IsTightened(back, s) && BlankWhereReserved(s) { TightenedMatches(s, back); }
  }

  /** The labels a spec is submitted with come back as they were. */
  ghost predicate LabelsReturned(s: ServiceSpec) {
    var full := Entries(s.labels) + Entries(s.deployLabels);
    && CarriesOwnership(s)
    && NormalLabels(Lookup(full, STACK_LABEL), Some(PrefixedLabels(full))) == Some(Entries(s.labels))
  }

  /** That leaves no room for a reserved deploy label but a blank one. */
  lemma LabelsGiveBlank(s: ServiceSpec)
    requires LabelsReturned(s) && BlankWhereReserved(s)
    ensures ReservedBlank(s)
  {
    LabelNamesPrefixed();
    var full := Entries(s.labels) + Entries(s.deployLabels);
    var back := PrefixedLabels(PrefixedLabels(full))[MANAGED_LABEL := "true"][STACK_LABEL := Lookup(full, STACK_LABEL)];
    assert back == Entries(s.labels);
    forall k | k in Entries(s.deployLabels) && !DeployLabelKey(k) && HasPrefix(k, LABEL_PREFIX)
      ensures k in Entries(s.labels) && Entries(s.labels)[k] == ""
    {
      assert full[k] == "" && k != MANAGED_LABEL;
      assert k in PrefixedLabels(full) && k in back;
    }
  }

  lemma OwnLabelsReturn(s: ServiceSpec)
    requires LabelsReturned(s)
    ensures ReadDeployLabels(Entries(s.labels) + Entries(s.deployLabels)) == OwnDeployLabels(s)
  {
    LabelNamesPrefixed();
    forall k | k in Entries(s.labels) ensures HasPrefix(k, LABEL_PREFIX) {
      var full := Entries(s.labels) + Entries(s.deployLabels);
      assert k in PrefixedLabels(PrefixedLabels(full)) || k == MANAGED_LABEL || k == STACK_LABEL;
    }
  }

  lemma ReadLabels(e: EngineSpec, names: map<string, string>)
    ensures var back := ReadBack(e, names);
      && back.labels == NormalLabels(Lookup(e.labels, STACK_LABEL), Some(PrefixedLabels(e.labels)))
      && back.deployLabels == NilIfEmptyDict(Some(ReadDeployLabels(e.labels)))
  {
  }

  lemma SettlingReturns(s: ServiceSpec, ids: map<string, string>, names: map<string, string>)
    requires Settling(s) && NetworksReturn(s, ids, names)
    ensures ReadBack(Attached(Submitted(s), ids), names) == Tightened(s) && Managed(Attached(Submitted(s), ids))
  {
    var t := Tightened(s);
    assert NetworksReturn(t, ids, names);
    TightenedReadsAlike(s, ids, names);
    RoundTripHolds(t, ids, names);
    SameSubmission(s, ids);
    SettlingIsManaged(s);
  }

  lemma SettlingIsManaged(s: ServiceSpec)
    requires Settling(s)
    ensures CarriesOwnership(s)
  {
    LabelNamesPrefixed();
    assert Entries(Tightened(s).labels)[MANAGED_LABEL] == "true";
    assert !DeployLabelKey(MANAGED_LABEL);
  }

  lemma ReturnedIsSettling(s: ServiceSpec, ids: map<string, string>, names: map<string, string>)
    requires Managed(Attached(Submitted(s), ids)) && BlankWhereReserved(s)
    requires IsTightened(ReadBack(Attached(Submitted(s), ids), names), s)
    ensures Settling(s) && NetworksReturn(s, ids, names)
  {
    var t, e := Tightened(s), Attached(Submitted(s), ids);
    SameSubmission(s, ids);
    ReadLabels(e, names);
    assert LabelsReturned(s);
    LabelsGiveBlank(s);
    OwnLabelsReturn(s);
    TightenedReadsAlike(s, ids, names);
    RoundTripNeeds(t, ids, names);
    assert NetworksReturn(t, ids, names) ==> NetworksReturn(s, ids, names);
  }

  // ---- Creating and updating ----

  lemma SubmittedCovers(s: ServiceSpec, merged: map<string, string>)
    requires forall k :: k in Entries(s.deployLabels) ==> k in merged && merged[k] == Entries(s.deployLabels)[k]
    ensures Covers(NilIfEmptyDict(Some(ReadDeployLabels(merged))), s)
  {
  }

  lemma ReadsTight(e: EngineSpec, names: map<string, string>)
    ensures NoEmpties(ReadBack(e, names)) && ReadBack(e, names).name == e.name
  {
    ReadBackObservable(e, names);
    NormalFormTight(Lookup(e.labels, STACK_LABEL), ReadBack(e, names));
  }

  /** What an update stores is shown by the next snapshot as matching s if and only if s settles and its networks map back. */
  lemma UpdateSettlesExactly(current: EngineSpec, s: ServiceSpec, ids: map<string, string>, configIDs: map<string, string>,
                             secretIDs: map<string, string>, names: map<string, string>)
    ensures var stored := Mutated(current, Prepared(s, ids, configIDs, secretIDs));
      Managed(stored) && Matches(s, ReadBack(stored, names)) <==> Settling(s) && NetworksReturn(s, ids, names)
  {
    var p := Prepared(s, ids, configIDs, secretIDs);
    var stored := Mutated(current, p);
    SameSubmission(s, ids);
    PreparedReadsBack(s, ids, configIDs, secretIDs, names);
    MutatedReadsBack(current, p, names);
    ReadsTight(stored, names);
    OwnershipExactly(current, s, ids, configIDs, secretIDs);
    StoredLabelsCover(current, s, ids, configIDs, secretIDs, names);
    MatchesTightened(s, ReadBack(stored, names));
    SettlesIff(s, ids, names, ReadBack(stored, names));
  }

  lemma StoredLabelsCover(current: EngineSpec, s: ServiceSpec, ids: map<string, string>, configIDs: map<string, string>,
                          secretIDs: map<string, string>, names: map<string, string>)
    ensures Covers(ReadBack(Mutated(current, Prepared(s, ids, configIDs, secretIDs)), names).deployLabels, s)
  {
    var stored := Mutated(current, Prepared(s, ids, configIDs, secretIDs));
    SameSubmission(s, ids);
    SubmittedCovers(s, stored.labels);
    ReadLabels(stored, names);
  }

  /** The same for what a create stores. */
  lemma CreateSettlesExactly(s: ServiceSpec, ids: map<string, string>, configIDs: map<string, string>,
                             secretIDs: map<string, string>, names: map<string, string>)
    ensures var stored := Prepared(s, ids, configIDs, secretIDs);
      Managed(stored) && Matches(s, ReadBack(stored, names)) <==> Settling(s) && NetworksReturn(s, ids, names)
  {
    var stored := Prepared(s, ids, configIDs, secretIDs);
    SameSubmission(s, ids);
    PreparedReadsBack(s, ids, configIDs, secretIDs, names);
    SubmittedCovers(s, stored.labels);
    ReadsTight(stored, names);
    ReadLabels(stored, names);
    MatchesTightened(s, ReadBack(stored, names));
    SettlesIff(s, ids, names, ReadBack(stored, names));
  }

  lemma SettlesIff(s: ServiceSpec, ids: map<string, string>, names: map<string, string>, back: ServiceSpec)
    requires back == ReadBack(Attached(Submitted(s), ids), names).(deployLabels := back.deployLabels)
    ensures Managed(Attached(Submitted(s), ids)) && IsTightened(back, s) && BlankWhereReserved(s)
       <==> Settling(s) && NetworksReturn(s, ids, names)
  {
    if Settling(s) && NetworksReturn(s, ids, names) { SettlingReturns(s, ids, names); }
    if Managed(Attached(Submitted(s), ids)) && IsTightened(back, s) && BlankWhereReserved(s) {
      ReturnedIsSettling(s, ids, names);
    }
  }

  // ---- Matching against converging ----

  predicate HasReservedLabel(s: ServiceSpec) {
    exists k :: k in Entries(s.deployLabels) && !DeployLabelKey(k)
  }

  lemma SettlingRepresentable(s: ServiceSpec)
    requires InNormalForm(s) && Settling(s)
    ensures Representable(s) <==> !HasReservedLabel(s)
  {
    assert Representable(Tightened(s));
    NormalFormTight(Entries(s.labels)[STACK_LABEL], s);
  }

  /**
   After an update the snapshot matches and yet every poll refuses, exactly when the spec
   settles but sets a reserved deploy label, or sets none at all while the live service has one.
   */
  lemma SilentButRefusedExactly(current: EngineSpec, s: ServiceSpec, ids: map<string, string>, configIDs: map<string, string>,
                                secretIDs: map<string, string>, names: map<string, string>)
    requires InNormalForm(s) && Settling(s) && NetworksReturn(s, ids, names)
    ensures var back := ReadBack(Mutated(current, Prepared(s, ids, configIDs, secretIDs)), names);
      && Matches(s, back)
      && (!ClauseA(back, s) <==> HasReservedLabel(s) || (s.deployLabels.None? && HasForeignLabel(current)))
  {
    UpdateSettlesExactly(current, s, ids, configIDs, secretIDs, names);
    UpdateConvergesExactly(current, s, ids, configIDs, secretIDs, names);
    SettlingRepresentable(s);
  }
}
