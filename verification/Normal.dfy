/** The canonical form both sides of the diff are routed through (internal/spec/normal.go). */
module Normal {
  import opened Basics
  import opened Ordering
  import opened Spec
  import opened Text

  // ---- Comparators handed to slices.SortFunc ----

  predicate PortLe(a: PortSpec, b: PortSpec) {
    if a.target != b.target then a.target < b.target
    else if a.published != b.published then a.published < b.published
    else Le(a.protocol, b.protocol)
  }

  predicate UlimitLe(a: UlimitSpec, b: UlimitSpec) {
    Le(a.name, b.name)
  }

  predicate VolumeLe(a: VolumeMount, b: VolumeMount) {
    Le(a.target, b.target)
  }

  predicate FileRefLe(a: FileRef, b: FileRef) {
    Le(a.target, b.target)
  }

  lemma ComparatorsArePreorders()
    ensures Preorder(PortLe) && Preorder(UlimitLe) && Preorder(VolumeLe) && Preorder(FileRefLe)
  {
    LePreorder();
  }

  // ---- Field rules ----

  function DefaultPort(p: PortSpec): PortSpec {
    PortSpec(p.target, p.published,
             if p.protocol == "" then "tcp" else ToLower(p.protocol),
             if p.mode == "" then "ingress" else p.mode)
  }

  function NormalPorts(ports: Slice<PortSpec>): Slice<PortSpec> {
    if Elems(ports) == [] then None else Some(Sort(Map(ports.value, DefaultPort), PortLe))
  }

  /** Sorted and stripped of duplicates; nil when empty. */
  function NormalSet(s: Slice<string>): Slice<string> {
    if Elems(s) == [] then None else Some(SortUnique(s.value))
  }

  function NormalNetworks(stack: string, networks: Slice<string>): Slice<string> {
    if Elems(networks) == [] then Some([DefaultNetwork(stack)]) else Some(SortUnique(networks.value))
  }

  /** Sorted by a comparator; nil when empty. */
  function NormalSorted<T>(s: Slice<T>, le: (T, T) -> bool): Slice<T> {
    if Elems(s) == [] then None else Some(Sort(s.value, le))
  }

  function PrefixedLabels(labels: map<string, string>): map<string, string> {
    map k | k in labels && HasPrefix(k, LABEL_PREFIX) :: labels[k]
  }

  function NormalLabels(stack: string, labels: Dict): Dict {
    Some(PrefixedLabels(Entries(labels))[MANAGED_LABEL := "true"][STACK_LABEL := stack])
  }

  function NormalHealthcheck(hc: Option<HealthcheckSpec>): Option<HealthcheckSpec> {
    if hc.Some? && Elems(hc.value.test) == [] then None else hc
  }

  function NormalRestartPolicy(rp: Option<RestartPolicySpec>): Option<RestartPolicySpec> {
    if rp.Some? && rp.value.condition == "" then Some(rp.value.(condition := "any")) else rp
  }

  function NormalPlacement(p: Option<PlacementSpec>): Option<PlacementSpec> {
    if p.Some? then Some(PlacementSpec(NormalSet(p.value.constraints))) else None
  }

  function NormalForm(stack: string, s: ServiceSpec): ServiceSpec {
    s.(
      env := NilIfEmptyDict(s.env),
      labels := NormalLabels(stack, s.labels),
      deployLabels := NilIfEmptyDict(s.deployLabels),
      networks := NormalNetworks(stack, s.networks),
      ports := NormalPorts(s.ports),
      healthcheck := NormalHealthcheck(s.healthcheck),
      command := NilIfEmpty(s.command),
      entrypoint := NilIfEmpty(s.entrypoint),
      capAdd := NormalSet(s.capAdd),
      ulimits := NormalSorted(s.ulimits, UlimitLe),
      volumes := NormalSorted(s.volumes, VolumeLe),
      configs := NormalSorted(s.configs, FileRefLe),
      secrets := NormalSorted(s.secrets, FileRefLe),
      mode := if s.mode == "" then "replicated" else s.mode,
      restartPolicy := NormalRestartPolicy(s.restartPolicy),
      placement := NormalPlacement(s.placement))
  }

  /** s is what Normalize returns for the stack named by its own label. */
  ghost predicate InNormalForm(s: ServiceSpec) {
    && STACK_LABEL in Entries(s.labels)
    && NormalForm(Entries(s.labels)[STACK_LABEL], s) == s
  }

  // ---- The source's step-by-step forms ----

  method SelectPrefixed(labels: map<string, string>) returns (r: map<string, string>)
    ensures r == PrefixedLabels(labels)
  {
    r := map[];
    var rest := labels.Keys;
    while rest != {}
      invariant rest <= labels.Keys
      invariant r == map k | k in labels.Keys - rest && HasPrefix(k, LABEL_PREFIX) :: labels[k]
      decreases |rest|
    {
      var k :| k in rest;
      rest := rest - {k};
      if HasPrefix(k, LABEL_PREFIX) {
        r := r[k := labels[k]];
      }
    }
  }

  method CanonicalPorts(ports: seq<PortSpec>) returns (r: seq<PortSpec>)
    ensures r == Sort(Map(ports, DefaultPort), PortLe)
  {
    r := ports;
    for i := 0 to |ports|
      invariant |r| == |ports|
      invariant forall j :: 0 <= j < i ==> r[j] == DefaultPort(ports[j])
      invariant forall j :: i <= j < |r| ==> r[j] == ports[j]
    {
      if r[i].protocol == "" {
        r := r[i := r[i].(protocol := "tcp")];
      } else {
        r := r[i := r[i].(protocol := ToLower(r[i].protocol))];
      }
      if r[i].mode == "" {
        r := r[i := r[i].(mode := "ingress")];
      }
    }
    assert r == Map(ports, DefaultPort);
    r := Sort(r, PortLe);
  }

  method NormalizeFileRefs(refs: Slice<FileRef>) returns (r: Slice<FileRef>)
    ensures r == NormalSorted(refs, FileRefLe)
  {
    if |Elems(refs)| == 0 {
      return None;
    }
    r := Some(Sort(refs.value, FileRefLe));
  }

  /** Empty collections become nil, and so does a healthcheck without a test. */
  method DropEmpties(s: ServiceSpec) returns (r: ServiceSpec)
    ensures r == s.(env := NilIfEmptyDict(s.env), deployLabels := NilIfEmptyDict(s.deployLabels),
                    command := NilIfEmpty(s.command), entrypoint := NilIfEmpty(s.entrypoint),
                    healthcheck := NormalHealthcheck(s.healthcheck))
  {
    r := s;
    if |Entries(r.env)| == 0 { r := r.(env := None); }
    if |Entries(r.deployLabels)| == 0 { r := r.(deployLabels := None); }
    if |Elems(r.command)| == 0 { r := r.(command := None); }
    if |Elems(r.entrypoint)| == 0 { r := r.(entrypoint := None); }
    if r.healthcheck.Some? && |Elems(r.healthcheck.value.test)| == 0 {
      r := r.(healthcheck := None);
    }
  }

  /** Labels, networks and ports. */
  method Stamp(stack: string, s: ServiceSpec) returns (r: ServiceSpec)
    ensures r == s.(labels := NormalLabels(stack, s.labels), networks := NormalNetworks(stack, s.networks),
                    ports := NormalPorts(s.ports))
  {
    r := s;
    var labels := SelectPrefixed(Entries(r.labels));
    labels := labels[MANAGED_LABEL := "true"];
    labels := labels[STACK_LABEL := stack];
    r := r.(labels := Some(labels));
    if |Elems(r.networks)| == 0 {
      r := r.(networks := Some([DefaultNetwork(stack)]));
    } else {
      r := r.(networks := Some(SortUnique(r.networks.value)));
    }
    if |Elems(r.ports)| == 0 {
      r := r.(ports := None);
    } else {
      var ports := CanonicalPorts(r.ports.value);
      r := r.(ports := Some(ports));
    }
  }

  method Normalize(stack: string, s: ServiceSpec) returns (r: ServiceSpec)
    ensures r == NormalForm(stack, s) && Canonical(stack, s, r)
  {
    r := DropEmpties(s);
    r := Stamp(stack, r);
    var configs := NormalizeFileRefs(r.configs);
    var secrets := NormalizeFileRefs(r.secrets);
    r := r.(capAdd := NormalSet(r.capAdd), ulimits := NormalSorted(r.ulimits, UlimitLe),
            volumes := NormalSorted(r.volumes, VolumeLe), configs := configs, secrets := secrets,
            placement := NormalPlacement(r.placement));
    if r.mode == "" { r := r.(mode := "replicated"); }
    if r.restartPolicy.Some? && r.restartPolicy.value.condition == "" {
      r := r.(restartPolicy := Some(r.restartPolicy.value.(condition := "any")));
    }
    FormIsCanonical(stack, s);
  }

  // ---- Idempotence ----

  lemma SortStable<T(!new)>(s: seq<T>, le: (T, T) -> bool)
    requires Preorder(le)
    ensures |Sort(s, le)| == |s|
    ensures Sort(Sort(s, le), le) == Sort(s, le)
  {
    SortOrders(s, le);
    SortOfSorted(Sort(s, le), le);
    assert |multiset(s)| == |multiset(Sort(s, le))|;
  }

  lemma SortUniqueStable(s: seq<string>)
    ensures s != [] ==> SortUnique(s) != []
    ensures SortUnique(SortUnique(s)) == SortUnique(s)
  {
    SortUniqueMeaning(s);
    if s != [] { assert s[0] in SortUnique(s); }
    SortUniqueDetermined(SortUnique(s), SortUnique(s));
  }

  lemma DefaultPortStable(p: PortSpec)
    ensures DefaultPort(DefaultPort(p)) == DefaultPort(p)
  {
    ToLowerIdempotent(p.protocol);
    calc {
      ToLower("tcp");
      [LowerChar('t')] + ToLower("cp");
      [LowerChar('t'), LowerChar('c')] + ToLower("p");
      "tcp";
    }
  }

  lemma MapStable(s: seq<PortSpec>, r: seq<PortSpec>)
    requires multiset(r) == multiset(Map(s, DefaultPort))
    ensures Map(r, DefaultPort) == r
  {
    forall i | 0 <= i < |r| ensures DefaultPort(r[i]) == r[i] {
      assert r[i] in multiset(Map(s, DefaultPort));
      var j :| 0 <= j < |s| && DefaultPort(s[j]) == r[i];
      DefaultPortStable(s[j]);
    }
  }

  lemma NormalPortsStable(ports: Slice<PortSpec>)
    ensures NormalPorts(NormalPorts(ports)) == NormalPorts(ports)
  {
    if Elems(ports) != [] {
      ComparatorsArePreorders();
      var once := Map(ports.value, DefaultPort);
      SortStable(once, PortLe);
      SortOrders(once, PortLe);
      MapStable(ports.value, Sort(once, PortLe));
    }
  }

  lemma LabelNamesPrefixed()
    ensures HasPrefix(MANAGED_LABEL, LABEL_PREFIX) && HasPrefix(STACK_LABEL, LABEL_PREFIX)
    ensures MANAGED_LABEL != STACK_LABEL && !HasPrefix(NAMESPACE_LABEL, LABEL_PREFIX)
  {
    assert MANAGED_LABEL == LABEL_PREFIX + "managed";
    assert STACK_LABEL == LABEL_PREFIX + "stack";
    assert MANAGED_LABEL[10] != STACK_LABEL[10];
    assert NAMESPACE_LABEL[0] != LABEL_PREFIX[0];
  }

  lemma NormalSortedStable<T(!new)>(s: Slice<T>, le: (T, T) -> bool)
    requires Preorder(le)
    ensures NormalSorted(NormalSorted(s, le), le) == NormalSorted(s, le)
  {
    SortStable(Elems(s), le);
  }

  lemma NormalSetStable(stack: string, s: Slice<string>)
    ensures NormalSet(NormalSet(s)) == NormalSet(s)
    ensures NormalNetworks(stack, NormalNetworks(stack, s)) == NormalNetworks(stack, s)
  {
    SortUniqueStable(Elems(s));
    SortUniqueDetermined([DefaultNetwork(stack)], [DefaultNetwork(stack)]);
  }

  lemma NormalLabelsStable(stack: string, labels: Dict)
    ensures NormalLabels(stack, NormalLabels(stack, labels)) == NormalLabels(stack, labels)
    ensures STACK_LABEL in Entries(NormalLabels(stack, labels))
    ensures Entries(NormalLabels(stack, labels))[STACK_LABEL] == stack
  {
    LabelNamesPrefixed();
    var r := Entries(NormalLabels(stack, labels));
    assert PrefixedLabels(r) == r;
    assert r[MANAGED_LABEL := "true"][STACK_LABEL := stack] == r;
  }

  lemma NormalFormIdempotent(stack: string, s: ServiceSpec)
    ensures NormalForm(stack, NormalForm(stack, s)) == NormalForm(stack, s)
    ensures InNormalForm(NormalForm(stack, s))
  {
    ComparatorsArePreorders();
    NormalPortsStable(s.ports);
    NormalSortedStable(s.ulimits, UlimitLe);
    NormalSortedStable(s.volumes, VolumeLe);
    NormalSortedStable(s.configs, FileRefLe);
    NormalSortedStable(s.secrets, FileRefLe);
    NormalSetStable(stack, s.networks);
    NormalSetStable(stack, s.capAdd);
    if s.placement.Some? { NormalSetStable(stack, s.placement.value.constraints); }
    NormalLabelsStable(stack, s.labels);
  }

  /** Not both non-nil and empty. */
  predicate Tight<T>(s: Slice<T>) {
    s.Some? ==> s.value != []
  }

  predicate TightDict(d: Dict) {
    d.Some? ==> d.value != map[]
  }

  /** No collection of s is empty without being nil; labels and networks are never nil. */
  predicate NoEmpties(s: ServiceSpec) {
    && TightDict(s.env) && TightDict(s.deployLabels) && s.labels.Some? && s.networks.Some?
    && Tight(s.ports) && Tight(s.command) && Tight(s.entrypoint) && Tight(s.capAdd)
    && Tight(s.ulimits) && Tight(s.volumes) && Tight(s.configs) && Tight(s.secrets)
  }

  lemma NormalFormTight(stack: string, s: ServiceSpec)
    ensures NormalForm(stack, s) == s ==> NoEmpties(s)
  {
  }

  /** File references come out ordered by target, none lost or gained; nil only when there are none. */
  lemma FileRefsSorted(refs: Slice<FileRef>)
    ensures var r := NormalSorted(refs, FileRefLe);
      && (r.None? <==> Elems(refs) == []) && multiset(Elems(r)) == multiset(Elems(refs))
      && forall i, j :: 0 <= i < j < |Elems(r)| ==> Le(Elems(r)[i].target, Elems(r)[j].target)
  {
    ComparatorsArePreorders();
    SortOrders(Elems(refs), FileRefLe);
    var r := NormalSorted(refs, FileRefLe);
    if Elems(refs) != [] {
      assert Sorted(Elems(r), FileRefLe);
      forall i, j | 0 <= i < j < |Elems(r)| ensures Le(Elems(r)[i].target, Elems(r)[j].target) {
        assert FileRefLe(Elems(r)[i], Elems(r)[j]);
      }
    }
  }

  // ---- Order-insensitivity ----

  /** Same elements with the same multiplicities; nil only against empty. */
  ghost predicate Reordered<T>(a: Slice<T>, b: Slice<T>) {
    multiset(Elems(a)) == multiset(Elems(b))
  }

  ghost predicate SameElements<T(!new)>(a: Slice<T>, b: Slice<T>) {
    forall x :: x in Elems(a) <==> x in Elems(b)
  }

  /** s' differs from s only in the order of its lists (and in repeats, where repeats are dropped). */
  ghost predicate Permuted(s: ServiceSpec, s': ServiceSpec) {
    && SameElements(s.networks, s'.networks)
    && Reordered(s.ports, s'.ports)
    && SameElements(s.capAdd, s'.capAdd)
    && Reordered(s.ulimits, s'.ulimits)
    && Reordered(s.volumes, s'.volumes)
    && Reordered(s.configs, s'.configs)
    && Reordered(s.secrets, s'.secrets)
    && s.placement.Some? == s'.placement.Some?
    && (s.placement.Some? ==> SameElements(s.placement.value.constraints, s'.placement.value.constraints))
    && s' == s.(networks := s'.networks, ports := s'.ports, capAdd := s'.capAdd, ulimits := s'.ulimits,
                volumes := s'.volumes, configs := s'.configs, secrets := s'.secrets, placement := s'.placement)
  }

  /** No two different entries share a sort key: what an unstable sort needs to be deterministic. */
  ghost predicate SortKeysDistinct(s: ServiceSpec) {
    && TieFree(Map(Elems(s.ports), DefaultPort), PortLe)
    && TieFree(Elems(s.ulimits), UlimitLe)
    && TieFree(Elems(s.volumes), VolumeLe)
    && TieFree(Elems(s.configs), FileRefLe)
    && TieFree(Elems(s.secrets), FileRefLe)
  }

  lemma SameElementsSameSet(a: Slice<string>, b: Slice<string>)
    requires SameElements(a, b)
    ensures NormalSet(a) == NormalSet(b)
    ensures Elems(a) == [] <==> Elems(b) == []
  {
    if Elems(a) != [] { assert Elems(a)[0] in Elems(b); }
    if Elems(b) != [] { assert Elems(b)[0] in Elems(a); }
    SortUniqueMeaning(Elems(b));
    SortUniqueDetermined(Elems(a), SortUnique(Elems(b)));
  }

  lemma ReorderedSameSort<T(!new)>(a: Slice<T>, b: Slice<T>, le: (T, T) -> bool)
    requires Reordered(a, b) && Preorder(le) && TieFree(Elems(a), le)
    ensures NormalSorted(a, le) == NormalSorted(b, le)
  {
    SortIsOrderInsensitive(Elems(a), Elems(b), le);
    assert |multiset(Elems(a))| == |Elems(a)| && |multiset(Elems(b))| == |Elems(b)|;
  }

  lemma ReorderedSamePorts(a: Slice<PortSpec>, b: Slice<PortSpec>)
    requires Reordered(a, b) && TieFree(Map(Elems(a), DefaultPort), PortLe)
    ensures NormalPorts(a) == NormalPorts(b)
  {
    ComparatorsArePreorders();
    MapMultiset(Elems(a), Elems(b), DefaultPort);
    SortIsOrderInsensitive(Map(Elems(a), DefaultPort), Map(Elems(b), DefaultPort), PortLe);
    assert |multiset(Elems(a))| == |multiset(Elems(b))|;
  }

  /** Reordering the lists of a spec changes nothing once no two different entries share a sort key. */
  lemma OrderInsensitive(stack: string, s: ServiceSpec, s': ServiceSpec)
    requires Permuted(s, s') && SortKeysDistinct(s)
    ensures NormalForm(stack, s) == NormalForm(stack, s')
  {
    ComparatorsArePreorders();
    SameElementsSameSet(s.networks, s'.networks);
    SameElementsSameSet(s.capAdd, s'.capAdd);
    if s.placement.Some? { SameElementsSameSet(s.placement.value.constraints, s'.placement.value.constraints); }
    ReorderedSameSort(s.ulimits, s'.ulimits, UlimitLe);
    ReorderedSameSort(s.volumes, s'.volumes, VolumeLe);
    ReorderedSameSort(s.configs, s'.configs, FileRefLe);
    ReorderedSameSort(s.secrets, s'.secrets, FileRefLe);
    ReorderedSamePorts(s.ports, s'.ports);
    assert NormalNetworks(stack, s.networks) == NormalNetworks(stack, s'.networks);
  }

  /** Network, capability and constraint lists come out strictly increasing, with the elements that went in. */
  lemma NormalSetsIncreasing(stack: string, s: ServiceSpec)
    ensures var r := NormalForm(stack, s);
      && Increasing(Elems(r.networks)) && Elems(r.networks) != []
      && (Elems(s.networks) != [] ==> SameElements(s.networks, r.networks))
      && Increasing(Elems(r.capAdd)) && SameElements(s.capAdd, r.capAdd)
      && (s.placement.Some? ==>
            && Increasing(Elems(r.placement.value.constraints))
            && SameElements(s.placement.value.constraints, r.placement.value.constraints))
  {
    SortUniqueMeaning(Elems(s.networks));
    if Elems(s.networks) != [] { assert Elems(s.networks)[0] in SortUnique(Elems(s.networks)); }
    SortUniqueMeaning(Elems(s.capAdd));
    if s.placement.Some? { SortUniqueMeaning(Elems(s.placement.value.constraints)); }
  }

  // ---- Any sort at all ----

  /** r is an outcome of Normalize whatever ordered permutations slices.SortFunc picks. */
  ghost predicate NormalizesTo(stack: string, s: ServiceSpec, r: ServiceSpec) {
    && r == NormalForm(stack, s).(ports := r.ports, ulimits := r.ulimits, volumes := r.volumes,
                                  configs := r.configs, secrets := r.secrets)
    && SomeSort(Map(Elems(s.ports), DefaultPort), r.ports, PortLe)
    && SomeSort(Elems(s.ulimits), r.ulimits, UlimitLe)
    && SomeSort(Elems(s.volumes), r.volumes, VolumeLe)
    && SomeSort(Elems(s.configs), r.configs, FileRefLe)
    && SomeSort(Elems(s.secrets), r.secrets, FileRefLe)
  }

  ghost predicate SomeSort<T>(s: seq<T>, r: Slice<T>, le: (T, T) -> bool) {
    if s == [] then r == None else r.Some? && OrderedPermutation(s, r.value, le)
  }

  lemma SomeSortIsSort<T(!new)>(s: Slice<T>, r: Slice<T>, le: (T, T) -> bool)
    requires Preorder(le)
    ensures SomeSort(Elems(s), NormalSorted(s, le), le)
    ensures TieFree(Elems(s), le) && SomeSort(Elems(s), r, le) ==> r == NormalSorted(s, le)
  {
    SortOrders(Elems(s), le);
    if TieFree(Elems(s), le) && SomeSort(Elems(s), r, le) && Elems(s) != [] {
      forall x | x in r.value ensures x in Elems(s) {
        assert x in multiset(r.value);
      }
      OrderedPermutationUnique(r.value, Sort(Elems(s), le), le);
    }
  }

  /** With distinct sort keys an unstable sort leaves one possible outcome. */
  lemma AnySortGivesNormalForm(stack: string, s: ServiceSpec, r: ServiceSpec)
    requires SortKeysDistinct(s)
    ensures NormalizesTo(stack, s, r) <==> r == NormalForm(stack, s)
  {
    ComparatorsArePreorders();
    SomeSortIsSort(Some(Map(Elems(s.ports), DefaultPort)), r.ports, PortLe);
    SomeSortIsSort(s.ulimits, r.ulimits, UlimitLe);
    SomeSortIsSort(s.volumes, r.volumes, VolumeLe);
    SomeSortIsSort(s.configs, r.configs, FileRefLe);
    SomeSortIsSort(s.secrets, r.secrets, FileRefLe);
  }

  // ---- The rules spelled out ----

  /** b is a in lower case: the letters A to Z become a to z, and nothing else changes. */
  ghost predicate Lowered(a: string, b: string) {
    |a| == |b| && forall i :: 0 <= i < |a| ==>
      if 'A' <= a[i] <= 'Z' then b[i] as int - 'a' as int == a[i] as int - 'A' as int else b[i] == a[i]
  }

  /** The protocol is tcp unless stated, and the publish mode ingress. */
  ghost predicate PortRule(p: PortSpec, q: PortSpec) {
    && q.target == p.target && q.published == p.published
    && (if p.protocol == "" then q.protocol == "tcp" else Lowered(p.protocol, q.protocol))
    && (if p.mode == "" then q.mode == "ingress" else q.mode == p.mode)
  }

  ghost predicate EachPort(ports: seq<PortSpec>, each: seq<PortSpec>) {
    |each| == |ports| && forall i :: 0 <= i < |ports| ==> PortRule(ports[i], each[i])
  }

  ghost predicate PortsOrdered(a: PortSpec, b: PortSpec) {
    || a.target < b.target
    || (a.target == b.target && a.published < b.published)
    || (a.target == b.target && a.published == b.published && Le(a.protocol, b.protocol))
  }

  ghost predicate PortsRule(ports: Slice<PortSpec>, r: Slice<PortSpec>) {
    && (r.None? <==> Elems(ports) == [])
    && (exists each :: EachPort(Elems(ports), each) && multiset(Elems(r)) == multiset(each))
    && forall i, j :: 0 <= i < j < |Elems(r)| ==> PortsOrdered(Elems(r)[i], Elems(r)[j])
  }

  /** Sorted without repeats. */
  ghost predicate SetRule(s: Slice<string>, r: Slice<string>) {
    (r.None? <==> Elems(s) == []) && Increasing(Elems(r)) && SameElements(s, r)
  }

  /** Sorted by a key. */
  ghost predicate ListRule<T(!new)>(s: Slice<T>, r: Slice<T>, key: T -> string) {
    && (r.None? <==> Elems(s) == []) && multiset(Elems(r)) == multiset(Elems(s))
    && forall i, j :: 0 <= i < j < |Elems(r)| ==> Le(key(Elems(r)[i]), key(Elems(r)[j]))
  }

  /** Kept as it is, but nil when empty. */
  ghost predicate KeptRule<T>(s: Slice<T>, r: Slice<T>) {
    Elems(r) == Elems(s) && Tight(r)
  }

  ghost predicate KeptDictRule(d: Dict, r: Dict) {
    Entries(r) == Entries(d) && TightDict(r)
  }

  /** The prefixed labels, with the two that are always stamped on. */
  ghost predicate LabelsRule(stack: string, labels: Dict, r: Dict) {
    && r.Some?
    && (forall k :: k in r.value <==>
          k == "swarmgate.managed" || k == "swarmgate.stack" || (k in Entries(labels) && HasPrefix(k, "swarmgate.")))
    && r.value["swarmgate.managed"] == "true" && r.value["swarmgate.stack"] == stack
    && forall k :: k in r.value && k != "swarmgate.managed" && k != "swarmgate.stack" ==> r.value[k] == Entries(labels)[k]
  }

  /** A service without networks gets the stack's default one. */
  ghost predicate NetworksRule(stack: string, networks: Slice<string>, r: Slice<string>) {
    if Elems(networks) == [] then r == Some([stack + "_default"]) else SetRule(networks, r)
  }

  /** A policy without a condition restarts on any exit. */
  ghost predicate RestartRule(rp: Option<RestartPolicySpec>, r: Option<RestartPolicySpec>) {
    && (r.Some? <==> rp.Some?)
    && (rp.Some? ==>
          && r.value.condition == (if rp.value.condition == "" then "any" else rp.value.condition)
          && r.value.delay == rp.value.delay && r.value.maxAttempts == rp.value.maxAttempts
          && r.value.window == rp.value.window)
  }

  ghost predicate HealthcheckRule(hc: Option<HealthcheckSpec>, r: Option<HealthcheckSpec>) {
    if hc.Some? && Elems(hc.value.test) == [] then r.None? else r == hc
  }

  ghost predicate PlacementRule(p: Option<PlacementSpec>, r: Option<PlacementSpec>) {
    (r.Some? <==> p.Some?) && (p.Some? ==> SetRule(p.value.constraints, r.value.constraints))
  }

  ghost predicate ScalarsKept(s: ServiceSpec, r: ServiceSpec) {
    && r.name == s.name && r.image == s.image && r.replicas == s.replicas && r.hostname == s.hostname
    && r.user == s.user && r.stopGracePeriod == s.stopGracePeriod && r.resources == s.resources
    && r.updateConfig == s.updateConfig
  }

  ghost predicate DefaultsRule(stack: string, s: ServiceSpec, r: ServiceSpec) {
    && ScalarsKept(s, r)
    && r.mode == (if s.mode == "" then "replicated" else s.mode)
    && LabelsRule(stack, s.labels, r.labels) && NetworksRule(stack, s.networks, r.networks)
    && RestartRule(s.restartPolicy, r.restartPolicy) && HealthcheckRule(s.healthcheck, r.healthcheck)
    && PlacementRule(s.placement, r.placement)
  }

  ghost predicate CollectionsRule(s: ServiceSpec, r: ServiceSpec) {
    && KeptDictRule(s.env, r.env) && KeptDictRule(s.deployLabels, r.deployLabels)
    && KeptRule(s.command, r.command) && KeptRule(s.entrypoint, r.entrypoint) && SetRule(s.capAdd, r.capAdd)
  }

  ghost predicate SortedRule(s: ServiceSpec, r: ServiceSpec) {
    && PortsRule(s.ports, r.ports)
    && ListRule(s.ulimits, r.ulimits, (u: UlimitSpec) => u.name)
    && ListRule(s.volumes, r.volumes, (v: VolumeMount) => v.target)
    && ListRule(s.configs, r.configs, (c: FileRef) => c.target)
    && ListRule(s.secrets, r.secrets, (c: FileRef) => c.target)
  }

  /** r obeys every rule of the normal form of s. */
  ghost predicate Canonical(stack: string, s: ServiceSpec, r: ServiceSpec) {
    DefaultsRule(stack, s, r) && CollectionsRule(s, r) && SortedRule(s, r)
  }

  lemma {:induction false} ToLowerMeaning(a: string)
    ensures Lowered(a, ToLower(a))
  {
    if a != [] {
      ToLowerMeaning(a[1..]);
      forall i | 0 < i < |a| ensures ToLower(a)[i] == ToLower(a[1..])[i - 1] {
      }
    }
  }

  lemma PortRuleMeaning(p: PortSpec, q: PortSpec)
    ensures PortRule(p, q) <==> q == DefaultPort(p)
  {
    ToLowerMeaning(p.protocol);
    if PortRule(p, q) && p.protocol != "" {
      assert forall i :: 0 <= i < |p.protocol| ==> q.protocol[i] == ToLower(p.protocol)[i];
      assert q.protocol == ToLower(p.protocol);
    }
  }

  lemma EachPortMeaning(ports: seq<PortSpec>, each: seq<PortSpec>)
    ensures EachPort(ports, each) <==> each == Map(ports, DefaultPort)
  {
    forall i | 0 <= i < |ports| && |each| == |ports| ensures PortRule(ports[i], each[i]) <==> each[i] == DefaultPort(ports[i]) {
      PortRuleMeaning(ports[i], each[i]);
    }
  }

  lemma PortsRuleMeaning(ports: Slice<PortSpec>, r: Slice<PortSpec>)
    ensures PortsRule(ports, r) <==> SomeSort(Map(Elems(ports), DefaultPort), r, PortLe)
  {
    var each := Map(Elems(ports), DefaultPort);
    EachPortMeaning(Elems(ports), each);
    forall a: PortSpec, b: PortSpec ensures PortsOrdered(a, b) <==> PortLe(a, b) {
    }
    if PortsRule(ports, r) {
      var some :| EachPort(Elems(ports), some) && multiset(Elems(r)) == multiset(some);
      EachPortMeaning(Elems(ports), some);
    }
  }

  lemma ListRuleMeaning<T(!new)>(s: Slice<T>, r: Slice<T>, key: T -> string, le: (T, T) -> bool)
    requires forall a, b :: le(a, b) <==> Le(key(a), key(b))
    ensures ListRule(s, r, key) <==> SomeSort(Elems(s), r, le)
  {
  }

  lemma SetRuleMeaning(s: Slice<string>, r: Slice<string>)
    ensures SetRule(s, r) <==> r == NormalSet(s)
  {
    SortUniqueMeaning(Elems(s));
    if SetRule(s, r) && Elems(s) != [] { SortUniqueDetermined(Elems(s), r.value); }
  }

  lemma LabelsRuleMeaning(stack: string, labels: Dict, r: Dict)
    ensures LabelsRule(stack, labels, r) <==> r == NormalLabels(stack, labels)
  {
    LabelNamesPrefixed();
    var n := NormalLabels(stack, labels);
    if LabelsRule(stack, labels, r) { assert r.value == n.value; }
  }

  lemma DefaultsRuleMeaning(stack: string, s: ServiceSpec, r: ServiceSpec)
    ensures DefaultsRule(stack, s, r)
       <==> r == NormalForm(stack, s).(env := r.env, deployLabels := r.deployLabels, command := r.command,
                                       entrypoint := r.entrypoint, capAdd := r.capAdd, ports := r.ports,
                                       ulimits := r.ulimits, volumes := r.volumes, configs := r.configs,
                                       secrets := r.secrets)
  {
    LabelsRuleMeaning(stack, s.labels, r.labels);
    SetRuleMeaning(s.networks, r.networks);
    if s.placement.Some? && r.placement.Some? { SetRuleMeaning(s.placement.value.constraints, r.placement.value.constraints); }
  }

  lemma CollectionsRuleMeaning(s: ServiceSpec, r: ServiceSpec)
    ensures CollectionsRule(s, r)
       <==> && r.env == NilIfEmptyDict(s.env) && r.deployLabels == NilIfEmptyDict(s.deployLabels)
            && r.command == NilIfEmpty(s.command) && r.entrypoint == NilIfEmpty(s.entrypoint)
            && r.capAdd == NormalSet(s.capAdd)
  {
    SetRuleMeaning(s.capAdd, r.capAdd);
  }

  /** The rules admit exactly what Normalize may return, whatever ordered permutations its sorts pick. */
  lemma CanonicalExactly(stack: string, s: ServiceSpec, r: ServiceSpec)
    ensures Canonical(stack, s, r) <==> NormalizesTo(stack, s, r)
  {
    DefaultsRuleMeaning(stack, s, r);
    CollectionsRuleMeaning(s, r);
    PortsRuleMeaning(s.ports, r.ports);
    ListRuleMeaning(s.ulimits, r.ulimits, (u: UlimitSpec) => u.name, UlimitLe);
    ListRuleMeaning(s.volumes, r.volumes, (v: VolumeMount) => v.target, VolumeLe);
    ListRuleMeaning(s.configs, r.configs, (c: FileRef) => c.target, FileRefLe);
    ListRuleMeaning(s.secrets, r.secrets, (c: FileRef) => c.target, FileRefLe);
  }

  lemma FormIsCanonical(stack: string, s: ServiceSpec)
    ensures Canonical(stack, s, NormalForm(stack, s))
  {
    ComparatorsArePreorders();
    SomeSortIsSort(Some(Map(Elems(s.ports), DefaultPort)), NormalPorts(s.ports), PortLe);
    SomeSortIsSort(s.ulimits, NormalSorted(s.ulimits, UlimitLe), UlimitLe);
    SomeSortIsSort(s.volumes, NormalSorted(s.volumes, VolumeLe), VolumeLe);
    SomeSortIsSort(s.configs, NormalSorted(s.configs, FileRefLe), FileRefLe);
    SomeSortIsSort(s.secrets, NormalSorted(s.secrets, FileRefLe), FileRefLe);
    CanonicalExactly(stack, s, NormalForm(stack, s));
  }
}
