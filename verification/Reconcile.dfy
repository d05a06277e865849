/** What a cycle does to the divergence between desired and observed services, whoever fails. */
module Reconcile {
  import opened Apply
  import opened Basics
  import opened Diff
  import opened Mutation
  import opened Settle
  import opened Plan
  import opened Spec
  import opened Store
  import opened Trace

  /** The observed services around change i: stepped by the applier's contract, or left alone when skipped. */
  ghost predicate StepBetween(changes: seq<Change>, oks: seq<bool>, i: nat, before: Services, after: Services)
    requires i < |changes|
  {
    if SubmittedAt(changes, oks, i) then ExactStep(changes[i], OkAt(oks, i), before, after) else after == before
  }

  ghost predicate StepAt(changes: seq<Change>, oks: seq<bool>, states: seq<Services>, i: nat)
    requires i < |changes| && |states| == |changes| + 1
  {
    StepBetween(changes, oks, i, states[i], states[i + 1])
  }

  /** A run of the apply loop over the observed services. */
  ghost predicate StepRun(changes: seq<Change>, oks: seq<bool>, states: seq<Services>) {
    |states| == |changes| + 1 && forall i {:trigger StepAt(changes, oks, states, i)} ::
      0 <= i < |changes| ==> StepAt(changes, oks, states, i)
  }

  lemma {:induction false} UntouchedBetween(changes: seq<Change>, oks: seq<bool>, states: seq<Services>,
                                            i: nat, j: nat, n: string)
    requires StepRun(changes, oks, states) && i <= j <= |changes|
    requires forall k :: i <= k < j ==> changes[k].spec.name != n
    ensures SameAt(n, states[i], states[j])
    decreases j
  {
    if i < j {
      UntouchedBetween(changes, oks, states, i, j - 1, n);
      assert StepAt(changes, oks, states, j - 1) && changes[j - 1].spec.name != n;
      assert SameAt(n, states[j - 1], states[j - 1 + 1]);
    }
  }

  lemma NeverTouched(changes: seq<Change>, oks: seq<bool>, states: seq<Services>, n: string)
    requires StepRun(changes, oks, states) && n !in NamesOf(changes)
    ensures SameAt(n, states[0], states[|changes|])
  {
    forall k | 0 <= k < |changes| ensures changes[k].spec.name != n {
      assert changes[k] in changes;
    }
    UntouchedBetween(changes, oks, states, 0, |changes|, n);
  }

  /** The store around change i. */
  ghost predicate TouchBetween(changes: seq<Change>, oks: seq<bool>, i: nat, before: Stored, after: Stored)
    requires i < |changes|
  {
    if SubmittedAt(changes, oks, i) then Touches(changes[i], OkAt(oks, i), before, after) else after == before
  }

  ghost predicate TouchAt(changes: seq<Change>, oks: seq<bool>, stores: seq<Stored>, i: nat)
    requires i < |changes| && |stores| == |changes| + 1
  {
    TouchBetween(changes, oks, i, stores[i], stores[i + 1])
  }

  /** The same run over the store behind the observed services. */
  ghost predicate StoreRun(changes: seq<Change>, oks: seq<bool>, stores: seq<Stored>) {
    |stores| == |changes| + 1 && forall i {:trigger TouchAt(changes, oks, stores, i)} ::
      0 <= i < |changes| ==> TouchAt(changes, oks, stores, i)
  }

  /** A run with all it went through: the applier's answers, and what was observed and stored around each change. */
  datatype Course = Course(oks: seq<bool>, states: seq<Services>, stores: seq<Stored>)

  ghost predicate Runs(changes: seq<Change>, r: Course) {
    StepRun(changes, r.oks, r.states) && StoreRun(changes, r.oks, r.stores)
  }

  function LastStore(stores: seq<Stored>): Stored
    requires stores != []
  {
    stores[|stores| - 1]
  }

  ghost predicate UpdatesOnlyManaged(changes: seq<Change>, store: Stored) {
    forall c :: c in changes ==> !UpdatesUnmanaged(c, store)
  }

  /** As long as no update names a service without the managed label, all such services stay as they are. */
  lemma {:induction false} RunKeepsUnmanaged(changes: seq<Change>, oks: seq<bool>, stores: seq<Stored>, k: nat)
    requires StoreRun(changes, oks, stores) && UpdatesOnlyManaged(changes, stores[0]) && k <= |changes|
    ensures KeepsUnmanaged(stores[0], stores[k])
  {
    if k > 0 {
      RunKeepsUnmanaged(changes, oks, stores, k - 1);
      assert TouchAt(changes, oks, stores, k - 1);
      assert changes[k - 1] in changes;
      forall n | n in stores[0] && !Managed(stores[0][n]) ensures SameEntry(n, stores[0], stores[k]) {
        assert SameEntry(n, stores[0], stores[k - 1]);
        if n != changes[k - 1].spec.name { assert SameEntry(n, stores[k - 1], stores[k]); }
      }
    }
  }

  /** The only changes of n are updates that the applier refuses on the store as it was. */
  ghost predicate RefusedUpdates(changes: seq<Change>, store: Stored, n: string) {
    && n in store
    && forall c :: c in changes && c.spec.name == n ==> c.action == UpdateAction && !AttachmentsUnchanged(store[n], c.spec)
  }

  /** Then none of them ever succeeds, and the service stays as it was. */
  lemma {:induction false} RefusedUpdatesKeep(changes: seq<Change>, r: Course, k: nat, n: string)
    requires Runs(changes, r) && RefusedUpdates(changes, r.stores[0], n) && k <= |changes|
    ensures SameEntry(n, r.stores[0], r.stores[k]) && SameAt(n, r.states[0], r.states[k])
  {
    if k > 0 {
      RefusedUpdatesKeep(changes, r, k - 1, n);
      assert changes[k - 1] in changes;
      assert TouchAt(changes, r.oks, r.stores, k - 1) && StepAt(changes, r.oks, r.states, k - 1);
      if changes[k - 1].spec.name != n {
        assert SameEntry(n, r.stores[k - 1], r.stores[k - 1 + 1]);
        assert SameAt(n, r.states[k - 1], r.states[k - 1 + 1]);
      }
    }
  }

  // ---- From the diff to the gated changes ----

  ghost function PlanFor(desired: Services, observed: Services, prune: bool, configs: map<string, seq<bv8>>): seq<Change> {
    DataAttached(Planned(Computed(desired, observed), prune), configs)
  }

  lemma DataKeepsShape(changes: seq<Change>, configs: map<string, seq<bv8>>)
    requires WellPlanned(changes)
    ensures WellPlanned(DataAttached(changes, configs))
  {
    var c := DataAttached(changes, configs);
    forall i, j | Twins(c, i, j) ensures j == i + 1 && PairAt(c, i) {
      assert Twins(changes, i, j);
    }
    forall i | RecreateAt(c, i) ensures PairAt(c, PairStart(c, i)) {
      assert RecreateAt(changes, i);
    }
  }

  /** A creation or update carries the desired spec, a removal the live one; a plain removal names something not desired. */
  ghost predicate Purposeful(c: Change, desired: Services, observed: Services) {
    && Diverges(c.spec.name, desired, observed)
    && (c.action != RemoveAction ==> c.spec.name in desired && c.spec == desired[c.spec.name])
    && (c.action == RemoveAction ==> (c.recreate <==> c.spec.name in desired))
    && (c.recreate || c.action == UpdateAction ==> c.spec.name in observed)
    && (c.action == RemoveAction ==> c.spec.name in observed && c.spec == observed[c.spec.name])
  }

  lemma {:induction false} PairsPurposeful(updates: seq<Update>, desired: Services, observed: Services, c: Change)
    requires KeyedByName(desired) && KeyedByName(observed) && c in RecreatePairs(updates)
    requires forall u :: u in updates ==> UpdateDescribes(u, desired, observed) && !Matches(u.wanted, u.live)
    ensures Purposeful(c, desired, observed)
  {
    var u := updates[|updates| - 1];
    assert u in updates;
    if c !in RecreatePairs(updates[..|updates| - 1]) {
      assert AttachmentOnly(u) && c in Pair(u);
    } else {
      PairsPurposeful(updates[..|updates| - 1], desired, observed, c);
    }
  }

  lemma {:induction false} InPlacePurposeful(updates: seq<Update>, recreated: set<string>, desired: Services,
                                             observed: Services, c: Change)
    requires KeyedByName(desired) && KeyedByName(observed) && c in InPlace(updates, recreated)
    requires forall u :: u in updates ==> UpdateDescribes(u, desired, observed) && !Matches(u.wanted, u.live)
    ensures Purposeful(c, desired, observed)
  {
    var u := updates[|updates| - 1];
    assert u in updates;
    if c !in InPlace(updates[..|updates| - 1], recreated) {
      assert c == Plain(UpdateAction, u.wanted);
    } else {
      InPlacePurposeful(updates[..|updates| - 1], recreated, desired, observed, c);
    }
  }

  lemma UpdatesDiverge(d: Changes, desired: Services, observed: Services)
    requires Classifies(d, desired, observed)
    ensures forall u :: u in d.updates ==> UpdateDescribes(u, desired, observed) && !Matches(u.wanted, u.live)
  {
    forall u | u in d.updates ensures !Matches(u.wanted, u.live) {
      var i :| 0 <= i < |d.updates| && d.updates[i] == u;
      assert Map(d.updates, UpdateName)[i] == u.name;
      assert u.name in Map(d.updates, UpdateName);
      assert UpdateDescribes(u, desired, observed);
    }
  }

  lemma SinglesPurposeful(d: Changes, desired: Services, observed: Services, c: Change)
    requires Classifies(d, desired, observed) && KeyedByName(desired) && KeyedByName(observed)
    requires c in Map(d.creates, CreateOf) || c in Map(d.removes, RemoveOf)
    ensures Purposeful(c, desired, observed)
  {
    if c in Map(d.creates, CreateOf) {
      var i :| 0 <= i < |d.creates| && Map(d.creates, CreateOf)[i] == c;
      assert d.creates[i] in d.creates && Map(d.creates, SpecName)[i] in Map(d.creates, SpecName);
    } else {
      var i :| 0 <= i < |d.removes| && Map(d.removes, RemoveOf)[i] == c;
      assert d.removes[i] in d.removes && Map(d.removes, SpecName)[i] in Map(d.removes, SpecName);
    }
  }

  lemma PlannedPurposeful(d: Changes, prune: bool, desired: Services, observed: Services, c: Change)
    requires Classifies(d, desired, observed) && KeyedByName(desired) && KeyedByName(observed)
    requires c in Planned(d, prune)
    ensures Purposeful(c, desired, observed)
  {
    UpdatesDiverge(d, desired, observed);
    if c in RecreatePairs(d.updates) {
      PairsPurposeful(d.updates, desired, observed, c);
    } else if c in InPlace(d.updates, Recreated(d.updates)) {
      InPlacePurposeful(d.updates, Recreated(d.updates), desired, observed, c);
    } else {
      SinglesPurposeful(d, desired, observed, c);
    }
  }

  /** Every gated change serves a diverging name, and the gated list is still a well-shaped plan. */
  lemma GatedPlan(desired: Services, observed: Services, prune: bool, configs: map<string, seq<bv8>>,
                  verdicts: seq<Verdict>)
    requires KeyedByName(desired) && KeyedByName(observed)
    ensures var gated := Gated(PlanFor(desired, observed, prune, configs), verdicts);
      WellPlanned(gated) && forall c :: c in gated ==> Purposeful(c, desired, observed)
  {
    ComputeClassifies(desired, observed);
    var d := Computed(desired, observed);
    PlanShape(d, prune, desired, observed);
    var planned := Planned(d, prune);
    DataKeepsShape(planned, configs);
    var plan := PlanFor(desired, observed, prune, configs);
    GatedWellPlanned(plan, verdicts);
    forall c | c in plan ensures Purposeful(c, desired, observed) {
      var i :| 0 <= i < |plan| && plan[i] == c;
      assert planned[i] in planned;
      PlannedPurposeful(d, prune, desired, observed, planned[i]);
    }
    GatedSubset(plan, verdicts);
  }

  /** Pairs, creations, updates and removals reach the applier in that order, by name within each. */
  lemma GatedInOrder(desired: Services, observed: Services, prune: bool, configs: map<string, seq<bv8>>,
                     verdicts: seq<Verdict>)
    requires KeyedByName(desired) && KeyedByName(observed)
    ensures InPlanOrder(Gated(PlanFor(desired, observed, prune, configs), verdicts))
  {
    ComputeClassifies(desired, observed);
    var d, plan := Computed(desired, observed), PlanFor(desired, observed, prune, configs);
    PlanOrdered(d, prune, desired, observed);
    DataKeepsOrder(Planned(d, prune), configs);
    GatingKeepsOrder(plan, verdicts);
  }

  lemma DataKeepsOrder(changes: seq<Change>, configs: map<string, seq<bv8>>)
    requires InPlanOrder(changes)
    ensures InPlanOrder(DataAttached(changes, configs))
  {
    var c := DataAttached(changes, configs);
    forall i, j | 0 <= i < j < |c| ensures Precedes(c[i], c[j]) {
      assert Precedes(changes[i], changes[j]);
    }
  }

  lemma GatingKeepsOrder(changes: seq<Change>, verdicts: seq<Verdict>)
    requires InPlanOrder(changes)
    ensures InPlanOrder(Gated(changes, verdicts))
  {
    GatedIsSafe(changes, verdicts);
    var at, passed := KeptIndices(changes, verdicts, |changes|), Gated(changes, verdicts);
    forall i, j | 0 <= i < j < |passed| ensures Precedes(passed[i], passed[j]) {
      assert Precedes(changes[at[i]], changes[at[j]]);
    }
  }

  lemma GatedSubset(plan: seq<Change>, verdicts: seq<Verdict>)
    ensures forall c :: c in Gated(plan, verdicts) ==> c in plan
  {
    GatedIsSafe(plan, verdicts);
  }

  // ---- One cycle ----

  function Final(states: seq<Services>): Services
    requires states != []
  {
    states[|states| - 1]
  }

  /** The applier ran over the gated plan for these states. */
  ghost predicate CycleSteps(desired: Services, prune: bool, configs: map<string, seq<bv8>>, verdicts: seq<Verdict>,
                             oks: seq<bool>, states: seq<Services>) {
    && states != [] && KeyedByName(desired) && KeyedByName(states[0])
    && StepRun(Gated(PlanFor(desired, states[0], prune, configs), verdicts), oks, states)
  }

  /** Whatever the gate rejects and whichever changes fail, no name starts to diverge. */
  lemma DivergenceNeverGrows(desired: Services, prune: bool, configs: map<string, seq<bv8>>, verdicts: seq<Verdict>,
                             oks: seq<bool>, states: seq<Services>, n: string)
    requires CycleSteps(desired, prune, configs, verdicts, oks, states)
    requires Diverges(n, desired, Final(states))
    ensures Diverges(n, desired, states[0])
  {
    var gated := Gated(PlanFor(desired, states[0], prune, configs), verdicts);
    GatedPlan(desired, states[0], prune, configs, verdicts);
    if n in NamesOf(gated) {
      var c :| c in gated && c.spec.name == n;
    } else {
      NeverTouched(gated, oks, states, n);
    }
  }

  lemma LastOfItsName(changes: seq<Change>, oks: seq<bool>, states: seq<Services>, i: nat)
    requires WellPlanned(changes) && StepRun(changes, oks, states) && i < |changes|
    requires !(changes[i].action == RemoveAction && changes[i].recreate)
    ensures SameAt(changes[i].spec.name, states[i + 1], states[|changes|])
  {
    forall k | i + 1 <= k < |changes| ensures changes[k].spec.name != changes[i].spec.name {
      assert Twins(changes, i, k) ==> PairAt(changes, i);
    }
    UntouchedBetween(changes, oks, states, i + 1, |changes|, changes[i].spec.name);
  }

  /** A name whose final change succeeded has left the diff, exactly when that was a removal or its spec settles. */
  lemma AppliedNamesSettle(desired: Services, prune: bool, configs: map<string, seq<bv8>>, verdicts: seq<Verdict>,
                           oks: seq<bool>, states: seq<Services>, i: nat)
    requires CycleSteps(desired, prune, configs, verdicts, oks, states) && i < |states| - 1
    requires var gated := Gated(PlanFor(desired, states[0], prune, configs), verdicts);
      SubmittedAt(gated, oks, i) && OkAt(oks, i) && !(gated[i].action == RemoveAction && gated[i].recreate)
    ensures var c := Gated(PlanFor(desired, states[0], prune, configs), verdicts)[i];
      !Diverges(c.spec.name, desired, Final(states)) <==> c.action == RemoveAction || Settling(c.spec)
  {
    GatedPlan(desired, states[0], prune, configs, verdicts);
    AppliedSettles(Gated(PlanFor(desired, states[0], prune, configs), verdicts), desired, oks, states, i);
  }

  lemma AppliedSettles(gated: seq<Change>, desired: Services, oks: seq<bool>, states: seq<Services>, i: nat)
    requires WellPlanned(gated) && StepRun(gated, oks, states) && forall c :: c in gated ==> Purposeful(c, desired, states[0])
    requires i < |gated| && SubmittedAt(gated, oks, i) && OkAt(oks, i)
    requires !(gated[i].action == RemoveAction && gated[i].recreate)
    ensures !Diverges(gated[i].spec.name, desired, Final(states)) <==> gated[i].action == RemoveAction || Settling(gated[i].spec)
  {
    assert gated[i] in gated;
    assert StepAt(gated, oks, states, i);
    LastOfItsName(gated, oks, states, i);
  }

  lemma PairIsOnly(changes: seq<Change>, i: nat, k: nat)
    requires WellPlanned(changes) && PairAt(changes, i) && k < |changes| && k != i && k != i + 1
    ensures changes[k].spec.name != changes[i].spec.name
  {
    assert Twins(changes, i, k) ==> k == i + 1;
    assert Twins(changes, k, i) ==> PairAt(changes, k);
  }

  lemma UntouchedAroundPair(changes: seq<Change>, oks: seq<bool>, states: seq<Services>, i: nat)
    requires WellPlanned(changes) && StepRun(changes, oks, states) && PairAt(changes, i)
    ensures SameAt(changes[i].spec.name, states[0], states[i])
    ensures SameAt(changes[i].spec.name, states[i + 2], states[|changes|])
  {
    forall k | 0 <= k < |changes| && k != i && k != i + 1 ensures changes[k].spec.name != changes[i].spec.name {
      PairIsOnly(changes, i, k);
    }
    UntouchedBetween(changes, oks, states, 0, i, changes[i].spec.name);
    UntouchedBetween(changes, oks, states, i + 2, |changes|, changes[i].spec.name);
  }

  /** A failed recreate removal suppresses the creation, and the service stays exactly as it was. */
  lemma FailedRemovalKeepsService(changes: seq<Change>, oks: seq<bool>, states: seq<Services>, i: nat)
    requires WellPlanned(changes) && StepRun(changes, oks, states) && PairAt(changes, i) && !OkAt(oks, i)
    ensures !SubmittedAt(changes, oks, i + 1)
    ensures SameAt(changes[i].spec.name, states[0], states[|changes|])
  {
    RecreateSafety(changes, oks, i + 1);
    UntouchedAroundPair(changes, oks, states, i);
    assert StepAt(changes, oks, states, i) && StepAt(changes, oks, states, i + 1);
  }

  lemma RemovedThenNotCreated(changes: seq<Change>, oks: seq<bool>, states: seq<Services>, i: nat)
    requires WellPlanned(changes) && StepRun(changes, oks, states) && PairAt(changes, i)
    requires OkAt(oks, i) && !OkAt(oks, i + 1)
    ensures changes[i].spec.name !in states[|changes|]
  {
    RecreateSafety(changes, oks, i + 1);
    UntouchedAroundPair(changes, oks, states, i);
    assert StepAt(changes, oks, states, i) && StepAt(changes, oks, states, i + 1);
  }

  /**
   A recreate whose removal succeeded but whose creation failed leaves its service desired and
   absent: it moves from the updates to the creates of the next diff.
   */
  lemma HalfDoneRecreate(desired: Services, prune: bool, configs: map<string, seq<bv8>>, verdicts: seq<Verdict>,
                         oks: seq<bool>, states: seq<Services>, i: nat)
    requires CycleSteps(desired, prune, configs, verdicts, oks, states) && i < |states| - 1
    requires var gated := Gated(PlanFor(desired, states[0], prune, configs), verdicts);
      PairAt(gated, i) && OkAt(oks, i) && !OkAt(oks, i + 1)
    ensures var n := Gated(PlanFor(desired, states[0], prune, configs), verdicts)[i].spec.name;
      && n in desired && n in states[0] && n !in Final(states)
  {
    GatedPlan(desired, states[0], prune, configs, verdicts);
    HalfDone(Gated(PlanFor(desired, states[0], prune, configs), verdicts), desired, oks, states, i);
  }

  lemma HalfDone(gated: seq<Change>, desired: Services, oks: seq<bool>, states: seq<Services>, i: nat)
    requires WellPlanned(gated) && StepRun(gated, oks, states) && forall c :: c in gated ==> Purposeful(c, desired, states[0])
    requires PairAt(gated, i) && OkAt(oks, i) && !OkAt(oks, i + 1)
    ensures var n := gated[i].spec.name; n in desired && n in states[0] && n !in Final(states)
  {
    RemovedThenNotCreated(gated, oks, states, i);
    assert gated[i] in gated && Purposeful(gated[i], desired, states[0]);
  }

  // ---- Exactly which names leave the diff ----

  /** Change i is the last one of n; it went through, and it was a removal or its spec settles. */
  ghost predicate SettlesAt(changes: seq<Change>, oks: seq<bool>, n: string, i: nat) {
    && i < |changes| && changes[i].spec.name == n && SubmittedAt(changes, oks, i) && OkAt(oks, i)
    && !(changes[i].action == RemoveAction && changes[i].recreate)
    && (changes[i].action == RemoveAction || Settling(changes[i].spec))
  }

  ghost predicate NameSettles(changes: seq<Change>, oks: seq<bool>, n: string) {
    exists i: nat :: SettlesAt(changes, oks, n, i)
  }

  /** The final change of a name that did not go through leaves the service as it was, or absent after half a recreate. */
  lemma FailedFinalChange(changes: seq<Change>, oks: seq<bool>, states: seq<Services>, i: nat)
    requires WellPlanned(changes) && StepRun(changes, oks, states) && i < |changes|
    requires !(changes[i].action == RemoveAction && changes[i].recreate) && !(SubmittedAt(changes, oks, i) && OkAt(oks, i))
    ensures var n := changes[i].spec.name;
      SameAt(n, states[0], states[|changes|]) || (changes[i].recreate && n !in states[|changes|])
  {
    var n := changes[i].spec.name;
    if changes[i].recreate {
      assert RecreateAt(changes, i);
      RecreateSafety(changes, oks, i);
      if OkAt(oks, i - 1) {
        RemovedThenNotCreated(changes, oks, states, i - 1);
      } else {
        FailedRemovalKeepsService(changes, oks, states, i - 1);
      }
    } else {
      LoneChange(changes, i);
      assert StepAt(changes, oks, states, i);
      UntouchedBetween(changes, oks, states, 0, i, n);
      UntouchedBetween(changes, oks, states, i + 1, |changes|, n);
    }
  }

  lemma LoneChange(changes: seq<Change>, i: nat)
    requires WellPlanned(changes) && i < |changes| && !changes[i].recreate
    ensures forall k :: 0 <= k < |changes| && k != i ==> changes[k].spec.name != changes[i].spec.name
  {
    forall k | 0 <= k < |changes| && k != i ensures changes[k].spec.name != changes[i].spec.name {
      assert !Twins(changes, i, k) && !Twins(changes, k, i);
    }
  }

  /** Whatever is rejected or fails, a diverging name leaves the diff exactly when its final change settles it. */
  lemma LeavesDiffExactly(desired: Services, prune: bool, configs: map<string, seq<bv8>>, verdicts: seq<Verdict>,
                          oks: seq<bool>, states: seq<Services>, n: string)
    requires CycleSteps(desired, prune, configs, verdicts, oks, states) && Diverges(n, desired, states[0])
    ensures !Diverges(n, desired, Final(states))
       <==> NameSettles(Gated(PlanFor(desired, states[0], prune, configs), verdicts), oks, n)
  {
    var gated := Gated(PlanFor(desired, states[0], prune, configs), verdicts);
    GatedPlan(desired, states[0], prune, configs, verdicts);
    if NameSettles(gated, oks, n) {
      var i: nat :| SettlesAt(gated, oks, n, i);
      AppliedNamesSettle(desired, prune, configs, verdicts, oks, states, i);
    }
    if !Diverges(n, desired, Final(states)) {
      if n !in NamesOf(gated) {
        NeverTouched(gated, oks, states, n);
      } else {
        LeftBySettling(desired, prune, configs, verdicts, oks, states, n);
      }
    }
  }

  lemma LeftBySettling(desired: Services, prune: bool, configs: map<string, seq<bv8>>, verdicts: seq<Verdict>,
                       oks: seq<bool>, states: seq<Services>, n: string)
    requires CycleSteps(desired, prune, configs, verdicts, oks, states)
    requires Diverges(n, desired, states[0]) && !Diverges(n, desired, Final(states))
    requires n in NamesOf(Gated(PlanFor(desired, states[0], prune, configs), verdicts))
    ensures NameSettles(Gated(PlanFor(desired, states[0], prune, configs), verdicts), oks, n)
  {
    var gated := Gated(PlanFor(desired, states[0], prune, configs), verdicts);
    GatedPlan(desired, states[0], prune, configs, verdicts);
    var i := NamedChange(gated, n);
    assert gated[i] in gated && Purposeful(gated[i], desired, states[0]);
    if SubmittedAt(gated, oks, i) && OkAt(oks, i) {
      AppliedNamesSettle(desired, prune, configs, verdicts, oks, states, i);
      assert SettlesAt(gated, oks, n, i);
    } else {
      FailedFinalChange(gated, oks, states, i);
    }
  }

  /** All changes passed the gate and every submitted one succeeded. */
  ghost predicate Undisturbed(changes: seq<Change>, verdicts: seq<Verdict>, oks: seq<bool>) {
    && |verdicts| >= |ToVerify(changes)| && AllPass(verdicts)
    && forall i :: 0 <= i < |changes| ==> OkAt(oks, i)
  }

  lemma {:induction false} NamedChange(changes: seq<Change>, n: string) returns (i: nat)
    requires WellPlanned(changes) && n in NamesOf(changes)
    ensures i < |changes| && changes[i].spec.name == n
    ensures !(changes[i].action == RemoveAction && changes[i].recreate)
  {
    var c :| c in changes && c.spec.name == n;
    i :| 0 <= i < |changes| && changes[i] == c;
    if changes[i].action == RemoveAction && changes[i].recreate {
      assert RecreateAt(changes, i);
      i := i + 1;
    }
  }

  /** Every desired service that diverges can be settled. */
  ghost predicate AllSettle(desired: Services, observed: Services) {
    forall n :: n in desired && Diverges(n, desired, observed) ==> Settling(desired[n])
  }

  /** After one undisturbed cycle with pruning a name diverges exactly when it did before and its spec does not settle. */
  lemma UndisturbedName(desired: Services, configs: map<string, seq<bv8>>, verdicts: seq<Verdict>,
                        oks: seq<bool>, states: seq<Services>, n: string)
    requires CycleSteps(desired, true, configs, verdicts, oks, states)
    requires Undisturbed(PlanFor(desired, states[0], true, configs), verdicts, oks)
    ensures Diverges(n, desired, Final(states))
       <==> n in desired && Diverges(n, desired, states[0]) && !Settling(desired[n])
  {
    var plan := PlanFor(desired, states[0], true, configs);
    FullVerdictsKeepAll(plan, verdicts);
    GatedPlan(desired, states[0], true, configs, verdicts);
    ComputeClassifies(desired, states[0]);
    PlanShape(Computed(desired, states[0]), true, desired, states[0]);
    DataKeepsNames(Planned(Computed(desired, states[0]), true), configs);
    if n in NamesOf(plan) {
      var i := NamedChange(plan, n);
      assert plan[i] in plan && Purposeful(plan[i], desired, states[0]);
      SubmittedWhenAllOk(plan, oks, i);
      AppliedNamesSettle(desired, true, configs, verdicts, oks, states, i);
    } else {
      NeverTouched(plan, oks, states, n);
    }
  }

  /**
   One undisturbed cycle with pruning reconciles everything: diffing the same desired services
   against what is then observed finds nothing, from whatever was observed before, if and only
   if every desired service that diverged can be settled.
   */
  lemma OneCycleFixpoint(desired: Services, configs: map<string, seq<bv8>>, verdicts: seq<Verdict>,
                         oks: seq<bool>, states: seq<Services>)
    requires CycleSteps(desired, true, configs, verdicts, oks, states)
    requires Undisturbed(PlanFor(desired, states[0], true, configs), verdicts, oks)
    requires KeyedByName(Final(states))
    ensures Computed(desired, Final(states)).Empty() <==> AllSettle(desired, states[0])
  {
    forall n ensures Diverges(n, desired, Final(states))
                <==> n in desired && Diverges(n, desired, states[0]) && !Settling(desired[n])
    {
      UndisturbedName(desired, configs, verdicts, oks, states, n);
    }
    ComputeClassifies(desired, Final(states));
    EmptyMeansNoDivergence(Computed(desired, Final(states)), desired, Final(states));
  }

  lemma DataKeepsNames(changes: seq<Change>, configs: map<string, seq<bv8>>)
    ensures NamesOf(DataAttached(changes, configs)) == NamesOf(changes)
  {
    var c := DataAttached(changes, configs);
    forall n ensures n in NamesOf(c) <==> n in NamesOf(changes) {
      if n in NamesOf(c) {
        var i :| 0 <= i < |c| && c[i].spec.name == n;
        assert changes[i] in changes;
      }
      if n in NamesOf(changes) {
        var i :| 0 <= i < |changes| && changes[i].spec.name == n;
        assert c[i] in c;
      }
    }
  }

  lemma SubmittedWhenAllOk(changes: seq<Change>, oks: seq<bool>, i: nat)
    requires (forall j :: 0 <= j < |changes| ==> OkAt(oks, j)) && i < |changes|
    ensures SubmittedAt(changes, oks, i)
  {
    NothingPending(changes, oks, |changes|);
  }

  // ---- What the gated plan leaves alone ----

  lemma GatedUpdatesManaged(desired: Services, prune: bool, configs: map<string, seq<bv8>>, verdicts: seq<Verdict>,
                            observed: Services, store: Stored)
    requires KeyedByName(desired) && KeyedByName(observed) && ShowsManaged(observed, store)
    ensures UpdatesOnlyManaged(Gated(PlanFor(desired, observed, prune, configs), verdicts), store)
  {
    GatedPlan(desired, observed, prune, configs, verdicts);
  }

  /** A desired service that differs from the observed one in something besides its attachments. */
  ghost predicate DiffersElsewhere(want: ServiceSpec, have: ServiceSpec) {
    exists f :: f != Configs && f != Secrets && Differs(f, want, have)
  }

  lemma UpdateListed(d: Changes, desired: Services, observed: Services, n: string) returns (u: Update)
    requires Classifies(d, desired, observed) && n in desired && n in observed && !Matches(desired[n], observed[n])
    ensures u in d.updates && u.name == n && UpdateDescribes(u, desired, observed)
  {
    assert n in Map(d.updates, UpdateName);
    var i :| 0 <= i < |d.updates| && Map(d.updates, UpdateName)[i] == n;
    u := d.updates[i];
  }

  lemma MixedUpdateListed(desired: Services, observed: Services, n: string) returns (u: Update)
    requires KeyedByName(desired) && KeyedByName(observed) && n in desired && n in observed
    requires DiffersElsewhere(desired[n], observed[n])
    ensures u in Computed(desired, observed).updates && u.name == n && u.wanted == desired[n] && !AttachmentOnly(u)
  {
    var d := Computed(desired, observed);
    ComputeClassifies(desired, observed);
    var f :| f != Configs && f != Secrets && Differs(f, desired[n], observed[n]);
    NoChangedFields(desired[n], observed[n]);
    u := UpdateListed(d, desired, observed, n);
    assert f in u.changed;
  }

  /**
   A planned update is one the applier refuses exactly when the service differs in something
   besides its attachments and the live "source:target" keys are not the desired ones.
   */
  lemma PlannedAndRefusedExactly(d: Changes, prune: bool, desired: Services, observed: Services, u: Update,
                                 current: EngineSpec)
    requires Classifies(d, desired, observed) && KeyedByName(desired) && KeyedByName(observed)
    requires u in d.updates
    ensures Plain(UpdateAction, u.wanted) in Planned(d, prune) && !AttachmentsUnchanged(current, u.wanted)
       <==> DiffersElsewhere(u.wanted, u.live) && !SameKeys(current, u.wanted)
  {
    InPlaceExactly(d, prune, desired, observed, u);
    RefusalByKeys(current, u.wanted);
    UpdatesDiverge(d, desired, observed);
    assert UpdateDescribes(u, desired, observed);
    NoChangedFields(u.wanted, u.live);
    if !AttachmentOnly(u) {
      var f :| f in u.changed && f != Configs && f != Secrets;
      assert Differs(f, u.wanted, u.live);
    }
  }

  lemma PlanForwards(desired: Services, observed: Services, prune: bool, configs: map<string, seq<bv8>>, c: Change)
    returns (p: Change)
    requires c in PlanFor(desired, observed, prune, configs)
    ensures p in Planned(Computed(desired, observed), prune) && p.action == c.action && p.spec == c.spec
  {
    var plan, planned := PlanFor(desired, observed, prune, configs), Planned(Computed(desired, observed), prune);
    var j :| 0 <= j < |plan| && plan[j] == c;
    p := planned[j];
  }

  lemma MixedChangesAreUpdates(desired: Services, prune: bool, configs: map<string, seq<bv8>>, verdicts: seq<Verdict>,
                               observed: Services, n: string, c: Change)
    requires KeyedByName(desired) && KeyedByName(observed) && n in desired && n in observed
    requires DiffersElsewhere(desired[n], observed[n])
    requires c in Gated(PlanFor(desired, observed, prune, configs), verdicts) && c.spec.name == n
    ensures c.action == UpdateAction && c.spec == desired[n]
  {
    var u := MixedUpdateListed(desired, observed, n);
    ComputeClassifies(desired, observed);
    InPlaceExactly(Computed(desired, observed), prune, desired, observed, u);
    GatedSubset(PlanFor(desired, observed, prune, configs), verdicts);
    var p := PlanForwards(desired, observed, prune, configs, c);
  }

  /**
   A service whose live attachments are not the desired ones, and which differs in something
   else too, is planned in place and refused: whatever else happens in the cycle, it stays as
   it was, in the store and in the snapshot, and goes on diverging.
   */
  lemma MixedUpdateRefused(desired: Services, prune: bool, configs: map<string, seq<bv8>>, verdicts: seq<Verdict>,
                           r: Course, n: string)
    requires CycleSteps(desired, prune, configs, verdicts, r.oks, r.states)
    requires Runs(Gated(PlanFor(desired, r.states[0], prune, configs), verdicts), r)
    requires n in desired && n in r.states[0] && DiffersElsewhere(desired[n], r.states[0][n])
    requires n in r.stores[0] && !AttachmentsUnchanged(r.stores[0][n], desired[n])
    ensures SameEntry(n, r.stores[0], LastStore(r.stores)) && SameAt(n, r.states[0], Final(r.states))
    ensures Diverges(n, desired, Final(r.states))
  {
    var gated := Gated(PlanFor(desired, r.states[0], prune, configs), verdicts);
    forall c | c in gated && c.spec.name == n
      ensures c.action == UpdateAction && !AttachmentsUnchanged(r.stores[0][n], c.spec)
    {
      MixedChangesAreUpdates(desired, prune, configs, verdicts, r.states[0], n, c);
    }
    RefusedUpdatesKeep(gated, r, |gated|, n);
    NoChangedFields(desired[n], r.states[0][n]);
  }

  // ---- Many cycles ----

  /** after can follow before in one cycle towards desired. */
  ghost predicate CycleReaches(desired: Services, prune: bool, before: Services, after: Services) {
    exists configs, verdicts, oks, states ::
      CycleSteps(desired, prune, configs, verdicts, oks, states) && states[0] == before && Final(states) == after
  }

  lemma CycleShrinks(desired: Services, prune: bool, before: Services, after: Services, n: string)
    requires CycleReaches(desired, prune, before, after) && Diverges(n, desired, after)
    ensures Diverges(n, desired, before)
  {
    var configs, verdicts, oks, states :|
      CycleSteps(desired, prune, configs, verdicts, oks, states) && states[0] == before && Final(states) == after;
    DivergenceNeverGrows(desired, prune, configs, verdicts, oks, states, n);
  }

  /** Each state of the run follows from the one before it in one cycle, or was left as it was. */
  ghost predicate CyclesAt(desired: Services, prune: bool, run: seq<Services>, k: nat)
    requires k + 1 < |run|
  {
    run[k + 1] == run[k] || CycleReaches(desired, prune, run[k], run[k + 1])
  }

  lemma ShrinksAt(desired: Services, prune: bool, run: seq<Services>, k: nat, n: string)
    requires k + 1 < |run| && CyclesAt(desired, prune, run, k) && Diverges(n, desired, run[k + 1])
    ensures Diverges(n, desired, run[k])
  {
    if run[k + 1] != run[k] { CycleShrinks(desired, prune, run[k], run[k + 1], n); }
  }

  /** While the desired services stay put, the diverging names only ever shrink, cycle after cycle. */
  lemma {:induction false} DivergenceOnlyShrinks(desired: Services, prune: bool, run: seq<Services>, i: nat, j: nat, n: string)
    requires forall k {:trigger CyclesAt(desired, prune, run, k)} :: 0 <= k < |run| - 1 ==> CyclesAt(desired, prune, run, k)
    requires i <= j < |run| && Diverges(n, desired, run[j])
    ensures Diverges(n, desired, run[i])
    decreases j
  {
    if i < j {
      assert CyclesAt(desired, prune, run, j - 1);
      ShrinksAt(desired, prune, run, j - 1, n);
      DivergenceOnlyShrinks(desired, prune, run, i, j - 1, n);
    }
  }
}
