/** Ordering the diff into changes, gating them, and what is awaited afterwards (internal/loop/loop.go). */
module Plan {
  import opened Apply
  import opened Basics
  import opened Diff
  import opened Ordering
  import opened Spec
  import opened Swarm

  // ---- plan ----

  /** An update that only swaps attachments cannot be applied in place. */
  predicate AttachmentOnly(u: Update) {
    u.changed != [] && forall f :: f in u.changed ==> f == Configs || f == Secrets
  }

  function Plain(action: Action, s: ServiceSpec): Change { Change(action, s, map[], false) }
  function CreateOf(s: ServiceSpec): Change { Plain(CreateAction, s) }
  function RemoveOf(s: ServiceSpec): Change { Plain(RemoveAction, s) }

  function Pair(u: Update): seq<Change> {
    [Change(RemoveAction, u.live, map[], true), Change(CreateAction, u.wanted, map[], true)]
  }

  function RecreatePairs(updates: seq<Update>): seq<Change> {
    if updates == [] then []
    else
      var u := updates[|updates| - 1];
      RecreatePairs(updates[..|updates| - 1]) + if AttachmentOnly(u) then Pair(u) else []
  }

  function Recreated(updates: seq<Update>): set<string> {
    set u | u in updates && AttachmentOnly(u) :: u.name
  }

  function InPlace(updates: seq<Update>, recreated: set<string>): seq<Change> {
    if updates == [] then []
    else
      var u := updates[|updates| - 1];
      InPlace(updates[..|updates| - 1], recreated)
        + if u.name in recreated then [] else [Plain(UpdateAction, u.wanted)]
  }

  function Planned(d: Changes, prune: bool): seq<Change> {
    RecreatePairs(d.updates) + Map(d.creates, CreateOf) + InPlace(d.updates, Recreated(d.updates))
      + if prune then Map(d.removes, RemoveOf) else []
  }

  method Plan(d: Changes, prune: bool) returns (changes: seq<Change>)
    ensures changes == Planned(d, prune)
  {
    changes := [];
    var recreated: set<string> := {};
    for i := 0 to |d.updates|
      invariant changes == RecreatePairs(d.updates[..i])
      invariant recreated == Recreated(d.updates[..i])
    {
      var u := d.updates[i];
      assert d.updates[..i + 1] == d.updates[..i] + [u];
      if !AttachmentOnly(u) { continue; }
      recreated := recreated + {u.name};
      changes := changes + Pair(u);
    }
    assert d.updates[..|d.updates|] == d.updates;
    var creates := Collect(d.creates, CreateOf);
    changes := changes + creates;
    var updates: seq<Change> := [];
    for i := 0 to |d.updates|
      invariant updates == InPlace(d.updates[..i], recreated)
    {
      var u := d.updates[i];
      assert d.updates[..i + 1][..i] == d.updates[..i];
      if u.name in recreated { continue; }
      updates := updates + [Plain(UpdateAction, u.wanted)];
    }
    changes := changes + updates;
    if prune {
      var removes := Collect(d.removes, RemoveOf);
      changes := changes + removes;
    }
  }

  // ---- The shape of a plan ----

  ghost function NamesOf(changes: seq<Change>): set<string> {
    set c | c in changes :: c.spec.name
  }

  /** A recreate removal directly followed by the recreate creation of the same service. */
  ghost predicate PairAt(changes: seq<Change>, i: int) {
    && 0 <= i < |changes| - 1
    && changes[i].action == RemoveAction && changes[i].recreate
    && changes[i + 1].action == CreateAction && changes[i + 1].recreate
    && changes[i].spec.name == changes[i + 1].spec.name
  }

  ghost predicate Twins(changes: seq<Change>, i: int, j: int) {
    0 <= i < j < |changes| && changes[i].spec.name == changes[j].spec.name
  }

  ghost predicate RecreateAt(changes: seq<Change>, i: int) {
    0 <= i < |changes| && changes[i].recreate
  }

  /** Where the pair around a recreate change starts. */
  function PairStart(changes: seq<Change>, i: int): int
    requires 0 <= i < |changes|
  {
    if changes[i].action == RemoveAction then i else i - 1
  }

  /** A name occurs once or as one adjacent remove/create pair; recreate changes occur only in pairs. */
  ghost predicate WellPlanned(changes: seq<Change>) {
    && (forall i, j {:trigger Twins(changes, i, j)} :: Twins(changes, i, j) ==> j == i + 1 && PairAt(changes, i))
    && (forall i {:trigger RecreateAt(changes, i)} :: RecreateAt(changes, i) ==> PairAt(changes, PairStart(changes, i)))
  }

  lemma WellPlannedConcat(a: seq<Change>, b: seq<Change>)
    requires WellPlanned(a) && WellPlanned(b) && NamesOf(a) !! NamesOf(b)
    ensures WellPlanned(a + b)
  {
    var c := a + b;
    assert forall k :: 0 <= k < |a| ==> a[k] in a && a[k].spec.name in NamesOf(a);
    assert forall k :: 0 <= k < |b| ==> b[k] in b && b[k].spec.name in NamesOf(b);
    assert forall k :: |a| <= k < |c| ==> c[k] == b[k - |a|];
    forall i, j | Twins(c, i, j)
      ensures j == i + 1 && PairAt(c, i)
    {
      if j < |a| {
        assert Twins(a, i, j);
      } else if i >= |a| {
        assert Twins(b, i - |a|, j - |a|);
      } else {
        assert false;
      }
    }
    forall i | RecreateAt(c, i)
      ensures PairAt(c, PairStart(c, i))
    {
      if i < |a| {
        assert RecreateAt(a, i);
      } else {
        assert RecreateAt(b, i - |a|);
      }
    }
  }

  lemma NamesOfConcat(a: seq<Change>, b: seq<Change>)
    ensures NamesOf(a + b) == NamesOf(a) + NamesOf(b)
  {
    forall n ensures n in NamesOf(a + b) <==> n in NamesOf(a) || n in NamesOf(b) {
    }
  }

  /** The names of the updates recreated, or updated in place. */
  ghost function UpdateNamesWhere(updates: seq<Update>, attachmentOnly: bool): set<string> {
    set u | u in updates && AttachmentOnly(u) == attachmentOnly :: u.name
  }

  /** Updates carry their own name on both sides. */
  ghost predicate Named(updates: seq<Update>) {
    forall u :: u in updates ==> u.live.name == u.name && u.wanted.name == u.name
  }

  lemma LastNameIsNew(updates: seq<Update>)
    requires updates != [] && Increasing(Map(updates, UpdateName))
    ensures forall u :: u in updates[..|updates| - 1] ==> u.name != updates[|updates| - 1].name
    ensures Increasing(Map(updates[..|updates| - 1], UpdateName))
  {
    var names, n := Map(updates, UpdateName), |updates| - 1;
    forall i | 0 <= i < n ensures updates[i].name != updates[n].name {
      assert Lt(names[i], names[n]);
    }
    assert Map(updates[..n], UpdateName) == names[..n];
  }

  lemma UpdateNamesNext(init: seq<Update>, u: Update, attachmentOnly: bool)
    ensures UpdateNamesWhere(init + [u], attachmentOnly)
            == UpdateNamesWhere(init, attachmentOnly) + if AttachmentOnly(u) == attachmentOnly then {u.name} else {}
  {
  }

  lemma PairWellPlanned(u: Update)
    requires u.live.name == u.name && u.wanted.name == u.name
    ensures WellPlanned(Pair(u)) && NamesOf(Pair(u)) == {u.name}
  {
    assert Pair(u)[0] in Pair(u);
    assert PairAt(Pair(u), 0);
  }

  lemma SingleWellPlanned(c: Change)
    requires !c.recreate
    ensures WellPlanned([c]) && NamesOf([c]) == {c.spec.name}
  {
  }

  lemma {:induction false} PairsWellPlanned(updates: seq<Update>)
    requires Named(updates) && Increasing(Map(updates, UpdateName))
    ensures WellPlanned(RecreatePairs(updates))
    ensures NamesOf(RecreatePairs(updates)) == UpdateNamesWhere(updates, true)
  {
    if updates != [] {
      var init, u := updates[..|updates| - 1], updates[|updates| - 1];
      assert updates == init + [u];
      LastNameIsNew(updates);
      PairsWellPlanned(init);
      UpdateNamesNext(init, u, true);
      if AttachmentOnly(u) {
        PairWellPlanned(u);
        WellPlannedConcat(RecreatePairs(init), Pair(u));
        NamesOfConcat(RecreatePairs(init), Pair(u));
      } else {
        assert RecreatePairs(updates) == RecreatePairs(init);
      }
    }
  }

  lemma {:induction false} InPlaceWellPlanned(updates: seq<Update>, recreated: set<string>)
    requires Named(updates) && Increasing(Map(updates, UpdateName))
    requires forall u :: u in updates ==> (u.name in recreated <==> AttachmentOnly(u))
    ensures WellPlanned(InPlace(updates, recreated))
    ensures NamesOf(InPlace(updates, recreated)) == UpdateNamesWhere(updates, false)
  {
    if updates != [] {
      var init, u := updates[..|updates| - 1], updates[|updates| - 1];
      assert updates == init + [u];
      assert u in updates;
      LastNameIsNew(updates);
      InPlaceWellPlanned(init, recreated);
      UpdateNamesNext(init, u, false);
      if u.name !in recreated {
        var c := Plain(UpdateAction, u.wanted);
        SingleWellPlanned(c);
        WellPlannedConcat(InPlace(init, recreated), [c]);
        NamesOfConcat(InPlace(init, recreated), [c]);
      } else {
        assert InPlace(updates, recreated) == InPlace(init, recreated);
      }
    }
  }

  lemma SinglesWellPlanned(specs: seq<ServiceSpec>, make: ServiceSpec -> Change)
    requires Increasing(Map(specs, SpecName))
    requires forall s :: s in specs ==> make(s).spec == s && !make(s).recreate
    ensures WellPlanned(Map(specs, make))
    ensures forall n :: n in NamesOf(Map(specs, make)) <==> n in Map(specs, SpecName)
  {
    var changes, names := Map(specs, make), Map(specs, SpecName);
    forall i | 0 <= i < |specs| ensures changes[i].spec.name == names[i] && !changes[i].recreate {
      assert specs[i] in specs;
    }
    forall n ensures n in NamesOf(changes) <==> n in names {
      if n in names {
        var i :| 0 <= i < |names| && names[i] == n;
        assert changes[i] in changes;
      }
      if n in NamesOf(changes) {
        var i :| 0 <= i < |changes| && changes[i].spec.name == n;
        assert names[i] == n;
      }
    }
    forall i, j ensures !Twins(changes, i, j) {
      if 0 <= i < j < |changes| { assert Lt(names[i], names[j]); }
    }
  }

  lemma UpdatesSplit(d: Changes, desired: Services, observed: Services)
    requires Classifies(d, desired, observed) && KeyedByName(desired) && KeyedByName(observed)
    ensures Named(d.updates)
    ensures forall u :: u in d.updates ==> (u.name in Recreated(d.updates) <==> AttachmentOnly(u))
    ensures forall n :: n in UpdateNamesWhere(d.updates, true) || n in UpdateNamesWhere(d.updates, false)
                        <==> n in Map(d.updates, UpdateName)
    ensures UpdateNamesWhere(d.updates, true) !! UpdateNamesWhere(d.updates, false)
  {
    forall u, v | u in d.updates && v in d.updates && u.name == v.name
      ensures u == v
    {
      assert UpdateDescribes(u, desired, observed) && UpdateDescribes(v, desired, observed);
    }
    forall n ensures (exists u :: u in d.updates && u.name == n) <==> n in Map(d.updates, UpdateName) {
      if u :| u in d.updates && u.name == n {
        var i :| 0 <= i < |d.updates| && d.updates[i] == u;
        assert Map(d.updates, UpdateName)[i] == n;
      }
      if n in Map(d.updates, UpdateName) {
        var i :| 0 <= i < |d.updates| && Map(d.updates, UpdateName)[i] == n;
        assert d.updates[i] in d.updates;
      }
    }
    forall u | u in d.updates ensures u.live.name == u.name && u.wanted.name == u.name {
      assert UpdateDescribes(u, desired, observed);
    }
  }

  /** What plan owes to prune. */
  ghost predicate PlanCovers(changes: seq<Change>, prune: bool, desired: Services, observed: Services) {
    && (forall n :: n in NamesOf(changes) <==> Diverges(n, desired, observed) && (prune || n in desired))
    && (!prune ==> forall c :: c in changes && c.action == RemoveAction ==> c.recreate)
  }

  lemma NoRemoves(changes: seq<Change>, d: Changes)
    requires changes == Planned(d, false) && Named(d.updates)
    ensures forall c :: c in changes && c.action == RemoveAction ==> c.recreate
  {
    PairsAreRecreates(d.updates);
    InPlaceUpdates(d.updates, Recreated(d.updates));
    assert forall c :: c in Map(d.creates, CreateOf) ==> c.action == CreateAction;
  }

  lemma {:induction false} PairsAreRecreates(updates: seq<Update>)
    ensures forall c :: c in RecreatePairs(updates) ==> c.recreate
  {
    if updates != [] { PairsAreRecreates(updates[..|updates| - 1]); }
  }

  lemma {:induction false} InPlaceUpdates(updates: seq<Update>, recreated: set<string>)
    ensures forall c :: c in InPlace(updates, recreated) ==> c.action == UpdateAction
  {
    if updates != [] { InPlaceUpdates(updates[..|updates| - 1], recreated); }
  }

  lemma {:induction false} PairsBare(updates: seq<Update>)
    ensures forall c :: c in RecreatePairs(updates) ==> c.configData == map[]
  {
    if updates != [] { PairsBare(updates[..|updates| - 1]); }
  }

  lemma {:induction false} InPlaceBare(updates: seq<Update>, recreated: set<string>)
    ensures forall c :: c in InPlace(updates, recreated) ==> c.configData == map[]
  {
    if updates != [] { InPlaceBare(updates[..|updates| - 1], recreated); }
  }

  /** A plan comes without config data. */
  lemma PlannedBare(d: Changes, prune: bool)
    ensures forall c :: c in Planned(d, prune) ==> c.configData == map[]
  {
    PairsBare(d.updates);
    InPlaceBare(d.updates, Recreated(d.updates));
  }

  /** A plan covers every diverging name, removals only when pruning, each name once or as one adjacent pair. */
  lemma PlanShape(d: Changes, prune: bool, desired: Services, observed: Services)
    requires Classifies(d, desired, observed) && KeyedByName(desired) && KeyedByName(observed)
    ensures WellPlanned(Planned(d, prune))
    ensures PlanCovers(Planned(d, prune), prune, desired, observed)
  {
    UpdatesSplit(d, desired, observed);
    var pairs, creates := RecreatePairs(d.updates), Map(d.creates, CreateOf);
    var updates, removes := InPlace(d.updates, Recreated(d.updates)), Map(d.removes, RemoveOf);
    PairsWellPlanned(d.updates);
    InPlaceWellPlanned(d.updates, Recreated(d.updates));
    SinglesWellPlanned(d.creates, CreateOf);
    SinglesWellPlanned(d.removes, RemoveOf);
    WellPlannedConcat(pairs, creates);
    NamesOfConcat(pairs, creates);
    WellPlannedConcat(pairs + creates, updates);
    NamesOfConcat(pairs + creates, updates);
    if prune {
      WellPlannedConcat(pairs + creates + updates, removes);
      NamesOfConcat(pairs + creates + updates, removes);
    } else {
      assert Planned(d, false) == pairs + creates + updates;
      NoRemoves(Planned(d, false), d);
    }
  }

  lemma {:induction false} UpdatedInPlace(updates: seq<Update>, recreated: set<string>, u: Update)
    requires u in updates && u.name !in recreated
    ensures Plain(UpdateAction, u.wanted) in InPlace(updates, recreated)
  {
    var n := |updates| - 1;
    if u in updates[..n] { UpdatedInPlace(updates[..n], recreated, u); }
  }

  /**
   An update that changes more than attachments is planned in place, as the service's only
   change; one that changes attachments alone is never planned that way.
   */
  lemma InPlaceExactly(d: Changes, prune: bool, desired: Services, observed: Services, u: Update)
    requires Classifies(d, desired, observed) && KeyedByName(desired) && KeyedByName(observed)
    requires u in d.updates
    ensures Plain(UpdateAction, u.wanted) in Planned(d, prune) <==> !AttachmentOnly(u)
    ensures !AttachmentOnly(u) ==>
              forall c :: c in Planned(d, prune) && c.spec.name == u.name ==> c == Plain(UpdateAction, u.wanted)
  {
    UpdatesSplit(d, desired, observed);
    PlanShape(d, prune, desired, observed);
    var changes, mine := Planned(d, prune), Plain(UpdateAction, u.wanted);
    if !AttachmentOnly(u) {
      UpdatedInPlace(d.updates, Recreated(d.updates), u);
      OnlyChange(changes, mine);
    } else {
      if mine in changes { OnlyChange(changes, mine); }
      PairPlanned(d.updates, u);
      assert Pair(u)[0] in changes;
    }
  }

  lemma {:induction false} PairPlanned(updates: seq<Update>, u: Update)
    requires u in updates && AttachmentOnly(u)
    ensures Pair(u)[0] in RecreatePairs(updates)
  {
    var n := |updates| - 1;
    if u in updates[..n] { PairPlanned(updates[..n], u); }
  }

  lemma OnlyChange(changes: seq<Change>, mine: Change)
    requires WellPlanned(changes) && mine in changes && mine.action == UpdateAction
    ensures forall c :: c in changes && c.spec.name == mine.spec.name ==> c == mine
  {
    var i :| 0 <= i < |changes| && changes[i] == mine;
    forall c | c in changes && c.spec.name == mine.spec.name ensures c == mine {
      var j :| 0 <= j < |changes| && changes[j] == c;
      assert Twins(changes, i, j) ==> PairAt(changes, i);
      assert Twins(changes, j, i) ==> PairAt(changes, j) && i == j + 1;
    }
  }

  // ---- The order of a plan ----

  /** Recreate pairs come first, then creations, updates in place and removals. */
  function Group(c: Change): nat {
    if c.recreate then 0
    else match c.action case CreateAction => 1 case UpdateAction => 2 case RemoveAction => 3
  }

  /** Within a group the names decide, and of a pair the removal goes first. */
  ghost predicate Precedes(a: Change, b: Change) {
    || Group(a) < Group(b)
    || (Group(a) == Group(b) && Lt(a.spec.name, b.spec.name))
    || (a.recreate && b.recreate && a.spec.name == b.spec.name && a.action == RemoveAction && b.action == CreateAction)
  }

  ghost predicate InPlanOrder(changes: seq<Change>) {
    forall i, j :: 0 <= i < j < |changes| ==> Precedes(changes[i], changes[j])
  }

  ghost predicate AllIn(changes: seq<Change>, from: nat, to: nat) {
    forall c :: c in changes ==> from <= Group(c) <= to
  }

  lemma OrderConcat(a: seq<Change>, b: seq<Change>)
    requires InPlanOrder(a) && InPlanOrder(b) && forall x, y :: x in a && y in b ==> Precedes(x, y)
    ensures InPlanOrder(a + b)
  {
    var c := a + b;
    forall i, j | 0 <= i < j < |c| ensures Precedes(c[i], c[j]) {
      if i < |a| <= j { assert a[i] in a && b[j - |a|] in b; }
    }
  }

  lemma GroupsConcat(a: seq<Change>, b: seq<Change>, k: nat)
    requires InPlanOrder(a) && InPlanOrder(b) && AllIn(a, 0, k) && AllIn(b, k + 1, k + 1)
    ensures InPlanOrder(a + b) && AllIn(a + b, 0, k + 1)
  {
    OrderConcat(a, b);
  }

  lemma {:induction false} PairsOrdered(updates: seq<Update>)
    requires Named(updates) && Increasing(Map(updates, UpdateName))
    ensures InPlanOrder(RecreatePairs(updates)) && AllIn(RecreatePairs(updates), 0, 0)
    ensures forall c :: c in RecreatePairs(updates) ==> c.spec.name in Map(updates, UpdateName)
  {
    if updates != [] {
      var n := |updates| - 1;
      var init, u, names := updates[..n], updates[n], Map(updates, UpdateName);
      assert u in updates && names[n] == u.name && Map(init, UpdateName) == names[..n];
      PairsOrdered(init);
      BelowLast(names);
      forall c | c in RecreatePairs(init) ensures Lt(c.spec.name, u.name) && c.spec.name in names {
        assert c.spec.name in names[..n];
      }
      if AttachmentOnly(u) {
        assert InPlanOrder(Pair(u));
        OrderConcat(RecreatePairs(init), Pair(u));
      } else {
        assert RecreatePairs(updates) == RecreatePairs(init);
      }
    }
  }

  lemma {:induction false} InPlaceOrdered(updates: seq<Update>, recreated: set<string>)
    requires Named(updates) && Increasing(Map(updates, UpdateName))
    ensures InPlanOrder(InPlace(updates, recreated)) && AllIn(InPlace(updates, recreated), 2, 2)
    ensures forall c :: c in InPlace(updates, recreated) ==> c.spec.name in Map(updates, UpdateName)
  {
    if updates != [] {
      var n := |updates| - 1;
      var init, u, names := updates[..n], updates[n], Map(updates, UpdateName);
      assert u in updates && names[n] == u.name && Map(init, UpdateName) == names[..n];
      InPlaceOrdered(init, recreated);
      BelowLast(names);
      forall c | c in InPlace(init, recreated) ensures Lt(c.spec.name, u.name) && c.spec.name in names {
        assert c.spec.name in names[..n];
      }
      if u.name !in recreated {
        OrderConcat(InPlace(init, recreated), [Plain(UpdateAction, u.wanted)]);
      } else {
        assert InPlace(updates, recreated) == InPlace(init, recreated);
      }
    }
  }

  lemma SinglesOrdered(specs: seq<ServiceSpec>, make: ServiceSpec -> Change, group: nat)
    requires Increasing(Map(specs, SpecName)) && forall s :: make(s).spec == s && Group(make(s)) == group
    ensures InPlanOrder(Map(specs, make)) && AllIn(Map(specs, make), group, group)
  {
    var changes, names := Map(specs, make), Map(specs, SpecName);
    forall i, j | 0 <= i < j < |changes| ensures Precedes(changes[i], changes[j]) {
      assert Lt(names[i], names[j]);
    }
  }

  /** The order in which changes are planned, gated and applied. */
  lemma PlanOrdered(d: Changes, prune: bool, desired: Services, observed: Services)
    requires Classifies(d, desired, observed) && KeyedByName(desired) && KeyedByName(observed)
    ensures InPlanOrder(Planned(d, prune))
  {
    UpdatesSplit(d, desired, observed);
    PairsOrdered(d.updates);
    InPlaceOrdered(d.updates, Recreated(d.updates));
    SinglesOrdered(d.creates, CreateOf, 1);
    SinglesOrdered(d.removes, RemoveOf, 3);
    var pairs, creates := RecreatePairs(d.updates), Map(d.creates, CreateOf);
    var updates, removes := InPlace(d.updates, Recreated(d.updates)), Map(d.removes, RemoveOf);
    GroupsConcat(pairs, creates, 0);
    GroupsConcat(pairs + creates, updates, 1);
    if prune {
      GroupsConcat(pairs + creates + updates, removes, 2);
    } else {
      assert Planned(d, false) == pairs + creates + updates;
    }
  }

  // ---- verify ----

  datatype Verdict = Verdict(service: string, image: string, pass: bool)

  /** The changes sent to the gate: everything but removals. */
  function ToVerify(changes: seq<Change>): seq<Change> {
    if changes == [] then []
    else
      var c := changes[|changes| - 1];
      ToVerify(changes[..|changes| - 1]) + if c.action != RemoveAction then [c] else []
  }

  /** The position in the gate's list that belongs to changes[i]. */
  function GateIndex(changes: seq<Change>, i: nat): nat
    requires i <= |changes|
  {
    if i == 0 then 0 else GateIndex(changes, i - 1) + if changes[i - 1].action != RemoveAction then 1 else 0
  }

  predicate PassAt(verdicts: seq<Verdict>, k: nat) {
    k < |verdicts| && verdicts[k].pass
  }

  /** changes[i] opens a recreate pair, as verify recognises one. */
  predicate OpensPair(changes: seq<Change>, i: nat)
    requires i < |changes|
  {
    changes[i].recreate && i + 1 < |changes| && changes[i + 1].recreate && changes[i + 1].action == CreateAction
  }

  /** Whether changes[i] survives the gate. */
  predicate Kept(changes: seq<Change>, verdicts: seq<Verdict>, i: nat)
    requires i < |changes|
  {
    if changes[i].action == RemoveAction && !OpensPair(changes, i) then true
    else PassAt(verdicts, GateIndex(changes, i))
  }

  /** The positions below n that survive the gate, in order. */
  function KeptIndices(changes: seq<Change>, verdicts: seq<Verdict>, n: nat): (r: seq<nat>)
    requires n <= |changes|
    ensures forall i :: i in r <==> 0 <= i < n && Kept(changes, verdicts, i)
    ensures forall a :: 0 <= a < |r| ==> r[a] < n
    ensures forall a, b :: 0 <= a < b < |r| ==> r[a] < r[b]
  {
    if n == 0 then []
    else
      var r := KeptIndices(changes, verdicts, n - 1);
      if Kept(changes, verdicts, n - 1) then r + [n - 1] else r
  }

  function Select(changes: seq<Change>, indices: seq<nat>): seq<Change>
    requires forall j :: 0 <= j < |indices| ==> indices[j] < |changes|
  {
    seq(|indices|, j requires 0 <= j < |indices| => changes[indices[j]])
  }

  function Gated(changes: seq<Change>, verdicts: seq<Verdict>): seq<Change> {
    Select(changes, KeptIndices(changes, verdicts, |changes|))
  }

  predicate AllPass(verdicts: seq<Verdict>) {
    forall v :: v in verdicts ==> v.pass
  }

  /** Whether each change survives, by its own position in the gate's list. */
  method PassedByChange(changes: seq<Change>, passByIndex: seq<bool>, ghost verdicts: seq<Verdict>)
    returns (passed: seq<bool>)
    requires |passByIndex| == |verdicts| && forall k :: 0 <= k < |verdicts| ==> passByIndex[k] == verdicts[k].pass
    ensures |passed| == |changes| && forall k :: 0 <= k < |changes| ==> passed[k] == Kept(changes, verdicts, k)
  {
    var verifyIndex := 0;
    passed := [];
    for i := 0 to |changes|
      invariant verifyIndex == GateIndex(changes, i)
      invariant |passed| == i && forall k :: 0 <= k < i ==> passed[k] == Kept(changes, verdicts, k)
    {
      var c := changes[i];
      var pass := verifyIndex < |passByIndex| && passByIndex[verifyIndex];
      if c.action == RemoveAction {
        if c.recreate && i + 1 < |changes| && changes[i + 1].recreate && changes[i + 1].action == CreateAction {
          passed := passed + [pass];
        } else {
          passed := passed + [true];
        }
        continue;
      }
      passed := passed + [pass];
      verifyIndex := verifyIndex + 1;
    }
  }

  lemma SelectOneMore(changes: seq<Change>, verdicts: seq<Verdict>, i: nat)
    requires i < |changes|
    ensures Select(changes, KeptIndices(changes, verdicts, i + 1))
            == Select(changes, KeptIndices(changes, verdicts, i))
               + if Kept(changes, verdicts, i) then [changes[i]] else []
  {
  }

  method Verify(changes: seq<Change>, verdicts: seq<Verdict>) returns (passed: seq<Change>, allPassed: bool)
    ensures passed == Gated(changes, verdicts) && allPassed == AllPass(verdicts)
  {
    allPassed := true;
    var passByIndex: seq<bool> := [];
    for i := 0 to |verdicts|
      invariant |passByIndex| == i && forall k :: 0 <= k < i ==> passByIndex[k] == verdicts[k].pass
      invariant allPassed == forall k :: 0 <= k < i ==> verdicts[k].pass
    {
      if !verdicts[i].pass { allPassed := false; }
      passByIndex := passByIndex + [verdicts[i].pass];
    }
    var passedByChange := PassedByChange(changes, passByIndex, verdicts);
    passed := [];
    for i := 0 to |changes|
      invariant passed == Select(changes, KeptIndices(changes, verdicts, i))
    {
      SelectOneMore(changes, verdicts, i);
      if passedByChange[i] {
        passed := passed + [changes[i]];
      }
    }
  }

  lemma {:induction false} GateListLength(changes: seq<Change>)
    ensures |ToVerify(changes)| == GateIndex(changes, |changes|)
  {
    if changes != [] {
      var init := changes[..|changes| - 1];
      GateListLength(init);
      GateIndexPrefix(changes, |init|, |init|);
    }
  }

  lemma {:induction false} GateIndexPrefix(changes: seq<Change>, n: nat, i: nat)
    requires i <= n <= |changes|
    ensures GateIndex(changes[..n], i) == GateIndex(changes, i)
  {
    if i > 0 { GateIndexPrefix(changes, n, i - 1); }
  }

  lemma {:induction false} GateIndexGrows(changes: seq<Change>, i: nat, j: nat)
    requires i <= j <= |changes|
    ensures GateIndex(changes, i) <= GateIndex(changes, j)
    ensures i < j && changes[i].action != RemoveAction ==> GateIndex(changes, i) < GateIndex(changes, j)
    decreases j
  {
    if i < j { GateIndexGrows(changes, i, j - 1); }
  }

  /** The verdict consulted for a create or update was given for that very change. */
  lemma {:induction false} GateIndexIsOwn(changes: seq<Change>, i: nat)
    requires i < |changes| && changes[i].action != RemoveAction
    ensures GateIndex(changes, i) < |ToVerify(changes)| && ToVerify(changes)[GateIndex(changes, i)] == changes[i]
    decreases |changes|
  {
    var n := |changes| - 1;
    var init := changes[..n];
    GateListLength(init);
    GateIndexPrefix(changes, n, n);
    GateIndexPrefix(changes, n, i);
    if i < n { GateIndexIsOwn(init, i); }
  }

  /** Every survivor sits at a position of its own whose rule it passed; what passes is a subsequence. */
  ghost predicate SafelyGated(changes: seq<Change>, verdicts: seq<Verdict>, passed: seq<Change>, at: seq<nat>) {
    && |at| == |passed|
    && (forall a, b :: 0 <= a < b < |at| ==> at[a] < at[b])
    && (forall a :: 0 <= a < |at| ==> at[a] < |changes| && passed[a] == changes[at[a]])
    && (forall i :: 0 <= i < |changes| ==> (i in at <==> Kept(changes, verdicts, i)))
  }

  lemma GatedIsSafe(changes: seq<Change>, verdicts: seq<Verdict>)
    ensures SafelyGated(changes, verdicts, Gated(changes, verdicts), KeptIndices(changes, verdicts, |changes|))
  {
  }

  lemma PairKeptWhole(changes: seq<Change>, verdicts: seq<Verdict>, i: int)
    requires PairAt(changes, i)
    ensures Kept(changes, verdicts, i) == Kept(changes, verdicts, i + 1)
  {
  }

  /**
   A change is created or updated exactly when the verdict given for that very change passes, no
   matter what became of the others, and not when the list is too short to hold one; a plain
   removal always stays; a recreate removal stays exactly with its creation.
   */
  lemma GateSafety(changes: seq<Change>, verdicts: seq<Verdict>, i: nat)
    requires WellPlanned(changes) && i < |changes|
    ensures SafelyGated(changes, verdicts, Gated(changes, verdicts), KeptIndices(changes, verdicts, |changes|))
    ensures changes[i].action != RemoveAction ==>
              var k := GateIndex(changes, i);
              && k < |ToVerify(changes)| && ToVerify(changes)[k] == changes[i]
              && (Kept(changes, verdicts, i) <==> k < |verdicts| && verdicts[k].pass)
    ensures changes[i].action == RemoveAction && !changes[i].recreate ==> Kept(changes, verdicts, i)
    ensures changes[i].action == RemoveAction && changes[i].recreate ==>
              i + 1 < |changes| && changes[i + 1].spec.name == changes[i].spec.name
              && changes[i + 1].action == CreateAction
              && Kept(changes, verdicts, i) == Kept(changes, verdicts, i + 1)
  {
    GatedIsSafe(changes, verdicts);
    if changes[i].action != RemoveAction {
      GateIndexIsOwn(changes, i);
    } else if changes[i].recreate {
      assert RecreateAt(changes, i);
      PairKeptWhole(changes, verdicts, i);
    }
  }

  lemma KeptWhenAllPass(changes: seq<Change>, verdicts: seq<Verdict>, i: nat)
    requires |verdicts| >= |ToVerify(changes)| && AllPass(verdicts) && i < |changes|
    ensures Kept(changes, verdicts, i)
  {
    var j := if changes[i].action == RemoveAction then i + 1 else i;
    if changes[i].action != RemoveAction || OpensPair(changes, i) {
      GateIndexIsOwn(changes, j);
      assert verdicts[GateIndex(changes, j)] in verdicts;
    }
  }

  /** One passing verdict per change keeps the whole plan. */
  lemma FullVerdictsKeepAll(changes: seq<Change>, verdicts: seq<Verdict>)
    requires |verdicts| >= |ToVerify(changes)| && AllPass(verdicts)
    ensures Gated(changes, verdicts) == changes
  {
    forall i | 0 <= i < |changes| ensures Kept(changes, verdicts, i) {
      KeptWhenAllPass(changes, verdicts, i);
    }
    AllKept(changes, verdicts, |changes|);
    assert forall k :: 0 <= k < |changes| ==> Gated(changes, verdicts)[k] == changes[k];
  }

  lemma {:induction false} AllKept(changes: seq<Change>, verdicts: seq<Verdict>, n: nat)
    requires n <= |changes| && forall i :: 0 <= i < n ==> Kept(changes, verdicts, i)
    ensures |KeptIndices(changes, verdicts, n)| == n
    ensures forall k :: 0 <= k < n ==> KeptIndices(changes, verdicts, n)[k] == k
  {
    if n > 0 { AllKept(changes, verdicts, n - 1); }
  }

  lemma LastToVerify(changes: seq<Change>, n: nat) returns (i: nat)
    requires n <= |changes| && GateIndex(changes, n) > 0
    ensures i < n && changes[i].action != RemoveAction && GateIndex(changes, i) == GateIndex(changes, n) - 1
  {
    if changes[n - 1].action != RemoveAction {
      i := n - 1;
    } else {
      i := LastToVerify(changes, n - 1);
    }
  }

  /** How many of the first n changes survive. */
  function KeptCount(changes: seq<Change>, verdicts: seq<Verdict>, n: nat): nat
    requires n <= |changes|
  {
    if n == 0 then 0 else KeptCount(changes, verdicts, n - 1) + if Kept(changes, verdicts, n - 1) then 1 else 0
  }

  lemma {:induction false} KeptLength(changes: seq<Change>, verdicts: seq<Verdict>, n: nat)
    requires n <= |changes|
    ensures |KeptIndices(changes, verdicts, n)| == KeptCount(changes, verdicts, n) <= n
  {
    if n > 0 { KeptLength(changes, verdicts, n - 1); }
  }

  lemma {:induction false} DropsShorten(changes: seq<Change>, verdicts: seq<Verdict>, n: nat, i: nat)
    requires i < n <= |changes| && !Kept(changes, verdicts, i)
    ensures KeptCount(changes, verdicts, n) < n
    decreases n
  {
    KeptLength(changes, verdicts, n - 1);
    if i < n - 1 { DropsShorten(changes, verdicts, n - 1, i); }
  }

  /** Without a rejection the whole plan passes if and only if there is a verdict for every change that needs one. */
  lemma PassesWholeExactly(changes: seq<Change>, verdicts: seq<Verdict>)
    requires AllPass(verdicts)
    ensures Gated(changes, verdicts) == changes <==> |verdicts| >= |ToVerify(changes)|
  {
    GateListLength(changes);
    if |verdicts| >= |ToVerify(changes)| {
      FullVerdictsKeepAll(changes, verdicts);
    } else {
      var i := LastToVerify(changes, |changes|);
      assert !Kept(changes, verdicts, i);
      DropsShorten(changes, verdicts, |changes|, i);
      KeptLength(changes, verdicts, |changes|);
    }
  }

  /** A verdict list that is too short rejects silently: changes are dropped although nothing was rejected. */
  lemma ShortVerdictsDropSilently(s: ServiceSpec)
    ensures Gated([CreateOf(s)], []) == [] && AllPass([])
  {
    assert KeptIndices([CreateOf(s)], [], 1) == [];
  }

  /** Neighbours that are both kept stay neighbours. */
  lemma AdjacentStayAdjacent(at: seq<nat>, a: nat, b: nat)
    requires forall x, y :: 0 <= x < y < |at| ==> at[x] < at[y]
    requires a < |at| && b < |at| && at[b] == at[a] + 1
    ensures b == a + 1
  {
    if a + 1 < |at| { assert at[a] < at[a + 1]; }
  }

  lemma PairSurvives(changes: seq<Change>, verdicts: seq<Verdict>, i: int, kept: int) returns (a: nat)
    requires PairAt(changes, i) && (kept == i || kept == i + 1)
    requires Kept(changes, verdicts, kept)
    ensures var at := KeptIndices(changes, verdicts, |changes|);
      a + 1 < |at| && at[a] == i && at[a + 1] == i + 1 && PairAt(Gated(changes, verdicts), a)
  {
    PairKeptWhole(changes, verdicts, i);
    var at := KeptIndices(changes, verdicts, |changes|);
    assert i in at && i + 1 in at;
    a :| 0 <= a < |at| && at[a] == i;
    var b :| 0 <= b < |at| && at[b] == i + 1;
    AdjacentStayAdjacent(at, a, b);
    var passed := Gated(changes, verdicts);
    assert passed[a] == changes[i] && passed[a + 1] == changes[i + 1];
  }

  lemma SameIndexSamePlace(at: seq<nat>, a: nat, b: nat)
    requires forall x, y :: 0 <= x < y < |at| ==> at[x] < at[y]
    requires a < |at| && b < |at| && at[a] == at[b]
    ensures a == b
  {
  }

  lemma GatedTwins(changes: seq<Change>, verdicts: seq<Verdict>, a: int, b: int)
    requires WellPlanned(changes) && Twins(Gated(changes, verdicts), a, b)
    ensures b == a + 1 && PairAt(Gated(changes, verdicts), a)
  {
    GatedIsSafe(changes, verdicts);
    var at := KeptIndices(changes, verdicts, |changes|);
    assert at[a] in at && at[b] in at;
    assert Twins(changes, at[a], at[b]);
    AdjacentStayAdjacent(at, a, b);
  }

  lemma GatedRecreate(changes: seq<Change>, verdicts: seq<Verdict>, a: int)
    requires WellPlanned(changes) && RecreateAt(Gated(changes, verdicts), a)
    ensures PairAt(Gated(changes, verdicts), PairStart(Gated(changes, verdicts), a))
  {
    GatedIsSafe(changes, verdicts);
    var at := KeptIndices(changes, verdicts, |changes|);
    assert at[a] in at;
    assert RecreateAt(changes, at[a]);
    var start := PairStart(changes, at[a]);
    var b := PairSurvives(changes, verdicts, start, at[a]);
    SameIndexSamePlace(at, a, if at[a] == start then b else b + 1);
  }

  /** Gating leaves a well-shaped plan well-shaped: pairs are kept or dropped whole. */
  lemma GatedWellPlanned(changes: seq<Change>, verdicts: seq<Verdict>)
    requires WellPlanned(changes)
    ensures WellPlanned(Gated(changes, verdicts))
  {
    var passed := Gated(changes, verdicts);
    forall a, b | Twins(passed, a, b) ensures b == a + 1 && PairAt(passed, a) {
      GatedTwins(changes, verdicts, a, b);
    }
    forall a | RecreateAt(passed, a) ensures PairAt(passed, PairStart(passed, a)) {
      GatedRecreate(changes, verdicts, a);
    }
  }

  // ---- changesToAwaitDiff ----

  function AwaitDiff(changes: seq<Change>): Changes {
    if changes == [] then Changes([], [], [])
    else
      var d := AwaitDiff(changes[..|changes| - 1]);
      var c := changes[|changes| - 1];
      match c.action
      case CreateAction => d.(creates := d.creates + [c.spec])
      case UpdateAction => d.(updates := d.updates + [Update(c.spec.name, ZERO_SPEC, c.spec, [])])
      case RemoveAction => if c.recreate then d else d.(removes := d.removes + [c.spec])
  }

  method ChangesToAwaitDiff(changes: seq<Change>) returns (d: Changes)
    ensures d == AwaitDiff(changes)
  {
    d := Changes([], [], []);
    for i := 0 to |changes|
      invariant d == AwaitDiff(changes[..i])
    {
      var c := changes[i];
      assert changes[..i + 1][..i] == changes[..i];
      match c.action {
        case CreateAction => d := d.(creates := d.creates + [c.spec]);
        case UpdateAction => d := d.(updates := d.updates + [Update(c.spec.name, ZERO_SPEC, c.spec, [])]);
        case RemoveAction =>
          if !c.recreate { d := d.(removes := d.removes + [c.spec]); }
      }
    }
    assert changes[..|changes|] == changes;
  }

  ghost predicate Holds(changes: seq<Change>, action: Action, recreate: bool, s: ServiceSpec) {
    exists i :: 0 <= i < |changes| && changes[i].action == action && changes[i].spec == s
                && (action == RemoveAction ==> changes[i].recreate == recreate)
  }

  /** What is awaited is what was planned: creations present, updates present, plain removals absent. */
  lemma {:induction false} AwaitedFromPlan(changes: seq<Change>)
    ensures forall s :: s in AwaitDiff(changes).creates <==> Holds(changes, CreateAction, false, s)
    ensures forall u :: u in AwaitDiff(changes).updates ==>
              u.name == u.wanted.name && Holds(changes, UpdateAction, false, u.wanted)
    ensures forall s :: Holds(changes, UpdateAction, false, s) ==>
              Update(s.name, ZERO_SPEC, s, []) in AwaitDiff(changes).updates
    ensures forall s :: s in AwaitDiff(changes).removes <==> Holds(changes, RemoveAction, false, s)
  {
    if changes != [] {
      var init, c := changes[..|changes| - 1], changes[|changes| - 1];
      AwaitedFromPlan(init);
      assert changes == init + [c];
      forall action, s
        ensures Holds(changes, action, false, s)
                <==> Holds(init, action, false, s)
                     || (c.action == action && c.spec == s && (action == RemoveAction ==> !c.recreate))
      {
        if Holds(init, action, false, s) {
          var i :| 0 <= i < |init| && init[i].action == action && init[i].spec == s
                   && (action == RemoveAction ==> init[i].recreate == false);
          assert changes[i] == init[i];
        }
        if c.action == action && c.spec == s { assert changes[|init|] == c; }
      }
    }
  }

  /** No service is awaited both as present and as absent. */
  lemma AwaitIsConsistent(changes: seq<Change>)
    requires WellPlanned(changes)
    ensures var d := AwaitDiff(changes);
      forall r :: r in d.removes ==>
        (forall s :: s in d.creates ==> s.name != r.name) && (forall u :: u in d.updates ==> u.name != r.name)
  {
    AwaitedFromPlan(changes);
    var d := AwaitDiff(changes);
    forall r, action, s | r in d.removes && action != RemoveAction && Holds(changes, action, false, s)
      ensures s.name != r.name
    {
      var i :| 0 <= i < |changes| && changes[i].action == RemoveAction && changes[i].spec == r && !changes[i].recreate;
      var j :| 0 <= j < |changes| && changes[j].action == action && changes[j].spec == s;
      if s.name == r.name {
        assert if i < j then Twins(changes, i, j) else Twins(changes, j, i);
      }
    }
  }
}
