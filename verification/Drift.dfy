/** Drift attribution across cycles (internal/loop/drift.go), with hints arriving at any moment. */
module Drift {
  import opened Basics
  import opened Diff
  import opened Ordering
  import opened Spec

  // ---- What drifted ----

  datatype Kind = Removed | Unmanaged | Modified(field: Field)

  datatype Item = Item(service: string, kind: Kind)

  datatype DriftEvent = DriftEvent(service: string, kind: Kind, fromEvent: bool)

  predicate Reportable(f: Field) {
    f == Image || f == Replicas || f == Env
  }

  /** The first reportable field, if any. */
  function DriftKind(changed: seq<Field>): Option<Field> {
    if changed == [] then None
    else if Reportable(changed[0]) then Some(changed[0])
    else DriftKind(changed[1..])
  }

  method DriftKindForUpdate(changed: seq<Field>) returns (kind: Option<Field>)
    ensures kind == DriftKind(changed)
  {
    for i := 0 to |changed|
      invariant DriftKind(changed) == DriftKind(changed[i..])
    {
      if Reportable(changed[i]) { return Some(changed[i]); }
    }
    kind := None;
  }

  lemma {:induction false} DriftKindConcat(a: seq<Field>, b: seq<Field>)
    ensures DriftKind(a + b) == if DriftKind(a).Some? then DriftKind(a) else DriftKind(b)
  {
    if a == [] {
      assert a + b == b;
    } else {
      assert (a + b)[1..] == a[1..] + b;
      DriftKindConcat(a[1..], b);
    }
  }

  lemma {:induction false} NoneReportable(fields: seq<Field>, want: ServiceSpec, have: ServiceSpec)
    requires forall f :: f in fields ==> !Reportable(f)
    ensures DriftKind(Differing(fields, want, have)) == None
  {
    if fields != [] {
      var init, f := fields[..|fields| - 1], fields[|fields| - 1];
      NoneReportable(init, want, have);
      DriftKindConcat(Differing(init, want, have), [f]);
    }
  }

  /** Of the differing fields the image is reported first, then the replicas, then the environment. */
  lemma DriftKindPriority(want: ServiceSpec, have: ServiceSpec)
    ensures DriftKind(ChangedFields(want, have))
            == if Differs(Image, want, have) then Some(Image)
               else if Differs(Replicas, want, have) then Some(Replicas)
               else if Differs(Env, want, have) then Some(Env)
               else None
  {
    DifferingConcat(FIRST_FIELDS, OTHER_FIELDS, want, have);
    OtherFieldsSilent(want, have);
    DriftKindConcat(Differing(FIRST_FIELDS, want, have), Differing(OTHER_FIELDS, want, have));
    HeadKind(want, have);
  }

  lemma OtherFieldsSilent(want: ServiceSpec, have: ServiceSpec)
    ensures DriftKind(Differing(OTHER_FIELDS, want, have)) == None
  {
    NoneReportable(OTHER_FIELDS, want, have);
  }

  lemma HeadKind(want: ServiceSpec, have: ServiceSpec)
    ensures DriftKind(Differing(FIRST_FIELDS, want, have))
            == if Differs(Image, want, have) then Some(Image)
               else if Differs(Replicas, want, have) then Some(Replicas)
               else if Differs(Env, want, have) then Some(Env)
               else None
  {
    HeadFields(want, have);
    KindOfFirst(Differs(Image, want, have), Differs(Replicas, want, have), Differs(Env, want, have));
  }

  lemma KindOfFirst(image: bool, replicas: bool, env: bool)
    ensures DriftKind((if image then [Image] else []) + (if replicas then [Replicas] else [])
                      + (if env then [Env] else []))
            == if image then Some(Image) else if replicas then Some(Replicas) else if env then Some(Env) else None
  {
  }

  lemma HeadFields(want: ServiceSpec, have: ServiceSpec)
    ensures Differing(FIRST_FIELDS, want, have)
            == (if Differs(Image, want, have) then [Image] else [])
               + (if Differs(Replicas, want, have) then [Replicas] else [])
               + (if Differs(Env, want, have) then [Env] else [])
  {
    assert FIRST_FIELDS[..2] == [Image, Replicas];
    assert [Image, Replicas][..1] == [Image];
    assert [Image][..0] == [];
    assert Differing([Image], want, have) == if Differs(Image, want, have) then [Image] else [];
  }

  lemma {:induction false} DifferingConcat(a: seq<Field>, b: seq<Field>, want: ServiceSpec, have: ServiceSpec)
    ensures Differing(a + b, want, have) == Differing(a, want, have) + Differing(b, want, have)
    decreases |b|
  {
    if b == [] {
      assert a + b == a;
    } else {
      DifferingConcat(a, b[..|b| - 1], want, have);
      assert (a + b)[..|a + b| - 1] == a + b[..|b| - 1];
    }
  }

  function ReportedUpdates(updates: seq<Update>): seq<Item> {
    if updates == [] then []
    else
      var u := updates[|updates| - 1];
      ReportedUpdates(updates[..|updates| - 1])
        + if DriftKind(u.changed).Some? then [Item(u.name, Modified(DriftKind(u.changed).value))] else []
  }

  function RemovedItem(s: ServiceSpec): Item { Item(s.name, Removed) }
  function UnmanagedItem(s: ServiceSpec): Item { Item(s.name, Unmanaged) }

  /** One item per drifted service: missing ones, changed ones with a reportable field, unwanted ones. */
  function DriftItems(d: Changes): seq<Item> {
    Map(d.creates, RemovedItem) + ReportedUpdates(d.updates) + Map(d.removes, UnmanagedItem)
  }

  ghost predicate DistinctServices(items: seq<Item>) {
    forall i, j :: 0 <= i < j < |items| ==> items[i].service != items[j].service
  }

  lemma {:induction false} ReportedNames(updates: seq<Update>)
    requires Increasing(Map(updates, UpdateName))
    ensures DistinctServices(ReportedUpdates(updates))
    ensures forall i :: i in ReportedUpdates(updates) ==> i.service in Map(updates, UpdateName)
  {
    if updates != [] {
      var n := |updates| - 1;
      var init, u := updates[..n], updates[n];
      var names := Map(updates, UpdateName);
      assert Map(init, UpdateName) == names[..n];
      ReportedNames(init);
      forall i | 0 <= i < |ReportedUpdates(init)|
        ensures ReportedUpdates(init)[i].service != u.name
      {
        assert ReportedUpdates(init)[i] in ReportedUpdates(init);
        var k :| 0 <= k < n && names[..n][k] == ReportedUpdates(init)[i].service;
        assert Lt(names[k], names[n]);
      }
      assert names[n] == u.name && u.name in names;
      forall i | i in ReportedUpdates(updates) ensures i.service in names {
        if i in ReportedUpdates(init) { assert i.service in names[..n]; }
      }
    }
  }

  lemma IncreasingDistinct(specs: seq<ServiceSpec>, make: ServiceSpec -> Item)
    requires Increasing(Map(specs, SpecName)) && forall s :: make(s).service == s.name
    ensures DistinctServices(Map(specs, make))
    ensures forall i :: i in Map(specs, make) ==> i.service in Map(specs, SpecName)
  {
    var names := Map(specs, SpecName);
    forall i, j | 0 <= i < j < |specs| ensures make(specs[i]).service != make(specs[j]).service {
      assert Lt(names[i], names[j]);
    }
    forall i | 0 <= i < |specs| ensures make(specs[i]).service in names {
      assert names[i] == make(specs[i]).service;
    }
  }

  lemma ConcatDistinct(a: seq<Item>, b: seq<Item>)
    requires DistinctServices(a) && DistinctServices(b)
    requires forall x, y :: x in a && y in b ==> x.service != y.service
    ensures DistinctServices(a + b)
  {
    var c := a + b;
    forall i, j | 0 <= i < j < |c| ensures c[i].service != c[j].service {
      if i < |a| <= j { assert a[i] in a && b[j - |a|] in b; }
    }
  }

  /** A diff reports each service at most once. */
  lemma DriftItemsDistinct(d: Changes, desired: Services, observed: Services)
    requires Classifies(d, desired, observed)
    ensures DistinctServices(DriftItems(d))
  {
    IncreasingDistinct(d.creates, RemovedItem);
    IncreasingDistinct(d.removes, UnmanagedItem);
    ReportedNames(d.updates);
    var c, u, r := Map(d.creates, RemovedItem), ReportedUpdates(d.updates), Map(d.removes, UnmanagedItem);
    ConcatDistinct(c, u);
    forall x: Item, y: Item | x in c + u && y in r ensures x.service != y.service {
      assert x in c || x in u;
    }
    ConcatDistinct(c + u, r);
  }

  /** What a drift event says of a service, told from the two specs alone. */
  ghost predicate IsDrift(i: Item, desired: Services, observed: Services) {
    match i.kind
    case Removed => i.service in desired && i.service !in observed
    case Unmanaged => i.service in observed && i.service !in desired
    case Modified(f) =>
      && i.service in desired && i.service in observed
      && var want, have := desired[i.service], observed[i.service];
        || (f == Image && want.image != have.image)
        || (f == Replicas && want.image == have.image && want.replicas != have.replicas)
        || (f == Env && want.image == have.image && want.replicas == have.replicas && Entries(want.env) != Entries(have.env))
  }

  function KindRank(k: Kind): nat {
    match k case Removed => 0 case Modified(_) => 1 case Unmanaged => 2
  }

  /** Missing services come first, then modified ones, then unwanted ones, by name within each. */
  ghost predicate InItemOrder(items: seq<Item>) {
    forall i, j :: 0 <= i < j < |items| ==>
      || KindRank(items[i].kind) < KindRank(items[j].kind)
      || (KindRank(items[i].kind) == KindRank(items[j].kind) && Lt(items[i].service, items[j].service))
  }

  lemma {:induction false} ReportedExactly(updates: seq<Update>, i: Item)
    ensures i in ReportedUpdates(updates)
       <==> exists u :: u in updates && u.name == i.service && i.kind.Modified? && DriftKind(u.changed) == Some(i.kind.field)
  {
    if updates != [] {
      var init, last := updates[..|updates| - 1], updates[|updates| - 1];
      ReportedExactly(init, i);
      assert updates == init + [last];
    }
  }

  lemma SinglesReported(specs: seq<ServiceSpec>, make: ServiceSpec -> Item, i: Item)
    requires forall s :: make(s).service == s.name && make(s).kind == make(ZERO_SPEC).kind
    ensures i in Map(specs, make) <==> i.kind == make(ZERO_SPEC).kind && i.service in Map(specs, SpecName)
  {
    var items, names := Map(specs, make), Map(specs, SpecName);
    if i in items {
      var k :| 0 <= k < |items| && items[k] == i;
      assert names[k] == i.service;
    }
    if i.kind == make(ZERO_SPEC).kind && i.service in names {
      var k :| 0 <= k < |names| && names[k] == i.service;
      assert items[k] == i;
    }
  }

  lemma ModifiedReported(d: Changes, desired: Services, observed: Services, i: Item)
    requires Classifies(d, desired, observed) && i.kind.Modified?
    ensures i in ReportedUpdates(d.updates) <==> IsDrift(i, desired, observed)
  {
    ReportedExactly(d.updates, i);
    if i in ReportedUpdates(d.updates) {
      var u :| u in d.updates && u.name == i.service && DriftKind(u.changed) == Some(i.kind.field);
      assert UpdateDescribes(u, desired, observed);
      KindReports(i, desired, observed);
    }
    if IsDrift(i, desired, observed) {
      KindReports(i, desired, observed);
      ReportedDiverges(i, desired, observed);
      assert i.service in Map(d.updates, UpdateName);
      var k :| 0 <= k < |d.updates| && Map(d.updates, UpdateName)[k] == i.service;
      assert d.updates[k] in d.updates && UpdateDescribes(d.updates[k], desired, observed);
    }
  }

  lemma KindReports(i: Item, desired: Services, observed: Services)
    requires i.kind.Modified? && i.service in desired && i.service in observed
    ensures DriftKind(ChangedFields(desired[i.service], observed[i.service])) == Some(i.kind.field)
       <==> IsDrift(i, desired, observed)
  {
    DriftKindPriority(desired[i.service], observed[i.service]);
  }

  lemma ReportedDiverges(i: Item, desired: Services, observed: Services)
    requires i.kind.Modified? && IsDrift(i, desired, observed)
    ensures !Matches(desired[i.service], observed[i.service])
  {
  }

  lemma ConcatInOrder(a: seq<Item>, b: seq<Item>)
    requires InItemOrder(a) && InItemOrder(b)
    requires forall x, y :: x in a && y in b ==> KindRank(x.kind) < KindRank(y.kind)
    ensures InItemOrder(a + b)
  {
    var c := a + b;
    forall i, j | 0 <= i < j < |c|
      ensures KindRank(c[i].kind) < KindRank(c[j].kind)
              || (KindRank(c[i].kind) == KindRank(c[j].kind) && Lt(c[i].service, c[j].service))
    {
      if i < |a| <= j { assert a[i] in a && b[j - |a|] in b; }
    }
  }

  lemma {:induction false} ReportedInOrder(updates: seq<Update>)
    requires Increasing(Map(updates, UpdateName))
    ensures InItemOrder(ReportedUpdates(updates)) && forall i :: i in ReportedUpdates(updates) ==> i.kind.Modified?
    ensures forall i :: i in ReportedUpdates(updates) ==> i.service in Map(updates, UpdateName)
  {
    if updates != [] {
      var n, names := |updates| - 1, Map(updates, UpdateName);
      var init := updates[..n];
      assert Map(init, UpdateName) == names[..n] && names[n] == updates[n].name;
      BelowLast(names);
      ReportedInOrder(init);
      if DriftKind(updates[n].changed).Some? {
        ItemsNext(ReportedUpdates(init), Item(updates[n].name, Modified(DriftKind(updates[n].changed).value)), names);
      } else {
        assert ReportedUpdates(updates) == ReportedUpdates(init);
        assert forall x :: x in names[..n] ==> x in names;
      }
    }
  }

  lemma ItemsNext(items: seq<Item>, last: Item, names: seq<string>)
    requires InItemOrder(items) && last.kind.Modified? && forall i :: i in items ==> i.kind.Modified?
    requires names != [] && last.service == names[|names| - 1]
    requires forall i :: i in items ==> i.service in names[..|names| - 1] && Lt(i.service, last.service)
    ensures InItemOrder(items + [last]) && forall i :: i in items + [last] ==> i.kind.Modified? && i.service in names
  {
    var c := items + [last];
    forall i, j | 0 <= i < j < |c|
      ensures KindRank(c[i].kind) < KindRank(c[j].kind)
              || (KindRank(c[i].kind) == KindRank(c[j].kind) && Lt(c[i].service, c[j].service))
    {
      assert c[i] in items;
    }
  }

  lemma SinglesInOrder(specs: seq<ServiceSpec>, make: ServiceSpec -> Item)
    requires Increasing(Map(specs, SpecName))
    requires forall s :: make(s).service == s.name && make(s).kind == make(ZERO_SPEC).kind
    ensures InItemOrder(Map(specs, make))
  {
    var names := Map(specs, SpecName);
    forall i, j | 0 <= i < j < |specs| ensures Lt(make(specs[i]).service, make(specs[j]).service) {
      assert Lt(names[i], names[j]);
    }
  }

  lemma DriftItemsInOrder(d: Changes, desired: Services, observed: Services)
    requires Classifies(d, desired, observed)
    ensures InItemOrder(DriftItems(d))
  {
    SinglesInOrder(d.creates, RemovedItem);
    SinglesInOrder(d.removes, UnmanagedItem);
    ReportedInOrder(d.updates);
    var c, u, r := Map(d.creates, RemovedItem), ReportedUpdates(d.updates), Map(d.removes, UnmanagedItem);
    ConcatInOrder(c, u);
    forall x: Item, y: Item | x in c + u && y in r ensures KindRank(x.kind) < KindRank(y.kind) {
      assert x in c || x in u;
    }
    ConcatInOrder(c + u, r);
  }

  /** A diff reports exactly what its two sides show. */
  lemma DriftItemsExactly(d: Changes, desired: Services, observed: Services, i: Item)
    requires Classifies(d, desired, observed)
    ensures i in DriftItems(d) <==> IsDrift(i, desired, observed)
  {
    SinglesReported(d.creates, RemovedItem, i);
    SinglesReported(d.removes, UnmanagedItem, i);
    ReportedExactly(d.updates, i);
    if i.kind.Modified? { ModifiedReported(d, desired, observed, i); }
    var c, u, r := Map(d.creates, RemovedItem), ReportedUpdates(d.updates), Map(d.removes, UnmanagedItem);
    assert i in c + u + r <==> i in c || i in u || i in r;
  }

  // ---- The state kept across cycles ----

  datatype Memory = Memory(lastCommit: string, lastCycleStart: int, hints: map<string, int>)

  /** Go's zero time: what the first cycle compares hints against. */
  const ZERO_TIME := 0

  const NEW_MEMORY := Memory("", ZERO_TIME, map[])

  predicate SameCommit(m: Memory, sha: string) {
    m.lastCommit != "" && m.lastCommit == sha
  }

  /** A hint recorded after since is pending. */
  predicate Fresh(hints: map<string, int>, service: string, since: int) {
    service in hints && hints[service] > since
  }

  datatype Hint = Hint(service: string, at: int)

  /**
   The hints that come in while a cycle runs, as the moments that matter tell them apart: before
   its first drift event, between one and the next, and after the last.
   */
  type Arrivals = seq<seq<Hint>>

  function FirstOf(arrivals: Arrivals): seq<Hint> {
    if arrivals == [] then [] else arrivals[0]
  }

  function LaterOf(arrivals: Arrivals): Arrivals {
    if arrivals == [] then [] else arrivals[1..]
  }

  function Recorded(hints: map<string, int>, more: seq<Hint>): map<string, int>
    decreases |more|
  {
    if more == [] then hints
    else
      var last := more[|more| - 1];
      Recorded(hints, more[..|more| - 1])[last.service := last.at]
  }

  function RecordedAll(hints: map<string, int>, arrivals: Arrivals): map<string, int>
    decreases |arrivals|
  {
    if arrivals == [] then hints else RecordedAll(Recorded(hints, arrivals[0]), arrivals[1..])
  }

  function DriftEvents(items: seq<Item>, hints: map<string, int>, since: int, arrivals: Arrivals): seq<DriftEvent> {
    if items == [] then []
    else
      var i, now := items[0], Recorded(hints, FirstOf(arrivals));
      [DriftEvent(i.service, i.kind, Fresh(now, i.service, since))]
        + DriftEvents(items[1..], now - {i.service}, since, LaterOf(arrivals))
  }

  /** Each item gives one event, in order. */
  lemma {:induction false} EventPerItem(items: seq<Item>, hints: map<string, int>, since: int, arrivals: Arrivals)
    ensures var events := DriftEvents(items, hints, since, arrivals);
      |events| == |items|
      && forall k :: 0 <= k < |items| ==> Item(events[k].service, events[k].kind) == items[k]
    decreases |items|
  {
    if items != [] {
      EventPerItem(items[1..], Recorded(hints, FirstOf(arrivals)) - {items[0].service}, since, LaterOf(arrivals));
    }
  }

  /** Reporting a drift consumes the hint, fresh or not. */
  function HintsAfter(items: seq<Item>, hints: map<string, int>, arrivals: Arrivals): map<string, int> {
    if items == [] then RecordedAll(hints, arrivals)
    else HintsAfter(items[1..], Recorded(hints, FirstOf(arrivals)) - {items[0].service}, LaterOf(arrivals))
  }

  lemma DriftStep(items: seq<Item>, i: nat, hints: map<string, int>, since: int, arrivals: Arrivals)
    requires i < |items|
    ensures var item, now := items[i], Recorded(hints, FirstOf(arrivals));
      && DriftEvents(items[i..], hints, since, arrivals)
         == [DriftEvent(item.service, item.kind, Fresh(now, item.service, since))]
            + DriftEvents(items[i + 1..], now - {item.service}, since, LaterOf(arrivals))
      && HintsAfter(items[i..], hints, arrivals) == HintsAfter(items[i + 1..], now - {item.service}, LaterOf(arrivals))
  {
    assert items[i..][1..] == items[i + 1..];
  }

  lemma Regrouped(a: seq<DriftEvent>, b: seq<DriftEvent>, c: seq<DriftEvent>)
    ensures a + b + c == a + (b + c)
  {
  }

  class CycleState {
    var lastCommit: string
    var lastCycleStart: int
    var hints: map<string, int>

    function View(): Memory
      reads this
    {
      Memory(lastCommit, lastCycleStart, hints)
    }

    constructor ()
      ensures View() == NEW_MEMORY
    {
      lastCommit, lastCycleStart, hints := "", ZERO_TIME, map[];
    }

    method SameCommitAsLast(sha: string) returns (same: bool)
      ensures same == SameCommit(View(), sha)
    {
      same := lastCommit != "" && lastCommit == sha;
    }

    method SetLastCommit(sha: string)
      modifies this`lastCommit
      ensures lastCommit == sha
    {
      lastCommit := sha;
    }

    method RecordHint(service: string, at: int)
      modifies this`hints
      ensures hints == old(hints)[service := at]
    {
      hints := hints[service := at];
    }

    method BeginCycle(now: int) returns (prev: int)
      modifies this`lastCycleStart
      ensures prev == old(lastCycleStart) && lastCycleStart == now
    {
      prev := lastCycleStart;
      lastCycleStart := now;
    }

    method TakeHint(service: string, since: int) returns (pending: bool)
      modifies this`hints
      ensures pending == Fresh(old(hints), service, since)
      ensures hints == old(hints) - {service}
    {
      pending := service in hints && hints[service] > since;
      hints := hints - {service};
    }

    /** Hints from the event watcher. */
    method RecordHints(more: seq<Hint>)
      modifies this`hints
      ensures hints == Recorded(old(hints), more)
    {
      for i := 0 to |more|
        invariant hints == Recorded(old(hints), more[..i])
      {
        assert more[..i + 1][..i] == more[..i];
        RecordHint(more[i].service, more[i].at);
      }
      assert more[..|more|] == more;
    }

    method RecordArrivals(arrivals: Arrivals)
      modifies this`hints
      ensures hints == RecordedAll(old(hints), arrivals)
    {
      for i := 0 to |arrivals|
        invariant RecordedAll(hints, arrivals[i..]) == RecordedAll(old(hints), arrivals)
      {
        assert arrivals[i..][1..] == arrivals[i + 1..];
        RecordHints(arrivals[i]);
      }
      assert arrivals[|arrivals|..] == [];
    }

    /** One drift event, after the hints that come in before it. */
    method EmitItem(item: Item, since: int, more: seq<Hint>) returns (e: DriftEvent)
      modifies this`hints
      ensures e == DriftEvent(item.service, item.kind, Fresh(Recorded(old(hints), more), item.service, since))
      ensures hints == Recorded(old(hints), more) - {item.service}
    {
      RecordHints(more);
      var fromEvent := TakeHint(item.service, since);
      e := DriftEvent(item.service, item.kind, fromEvent);
    }

    method EmitItems(items: seq<Item>, since: int, arrivals: Arrivals) returns (events: seq<DriftEvent>)
      modifies this`hints
      ensures events == DriftEvents(items, old(hints), since, arrivals)
      ensures hints == HintsAfter(items, old(hints), arrivals)
    {
      events := [];
      var left := arrivals;
      for i := 0 to |items|
        invariant events + DriftEvents(items[i..], hints, since, left) == DriftEvents(items, old(hints), since, arrivals)
        invariant HintsAfter(items[i..], hints, left) == HintsAfter(items, old(hints), arrivals)
      {
        DriftStep(items, i, hints, since, left);
        ghost var before := events;
        var e := EmitItem(items[i], since, FirstOf(left));
        events := events + [e];
        left := LaterOf(left);
        Regrouped(before, [e], DriftEvents(items[i + 1..], hints, since, left));
      }
      assert items[|items|..] == [];
      RecordArrivals(left);
    }

    method EmitDrift(d: Changes, since: int, arrivals: Arrivals) returns (events: seq<DriftEvent>)
      modifies this`hints
      ensures events == DriftEvents(DriftItems(d), old(hints), since, arrivals)
      ensures hints == HintsAfter(DriftItems(d), old(hints), arrivals)
    {
      var items: seq<Item> := [];
      for i := 0 to |d.creates|
        invariant items == Map(d.creates[..i], RemovedItem)
        invariant hints == old(hints)
      {
        items := items + [Item(d.creates[i].name, Removed)];
      }
      assert d.creates[..|d.creates|] == d.creates;
      var updates: seq<Item> := [];
      for i := 0 to |d.updates|
        invariant updates == ReportedUpdates(d.updates[..i])
        invariant hints == old(hints)
      {
        assert d.updates[..i + 1][..i] == d.updates[..i];
        var kind := DriftKindForUpdate(d.updates[i].changed);
        if kind.None? { continue; }
        updates := updates + [Item(d.updates[i].name, Modified(kind.value))];
      }
      assert d.updates[..|d.updates|] == d.updates;
      var removes: seq<Item> := [];
      for i := 0 to |d.removes|
        invariant removes == Map(d.removes[..i], UnmanagedItem)
        invariant hints == old(hints)
      {
        removes := removes + [Item(d.removes[i].name, Unmanaged)];
      }
      assert d.removes[..|d.removes|] == d.removes;
      assert items + updates + removes == DriftItems(d);
      events := EmitItems(items + updates + removes, since, arrivals);
    }
  }
}
