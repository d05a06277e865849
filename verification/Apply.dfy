/** Units of work, and what carrying one out may do to the observed services. */
module Apply {
  import opened Diff
  import opened Settle
  import opened Spec

  datatype Action = CreateAction | UpdateAction | RemoveAction

  datatype Change = Change(action: Action, spec: ServiceSpec, configData: map<string, seq<bv8>>, recreate: bool)

  ghost predicate SameAt(n: string, a: Services, b: Services) {
    (n in a <==> n in b) && (n in a ==> a[n] == b[n])
  }

  /**
   The contract every applier meets, in terms of what a snapshot shows before and after:
   a failed change shows nothing, no other service is touched, a removed service is gone,
   and a settling spec that was created or updated matches what is then read back.
   */
  ghost predicate Step(c: Change, ok: bool, before: Services, after: Services) {
    && (!ok ==> after == before)
    && (forall n :: n != c.spec.name ==> SameAt(n, before, after))
    && (ok && c.action.RemoveAction? ==> c.spec.name !in after)
    && (ok && !c.action.RemoveAction? && Settling(c.spec) ==>
          c.spec.name in after && Matches(c.spec, after[c.spec.name]))
  }

  /** The real applier meets the contract exactly: a spec that does not settle does not match afterwards either. */
  ghost predicate ExactStep(c: Change, ok: bool, before: Services, after: Services) {
    && Step(c, ok, before, after)
    && (ok && !c.action.RemoveAction? ==>
          (c.spec.name in after && Matches(c.spec, after[c.spec.name]) <==> Settling(c.spec)))
  }

  /** The in-memory applier (internal/apply/fake.go): a plain map of specs with injected failures. */
  class FakeApplier {
    var applied: seq<Change>
    var failing: set<string>
    var current: Services

    constructor ()
      ensures applied == [] && failing == {} && current == map[]
    {
      applied, failing, current := [], {}, map[];
    }

    method Fail(name: string)
      modifies this`failing
      ensures failing == old(failing) + {name}
    {
      failing := failing + {name};
    }

    method Apply(c: Change) returns (ok: bool)
      modifies this`applied, this`current
      ensures ok == (c.spec.name !in failing)
      ensures applied == if ok then old(applied) + [c] else old(applied)
      ensures current == if ok then FakeStep(old(current), c) else old(current)
      ensures Step(c, ok, old(current), current)
    {
      if c.spec.name in failing { return false; }
      applied := applied + [c];
      match c.action {
        case CreateAction => current := current[c.spec.name := c.spec];
        case UpdateAction => current := current[c.spec.name := c.spec];
        case RemoveAction => current := current - {c.spec.name};
      }
      FakeMeetsContract(old(current), c);
      ok := true;
    }
  }

  function FakeStep(current: Services, c: Change): Services {
    if c.action.RemoveAction? then current - {c.spec.name} else current[c.spec.name := c.spec]
  }

  lemma MatchesItself(s: ServiceSpec)
    ensures Matches(s, s)
  {
  }

  lemma FakeMeetsContract(current: Services, c: Change)
    ensures Step(c, true, current, FakeStep(current, c))
  {
    MatchesItself(c.spec);
  }

  /** A snapshot refines the fake's map: the same names, each reading back as its spec. */
  ghost predicate Refines(observed: Services, fake: Services) {
    observed.Keys == fake.Keys && forall n :: n in fake ==> Matches(fake[n], observed[n])
  }

  /** Any applier that meets the contract keeps refining the fake, whichever changes succeed. */
  lemma {:induction false} ApplierRefinesFake(changes: seq<Change>, oks: seq<bool>, observed: seq<Services>,
                                              fake: Services)
    requires |oks| == |changes| && |observed| == |changes| + 1
    requires forall i :: 0 <= i < |changes| ==> Step(changes[i], oks[i], observed[i], observed[i + 1])
    requires forall c :: c in changes && !c.action.RemoveAction? ==> Settling(c.spec)
    requires Refines(observed[0], fake)
    ensures Refines(observed[|changes|], FakeRun(fake, changes, oks))
  {
    if changes != [] {
      var c := changes[0];
      assert Step(c, oks[0], observed[0], observed[1]) && c in changes;
      var fake' := if oks[0] then FakeStep(fake, c) else fake;
      forall n ensures n in observed[1] <==> n in fake' {
        if n != c.spec.name { assert SameAt(n, observed[0], observed[1]); }
      }
      assert observed[1].Keys == fake'.Keys;
      forall n | n in fake' ensures Matches(fake'[n], observed[1][n]) {
        if n != c.spec.name { assert SameAt(n, observed[0], observed[1]); }
      }
      forall i | 0 <= i < |changes| - 1
        ensures Step(changes[1..][i], oks[1..][i], observed[1..][i], observed[1..][i + 1])
      {
        assert Step(changes[i + 1], oks[i + 1], observed[i + 1], observed[i + 2]);
      }
      ApplierRefinesFake(changes[1..], oks[1..], observed[1..], fake');
    }
  }

  /** The fake's map after the changes that succeeded. */
  ghost function FakeRun(fake: Services, changes: seq<Change>, oks: seq<bool>): Services
    requires |oks| == |changes|
    decreases |changes|
  {
    if changes == [] then fake
    else FakeRun(if oks[0] then FakeStep(fake, changes[0]) else fake, changes[1..], oks[1..])
  }
}
