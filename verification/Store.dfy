/** The engine-side services behind a snapshot, and what an applied change may do to them. */
module Store {
  import opened Apply
  import opened Mutation
  import opened Spec

  /** Service specs as the engine holds them, by name, managed or not. */
  type Stored = map<string, EngineSpec>

  ghost predicate SameEntry(n: string, a: Stored, b: Stored) {
    (n in a <==> n in b) && (n in a ==> a[n] == b[n])
  }

  /**
   What the real applier does to the store, failed or not: it touches the change's service
   alone, creates only under a free name, updates only with the live attachments, and removes
   only a service that carries the managed label.
   */
  ghost predicate Touches(c: Change, ok: bool, before: Stored, after: Stored) {
    && (!ok ==> after == before)
    && (forall n :: n != c.spec.name ==> SameEntry(n, before, after))
    && (ok && !c.action.RemoveAction? ==>
          c.spec.name in after && (Managed(after[c.spec.name]) <==> CarriesOwnership(c.spec)))
    && (ok && c.action.CreateAction? ==> c.spec.name !in before)
    && (ok && c.action.UpdateAction? ==>
          c.spec.name in before && AttachmentsUnchanged(before[c.spec.name], c.spec))
    && (ok && c.action.RemoveAction? ==>
          c.spec.name in before && Managed(before[c.spec.name]) && c.spec.name !in after)
  }

  /** Every service without the managed label is still there, unchanged. */
  ghost predicate KeepsUnmanaged(before: Stored, after: Stored) {
    forall n :: n in before && !Managed(before[n]) ==> SameEntry(n, before, after)
  }

  /** The observed services are managed ones of the store. */
  ghost predicate ShowsManaged(observed: Services, store: Stored) {
    forall n :: n in observed ==> n in store && Managed(store[n])
  }

  /** The change would update a service that swarmgate does not own. */
  ghost predicate UpdatesUnmanaged(c: Change, before: Stored) {
    c.action.UpdateAction? && c.spec.name in before && !Managed(before[c.spec.name])
  }

  /**
   Only an update can ever reach a service without the managed label, and an accepted one does:
   it makes the service swarmgate's own, so that a later removal passes its guard.
   */
  lemma TouchKeepsUnmanaged(c: Change, ok: bool, before: Stored, after: Stored)
    requires Touches(c, ok, before, after)
    ensures !UpdatesUnmanaged(c, before) || !ok ==> KeepsUnmanaged(before, after)
    ensures CarriesOwnership(c.spec) ==> (KeepsUnmanaged(before, after) <==> !UpdatesUnmanaged(c, before) || !ok)
    ensures CarriesOwnership(c.spec) && ok && UpdatesUnmanaged(c, before) ==> Managed(after[c.spec.name])
  {
    if ok && UpdatesUnmanaged(c, before) && CarriesOwnership(c.spec) {
      assert !SameEntry(c.spec.name, before, after);
    }
  }

  lemma PutTouches(c: Change, before: Stored, e: EngineSpec)
    requires !c.action.RemoveAction?
    requires Managed(e) <==> CarriesOwnership(c.spec)
    requires c.action.CreateAction? ==> c.spec.name !in before
    requires c.action.UpdateAction? ==> c.spec.name in before && AttachmentsUnchanged(before[c.spec.name], c.spec)
    ensures Touches(c, true, before, before[c.spec.name := e])
  {
  }

  lemma DropTouches(c: Change, before: Stored)
    requires c.action.RemoveAction? && c.spec.name in before && Managed(before[c.spec.name])
    ensures Touches(c, true, before, before - {c.spec.name})
  {
  }
}
