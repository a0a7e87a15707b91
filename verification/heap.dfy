/** The migration pipelines with Python's object identity made explicit.

    The zone steps mutate the dict they receive and return that same dict;
    the item-state steps return a dict argument as it is. Running the zone
    steps on the caller's dict would rewrite stored data in place, so the
    pipeline first takes `obj.copy()` and threads the copy through the steps.
    Dicts live in a heap addressed by reference, which is what lets the model say that the caller's dict is left as it was. */
module MigrationHeap {
  import opened Records
  import opened StateMigration

  type Ref = nat

  /** The dicts currently allocated, by identity; `next` is never in use. */
  datatype Heap = Heap(dicts: map<Ref, Record>, next: Ref)

  predicate Valid(h: Heap)
  {
    forall r :: r in h.dicts ==> r < h.next
  }

  /** A value handed to a pipeline: a dict (by reference) or a v1 tuple. */
  datatype PyObj = DictRef(ref: Ref) | Tuple(top: Val, left: Val)

  /** The pipeline's result: the migrated dict, or the `AttributeError`
      raised when the input has no `copy` method. */
  datatype Outcome = Migrated(heap: Heap, result: Ref) | AttributeError(name: string)

  /** `d.copy()`: a new dict, distinct from every live one, with the same
      contents; no existing dict changes. */
  function CopyDict(h: Heap, src: Ref): (res: (Heap, Ref))
    requires Valid(h) && src in h.dicts
    ensures Valid(res.0)
    ensures res.1 !in h.dicts
    ensures res.0.dicts == h.dicts[res.1 := h.dicts[src]]
  {
    (Heap(h.dicts[h.next := h.dicts[src]], h.next + 1), h.next)
  }

  /** One step run on the dict `target`: it rewrites that dict only. */
  function RunStepInPlace(step: Step, h: Heap, target: Ref): (h': Heap)
    requires Valid(h) && target in h.dicts
    ensures Valid(h')
    ensures h'.dicts.Keys == h.dicts.Keys
    ensures forall q :: q in h.dicts && q != target ==> h'.dicts[q] == h.dicts[q]
  {
    Heap(h.dicts[target := ApplyStep(step, h.dicts[target])], h.next)
  }

  /** A migrated result is a newly allocated dict and every dict that
      existed before, the caller's included, still has its old contents. */
  predicate FreshAndFramed(h: Heap, out: Outcome)
  {
    out.Migrated? ==>
      && Valid(out.heap)
      && out.result !in h.dicts
      && out.heap.dicts.Keys == h.dicts.Keys + {out.result}
      && forall q :: q in h.dicts ==> out.heap.dicts[q] == h.dicts[q]
  }

  /** `_apply_migration`: copy `obj`, run the steps in order on the copy,
      return the copy. */
  method ApplyMigration(h: Heap, obj: PyObj, migrations: seq<Step>) returns (out: Outcome)
    requires Valid(h)
    requires obj.DictRef? ==> obj.ref in h.dicts
    ensures obj.Tuple? <==> out.AttributeError?
    ensures out.AttributeError? ==> out.name == "copy"
    ensures FreshAndFramed(h, out)
    ensures out.Migrated? ==> out.heap.dicts[out.result] == RunSteps(migrations, h.dicts[obj.ref])
  {
    if obj.Tuple? {
      return AttributeError("copy");
    }
    var copied := CopyDict(h, obj.ref);
    var cur, tmp := copied.0, copied.1;
    var i := 0;
    while i < |migrations|
      invariant 0 <= i <= |migrations|
      invariant Valid(cur)
      invariant cur.dicts.Keys == h.dicts.Keys + {tmp}
      invariant forall q :: q in h.dicts ==> cur.dicts[q] == h.dicts[q]
      invariant cur.dicts[tmp] == RunSteps(migrations[..i], h.dicts[obj.ref])
    {
      assert migrations[..i + 1][..i] == migrations[..i];
      cur := RunStepInPlace(migrations[i], cur, tmp);
      i := i + 1;
    }
    assert migrations[..i] == migrations;
    return Migrated(cur, tmp);
  }

  /** `apply_zone_migrations`: the caller's dict is untouched and the
      returned fresh dict holds the zone in current (v2.1) shape. */
  method ApplyZoneMigrations(h: Heap, zone: PyObj) returns (out: Outcome)
    requires Valid(h)
    requires zone.DictRef? ==> zone.ref in h.dicts
    ensures zone.Tuple? <==> out.AttributeError?
    ensures FreshAndFramed(h, out)
    ensures out.Migrated? ==> out.heap.dicts[out.result] == MigrateZone(h.dicts[zone.ref])
    ensures out.Migrated? ==> IsCurrentZone(out.heap.dicts[out.result])
  {
    out := ApplyMigration(h, zone, ZoneMigrations);
  }

  /** `apply_item_state_migrations` as written: a dict comes back as a fresh
      dict with the same contents; a v1 tuple raises `AttributeError`
      before any step runs. */
  method ApplyItemStateMigrations(h: Heap, itemState: PyObj) returns (out: Outcome)
    requires Valid(h)
    requires itemState.DictRef? ==> itemState.ref in h.dicts
    ensures itemState.Tuple? <==> out.AttributeError?
    ensures FreshAndFramed(h, out)
    ensures out.Migrated? ==> out.heap.dicts[out.result] == h.dicts[itemState.ref]
  {
    out := ApplyMigration(h, itemState, ItemStateMigrations);
    if out.Migrated? {
      ItemStatePipelineSteps(h.dicts[itemState.ref]);
    }
  }

  /** The same pipeline with the documented v2 -> v2.1 step: legacy keys are
      gone from the fresh dict and the caller's dict still has them. */
  method ApplyItemStateMigrationsIntended(h: Heap, itemState: PyObj) returns (out: Outcome)
    requires Valid(h)
    requires itemState.DictRef? ==> itemState.ref in h.dicts
    ensures itemState.Tuple? <==> out.AttributeError?
    ensures FreshAndFramed(h, out)
    ensures out.Migrated? ==> out.heap.dicts[out.result].Keys !! LegacyItemKeys
    ensures out.Migrated? ==> UnchangedExcept(h.dicts[itemState.ref], out.heap.dicts[out.result], LegacyItemKeys)
  {
    out := ApplyMigration(h, itemState, ItemStateMigrationsIntended);
    if out.Migrated? {
      ItemStatePipelineSteps(h.dicts[itemState.ref]);
    }
  }

  /** Without the copy, running the zone steps on the caller's own dict
      rewrites it: a v1 zone loses its `id`. */
  lemma InPlaceZoneMigrationMutatesCaller(h: Heap, ref: Ref)
    requires Valid(h) && ref in h.dicts && "id" in h.dicts[ref]
    ensures var h' := RunStepInPlace(ZoneV2ToV2p1Step, RunStepInPlace(ZoneV1ToV2Step, h, ref), ref);
            h'.dicts[ref] != h.dicts[ref]
  {
    var h1 := RunStepInPlace(ZoneV1ToV2Step, h, ref);
    assert "id" !in h1.dicts[ref];
  }
}
