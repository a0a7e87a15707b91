/** The versioned upgrades of stored zone and item-state records, as pure
    transforms of a record's contents. The zone steps of the source mutate
    the dict they are handed and return it; the item-state steps return a
    dict as it is (or build a new one from a v1 pair). Here a step maps the
    dict's contents before to its contents after.
    Aliasing and the defensive copy are modelled on top of this in `MigrationHeap`. */
module StateMigration {
  import opened Records
  import opened Constants

  /** Placement keys that item states stopped carrying at version 2.1. */
  const LegacyItemKeys: set<string> := {"x_percent", "y_percent", "left", "top", "absolute"}

  /** `value in ALLOWED_ZONE_ALIGNMENTS`: only the three strings qualify;
      `None`, "none" and values of other types do not. */
  function IsAllowedAlignment(v: Val): (b: bool)
    ensures b <==> (v == VStr("left") || v == VStr("right") || v == VStr("center"))
  {
    v.VStr? && v.s in AllowedZoneAlignments
  }

  // ---------------------------------------------------------------- zones

  /** v1 -> v2: the zone's title becomes its `uid` unless it already has one;
      `id` and `index` are dropped. The title itself stays. */
  function ZoneV1ToV2(zone: Record): (r: Record)
    ensures "uid" in r
    ensures "uid" in zone ==> r["uid"] == zone["uid"]
    ensures "uid" !in zone && "title" in zone ==> r["uid"] == zone["title"]
    ensures "uid" !in zone && "title" !in zone ==> r["uid"] == VNone
    ensures "id" !in r && "index" !in r
    ensures UnchangedExcept(zone, r, {"uid", "id", "index"})
  {
    var withUid := if "uid" in zone then zone else zone["uid" := Get(zone, "title")];
    withUid - {"id", "index"}
  }

  /** v2 -> v2.1: an alignment outside left/right/center, including the
      retired "none" and a missing key, becomes "center". */
  function ZoneV2ToV2p1(zone: Record): (r: Record)
    ensures "align" in r && IsAllowedAlignment(r["align"])
    ensures IsAllowedAlignment(Get(zone, "align")) ==> r == zone
    ensures !IsAllowedAlignment(Get(zone, "align")) ==> r["align"] == VStr(DefaultZoneAlignment)
    ensures UnchangedExcept(zone, r, {"align"})
  {
    if IsAllowedAlignment(Get(zone, "align")) then zone
    else zone["align" := VStr(DefaultZoneAlignment)]
  }

  /** A zone already in v2 shape: nothing for v1 -> v2 to do. */
  predicate IsV2Zone(zone: Record)
  {
    "uid" in zone && "id" !in zone && "index" !in zone
  }

  /** A zone already in v2.1 shape. */
  predicate IsCurrentZone(zone: Record)
  {
    IsV2Zone(zone) && "align" in zone && IsAllowedAlignment(zone["align"])
  }

  /** v1 -> v2 leaves a zone alone exactly when it is already in v2 shape. */
  lemma ZoneV1ToV2FixedIff(zone: Record)
    ensures ZoneV1ToV2(zone) == zone <==> IsV2Zone(zone)
  {
    if IsV2Zone(zone) {
      assert ZoneV1ToV2(zone) == zone;
    }
  }

  /** v2 -> v2.1 leaves a zone alone exactly when its alignment is allowed. */
  lemma ZoneV2ToV2p1FixedIff(zone: Record)
    ensures ZoneV2ToV2p1(zone) == zone <==> ("align" in zone && IsAllowedAlignment(zone["align"]))
  {
  }

  // ---------------------------------------------------------- item states

  /** An item state as found in storage: a v1 positional pair (top, left),
      or a dict from v1.5 on. */
  datatype ItemState = Dict(fields: Record) | Pair(top: Val, left: Val)

  /** v1 -> v1.5: a pair becomes `{'top': top, 'left': left}`; a dict passes
      through. */
  function ItemStateV1ToV1p5(item: ItemState): (r: Record)
    ensures item.Dict? ==> r == item.fields
    ensures item.Pair? ==> r.Keys == {"top", "left"} && r["top"] == item.top && r["left"] == item.left
  {
    match item
    case Dict(fields) => fields
    case Pair(top, left) => map["top" := top, "left" := left]
  }

  /** Reads a v1.5 record back as the v1 pair it came from, if it has that
      shape. */
  function AsPair(r: Record): (p: ItemState)
    requires r.Keys == {"top", "left"}
    ensures p.Pair?
  {
    Pair(r["top"], r["left"])
  }

  /** v1 -> v1.5 is lossless on pairs: the pair is recoverable. */
  lemma ItemStateV1ToV1p5Invertible(top: Val, left: Val)
    ensures AsPair(ItemStateV1ToV1p5(Pair(top, left))) == Pair(top, left)
  {
  }

  /** v1.5 -> v2: the absolute-to-relative conversion needs the rendered
      parent's size, so this layer leaves the record as it is. */
  function ItemStateV1p5ToV2(item: Record): (r: Record)
    ensures r == item
  {
    item
  }

  /** v2 -> v2.1 as the code is written. The loop's `del[attribute]` unbinds
      the loop variable rather than deleting a key of `item`, so the record
      comes back unchanged. */
  function ItemStateV2ToV2p1(item: Record): (r: Record)
    ensures r == item
  {
    item
  }

  /** v2 -> v2.1 as documented: every legacy placement key present is
      removed and nothing else changes. */
  function ItemStateV2ToV2p1Intended(item: Record): (r: Record)
    ensures r.Keys !! LegacyItemKeys
    ensures UnchangedExcept(item, r, LegacyItemKeys)
  {
    item - LegacyItemKeys
  }

  /** The code as written agrees with the documented step exactly on records
      that carry no legacy key. */
  lemma ItemStateV2ToV2p1AgreesIff(item: Record)
    ensures ItemStateV2ToV2p1(item) == ItemStateV2ToV2p1Intended(item) <==> item.Keys !! LegacyItemKeys
  {
    if !(item.Keys !! LegacyItemKeys) {
      var k :| k in item.Keys && k in LegacyItemKeys;
      assert k !in ItemStateV2ToV2p1Intended(item);
    } else {
      assert ItemStateV2ToV2p1Intended(item) == item;
    }
  }

  /** The documented example input keeps `top`, `left` and `absolute`. */
  lemma ItemStateV2ToV2p1KeepsLegacyKeys()
    ensures var item := map["zone" := VStr("Zone"), "correct" := VBool(true), "top" := VStr("100px"),
                            "left" := VStr("120px"), "absolute" := VBool(true)];
            && "top" in ItemStateV2ToV2p1(item)
            && ItemStateV2ToV2p1(item) != ItemStateV2ToV2p1Intended(item)
            && ItemStateV2ToV2p1Intended(item) == map["zone" := VStr("Zone"), "correct" := VBool(true)]
  {
    var item := map["zone" := VStr("Zone"), "correct" := VBool(true), "top" := VStr("100px"),
                    "left" := VStr("120px"), "absolute" := VBool(true)];
    assert "top" !in ItemStateV2ToV2p1Intended(item);
    assert ItemStateV2ToV2p1Intended(item) == map["zone" := VStr("Zone"), "correct" := VBool(true)];
  }

  // ------------------------------------------------------------ pipelines

  /** The migration methods a pipeline is built from. */
  datatype Step =
    | ZoneV1ToV2Step
    | ZoneV2ToV2p1Step
    | ItemStateV1ToV1p5Step
    | ItemStateV1p5ToV2Step
    | ItemStateV2ToV2p1Step
    | ItemStateV2ToV2p1IntendedStep

  /** One step applied to a dict (inside a pipeline the value is always the
      copied dict, so v1 -> v1.5 sees a dict). */
  function ApplyStep(step: Step, d: Record): Record
  {
    match step
    case ZoneV1ToV2Step => ZoneV1ToV2(d)
    case ZoneV2ToV2p1Step => ZoneV2ToV2p1(d)
    case ItemStateV1ToV1p5Step => ItemStateV1ToV1p5(Dict(d))
    case ItemStateV1p5ToV2Step => ItemStateV1p5ToV2(d)
    case ItemStateV2ToV2p1Step => ItemStateV2ToV2p1(d)
    case ItemStateV2ToV2p1IntendedStep => ItemStateV2ToV2p1Intended(d)
  }

  /** The steps applied in order, first step first: running a sequence is
      running its first step and then the rest on that result. */
  function RunSteps(steps: seq<Step>, d: Record): (r: Record)
    ensures |steps| == 0 ==> r == d
    ensures |steps| >= 1 ==> r == RunSteps(steps[1..], ApplyStep(steps[0], d))
    decreases |steps|
  {
    if |steps| == 0 then d
    else
      var init := steps[..|steps| - 1];
      assert |init| >= 1 ==> steps[1..][..|steps[1..]| - 1] == init[1..];
      ApplyStep(steps[|steps| - 1], RunSteps(init, d))
  }

  const ZoneMigrations: seq<Step> := [ZoneV1ToV2Step, ZoneV2ToV2p1Step]
  const ItemStateMigrations: seq<Step> :=
    [ItemStateV1ToV1p5Step, ItemStateV1p5ToV2Step, ItemStateV2ToV2p1Step]
  const ItemStateMigrationsIntended: seq<Step> :=
    [ItemStateV1ToV1p5Step, ItemStateV1p5ToV2Step, ItemStateV2ToV2p1IntendedStep]

  /** The zone pipeline is v1 -> v2 followed by v2 -> v2.1. */
  lemma ZonePipelineSteps(zone: Record)
    ensures RunSteps(ZoneMigrations, zone) == ZoneV2ToV2p1(ZoneV1ToV2(zone))
  {
    assert ZoneMigrations[..1] == [ZoneV1ToV2Step];
    assert ZoneMigrations[..1][..0] == [];
  }

  /** The item-state pipelines are their three steps in order. */
  lemma ItemStatePipelineSteps(item: Record)
    ensures RunSteps(ItemStateMigrations, item)
         == ItemStateV2ToV2p1(ItemStateV1p5ToV2(ItemStateV1ToV1p5(Dict(item))))
    ensures RunSteps(ItemStateMigrationsIntended, item)
         == ItemStateV2ToV2p1Intended(ItemStateV1p5ToV2(ItemStateV1ToV1p5(Dict(item))))
  {
    assert ItemStateMigrations[..2] == [ItemStateV1ToV1p5Step, ItemStateV1p5ToV2Step];
    assert ItemStateMigrationsIntended[..2] == [ItemStateV1ToV1p5Step, ItemStateV1p5ToV2Step];
    var first := [ItemStateV1ToV1p5Step];
    assert [ItemStateV1ToV1p5Step, ItemStateV1p5ToV2Step][..1] == first;
    assert first[..0] == [];
    assert RunSteps(first, item) == ItemStateV1ToV1p5(Dict(item));
  }

  /** The contents `apply_zone_migrations` produces for a zone dict. */
  function MigrateZone(zone: Record): (r: Record)
    ensures IsCurrentZone(r)
    ensures "uid" in zone ==> r["uid"] == zone["uid"]
    ensures "uid" !in zone ==> r["uid"] == Get(zone, "title")
    ensures IsAllowedAlignment(Get(zone, "align")) ==> r["align"] == zone["align"]
    ensures !IsAllowedAlignment(Get(zone, "align")) ==> r["align"] == VStr(DefaultZoneAlignment)
    ensures UnchangedExcept(zone, r, {"uid", "id", "index", "align"})
  {
    ZonePipelineSteps(zone);
    RunSteps(ZoneMigrations, zone)
  }

  /** A zone already in current shape is left exactly as it is. */
  lemma {:induction false} MigrateZoneFixedIff(zone: Record)
    ensures MigrateZone(zone) == zone <==> IsCurrentZone(zone)
  {
    if IsCurrentZone(zone) {
      ZoneV1ToV2FixedIff(zone);
      ZoneV2ToV2p1FixedIff(zone);
    }
  }

  /** Migrating a migrated zone changes nothing. */
  lemma MigrateZoneIdempotent(zone: Record)
    ensures MigrateZone(MigrateZone(zone)) == MigrateZone(zone)
  {
    MigrateZoneFixedIff(MigrateZone(zone));
  }

  /** The documented legacy zone `{id: 1, index: 2, title: "Zone", align: "none"}`. */
  lemma MigrateZoneExample()
    ensures MigrateZone(map["id" := VInt(1), "index" := VInt(2), "title" := VStr("Zone"), "align" := VStr("none")])
         == map["title" := VStr("Zone"), "uid" := VStr("Zone"), "align" := VStr("center")]
  {
    var z := map["id" := VInt(1), "index" := VInt(2), "title" := VStr("Zone"), "align" := VStr("none")];
    var r := MigrateZone(z);
    assert !IsAllowedAlignment(VStr("none"));
    assert r.Keys == {"title", "uid", "align"};
  }

  /** The contents `apply_item_state_migrations` produces for a dict: as the
      code is written, exactly the input. */
  function MigrateItemState(item: Record): (r: Record)
    ensures r == item
  {
    ItemStatePipelineSteps(item);
    RunSteps(ItemStateMigrations, item)
  }

  /** The item-state pipeline with the documented v2 -> v2.1 step. */
  function MigrateItemStateIntended(item: Record): (r: Record)
    ensures r.Keys !! LegacyItemKeys
    ensures UnchangedExcept(item, r, LegacyItemKeys)
  {
    ItemStatePipelineSteps(item);
    RunSteps(ItemStateMigrationsIntended, item)
  }

  /** The documented item-state pipeline is idempotent. */
  lemma MigrateItemStateIntendedIdempotent(item: Record)
    ensures MigrateItemStateIntended(MigrateItemStateIntended(item)) == MigrateItemStateIntended(item)
  {
    var once := MigrateItemStateIntended(item);
    assert MigrateItemStateIntended(once) == once;
  }

  /** As written, the item-state pipeline keeps every legacy key it is given. */
  lemma MigrateItemStateKeepsLegacy(item: Record, k: string)
    requires k in item && k in LegacyItemKeys
    ensures k in MigrateItemState(item) && k !in MigrateItemStateIntended(item)
  {
  }
}
