# Drag and Drop v2: state migrations and feedback messages

A Dafny model of `drag_and_drop_v2/utils.py` from the Drag and Drop v2 XBlock,
the helper module behind the drag-items-onto-zones exercise. It covers two
pure components:

- **StateMigration.** Stored zone configurations and learner item states are
  kept in older schemas. They are upgraded through fixed chains of steps before
  use: zones go v1 -> v2 -> v2.1, and item states go v1 -> v1.5 -> v2 -> v2.1.
  The two zone steps mutate the dict they are given and return it. The
  item-state steps return their argument as it is, or, for a v1 pair, a new
  dict. The pipeline runs the steps on `obj.copy()`, so the caller's dict is
  left alone.
- **FeedbackMessages.** These are the count messages shown after an attempt:
  "Correctly placed N item(s).", "Misplaced N item(s). ...", "Did not place N
  required item(s).". A fallback `ngettext` picks the singular form exactly
  when the count is 1. The module also has the message-class constants and
  their aliases.

Files:

- `optional.dfy` (`Optional`): the `Option` type for missing values.
- `constants.dfy` (`Constants`): the allowed zone alignments and the default.
- `records.dfy` (`Records`): stored values and string-keyed dicts. It has the
  `dict.get` helper and the "every other key untouched" predicate.
- `decimal.dfy` (`Decimal`): renders an `int` the way `str.format` does, and
  has a reader that parses it back.
- `feedback.dfy` (`FeedbackMessages`): the fallback plural selector, the
  templates, the three count messages and the constants.
- `migration.dfy` (`StateMigration`): the five steps as pure transforms of a
  dict's contents, plus the pipelines and their properties.
- `heap.dfy` (`MigrationHeap`): the same pipelines with dicts held by
  reference in a heap. Here the copy step is explicit, so "the caller's dict is
  not modified" can be stated and proved.

Where a docstring and the code disagree, this model follows the code:

- v1 -> v2: the docstring's example output shows only `uid`; the code also
  keeps `title`.
- v2 -> v2.1 for item states strips nothing (see Findings).

A v1 item state is a positional pair. The pipeline calls `.copy()` on its input
before any step runs. A tuple has no `copy`, so the model gives
`AttributeError` for a pair and does not run the v1 -> v1.5 step.
`ItemStateV1ToV1p5` is modelled on its own for a dict and for a two-element
pair.

## Model

| member | source | states |
|---|---|---|
| FeedbackMessages.NGettextFallback | drag_and_drop_v2/utils.py:11-16 | the singular form is returned when the number is 1, and the plural form for every other number (0 and negatives included); when the two forms differ, the result is the singular exactly when the number is 1 and the plural exactly when it is not |
| FeedbackMessages.FormatRoundTrip | drag_and_drop_v2/utils.py:51-55 | a decimal count placed between a template's fixed texts reads back as that count, for every template and every integer |
| FeedbackMessages.Format | drag_and_drop_v2/utils.py:55 | `.format(x_count=number)` on a one-field template: the substituted count can be read back out of the message |
| FeedbackMessages.FormatInjective | drag_and_drop_v2/utils.py:51-55 | two different counts never give the same message |
| FeedbackMessages.PluralMessage | drag_and_drop_v2/utils.py:51-55 | for two templates whose fixed texts differ in length, the message is the filled singular template exactly when the count is 1 and the filled plural template otherwise; the count can be read back from the chosen template |
| FeedbackMessages.CorrectlyPlaced | drag_and_drop_v2/utils.py:46-55 | the message has the "item." wording exactly when the count is 1 and the "items." wording exactly otherwise; the count can be read back from it |
| FeedbackMessages.Misplaced | drag_and_drop_v2/utils.py:57-66 | the singular "item was returned" wording is used exactly when the count is 1 and the plural wording otherwise; the count can be read back from it |
| FeedbackMessages.NotPlaced | drag_and_drop_v2/utils.py:68-77 | the "required item." wording is used exactly when the count is 1 and "required items." otherwise; the count can be read back from it |
| FeedbackMessages.CorrectlyPlacedExamples | drag_and_drop_v2/utils.py:51-55 | counts 1 and 4 give "Correctly placed 1 item." and "Correctly placed 4 items." |
| FeedbackMessages.MisplacedExample | drag_and_drop_v2/utils.py:62-66 | a count of 1 gives "Misplaced 1" followed by the singular returned-to-bank sentence |
| FeedbackMessages.NotPlacedExamples | drag_and_drop_v2/utils.py:73-77 | a count of 0 takes the plural form; 0 and 3 give "Did not place 0 required items." and "Did not place 3 required items." |
| Decimal.IntToString | drag_and_drop_v2/utils.py:55 | an integer is printed as a minus sign exactly when it is negative, followed by a non-empty digit string with no leading zero (never "-0") |
| Decimal.NatToString | drag_and_drop_v2/utils.py:55 | a count is printed as a non-empty string of decimal digits with no leading zero |
| Decimal.DigitsToNatOfNatToString | drag_and_drop_v2/utils.py:55 | reading the printed digits of a count gives the count back |
| Decimal.NatToStringOfDigits | drag_and_drop_v2/utils.py:55 | any digit string without a leading zero is the printed form of its own value, so the printed form is the unique canonical one |
| Decimal.ParseIntOfIntToString | drag_and_drop_v2/utils.py:55 | the printed form of any integer, negative ones with a leading minus sign, reads back as that integer |
| Decimal.IntToStringInjective | drag_and_drop_v2/utils.py:55 | different integers are printed differently |
| Records.Get | drag_and_drop_v2/utils.py:142 | `dict.get` gives the bound value, or None when the key is absent |
| StateMigration.IsAllowedAlignment | drag_and_drop_v2/utils.py:91 | a value is an allowed alignment exactly when it is one of the strings "left", "right" or "center"; None, "none" and non-strings are not |
| StateMigration.RunSteps | drag_and_drop_v2/utils.py:106-107 | running a step sequence runs its first step on the record and then the remaining steps on that result; no steps leave the record as it is |
| StateMigration.ZoneV1ToV2 | drag_and_drop_v2/utils.py:129-146 | afterwards `uid` is bound: an existing uid is kept, otherwise it is set to the title, or to None with no title; `id` and `index` are absent; every other key, `title` included, is unchanged |
| StateMigration.ZoneV2ToV2p1 | drag_and_drop_v2/utils.py:148-168 | afterwards `align` is one of left/right/center; an allowed alignment leaves the zone identical; anything else, including "none" or a missing key, becomes "center"; no other key changes |
| StateMigration.ZoneV1ToV2FixedIff | drag_and_drop_v2/utils.py:141-144 | v1 -> v2 returns the zone unchanged exactly when it already has `uid` and has neither `id` nor `index` |
| StateMigration.ZoneV2ToV2p1FixedIff | drag_and_drop_v2/utils.py:165-166 | v2 -> v2.1 returns the zone unchanged exactly when its `align` is already allowed |
| StateMigration.ItemStateV1ToV1p5 | drag_and_drop_v2/utils.py:170-184 | a dict state is returned as it is; a pair (a, b) becomes a dict with exactly the keys `top` = a and `left` = b |
| StateMigration.AsPair | drag_and_drop_v2/utils.py:178-179 | a dict with exactly the keys `top` and `left` reads back as a v1 pair |
| StateMigration.ItemStateV1ToV1p5Invertible | drag_and_drop_v2/utils.py:178-184 | v1 -> v1.5 loses nothing: the pair can be recovered from the dict it produces |
| StateMigration.ItemStateV1p5ToV2 | drag_and_drop_v2/utils.py:186-199 | v1.5 -> v2 returns the item state unchanged, because the unit conversion is not done in this module |
| StateMigration.ItemStateV2ToV2p1 | drag_and_drop_v2/utils.py:201-220 | as written, v2 -> v2.1 returns the item state unchanged |
| StateMigration.ItemStateV2ToV2p1Intended | drag_and_drop_v2/utils.py:203-216 | the documented step: none of x_percent, y_percent, left, top or absolute remains, and every other key is unchanged |
| StateMigration.ItemStateV2ToV2p1AgreesIff | drag_and_drop_v2/utils.py:216-220 | the step as written agrees with the documented one exactly on item states that carry no legacy key |
| StateMigration.ItemStateV2ToV2p1KeepsLegacyKeys | drag_and_drop_v2/utils.py:210-220 | on the documented example input, the step as written keeps `top`, while the documented result is `{zone, correct}` |
| StateMigration.ZonePipelineSteps | drag_and_drop_v2/utils.py:111-118 | the zone pipeline is v1 -> v2 followed by v2 -> v2.1 |
| StateMigration.ItemStatePipelineSteps | drag_and_drop_v2/utils.py:120-127 | the item-state pipeline is v1 -> v1.5, then v1.5 -> v2, then v2 -> v2.1 |
| StateMigration.MigrateZone | drag_and_drop_v2/utils.py:111-168 | a migrated zone is in current shape: it has `uid`, has no `id` or `index`, and its `align` is allowed; uid and align are chosen as the two steps promise; every other key is unchanged |
| StateMigration.MigrateZoneFixedIff | drag_and_drop_v2/utils.py:129-168 | migration leaves a zone unchanged exactly when it is already in current shape |
| StateMigration.MigrateZoneIdempotent | drag_and_drop_v2/utils.py:111-118 | migrating an already-migrated zone changes nothing |
| StateMigration.MigrateZoneExample | drag_and_drop_v2/utils.py:138-139 | `{id: 1, index: 2, title: "Zone", align: "none"}` migrates to `{title: "Zone", uid: "Zone", align: "center"}` |
| StateMigration.MigrateItemState | drag_and_drop_v2/utils.py:120-127 | as written, the item-state pipeline returns contents equal to its input dict |
| StateMigration.MigrateItemStateIntended | drag_and_drop_v2/utils.py:203-214 | with the documented last step, no legacy placement key remains and every other key is unchanged |
| StateMigration.MigrateItemStateIntendedIdempotent | drag_and_drop_v2/utils.py:120-127 | the pipeline with the documented last step is idempotent |
| StateMigration.MigrateItemStateKeepsLegacy | drag_and_drop_v2/utils.py:216-218 | a legacy key in the input survives the pipeline as written, and is removed by the documented one |
| MigrationHeap.CopyDict | drag_and_drop_v2/utils.py:105 | `copy()` allocates a dict distinct from every existing one, with the same contents, and changes no existing dict |
| MigrationHeap.RunStepInPlace | drag_and_drop_v2/utils.py:106-107 | a step rewrites only the dict it is handed |
| MigrationHeap.ApplyMigration | drag_and_drop_v2/utils.py:100-109 | a non-dict input raises AttributeError on `copy`; otherwise the result is a new dict holding the steps applied in order, and every existing dict, the caller's included, keeps its contents |
| MigrationHeap.ApplyZoneMigrations | drag_and_drop_v2/utils.py:111-118 | the caller's zone dict is unchanged and the new dict holds the zone in current shape |
| MigrationHeap.ApplyItemStateMigrations | drag_and_drop_v2/utils.py:120-127 | a dict state comes back as a new dict with equal contents and the caller's dict is unchanged; a v1 tuple raises AttributeError |
| MigrationHeap.ApplyItemStateMigrationsIntended | drag_and_drop_v2/utils.py:120-127 | with the documented last step, the new dict has no legacy key and the caller's dict keeps all of its keys |
| MigrationHeap.InPlaceZoneMigrationMutatesCaller | drag_and_drop_v2/utils.py:103-105 | without the copy, the zone steps would change the caller's dict: a zone with `id` loses it |

## Findings

| source | as written | input that shows it | evidently intended | confidence | as-written member | corrected member |
|---|---|---|---|---|---|---|
| drag_and_drop_v2/utils.py:218 | `del[attribute]` unbinds the loop variable and removes no key, so v2 -> v2.1 returns the item state unchanged | `{'zone': 'Zone', 'correct': True, 'top': '100px', 'left': '120px', 'absolute': True}` comes back with `top`, `left` and `absolute` still present | remove each of x_percent, y_percent, left, top and absolute when present, giving `{'zone': 'Zone', 'correct': True}` as the docstring at lines 210-214 shows | high; not executed | StateMigration.ItemStateV2ToV2p1KeepsLegacyKeys | StateMigration.ItemStateV2ToV2p1Intended |

The corrected step removes each legacy key only if it is present. A literal
`del item[attribute]` would raise `KeyError` on the docstring's second example,
which has no `top`. `StateMigration.MigrateItemState` and
`MigrationHeap.ApplyItemStateMigrations` model the program as written. The
corrected step is used by `StateMigration.MigrateItemStateIntended` and
`MigrationHeap.ApplyItemStateMigrationsIntended`, and the legacy-key-stripping
and idempotence properties are proved about those.

## Left out

- StateMigration.ItemStateV1ToV1p5: only a dict and a two-element pair are modelled. A shorter sequence raises IndexError at `item[1]`, and a longer one has its extra elements ignored. No such shape can reach the step through the pipeline, which fails on `copy()` first.

- The placement and grading engine, the pointer and keyboard controllers, and the analytics event stream are not part of this model; they are implemented outside `utils.py`, which is the only module modelled.
- The absolute-to-relative geometry conversion is not modelled. The code notes that the conversion cannot be done in Python, was once done in JavaScript, and has since been removed from the JavaScript as unnecessary; v1.5 -> v2 is the identity here.
- FeedbackMessages.CorrectlyPlaced, FeedbackMessages.Misplaced, FeedbackMessages.NotPlaced: the `ngettext` argument is fixed to the fallback. An injected translation service is opaque and promises nothing about its strings.
- `FINAL_ATTEMPT_TPL.format(score=...)` is kept only as a constant. The score is a float and is rendered with Python's float formatting.
- `_` and `DummyTranslationService` are left out. They are the identity and a pair of aliases for the fallback functions.
- `FeedbackMessage` and `ItemStats` are declared as datatypes without behaviour. In the source they are untyped module-level namedtuples; here they sit in `FeedbackMessages`, with a string message and `nat` counts, since nothing in the module constrains them further.
- Counts are Python `int`s. A `bool` or another non-integer passed as a count is not modelled.
- Stored values that no step inspects, such as floats, lists and nested dicts, are represented by an opaque `VOther` tag. The copy is shallow, and no step touches nested values, so sharing them does not matter here.
- Dict key order is not modelled. Records are maps, and no step depends on order.
- Pipeline inputs are a dict or a v1 tuple. A Python 3 list, which does have `copy`, is not modelled as a stored item-state shape.
