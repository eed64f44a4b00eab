# Aggregated-value card: key resolution, series lookup and default keys

A Dafny model of the helpers behind ThingsBoard's aggregated-value dashboard
card (`aggregated-value-card.models.ts`). The card shows one metric in up to
five slots (`center`, `rightTop`, `rightBottom`, `leftTop`, `leftBottom`). The
model covers:

- the slot enumeration, the strings it stands for, and its translation table;
- `computeAggregatedCardValue`, which finds the first data key configured for
  a metric name and a slot and builds that slot's presentation shell;
- `getTsValueByLatestDataKey`, which returns the latest sample of the series
  whose data key is the very object the caller holds;
- `createDefaultAggregatedValueLatestDataKeys`, which builds the three keys a
  new card starts from.

Everything in the source is pure, so everything here is a datatype, a function
or a lemma. Modules follow the components: `ArrayFind` (the first-match scan
of `Array.prototype.find`), `CardModels` (data shapes), `KeyResolver`,
`SeriesLookup` and `CardDefaults`. `Wrappers` holds `Option`.

Modelling choices:

- A key's `settings.position` is kept as the stored string
  (`Option<string>`), not as the enum. The source tests it for falsiness, so
  `undefined` and `''` both mean "centre". A string naming no slot matches no
  slot. `EffectivePosition` gives the enum reading, and the contract of
  `Matches` states that the find predicate equals "same name and same
  effective slot".
- Besides `undefined` for an unmatched slot, the code can also fail here:
  reading `settings.font` at line 95 throws a `TypeError` when the matched key
  has no settings object at all, which only a `center` request can reach. The
  model returns `SettingsUndefined(key)` for that case, next to `NoMatch` (the
  source's `undefined`) and `Resolved(card)`.
- JavaScript object identity (the `===` in the series lookup) is the `id`
  field of `DataKey`. The three keys the default builder allocates get the
  ids `base`, `base + 1` and `base + 2`, three ids distinct from each other;
  the model does not keep them apart from the ids of keys that already exist.
- `textStyle(...)` and `ColorProcessor.fromSettings(...)` live in a shared
  settings module that is not part of this model. Their results are terms
  that record the arguments (`TextStyle(font, "0.25px")`,
  `FromSettings(color)`), so the model says what they are applied to and
  nothing about what they compute. `constantColor(c)` is likewise the
  constructor `ConstantColor(c)`.

## Model

| member | source | states |
|---|---|---|
| `ArrayFind.FirstIndex` | ui-ngx/src/app/modules/home/components/widget/lib/cards/aggregated-value-card.models.ts:87 | the scan returns an index whose element the predicate accepts with no accepted element before it, and returns nothing exactly when no element is accepted |
| `CardModels.PositionValue` | ui-ngx/src/app/modules/home/components/widget/lib/cards/aggregated-value-card.models.ts:48-54 | each slot is stored as its enum string, and none of these strings is empty, so an explicitly stored slot is never falsy |
| `CardModels.ParsePosition` | ui-ngx/src/app/modules/home/components/widget/lib/cards/aggregated-value-card.models.ts:48-54 | a stored string read as a slot is exactly that slot's enum string |
| `CardModels.ParsePositionValue` | ui-ngx/src/app/modules/home/components/widget/lib/cards/aggregated-value-card.models.ts:48-54 | every slot's enum string reads back as that slot, so the five strings are distinct |
| `CardModels.PositionTranslations` | ui-ngx/src/app/modules/home/components/widget/lib/cards/aggregated-value-card.models.ts:56-64 | the translation table has an entry for every slot and no other key (its keys are exactly the five slots), and every translation key lies under the card's `widgets.aggregated-value-card.position-` prefix |
| `CardModels.TranslationsAreDistinct` | ui-ngx/src/app/modules/home/components/widget/lib/cards/aggregated-value-card.models.ts:58-62 | distinct slots are translated under distinct keys |
| `KeyResolver.Matches` | ui-ngx/src/app/modules/home/components/widget/lib/cards/aggregated-value-card.models.ts:87-88 | a key passes the find predicate if and only if its name is the requested one and its effective slot (the slot its stored position names, or centre when that position is undefined or empty) is the requested slot |
| `KeyResolver.DefaultPositionRule` | ui-ngx/src/app/modules/home/components/widget/lib/cards/aggregated-value-card.models.ts:87-88 | a key with no or an empty stored position matches a `center` request with its name and never any other slot |
| `KeyResolver.Shell` | ui-ngx/src/app/modules/home/components/widget/lib/cards/aggregated-value-card.models.ts:91-101 | the descriptor for a matched key refers to that key, has an empty value and both trend arrows off, is central iff the slot is `center`, copies the key's units and arrow flag, and binds style and colour to the key's font and colour settings |
| `KeyResolver.ComputeAggregatedCardValue` | ui-ngx/src/app/modules/home/components/widget/lib/cards/aggregated-value-card.models.ts:85-103 | nothing is returned iff no key matches; otherwise the outcome is about the first matching key: it throws only if that key has no settings (then the request was for `center`), else the fresh descriptor has an empty value, both trend arrows off, `center` set iff the slot is `center`, and units, arrow flag, style and colour taken from that key |
| `KeyResolver.ResolvedKeyIsInSlot` | ui-ngx/src/app/modules/home/components/widget/lib/cards/aggregated-value-card.models.ts:87-91 | a resolved descriptor's key has the requested name and sits in the requested effective slot |
| `KeyResolver.ResolutionOfConcatenation` | ui-ngx/src/app/modules/home/components/widget/lib/cards/aggregated-value-card.models.ts:87 | keys after a match are never consulted, and a prefix with no match is as good as absent |
| `KeyResolver.FirstMatchWins` | ui-ngx/src/app/modules/home/components/widget/lib/cards/aggregated-value-card.models.ts:87-101 | with no match before it, a matching key with settings is the one resolved, whatever duplicates follow |
| `SeriesLookup.SameKey` | ui-ngx/src/app/modules/home/components/widget/lib/cards/aggregated-value-card.models.ts:107 | an entry belongs to the key exactly when its data key is the same object (same identity), whatever the names |
| `SeriesLookup.GetTsValueByLatestDataKey` | ui-ngx/src/app/modules/home/components/widget/lib/cards/aggregated-value-card.models.ts:105-113 | absent or empty data gives null; a sample is returned only as the first sample of the first entry whose key is the same object, and null is returned only when there is no such entry or its samples are missing or empty |
| `SeriesLookup.LookupIgnoresLaterEntries` | ui-ngx/src/app/modules/home/components/widget/lib/cards/aggregated-value-card.models.ts:107-110 | once an entry for the key exists, entries appended after it do not change the result |
| `SeriesLookup.LookupIgnoresNameTwins` | ui-ngx/src/app/modules/home/components/widget/lib/cards/aggregated-value-card.models.ts:107 | entries of other key objects, even ones with the same name, placed before the key's own entries are skipped as if absent |
| `SeriesLookup.LookupSingleSample` | ui-ngx/src/app/modules/home/components/widget/lib/cards/aggregated-value-card.models.ts:105-110 | when the only entry for the key object holds `[[1000, 42]]`, the result is `[1000, 42]` whatever other keys' entries come before or after it |
| `SeriesLookup.LookupEmptySeries` | ui-ngx/src/app/modules/home/components/widget/lib/cards/aggregated-value-card.models.ts:107-112 | a first entry for the key whose samples are missing or empty yields null, even if later entries for the key have samples |
| `CardDefaults.CreateDefaultAggregatedValueLatestDataKeys` | ui-ngx/src/app/modules/home/components/widget/lib/cards/aggregated-value-card.models.ts:165-232 | exactly three timeseries keys with distinct ids, named after the metric, storing the positions `'center'`, `'rightTop'`, `'rightBottom'` (so in those slots), with fonts of 52/14/11 px, constant colours on the first and third, units `u`/`%`/`u`, decimals 0/0/1, arrows off/on/off, aggregation none/avg/avg, the two deltas compared with `previousInterval` as percent and absolute, and the percent key coloured by the three-band range rule |
| `CardDefaults.DeltaPercentBandsSplitAtZero` | ui-ngx/src/app/modules/home/components/widget/lib/cards/aggregated-value-card.models.ts:199-208 | the percent key's three colour bands split at zero: every band has zero as a bound, a negative change is in the first band only and a positive change in the third only |
| `CardDefaults.DefaultKeysResolve` | ui-ngx/src/app/modules/home/components/widget/lib/cards/aggregated-value-card.models.ts:165-232 | resolving the default keys fills `center`, `rightTop` and `rightBottom` with the first, second and third key and finds nothing for `leftTop` and `leftBottom` |
| `CardDefaults.DefaultKeysLookupByIdentity` | ui-ngx/src/app/modules/home/components/widget/lib/cards/aggregated-value-card.models.ts:165-232 | with one series per default key, the lookup for each key object returns that key's own latest sample |

## Left out

- The widget-level defaults `aggregatedValueCardDefaultSettings` and the single-key defaults `aggregatedValueCardDefaultKeySettings` (lines 115-163): constant styling values with no behaviour; `lastUpdateAgoDateFormat()` is outside this model.
- What `textStyle`, `ColorProcessor.fromSettings` and `constantColor` compute: they belong to the shared widget-settings module, which is not part of this model. Only their arguments are recorded. The colour engine's treatment of band bounds is not modelled either.
- The `AggregatedValueCardWidgetSettings` interface (lines 34-46): a settings shape that no modelled function reads.
- Fields of `DataKey` and `DatasourceData` that these helpers never read (the datasource, colour, funcBody and the like). `DataKeyType`, `AggregationType` and `ComparisonResultType` are external enums; only the members used here are named, the rest are folded into one "other" constructor.
- Missing or mistyped fields inside a present settings object (font, colour, arrow flag) and a non-string `position`: the model takes the declared types at their word. A `units` of `undefined` is likewise not represented.
- KeyResolver.ComputeAggregatedCardValue: `dataKeys` is always a list; an `undefined` list, on which `.find` at line 87 throws, is not represented (the parameter is declared as a non-optional array).
- Sample values are of an arbitrary type (`any`), and timestamps are integers rather than floating-point numbers.
- JSON (de)serialisation of dashboard settings, rendering and the reactive data pipeline that calls these helpers.
