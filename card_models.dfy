/**
 * Data shapes of the aggregated-value card: the five layout slots, their
 * translation keys, the per-key settings, the data keys and the value
 * descriptor the resolver builds.
 */
module CardModels {
  import opened Wrappers

  /** The five slots of the card (`AggregatedValueCardKeyPosition`). */
  datatype Position = Center | RightTop | RightBottom | LeftTop | LeftBottom

  /** The string each enum member stands for; this is what dashboard JSON
      stores. None is empty, so an explicitly stored slot is never falsy. */
  function PositionValue(p: Position): (s: string)
    ensures s != ""
  {
    match p
    case Center => "center"
    case RightTop => "rightTop"
    case RightBottom => "rightBottom"
    case LeftTop => "leftTop"
    case LeftBottom => "leftBottom"
  }

  /** The enum member a stored string denotes, if any. */
  function ParsePosition(s: string): (r: Option<Position>)
    ensures r.Some? ==> PositionValue(r.value) == s
  {
    if s == "center" then Some(Center)
    else if s == "rightTop" then Some(RightTop)
    else if s == "rightBottom" then Some(RightBottom)
    else if s == "leftTop" then Some(LeftTop)
    else if s == "leftBottom" then Some(LeftBottom)
    else None
  }

  /** Every slot's stored string reads back as that slot, so distinct slots
      are stored as distinct strings. */
  lemma ParsePositionValue(p: Position)
    ensures ParsePosition(PositionValue(p)) == Some(p)
  {
  }

  const TranslationPrefix: string := "widgets.aggregated-value-card.position-"

  /** `aggregatedValueCardKeyPositionTranslations`: slot to i18n key, one
      entry per enum member, each under the card's own i18n namespace. */
  function PositionTranslations(): (m: map<Position, string>)
    ensures m.Keys == {Center, RightTop, RightBottom, LeftTop, LeftBottom}
    ensures forall p :: p in m ==> TranslationPrefix <= m[p]
  {
    map[
      Center := TranslationPrefix + "center",
      RightTop := TranslationPrefix + "right-top",
      RightBottom := TranslationPrefix + "right-bottom",
      LeftTop := TranslationPrefix + "left-top",
      LeftBottom := TranslationPrefix + "left-bottom"
    ]
  }

  /** Distinct slots are translated under distinct keys. */
  lemma TranslationsAreDistinct(p: Position, q: Position)
    requires p != q
    ensures PositionTranslations()[p] != PositionTranslations()[q]
  {
  }

  /** `Font` from the shared widget settings (family, size and the rest). */
  datatype Font = Font(family: string, size: int, sizeUnit: string, style: string, weight: string, lineHeight: string)

  /** One band of a range colour rule: `from`/`to` bounds, each optional. */
  datatype ColorRange = ColorRange(from: Option<real>, to: Option<real>, color: string)

  /** `ColorSettings`: a constant colour (as `constantColor(c)` builds it) or a
      range rule with a fallback colour. */
  datatype ColorSettings =
    | ConstantColor(color: string)
    | RangeColor(color: string, rangeList: seq<ColorRange>, colorFunction: string)

  /** `AggregatedValueCardKeySettings`. `position` is the raw stored value:
      absent, or a string that is normally one of `PositionValue`'s. */
  datatype KeySettings = KeySettings(position: Option<string>, font: Font, color: ColorSettings, showArrow: bool)

  datatype DataKeyType = Timeseries | OtherKeyType(name: string)

  datatype AggregationType = NoAggregation | Avg | OtherAggregation(name: string)

  datatype ComparisonResultType = DeltaPercent | DeltaAbsolute | OtherComparison(name: string)

  /**
   * `DataKey`. `id` stands for the object's identity, which JavaScript's `===`
   * compares; two keys with equal fields but different ids are different objects.
   * `keyLabel` is the key's `label` (a reserved word in Dafny).
   * `settings` is the untyped slot the card fills with its `KeySettings`.
   */
  datatype DataKey = DataKey(
    id: nat,
    name: string,
    keyLabel: string,
    keyType: DataKeyType,
    units: string,
    decimals: int,
    aggregationType: AggregationType,
    comparisonEnabled: Option<bool>,
    timeForComparison: Option<string>,
    comparisonResultType: Option<ComparisonResultType>,
    settings: Option<KeySettings>)

  /** The result of `textStyle(font, letterSpacing)`, a call into code this
      model does not include: the term records its arguments and nothing more. */
  datatype ComponentStyle = TextStyle(font: Font, letterSpacing: string)

  /** The result of `ColorProcessor.fromSettings(settings)`, likewise left
      uninterpreted. */
  datatype ColorProcessor = FromSettings(settings: ColorSettings)

  /** `AggregatedValueCardValue`: the presentation shell for one slot. */
  datatype CardValue = CardValue(
    key: DataKey,
    value: string,
    units: string,
    style: ComponentStyle,
    color: ColorProcessor,
    center: bool,
    showArrow: bool,
    upArrow: bool,
    downArrow: bool)
}
