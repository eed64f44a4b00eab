/**
 * `createDefaultAggregatedValueLatestDataKeys`: the three data keys a new card
 * starts from for one metric: its current value in the centre, its change in
 * percent at the top right and its absolute change at the bottom right.
 */
module CardDefaults {
  import opened Wrappers
  import opened CardModels
  import opened KeyResolver
  import opened SeriesLookup

  function DefaultFont(size: int, weight: string): Font {
    Font("Roboto", size, "px", "normal", weight, "1")
  }

  /** Delta-percent colouring: green below zero, near-black at zero, red above. */
  const DeltaPercentBands: seq<ColorRange> := [
    ColorRange(None, Some(0.0), "#198038"),
    ColorRange(Some(0.0), Some(0.0), "rgba(0, 0, 0, 0.87)"),
    ColorRange(Some(0.0), None, "#D12730")
  ]

  /** `base`, `base + 1` and `base + 2` are the identities of the three key
      objects the builder allocates; they are distinct from each other. */
  function CreateDefaultAggregatedValueLatestDataKeys(keyName: string, units: string, base: nat): (keys: seq<DataKey>)
    ensures |keys| == 3
    ensures forall i :: 0 <= i < 3 ==> keys[i].name == keyName && keys[i].keyType == Timeseries && keys[i].settings.Some?
    ensures keys[0].id != keys[1].id && keys[1].id != keys[2].id && keys[0].id != keys[2].id
    ensures keys[0].keyLabel == keyName
    ensures keys[1].keyLabel == "Delta percent " + keyName
    ensures keys[2].keyLabel == "Delta absolute " + keyName
    ensures [keys[0].settings.value.position, keys[1].settings.value.position, keys[2].settings.value.position] ==
      [Some(PositionValue(Center)), Some(PositionValue(RightTop)), Some(PositionValue(RightBottom))]
    ensures [EffectivePosition(keys[0]), EffectivePosition(keys[1]), EffectivePosition(keys[2])] ==
      [Some(Center), Some(RightTop), Some(RightBottom)]
    ensures [keys[0].settings.value.font, keys[1].settings.value.font, keys[2].settings.value.font] ==
      [DefaultFont(52, "500"), DefaultFont(14, "500"), DefaultFont(11, "400")]
    ensures [keys[0].units, keys[1].units, keys[2].units] == [units, "%", units]
    ensures [keys[0].decimals, keys[1].decimals, keys[2].decimals] == [0, 0, 1]
    ensures [keys[0].settings.value.showArrow, keys[1].settings.value.showArrow, keys[2].settings.value.showArrow] ==
      [false, true, false]
    ensures [keys[0].aggregationType, keys[1].aggregationType, keys[2].aggregationType] == [NoAggregation, Avg, Avg]
    // the centre key compares with nothing; both deltas compare with the previous interval
    ensures keys[0].comparisonEnabled.None? && keys[0].timeForComparison.None?
    ensures forall i :: 1 <= i < 3 ==>
      keys[i].comparisonEnabled == Some(true) && keys[i].timeForComparison == Some("previousInterval")
    ensures keys[1].comparisonResultType == Some(DeltaPercent)
    ensures keys[2].comparisonResultType == Some(DeltaAbsolute)
    ensures keys[0].settings.value.color == ConstantColor("rgba(0, 0, 0, 0.87)")
    ensures keys[1].settings.value.color == RangeColor("rgba(0, 0, 0, 0.87)", DeltaPercentBands, "")
    ensures keys[2].settings.value.color == ConstantColor("rgba(0, 0, 0, 0.38)")
  {
    [
      DataKey(base, keyName, keyName, Timeseries, units, 0, NoAggregation, None, None, None,
        Some(KeySettings(Some(PositionValue(Center)), DefaultFont(52, "500"),
          ConstantColor("rgba(0, 0, 0, 0.87)"), false))),
      DataKey(base + 1, keyName, "Delta percent " + keyName, Timeseries, "%", 0, Avg,
        Some(true), Some("previousInterval"), Some(DeltaPercent),
        Some(KeySettings(Some(PositionValue(RightTop)), DefaultFont(14, "500"),
          RangeColor("rgba(0, 0, 0, 0.87)", DeltaPercentBands, ""), true))),
      DataKey(base + 2, keyName, "Delta absolute " + keyName, Timeseries, units, 1, Avg,
        Some(true), Some("previousInterval"), Some(DeltaAbsolute),
        Some(KeySettings(Some(PositionValue(RightBottom)), DefaultFont(11, "400"),
          ConstantColor("rgba(0, 0, 0, 0.38)"), false)))
    ]
  }

  /** `x` lies within a band's bounds, taken as inclusive. */
  predicate InBand(b: ColorRange, x: real) {
    (b.from.None? || b.from.value <= x) && (b.to.None? || x <= b.to.value)
  }

  /** The three bands split at zero: every band has zero as a bound, a
      negative change falls in the first band only and a positive change in
      the third only. Whether the colour engine treats the bounds as inclusive
      or exclusive does not matter for these statements. */
  lemma DeltaPercentBandsSplitAtZero(x: real)
    ensures x < 0.0 ==> forall i :: 0 <= i < 3 ==> (InBand(DeltaPercentBands[i], x) <==> i == 0)
    ensures x > 0.0 ==> forall i :: 0 <= i < 3 ==> (InBand(DeltaPercentBands[i], x) <==> i == 2)
    ensures forall i :: 0 <= i < 3 ==> DeltaPercentBands[i].from == Some(0.0) || DeltaPercentBands[i].to == Some(0.0)
  {
  }

  /** Resolving the default keys fills the centre and the two right-hand
      slots with the matching key and leaves the two left-hand slots empty. */
  lemma DefaultKeysResolve(keyName: string, units: string, base: nat, position: Position)
    ensures var keys := CreateDefaultAggregatedValueLatestDataKeys(keyName, units, base);
      ComputeAggregatedCardValue(keys, keyName, position) ==
        match position
        case Center => Resolved(Shell(keys[0], keys[0].settings.value, Center))
        case RightTop => Resolved(Shell(keys[1], keys[1].settings.value, RightTop))
        case RightBottom => Resolved(Shell(keys[2], keys[2].settings.value, RightBottom))
        case _ => NoMatch
  {
  }

  /** Each default key's series is found under that key alone: the lookup for
      one key object never returns another key's samples. */
  lemma DefaultKeysLookupByIdentity<V(!new)>(keyName: string, units: string, base: nat, series: seq<Option<seq<Sample<V>>>>, i: nat)
    requires |series| == 3 && i < 3
    ensures var keys := CreateDefaultAggregatedValueLatestDataKeys(keyName, units, base);
      var latest := [DatasourceData(keys[0], series[0]), DatasourceData(keys[1], series[1]), DatasourceData(keys[2], series[2])];
      GetTsValueByLatestDataKey(Some(latest), keys[i]) ==
        if HasSamples(latest[i]) then Some(series[i].value[0]) else None
  {
  }
}
