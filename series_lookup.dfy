/**
 * `getTsValueByLatestDataKey`: the latest `[timestamp, value]` sample of the
 * series whose data key is the very object the caller holds.
 */
module SeriesLookup {
  import opened Wrappers
  import opened ArrayFind
  import opened CardModels

  /** One sample, `[number, any]`: a timestamp and a value of any type. */
  type Sample<V> = (int, V)

  /** `DatasourceData`, reduced to the key it belongs to and its samples,
      which may be missing (`undefined` or `null`). */
  datatype DatasourceData<V> = DatasourceData(dataKey: DataKey, data: Option<seq<Sample<V>>>)

  /** `dsData?.data?.length` is truthy. */
  predicate HasSamples<V>(d: DatasourceData<V>) {
    d.data.Some? && |d.data.value| > 0
  }

  /** `data.dataKey === dataKey`: the same object, not merely the same name. */
  function SameKey<V(!new)>(dataKey: DataKey): (same: DatasourceData<V> -> bool)
    ensures forall d: DatasourceData<V> :: same(d) <==> d.dataKey.id == dataKey.id
  {
    (d: DatasourceData<V>) => d.dataKey.id == dataKey.id
  }

  /** `null` is `None`; an absent `latestData` is `None` as well. */
  function GetTsValueByLatestDataKey<V(!new)>(latestData: Option<seq<DatasourceData<V>>>, dataKey: DataKey): (r: Option<Sample<V>>)
    ensures latestData.None? || latestData == Some([]) ==> r.None?
    // a sample comes back only from the first entry for this key, and it is that entry's first
    ensures r.Some? ==>
      && latestData.Some?
      && exists i: nat :: IsFirst(latestData.value, SameKey(dataKey), i) &&
           HasSamples(latestData.value[i]) && r.value == latestData.value[i].data.value[0]
    // and it does come back whenever that entry has samples
    ensures r.None? ==>
      || latestData.None?
      || forall i: nat :: IsFirst(latestData.value, SameKey(dataKey), i) ==> !HasSamples(latestData.value[i])
  {
    if latestData.None? || |latestData.value| == 0 then None
    else
      match FirstIndex(latestData.value, SameKey(dataKey))
      case None => None
      case Some(i) =>
        var dsData := latestData.value[i];
        if HasSamples(dsData) then Some(dsData.data.value[0]) else None
  }

  /** Entries after the first one for the key are never consulted. */
  lemma {:induction false} LookupIgnoresLaterEntries<V(!new)>(a: seq<DatasourceData<V>>, b: seq<DatasourceData<V>>, dataKey: DataKey)
    requires exists i :: 0 <= i < |a| && a[i].dataKey.id == dataKey.id
    ensures GetTsValueByLatestDataKey(Some(a + b), dataKey) == GetTsValueByLatestDataKey(Some(a), dataKey)
  {
    var p := SameKey<V>(dataKey);
    var i :| 0 <= i < |a| && a[i].dataKey.id == dataKey.id;
    assert p(a[i]);
    FirstIndexAppend(a, b, p);
    var j := FirstIndex(a, p).value;
    assert (a + b)[j] == a[j];
  }

  /** Matching is by identity: entries for other key objects, even ones with
      the same name and units, are skipped as if they were not there. */
  lemma {:induction false} LookupIgnoresNameTwins<V(!new)>(other: seq<DatasourceData<V>>, rest: seq<DatasourceData<V>>, dataKey: DataKey)
    requires forall i :: 0 <= i < |other| ==> other[i].dataKey.id != dataKey.id
    ensures GetTsValueByLatestDataKey(Some(other + rest), dataKey) == GetTsValueByLatestDataKey(Some(rest), dataKey)
  {
    var p := SameKey<V>(dataKey);
    FirstIndexAppend(other, rest, p);
    match FirstIndex(rest, p)
    case Some(j) =>
      assert (other + rest)[|other| + j] == rest[j];
    case None =>
  }

  /** The one entry for the key, holding the single sample `[1000, 42]`,
      yields that sample whatever other keys' entries surround it. */
  lemma LookupSingleSample(before: seq<DatasourceData<int>>, dataKey: DataKey, after: seq<DatasourceData<int>>)
    requires forall i :: 0 <= i < |before| ==> before[i].dataKey.id != dataKey.id
    ensures GetTsValueByLatestDataKey(Some(before + [DatasourceData(dataKey, Some([(1000, 42)]))] + after), dataKey) ==
      Some((1000, 42))
  {
    var entry := DatasourceData(dataKey, Some([(1000, 42)]));
    assert before + [entry] + after == before + ([entry] + after);
    LookupIgnoresNameTwins(before, [entry] + after, dataKey);
    assert IsFirst([entry] + after, SameKey(dataKey), 0);
  }

  /** An entry for the key with missing or empty samples yields `null`,
      whatever follows it. */
  lemma LookupEmptySeries<V(!new)>(dataKey: DataKey, data: Option<seq<Sample<V>>>, rest: seq<DatasourceData<V>>)
    requires data.None? || data == Some([])
    ensures GetTsValueByLatestDataKey(Some([DatasourceData(dataKey, data)] + rest), dataKey) == None
  {
  }
}
