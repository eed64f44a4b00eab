/**
 * `computeAggregatedCardValue`: find the data key configured for a metric
 * name and a slot, and build that slot's presentation shell.
 */
module KeyResolver {
  import opened Wrappers
  import opened ArrayFind
  import opened CardModels

  /** `dataKey.settings?.position`: undefined when the settings are. */
  function StoredPosition(k: DataKey): Option<string> {
    if k.settings.Some? then k.settings.value.position else None
  }

  /** JavaScript falsiness of an optional string: undefined or empty. */
  predicate Falsy(s: Option<string>) {
    s.None? || s.value == ""
  }

  /** The predicate handed to `find`: same name, and either the stored
      position is the requested slot or it is falsy and the slot is `center`.
      That is exactly "same name and same effective slot". */
  predicate Matches(k: DataKey, keyName: string, position: Position): (r: bool)
    ensures r <==> k.name == keyName && EffectivePosition(k) == Some(position)
  {
    ParsePositionValue(position);
    k.name == keyName &&
    (StoredPosition(k) == Some(PositionValue(position)) ||
     (Falsy(StoredPosition(k)) && position == Center))
  }

  function MatchesSlot(keyName: string, position: Position): DataKey -> bool {
    k => Matches(k, keyName, position)
  }

  /** Reference reading of a key's slot: `center` when no position is stored,
      the slot the stored string names otherwise, and no slot at all for a
      string that names none. */
  function EffectivePosition(k: DataKey): Option<Position> {
    if Falsy(StoredPosition(k)) then Some(Center) else ParsePosition(StoredPosition(k).value)
  }

  /** Default position rule: a key with no (or an empty) stored position
      matches a request for `center` and never one for another slot. */
  lemma DefaultPositionRule(k: DataKey, keyName: string, position: Position)
    requires Falsy(StoredPosition(k))
    ensures Matches(k, keyName, position) <==> k.name == keyName && position == Center
  {
  }

  /** The outcome of the call: `undefined` when no key matches, the descriptor
      when one does, and the `TypeError` thrown by `settings.font` when the
      matching key has no settings object at all. */
  datatype Resolution = NoMatch | Resolved(card: CardValue) | SettingsUndefined(key: DataKey)

  /** The descriptor built for a matched key whose settings are `s`: a shell
      for that key whose value the caller fills in later, arrows not yet set,
      marked as central only for the `center` slot, with the key's units and
      the style and colour bound to the key's own settings. */
  function Shell(key: DataKey, s: KeySettings, position: Position): (c: CardValue)
    ensures c.key == key && c.value == "" && !c.upArrow && !c.downArrow
    ensures c.center <==> position == Center
    ensures c.units == key.units && c.showArrow == s.showArrow
    ensures c.style == TextStyle(s.font, "0.25px") && c.color == FromSettings(s.color)
  {
    CardValue(
      key := key,
      value := "",
      units := key.units,
      style := TextStyle(s.font, "0.25px"),
      color := FromSettings(s.color),
      center := position == Center,
      showArrow := s.showArrow,
      upArrow := false,
      downArrow := false)
  }

  function ComputeAggregatedCardValue(dataKeys: seq<DataKey>, keyName: string, position: Position): (r: Resolution)
    // nothing comes back exactly when no key matches
    ensures r.NoMatch? <==> forall i :: 0 <= i < |dataKeys| ==> !Matches(dataKeys[i], keyName, position)
    // otherwise the outcome is about the first matching key
    ensures r.Resolved? ==> exists i: nat :: IsFirst(dataKeys, MatchesSlot(keyName, position), i) && dataKeys[i] == r.card.key
    ensures r.SettingsUndefined? ==> exists i: nat :: IsFirst(dataKeys, MatchesSlot(keyName, position), i) && dataKeys[i] == r.key
    // which throws exactly when it has no settings, which only a `center` request can reach
    ensures r.SettingsUndefined? ==> r.key.settings.None? && position == Center
    ensures r.Resolved? ==> r.card.key.settings.Some?
    // the fresh descriptor: empty value, arrows down, centre flag, copied units and arrow setting
    ensures r.Resolved? ==>
      var c := r.card;
      var s := c.key.settings.value;
      && c.key.name == keyName
      && c.value == ""
      && !c.upArrow && !c.downArrow
      && c.center == (position == Center)
      && c.units == c.key.units
      && c.showArrow == s.showArrow
      && c.style == TextStyle(s.font, "0.25px")
      && c.color == FromSettings(s.color)
  {
    match FirstIndex(dataKeys, MatchesSlot(keyName, position))
    case None => NoMatch
    case Some(i) => ResolveKey(dataKeys[i], position)
  }

  /** What happens once `find` has returned `key` (lines 89-101). */
  function ResolveKey(key: DataKey, position: Position): Resolution {
    match key.settings
    case None => SettingsUndefined(key)
    case Some(s) => Resolved(Shell(key, s, position))
  }

  /** A resolved descriptor sits in the slot it was asked for, under the name
      it was asked for. */
  lemma ResolvedKeyIsInSlot(dataKeys: seq<DataKey>, keyName: string, position: Position)
    requires ComputeAggregatedCardValue(dataKeys, keyName, position).Resolved?
    ensures var k := ComputeAggregatedCardValue(dataKeys, keyName, position).card.key;
      k.name == keyName && EffectivePosition(k) == Some(position)
  {
  }

  /** Keys after a match are never consulted; when nothing in the prefix
      matches, the prefix is as good as absent. */
  lemma {:induction false} ResolutionOfConcatenation(a: seq<DataKey>, b: seq<DataKey>, keyName: string, position: Position)
    ensures ComputeAggregatedCardValue(a + b, keyName, position) ==
      if ComputeAggregatedCardValue(a, keyName, position).NoMatch?
      then ComputeAggregatedCardValue(b, keyName, position)
      else ComputeAggregatedCardValue(a, keyName, position)
  {
    var p := MatchesSlot(keyName, position);
    FirstIndexAppend(a, b, p);
    match FirstIndex(a, p)
    case Some(i) =>
      assert (a + b)[i] == a[i];
      assert ComputeAggregatedCardValue(a + b, keyName, position) == ResolveKey(a[i], position);
    case None =>
      match FirstIndex(b, p)
      case Some(j) =>
        assert (a + b)[|a| + j] == b[j];
        assert ComputeAggregatedCardValue(a + b, keyName, position) == ResolveKey(b[j], position);
      case None =>
  }

  /** First match wins: when two keys share a name and a slot, the earlier
      one is resolved and the later one is never looked at. */
  lemma FirstMatchWins(before: seq<DataKey>, k: DataKey, after: seq<DataKey>, keyName: string, position: Position)
    requires forall i :: 0 <= i < |before| ==> !Matches(before[i], keyName, position)
    requires Matches(k, keyName, position) && k.settings.Some?
    ensures ComputeAggregatedCardValue(before + [k] + after, keyName, position) ==
      Resolved(Shell(k, k.settings.value, position))
  {
    ResolutionOfConcatenation(before, [k] + after, keyName, position);
    assert before + [k] + after == before + ([k] + after);
    assert MatchesSlot(keyName, position)(([k] + after)[0]);
  }
}
