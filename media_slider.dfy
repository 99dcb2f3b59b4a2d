/** The media-balance slider: its label, its percentage split and the value it writes. */
module MediaSlider {
  import opened Wrappers
  import opened JsParseInt
  import Preferences

  const NewAgeHeavy := "New Age Heavy"
  const LegacyHeavy := "Legacy Heavy"
  const Balanced := "Balanced"

  /** `getMediaLabel`: below 35 is new-age heavy, above 65 legacy heavy, 35..65 balanced. */
  function MediaLabel(weight: int): (text: string)
    ensures text == NewAgeHeavy <==> weight < 35
    ensures text == LegacyHeavy <==> weight > 65
    ensures text == Balanced <==> 35 <= weight <= 65
  {
    if weight < 35 then NewAgeHeavy
    else if weight > 65 then LegacyHeavy
    else Balanced
  }

  /** The text under the slider: `weight`% legacy and `100 - weight`% new age. */
  function DisplaySplit(weight: int): (split: (int, int))
    ensures split.0 == weight
    ensures split.0 + split.1 == 100
  {
    (weight, 100 - weight)
  }

  const SliderMin := 0
  const SliderMax := 100

  /** The value a range input with min 0 and max 100 reports for a requested position. */
  function SliderValue(position: int): (v: int)
    ensures SliderMin <= v <= SliderMax
    ensures SliderMin <= position <= SliderMax ==> v == position
    ensures position < SliderMin ==> v == SliderMin
    ensures position > SliderMax ==> v == SliderMax
  {
    if position < SliderMin then SliderMin
    else if position > SliderMax then SliderMax
    else position
  }

  /**
   * The slider's `onChange`: the input's value is its decimal text, which is read
   * back with `parseInt` and stored as the new weight; the category is left alone.
   */
  method OnChange(store: Preferences.PreferenceStore, position: int)
    requires store.Valid()
    modifies store
    ensures store.Valid()
    ensures store.prefs == old(store.prefs).(legacyWeight := SliderValue(position))
    ensures store.storage == old(store.storage)[Preferences.StorageKey := store.stringify(store.prefs)]
  {
    var parsed := ParseInt(IntToString(SliderValue(position)));
    ParseIntRoundTrip(SliderValue(position));
    store.SetPreferences(Preferences.PartialPrefs(None, Some(parsed.value)));
  }
}
