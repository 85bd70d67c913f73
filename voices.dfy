/**
 * The voice-preference rule of `StoryReader.loadVoices` and the name lookup
 * of `StoryReader.setVoice`, as pure selections over the browser's voice list.
 */
module Voices {
  import opened Wrappers
  import opened JsStrings
  import opened JsArrays

  /** A speech-synthesis voice as the reader sees it: its name and its BCP 47 language tag. */
  datatype Voice = Voice(name: string, lang: string)

  predicate IsEnglish(v: Voice) {
    StartsWith(v.lang, "en")
  }

  predicate HasQualityName(v: Voice) {
    Includes(v.name, "Natural") || Includes(v.name, "Enhanced") || Includes(v.name, "Premium")
  }

  /** An English voice with a "Natural", "Enhanced" or "Premium" name: the most preferred kind. */
  predicate IsPreferred(v: Voice) {
    IsEnglish(v) && HasQualityName(v)
  }

  /**
   * The voice `loadVoices` makes current, written as the source computes it:
   * filter the English voices, look among them for a quality name, else take the
   * first English voice; with no English voice take the first voice; with no
   * voice at all keep `current`.
   */
  function ChooseVoice(voices: seq<Voice>, current: Option<Voice>): Option<Voice> {
    var english := Filter(voices, IsEnglish);
    if |english| > 0 then
      match Find(english, HasQualityName)
      case Some(v) => Some(v)
      case None => Some(english[0])
    else if |voices| > 0 then Some(voices[0])
    else current
  }

  /**
   * The preference order stated on the voice list itself: the first preferred
   * voice, else the first English voice, else the first voice, else no change.
   */
  function PreferenceOrder(voices: seq<Voice>, current: Option<Voice>): Option<Voice> {
    match FirstIndex(voices, IsPreferred)
    case Some(k) => Some(voices[k])
    case None =>
      match FirstIndex(voices, IsEnglish)
      case Some(k) => Some(voices[k])
      case None => if |voices| > 0 then Some(voices[0]) else current
  }

  /** Filtering the English voices and then searching them picks by the preference order. */
  lemma ChooseVoiceInListOrder(voices: seq<Voice>, current: Option<Voice>)
    ensures ChooseVoice(voices, current) == PreferenceOrder(voices, current)
  {
    var english := Filter(voices, IsEnglish);
    FindInFilter(voices, IsEnglish, HasQualityName, IsPreferred);
    FilterEmptyIff(voices, IsEnglish);
    if english != [] {
      FilterHead(voices, IsEnglish);
    }
  }

  /** Whenever the list holds an English voice, the chosen voice is English. */
  lemma ChooseVoiceIsEnglish(voices: seq<Voice>, current: Option<Voice>, i: nat)
    requires i < |voices| && IsEnglish(voices[i])
    ensures ChooseVoice(voices, current).Some?
    ensures IsEnglish(ChooseVoice(voices, current).value)
  {
    ChooseVoiceInListOrder(voices, current);
  }

  /** Whenever the list holds a preferred voice, the chosen voice is preferred and is the first of them. */
  lemma ChooseVoiceIsPreferred(voices: seq<Voice>, current: Option<Voice>, i: nat)
    requires i < |voices| && IsPreferred(voices[i])
    ensures exists k :: (0 <= k <= i && ChooseVoice(voices, current) == Some(voices[k])
                         && IsPreferred(voices[k]) && forall j :: 0 <= j < k ==> !IsPreferred(voices[j]))
  {
    ChooseVoiceInListOrder(voices, current);
    var k := FirstIndex(voices, IsPreferred).value;
    assert k <= i;
  }

  /** With no English voice, the first voice is chosen; with no voice, `current` is kept. */
  lemma ChooseVoiceWithoutEnglish(voices: seq<Voice>, current: Option<Voice>)
    requires forall i :: 0 <= i < |voices| ==> !IsEnglish(voices[i])
    ensures ChooseVoice(voices, current) == if |voices| > 0 then Some(voices[0]) else current
  {
    ChooseVoiceInListOrder(voices, current);
  }

  /** `voices.find(v => v.name === name)`: the first voice with exactly that name. */
  function LookupVoice(voices: seq<Voice>, name: string): (r: Option<Voice>)
    ensures r.Some? <==> exists i :: 0 <= i < |voices| && voices[i].name == name
    ensures r.Some? ==> exists k :: (0 <= k < |voices| && r.value == voices[k] && voices[k].name == name
                                     && forall j :: 0 <= j < k ==> voices[j].name != name)
  {
    var found := FirstIndex(voices, (v: Voice) => v.name == name);
    if found.Some? then
      assert voices[found.value].name == name;
      Some(voices[found.value])
    else
      None
  }
}
