/**
 * `StoryReader`: text-to-speech through the browser's speech synthesizer.
 *
 * The synthesizer itself is abstract. Its `speaking` and `paused` flags belong
 * to the browser and change only through `SynthChanged`; the commands the
 * reader gives it are recorded, in order, in `synthCalls`.
 */
module Speech {
  import opened Wrappers
  import opened JsStrings
  import opened Voices
  import opened Playback

  /** A `SpeechSynthesisUtterance` with the settings `speak` gives it. */
  datatype Utterance = Utterance(text: string, voice: Option<Voice>, rate: real, pitch: real, volume: real)

  /** A command given to the speech synthesizer. */
  datatype SynthCall = SpeakUtterance(utterance: Utterance) | Cancel | PauseSpeech | ResumeSpeech

  const MinRate: real := 0.1
  const MaxRate: real := 10.0
  const MinPitch: real := 0.0
  const MaxPitch: real := 2.0

  /** `!text || text.trim() === ''`: the text `speak` refuses. */
  predicate NoText(text: Option<string>) {
    !TextTruthy(text) || Trim(text.value) == ""
  }

  /** `speak` refuses exactly the absent text and the text made only of white space. */
  lemma NoTextIff(text: Option<string>)
    ensures NoText(text) <==> text.None? || AllWhitespace(text.value)
  {
    if text.Some? {
      TrimEmptyIff(text.value);
    }
  }

  /** The command `stop` gives: a cancel, when the reader or the synthesizer is busy. */
  function StopCalls(playing: bool, speaking: bool): seq<SynthCall> {
    if playing || speaking then [Cancel] else []
  }

  /**
   * The promise `speak` returns, given whether `synth.speak` throws: rejected
   * with "No text provided" exactly for absent or all-white-space text, and
   * rejected at all only for such text or when the engine throws.
   */
  function SpeakResult(text: Option<string>, engineThrows: bool): (p: Promise)
    ensures p == Rejected(NoTextProvided) <==> text.None? || AllWhitespace(text.value)
    ensures p.Rejected? <==> text.None? || AllWhitespace(text.value) || engineThrows
    ensures !p.Resolved?
  {
    NoTextIff(text);
    if NoText(text) then Rejected(NoTextProvided)
    else if engineThrows then Rejected(SynthesisError)
    else Pending
  }

  class StoryReader {
    var voices: seq<Voice>
    var currentVoice: Option<Voice>
    var utterance: Option<Utterance>
    var isPlaying: bool
    var rate: real
    var pitch: real
    /** The browser's `speechSynthesis.speaking` and `speechSynthesis.paused`. */
    var synthSpeaking: bool
    var synthPaused: bool
    /** The commands given to `speechSynthesis`, oldest first. */
    var synthCalls: seq<SynthCall>

    /** The rate and the pitch stay within the ranges `setRate` and `setPitch` clamp to. */
    ghost predicate Valid()
      reads this
    {
      MinRate <= rate <= MaxRate && MinPitch <= pitch <= MaxPitch
    }

    /**
     * `new StoryReader()`, with `available` as what `synth.getVoices()` returns
     * and `speaking`, `paused` as the synthesizer's flags at that moment.
     */
    constructor (available: seq<Voice>, speaking: bool, paused: bool)
      ensures Valid()
      ensures voices == available && currentVoice == ChooseVoice(available, None)
      ensures utterance == None && !isPlaying && rate == 1.0 && pitch == 1.0
      ensures synthSpeaking == speaking && synthPaused == paused && synthCalls == []
    {
      voices := available;
      currentVoice := ChooseVoice(available, None);
      utterance := None;
      isPlaying := false;
      rate := 1.0;
      pitch := 1.0;
      synthSpeaking := speaking;
      synthPaused := paused;
      synthCalls := [];
    }

    /**
     * `loadVoices()`, with `available` as what `synth.getVoices()` returns.
     * It is also the `onvoiceschanged` handler.
     */
    method LoadVoices(available: seq<Voice>) returns (loaded: seq<Voice>)
      requires Valid()
      modifies this
      ensures Valid()
      ensures loaded == available && voices == available
      ensures currentVoice == ChooseVoice(available, old(currentVoice))
      ensures utterance == old(utterance) && isPlaying == old(isPlaying)
      ensures rate == old(rate) && pitch == old(pitch)
      ensures synthSpeaking == old(synthSpeaking) && synthPaused == old(synthPaused)
      ensures synthCalls == old(synthCalls)
    {
      voices := available;
      currentVoice := ChooseVoice(voices, currentVoice);
      loaded := voices;
    }

    /** The utterance `speak(text, options)` creates. */
    function UtteranceFor(text: string, options: Options): Utterance
      reads this
    {
      Utterance(text,
                if options.voice.Some? then options.voice else currentVoice,
                NumberOr(options.rate, rate),
                NumberOr(options.pitch, pitch),
                NumberOr(options.volume, 1.0))
    }

    /**
     * `speak(text, options)`; `engineThrows` says whether `synth.speak` throws.
     * It stops first; refused text creates no utterance.
     */
    method Speak(text: Option<string>, options: Options, engineThrows: bool) returns (p: Promise)
      requires Valid()
      modifies this`utterance, this`isPlaying, this`synthCalls
      ensures Valid()
      ensures p == SpeakResult(text, engineThrows)
      ensures !isPlaying
      ensures NoText(text) ==> utterance == old(utterance)
      ensures NoText(text) ==> synthCalls == old(synthCalls) + StopCalls(old(isPlaying), old(synthSpeaking))
      ensures !NoText(text) ==> utterance == Some(old(UtteranceFor(text.value, options)))
      ensures !NoText(text) ==> synthCalls == old(synthCalls) + StopCalls(old(isPlaying), old(synthSpeaking))
                                               + [SpeakUtterance(old(UtteranceFor(text.value, options)))]
    {
      Stop();
      if NoText(text) {
        return Rejected(NoTextProvided);
      }
      var u := UtteranceFor(text.value, options);
      utterance := Some(u);
      synthCalls := synthCalls + [SpeakUtterance(u)];
      p := if engineThrows then Rejected(SynthesisError) else Pending;
    }

    /** The utterance's `onstart` event. */
    method OnStart()
      requires Valid() && utterance.Some?
      modifies this`isPlaying
      ensures Valid() && isPlaying
    {
      isPlaying := true;
    }

    /** The utterance's `onend` event. */
    method OnEnd()
      requires Valid() && utterance.Some?
      modifies this`isPlaying
      ensures Valid() && !isPlaying
    {
      isPlaying := false;
    }

    /** The utterance's `onerror` event. */
    method OnError()
      requires Valid() && utterance.Some?
      modifies this`isPlaying
      ensures Valid() && !isPlaying
    {
      isPlaying := false;
    }

    /** The browser changes the synthesizer's `speaking` and `paused` flags. */
    method SynthChanged(speaking: bool, paused: bool)
      requires Valid()
      modifies this`synthSpeaking, this`synthPaused
      ensures Valid() && synthSpeaking == speaking && synthPaused == paused
    {
      synthSpeaking, synthPaused := speaking, paused;
    }

    /** `pause()`: pauses the synthesizer only while playing; `isPlaying` is left as it is. */
    method Pause()
      requires Valid()
      modifies this`synthCalls
      ensures Valid()
      ensures synthCalls == old(synthCalls) + if isPlaying then [PauseSpeech] else []
    {
      if isPlaying {
        synthCalls := synthCalls + [PauseSpeech];
      }
    }

    /** `resume()`: resumes the synthesizer only when it reports being paused. */
    method Resume()
      requires Valid()
      modifies this`synthCalls
      ensures Valid()
      ensures synthCalls == old(synthCalls) + if synthPaused then [ResumeSpeech] else []
    {
      if synthPaused {
        synthCalls := synthCalls + [ResumeSpeech];
      }
    }

    /** `stop()`: never playing afterwards; cancels only when playing or speaking. */
    method Stop()
      requires Valid()
      modifies this`synthCalls, this`isPlaying
      ensures Valid() && !isPlaying
      ensures synthCalls == old(synthCalls) + StopCalls(old(isPlaying), synthSpeaking)
    {
      if isPlaying || synthSpeaking {
        synthCalls := synthCalls + [Cancel];
        isPlaying := false;
      }
    }

    /** `setVoice(name)`: true, and that voice current, exactly when some voice has that name. */
    method SetVoice(name: string) returns (found: bool)
      requires Valid()
      modifies this`currentVoice
      ensures Valid()
      ensures found <==> exists i :: 0 <= i < |voices| && voices[i].name == name
      ensures found ==> currentVoice == LookupVoice(voices, name)
      ensures !found ==> currentVoice == old(currentVoice)
    {
      var voice := LookupVoice(voices, name);
      if voice.Some? {
        currentVoice := voice;
        return true;
      }
      return false;
    }

    /** `setRate(r)`: the rate becomes the point of [0.1, 10] nearest to `r`. */
    method SetRate(r: real)
      requires Valid()
      modifies this`rate
      ensures Valid()
      ensures rate == Clamp(MinRate, MaxRate, r)
      ensures MinRate <= r <= MaxRate ==> rate == r
    {
      rate := Clamp(MinRate, MaxRate, r);
    }

    /** `setPitch(p)`: the pitch becomes the point of [0, 2] nearest to `p`. */
    method SetPitch(p: real)
      requires Valid()
      modifies this`pitch
      ensures Valid()
      ensures pitch == Clamp(MinPitch, MaxPitch, p)
      ensures MinPitch <= p <= MaxPitch ==> pitch == p
    {
      pitch := Clamp(MinPitch, MaxPitch, p);
    }

    /** `getVoices()` */
    function GetVoices(): seq<Voice>
      reads this
    {
      voices
    }

    /** `getCurrentVoice()` */
    function GetCurrentVoice(): Option<Voice>
      reads this
    {
      currentVoice
    }
  }

  /**
   * The utterance takes the option's number only when it is truthy: a volume of
   * 0 gives a full-volume utterance, and a pitch of 0 gives the reader's pitch.
   */
  lemma ZeroOptionsFallback(r: StoryReader, text: string, voice: Option<Voice>, rate: Option<real>)
    ensures r.UtteranceFor(text, Options(voice, rate, Some(0.0), Some(0.0))).volume == 1.0
    ensures r.UtteranceFor(text, Options(voice, rate, Some(0.0), Some(0.0))).pitch == r.pitch
  {
  }
}
