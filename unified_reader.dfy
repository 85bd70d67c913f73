/**
 * `UnifiedReader`: one interface over the pre-recorded audio player and the
 * text-to-speech reader, with a mode that says which one to use and an
 * automatic fallback from audio to speech.
 */
module Unified {
  import opened Wrappers
  import opened JsStrings
  import opened Voices
  import opened Playback
  import opened Speech
  import opened Audio

  const AudioMode: string := "audio"
  const TtsMode: string := "tts"

  predicate IsMode(m: string) {
    m == AudioMode || m == TtsMode
  }

  /**
   * How awaiting `audioPlayer.load(src)` and then `audioPlayer.play(options)`
   * turns out: the load is rejected, the playback is rejected, or the playback
   * runs to its end.
   */
  datatype AudioAttempt = LoadFailed | PlaybackFailed | PlaybackEnded

  /**
   * The decision `read` takes: whether it tries the audio file, whether it
   * hands the text to the speech reader, the mode afterwards, and the promise
   * it returns.
   */
  datatype ReadPlan = ReadPlan(triesAudio: bool, speaks: bool, mode: string, outcome: Promise)

  /** The routing of `read(text, audioSrc, options)`. */
  function PlanRead(mode: string, autoFallback: bool, text: Option<string>, audioSrc: Option<string>,
                    attempt: AudioAttempt, engineThrows: bool): (plan: ReadPlan)
    ensures plan.triesAudio <==> TextTruthy(audioSrc) && mode == AudioMode
    ensures plan.triesAudio && attempt == PlaybackEnded ==>
              !plan.speaks && plan.mode == mode && plan.outcome == Resolved
    ensures plan.triesAudio && attempt != PlaybackEnded && autoFallback && TextTruthy(text) ==>
              plan.speaks && plan.mode == TtsMode && plan.outcome == SpeakResult(text, engineThrows)
    ensures plan.triesAudio && attempt != PlaybackEnded && !(autoFallback && TextTruthy(text)) ==>
              !plan.speaks && plan.mode == mode && plan.outcome == Rejected(MediaError)
    ensures !plan.triesAudio ==> plan.mode == mode && (plan.speaks <==> TextTruthy(text))
    ensures !plan.triesAudio && TextTruthy(text) ==> plan.outcome == SpeakResult(text, engineThrows)
    ensures !plan.triesAudio && !TextTruthy(text) ==> plan.outcome == Rejected(NoTextOrAudioSource)
  {
    if TextTruthy(audioSrc) && mode == AudioMode then
      if attempt == PlaybackEnded then ReadPlan(true, false, mode, Resolved)
      else if autoFallback && TextTruthy(text) then ReadPlan(true, true, TtsMode, SpeakResult(text, engineThrows))
      else ReadPlan(true, false, mode, Rejected(MediaError))
    else if TextTruthy(text) then ReadPlan(false, true, mode, SpeakResult(text, engineThrows))
    else ReadPlan(false, false, mode, Rejected(NoTextOrAudioSource))
  }

  /**
   * `read` keeps the mode valid, and changes it only by falling back to speech
   * after the audio attempt failed.
   */
  lemma PlanReadMode(mode: string, autoFallback: bool, text: Option<string>, audioSrc: Option<string>,
                     attempt: AudioAttempt, engineThrows: bool)
    requires IsMode(mode)
    ensures var plan := PlanRead(mode, autoFallback, text, audioSrc, attempt, engineThrows);
      IsMode(plan.mode)
      && (plan.mode != mode <==> mode == AudioMode && plan.triesAudio && attempt != PlaybackEnded && plan.speaks)
  {
  }

  /**
   * Text that is present but only white space passes `read`'s own test and is
   * then refused by `speak`: without the audio path, `read` rejects with
   * "No text provided", not with "No text or audio source provided".
   */
  lemma PlanReadBlankText(mode: string, autoFallback: bool, text: Option<string>, audioSrc: Option<string>,
                          attempt: AudioAttempt, engineThrows: bool)
    requires text.Some? && |text.value| > 0 && AllWhitespace(text.value)
    requires !(TextTruthy(audioSrc) && mode == AudioMode)
    ensures PlanRead(mode, autoFallback, text, audioSrc, attempt, engineThrows).outcome == Rejected(NoTextProvided)
  {
    NoTextIff(text);
  }

  /**
   * With text that has a non-white-space character, automatic fallback on and a
   * speech engine that accepts the utterance, the promise `read` returns is not
   * already rejected: it is resolved by an audio playback that ended, or still
   * pending on the speech path, where the utterance's error event may reject it
   * later.
   */
  lemma PlanReadWithTextNotRejectedOnReturn(mode: string, text: Option<string>, audioSrc: Option<string>,
                                     attempt: AudioAttempt, i: nat)
    requires text.Some? && i < |text.value| && !IsWhitespace(text.value[i])
    ensures PlanRead(mode, true, text, audioSrc, attempt, false).outcome in {Resolved, Pending}
  {
    NoTextIff(text);
  }

  /** `read` rejects for want of a source exactly when it has neither usable audio nor text. */
  lemma PlanReadNoSource(mode: string, autoFallback: bool, text: Option<string>, audioSrc: Option<string>,
                         attempt: AudioAttempt, engineThrows: bool)
    ensures PlanRead(mode, autoFallback, text, audioSrc, attempt, engineThrows).outcome == Rejected(NoTextOrAudioSource)
            <==> !TextTruthy(text) && !(TextTruthy(audioSrc) && mode == AudioMode)
  {
  }

  class UnifiedReader {
    const ttsReader: StoryReader
    const audioPlayer: AudioPlayer
    var mode: string
    var autoFallback: bool

    ghost predicate Valid()
      reads this, ttsReader, audioPlayer
    {
      IsMode(mode) && ttsReader.Valid() && audioPlayer.Valid()
    }

    /** `new UnifiedReader()`, with the speech reader's inputs as for `StoryReader`. */
    constructor (available: seq<Voice>, speaking: bool, paused: bool)
      ensures Valid() && fresh(ttsReader) && fresh(audioPlayer)
      ensures mode == AudioMode && autoFallback
      ensures ttsReader.voices == available && ttsReader.currentVoice == ChooseVoice(available, None)
      ensures ttsReader.utterance == None && !ttsReader.isPlaying && ttsReader.synthCalls == []
      ensures ttsReader.rate == 1.0 && ttsReader.pitch == 1.0
      ensures ttsReader.synthSpeaking == speaking && ttsReader.synthPaused == paused
      ensures audioPlayer.audio == None && !audioPlayer.isPlaying && audioPlayer.mediaCalls == []
    {
      ttsReader := new StoryReader(available, speaking, paused);
      audioPlayer := new AudioPlayer();
      mode := AudioMode;
      autoFallback := true;
    }

    /** The routing `read` takes in the current state. */
    function Plan(text: Option<string>, audioSrc: Option<string>, attempt: AudioAttempt, engineThrows: bool): ReadPlan
      reads this
    {
      PlanRead(mode, autoFallback, text, audioSrc, attempt, engineThrows)
    }

    /**
     * `read(text, audioSrc, options)`, with the outcome of the audio attempt and
     * whether `synth.speak` throws as inputs. It follows `PlanRead`: the audio
     * player loads and plays the file only on the audio path, and the speech
     * reader speaks the text only when the plan says so.
     */
    method Read(text: Option<string>, audioSrc: Option<string>, options: Options,
                attempt: AudioAttempt, engineThrows: bool) returns (p: Promise)
      requires Valid()
      modifies this`mode, ttsReader`utterance, ttsReader`isPlaying, ttsReader`synthCalls, audioPlayer
      ensures Valid()
      ensures p == old(Plan(text, audioSrc, attempt, engineThrows)).outcome
      ensures mode == old(Plan(text, audioSrc, attempt, engineThrows)).mode
      ensures old(Plan(text, audioSrc, attempt, engineThrows)).triesAudio ==>
                audioPlayer.currentSource == audioSrc && !audioPlayer.isPlaying
                && audioPlayer.audio == Some(if attempt == LoadFailed then NewMedia(audioSrc.value)
                                             else Prepared(NewMedia(audioSrc.value), options))
                && audioPlayer.mediaCalls == old(audioPlayer.mediaCalls) + StopMediaCalls(old(audioPlayer.audio))
                                             + [LoadMedia] + (if attempt == LoadFailed then [] else [PlayMedia])
      ensures !old(Plan(text, audioSrc, attempt, engineThrows)).triesAudio ==> unchanged(audioPlayer)
      ensures old(Plan(text, audioSrc, attempt, engineThrows)).speaks ==>
                !ttsReader.isPlaying
                && ttsReader.utterance == (if NoText(text) then old(ttsReader.utterance)
                                           else Some(old(ttsReader.UtteranceFor(text.value, options))))
                && ttsReader.synthCalls == old(ttsReader.synthCalls)
                                           + StopCalls(old(ttsReader.isPlaying), old(ttsReader.synthSpeaking))
                                           + (if NoText(text) then []
                                              else [SpeakUtterance(old(ttsReader.UtteranceFor(text.value, options)))])
      ensures !old(Plan(text, audioSrc, attempt, engineThrows)).speaks ==> unchanged(ttsReader)
    {
      if TextTruthy(audioSrc) && mode == AudioMode {
        audioPlayer.Load(audioSrc.value);
        if attempt != LoadFailed {
          var playing := audioPlayer.Play(options);
        }
        if attempt == PlaybackEnded {
          return Resolved;
        }
        if autoFallback && TextTruthy(text) {
          mode := TtsMode;
          p := ttsReader.Speak(text, options, engineThrows);
          return;
        }
        return Rejected(MediaError);
      }
      if TextTruthy(text) {
        p := ttsReader.Speak(text, options, engineThrows);
        return;
      }
      return Rejected(NoTextOrAudioSource);
    }

    /** `pause()`: pauses the audio player in audio mode, the speech reader otherwise. */
    method Pause()
      requires Valid()
      modifies ttsReader`synthCalls, audioPlayer`isPlaying, audioPlayer`mediaCalls
      ensures Valid()
      ensures mode == AudioMode ==> unchanged(ttsReader)
      ensures mode == AudioMode && old(audioPlayer.audio.Some? && audioPlayer.isPlaying) ==>
                !audioPlayer.isPlaying && audioPlayer.mediaCalls == old(audioPlayer.mediaCalls) + [PauseMedia]
      ensures mode == AudioMode && !old(audioPlayer.audio.Some? && audioPlayer.isPlaying) ==> unchanged(audioPlayer)
      ensures mode != AudioMode ==> unchanged(audioPlayer)
      ensures mode != AudioMode ==>
                ttsReader.synthCalls == old(ttsReader.synthCalls) + if ttsReader.isPlaying then [PauseSpeech] else []
    {
      if mode == AudioMode {
        audioPlayer.Pause();
      } else {
        ttsReader.Pause();
      }
    }

    /** `resume()`: resumes the audio player in audio mode, the speech reader otherwise. */
    method Resume()
      requires Valid()
      modifies ttsReader`synthCalls, audioPlayer`mediaCalls
      ensures Valid()
      ensures mode == AudioMode ==> unchanged(ttsReader)
      ensures mode == AudioMode ==>
                audioPlayer.mediaCalls == old(audioPlayer.mediaCalls)
                                          + if audioPlayer.audio.Some? && !audioPlayer.isPlaying then [PlayMedia] else []
      ensures mode != AudioMode ==> unchanged(audioPlayer)
      ensures mode != AudioMode ==>
                ttsReader.synthCalls == old(ttsReader.synthCalls) + if ttsReader.synthPaused then [ResumeSpeech] else []
    {
      if mode == AudioMode {
        audioPlayer.Resume();
      } else {
        ttsReader.Resume();
      }
    }

    /** `stop()`: stops both players, whatever the mode; neither is playing afterwards. */
    method Stop()
      requires Valid()
      modifies ttsReader`synthCalls, ttsReader`isPlaying, audioPlayer`audio, audioPlayer`isPlaying, audioPlayer`mediaCalls
      ensures Valid()
      ensures !ttsReader.isPlaying && !audioPlayer.isPlaying
      ensures ttsReader.synthCalls == old(ttsReader.synthCalls) + StopCalls(old(ttsReader.isPlaying), ttsReader.synthSpeaking)
      ensures audioPlayer.audio == Rewound(old(audioPlayer.audio))
      ensures audioPlayer.mediaCalls == old(audioPlayer.mediaCalls) + StopMediaCalls(old(audioPlayer.audio))
    {
      audioPlayer.Stop();
      ttsReader.Stop();
    }

    /** `setMode(m)`: accepts exactly "audio" and "tts"; anything else leaves the mode. */
    method SetMode(m: string) returns (accepted: bool)
      requires Valid()
      modifies this`mode
      ensures Valid()
      ensures accepted <==> (m == AudioMode || m == TtsMode)
      ensures mode == if accepted then m else old(mode)
    {
      if m == AudioMode || m == TtsMode {
        mode := m;
        return true;
      }
      return false;
    }

    /** `getMode()` */
    function GetMode(): string
      reads this
    {
      mode
    }

    /** `setAutoFallback(enabled)` */
    method SetAutoFallback(enabled: bool)
      requires Valid()
      modifies this`autoFallback
      ensures Valid() && autoFallback == enabled
    {
      autoFallback := enabled;
    }
  }
}
