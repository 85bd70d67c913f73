# Story reader: voice choice, playback state and routing

This project models the reader module of the social-stories generator
(`shared/reader.js`). The module lets a story page be read aloud in one of two
ways. Either it plays a pre-generated audio file through an `Audio` element, or
it uses the browser's text-to-speech synthesizer. It has three classes:

- `StoryReader` (module `Speech`) wraps the speech synthesizer. It picks a
  voice by a fixed preference order, refuses blank text, clamps rate and pitch,
  and keeps an `isPlaying` flag up to date from the utterance's events.
- `AudioPlayer` (module `Audio`) wraps one `Audio` element. It loads and plays
  it, guards every operation on "an element is loaded", and clamps playback
  rate and volume.
- `UnifiedReader` (module `Unified`) holds one of each. Its `mode` ("audio"
  or "tts") decides which one `read`, `pause` and `resume` use. When the audio
  attempt fails it can fall back to speech, and that switches the mode to
  "tts".

The browser is abstract:

- The synthesizer's `speaking` and `paused` flags are fields that only the
  browser changes, through `SynthChanged`.
- The commands the reader gives the synthesizer (speak, cancel, pause,
  resume) are appended to `synthCalls`.
- The commands the player gives the element (load, play, pause) are appended
  to `mediaCalls`.
- The `Audio` element is a value. It holds its source, its position, its
  playback rate, its volume, and whether `play` has installed the player's
  event handlers on it.
- The utterance and element events (`onstart`, `onend`, `onerror`, `onplay`,
  `onended`) are explicit methods.
- `read` takes two inputs that the browser decides. One is how awaiting the
  load and the playback turns out. The other is whether `speechSynthesis.speak`
  throws.

Each promise is modelled only as far as the call itself settles it: pending,
resolved or rejected with one of the reader's errors.

The JavaScript semantics the code relies on are written out:

- `startsWith`, `includes` and `trim` (module `JsStrings`). `trim` uses
  ECMAScript's white-space and line-terminator code points.
- `filter` and `find` (module `JsArrays`).
- Truthiness: an absent or empty string is falsy, and so is an absent or zero
  number.

Truthiness has visible effects:

- `speak` builds the utterance with `options.volume || 1.0`, so a volume of 0
  gives a full-volume utterance.
- A pitch of 0 falls back to the reader's pitch (`Speech.ZeroOptionsFallback`).
- Text made only of white space passes `read`'s own text test. `speak` then
  rejects it with "No text provided"
  (`Unified.PlanReadBlankText`).

The getters `getVoices`, `getCurrentVoice`, `getMode` and `getCurrentTime` are
the functions `GetVoices`, `GetCurrentVoice`, `GetMode` and `CurrentTime`, which
read the fields.

## Model

| member | source | states |
|---|---|---|
| `JsStrings.IncludesIff` | shared/reader.js:34-36 | `includes` holds exactly when the substring occurs at some index |
| `JsStrings.TrimEmptyIff` | shared/reader.js:51 | `s.trim() === ''` exactly when every character is white space |
| `JsArrays.FirstIndex` | shared/reader.js:33-37 | the index found holds the predicate and no earlier element does; none is found exactly when no element holds it |
| `JsArrays.FindInFilter` | shared/reader.js:29-37 | finding `q` among the elements filtered by `p` finds the first element of the whole array that satisfies both |
| `JsArrays.FilterEmptyIff` | shared/reader.js:29-31 | the filtered array is empty exactly when no element passes the filter |
| `JsArrays.FilterHead` | shared/reader.js:37 | the first filtered element is the first element that passes the filter |
| `Voices.ChooseVoiceInListOrder` | shared/reader.js:25-45 | the choice made by filtering the English voices and searching them equals `PreferenceOrder`, which reads the list directly. That order is: the first English voice with a Natural/Enhanced/Premium name; else the first English voice; else the first voice; with no voices, the current voice is kept |
| `Voices.ChooseVoiceIsEnglish` | shared/reader.js:29-39 | if any voice's language starts with "en", the chosen voice is English |
| `Voices.ChooseVoiceIsPreferred` | shared/reader.js:33-39 | if an English voice with a quality name exists, the chosen voice is one, and no earlier voice is |
| `Voices.ChooseVoiceWithoutEnglish` | shared/reader.js:40-42 | with no English voice, the first voice is chosen; with an empty list the current voice is unchanged |
| `Voices.LookupVoice` | shared/reader.js:122 | a voice is found exactly when some voice has exactly that name, and it is the first such voice |
| `Playback.Clamp` | shared/reader.js:131 | the result lies in `[lo, hi]`, equals `x` inside the range and the nearest bound outside it |
| `Speech.NoTextIff` | shared/reader.js:51 | `speak` refuses exactly absent text and text that is all white space (including the empty string) |
| `Speech.SpeakResult` | shared/reader.js:47-98 | the promise `speak` returns is rejected with "No text provided" exactly when the text is absent or all white space; it is rejected at all only for such text or when `synth.speak` throws (lines 93-98); it is never already resolved |
| `Speech.ZeroOptionsFallback` | shared/reader.js:61-63 | a zero pitch or volume option is falsy: the utterance gets the reader's pitch and volume 1.0 |
| `Speech.StoryReader.constructor` | shared/reader.js:7-23 | starts not playing, at rate and pitch 1.0, with the voice that `loadVoices` chooses from the available voices |
| `Speech.StoryReader.LoadVoices` | shared/reader.js:25-45 | stores and returns the available voices; the current voice becomes the one `ChooseVoice` picks, starting from the old current voice |
| `Speech.StoryReader.Speak` | shared/reader.js:47-100 | stops first, so it is never playing afterwards; refused text creates no utterance and issues only the stop's cancel; other text creates the utterance with the options' voice/rate/pitch/volume or the reader's defaults, and issues it to the synthesizer |
| `Speech.StoryReader.OnStart` | shared/reader.js:66-69 | the utterance starting sets `isPlaying` |
| `Speech.StoryReader.OnEnd` | shared/reader.js:71-75 | the utterance ending clears `isPlaying` |
| `Speech.StoryReader.OnError` | shared/reader.js:77-82 | an utterance error clears `isPlaying` |
| `Speech.StoryReader.SynthChanged` | shared/reader.js:109-115 | the synthesizer's `speaking` and `paused` flags, which `resume` and `stop` read, change only through the browser |
| `Speech.StoryReader.Pause` | shared/reader.js:102-106 | pauses the synthesizer only while playing; nothing else changes |
| `Speech.StoryReader.Resume` | shared/reader.js:108-112 | resumes the synthesizer only when it reports being paused |
| `Speech.StoryReader.Stop` | shared/reader.js:114-119 | never playing afterwards; cancels the synthesizer exactly when it was playing or the synthesizer was speaking |
| `Speech.StoryReader.SetVoice` | shared/reader.js:121-128 | true exactly when some voice has that name, and the current voice becomes the first such voice; otherwise the current voice is unchanged; the voice list never changes |
| `Speech.StoryReader.SetRate` | shared/reader.js:130-132 | the rate becomes the nearest point of [0.1, 10] |
| `Speech.StoryReader.SetPitch` | shared/reader.js:134-136 | the pitch becomes the nearest point of [0, 2] |
| `Audio.AudioPlayer.constructor` | shared/reader.js:151-155 | starts with no element, not playing, no source |
| `Audio.AudioPlayer.Load` | shared/reader.js:157-177 | stops the old element, then a fresh element for the source (position 0, rate 1, volume 1, no handlers) is loaded and becomes the current source |
| `Audio.AudioPlayer.Play` | shared/reader.js:179-219 | with no element, rejects with "No audio loaded" and changes nothing; otherwise installs the handlers, applies a truthy rate and a present volume unclamped, and plays |
| `Audio.AudioPlayer.OnPlay` | shared/reader.js:186-189 | the element playing sets `isPlaying`, if `play` installed the handlers |
| `Audio.AudioPlayer.OnEnded` | shared/reader.js:191-195 | the element ending clears `isPlaying`, if `play` installed the handlers |
| `Audio.AudioPlayer.OnError` | shared/reader.js:197-202 | an element error clears `isPlaying`, if `play` installed the handlers |
| `Audio.AudioPlayer.Pause` | shared/reader.js:221-226 | with an element that is playing, pauses it and clears `isPlaying`; otherwise nothing changes |
| `Audio.AudioPlayer.Resume` | shared/reader.js:228-232 | plays a loaded element that is not playing |
| `Audio.AudioPlayer.Stop` | shared/reader.js:234-240 | does nothing without an element; otherwise pauses it, rewinds it to 0 and clears `isPlaying` |
| `Audio.AudioPlayer.SetRate` | shared/reader.js:242-246 | with an element, its rate becomes the nearest point of [0.25, 4]; without one nothing changes |
| `Audio.AudioPlayer.SetVolume` | shared/reader.js:248-252 | with an element, its volume becomes the nearest point of [0, 1]; without one nothing changes |
| `Audio.AudioPlayer.Seek` | shared/reader.js:262-266 | with an element, its position becomes the time given; without one nothing changes |
| `Unified.PlanRead` | shared/reader.js:281-303 | the audio path is taken exactly when the source is truthy and the mode is "audio"; a playback that ends resolves; a failed attempt falls back to speech and switches to "tts" when fallback is on and text is truthy, and is re-raised otherwise; off the audio path, speech is used exactly when text is truthy, else it rejects with "No text or audio source provided" |
| `Unified.PlanReadMode` | shared/reader.js:283-292 | the mode stays "audio" or "tts"; it changes only when a failed audio attempt falls back to speech |
| `Unified.PlanReadBlankText` | shared/reader.js:298-299 | off the audio path, non-empty all-white-space text is rejected by `speak` with "No text provided" |
| `Unified.PlanReadWithTextNotRejectedOnReturn` | shared/reader.js:281-303 | with non-blank text, fallback on and an engine that accepts the utterance, the promise `read` returns is resolved (audio played to its end) or pending (speech), never already rejected |
| `Unified.PlanReadNoSource` | shared/reader.js:297-302 | `read` rejects with "No text or audio source provided" exactly when it has neither truthy text nor a truthy source in audio mode |
| `Unified.UnifiedReader.constructor` | shared/reader.js:274-279 | a fresh speech reader and audio player, mode "audio", fallback on |
| `Unified.UnifiedReader.Read` | shared/reader.js:281-303 | returns the outcome and sets the mode that `PlanRead` gives. Only on the audio path does the player load the source and, unless loading failed, play it. Only when the plan speaks does the speech reader speak; otherwise it is untouched |
| `Unified.UnifiedReader.Pause` | shared/reader.js:305-311 | pauses the audio player in audio mode and the speech reader otherwise; the other is untouched |
| `Unified.UnifiedReader.Resume` | shared/reader.js:313-319 | resumes the audio player in audio mode and the speech reader otherwise; the other is untouched |
| `Unified.UnifiedReader.Stop` | shared/reader.js:321-324 | stops both; neither plays afterwards |
| `Unified.UnifiedReader.SetMode` | shared/reader.js:326-332 | true, with the mode set, exactly for "audio" and "tts"; otherwise false and the mode unchanged |
| `Unified.UnifiedReader.SetAutoFallback` | shared/reader.js:338-340 | the fallback flag becomes the value given |

## Left out

- `createReaderControls` (shared/reader.js:346-455): DOM lookup, HTML injection, button visibility and `alert`. It is user interface only.
- The CommonJS export block and console logging: neither has behaviour to model.
- The Web Speech API and the `Audio` element themselves. They are represented only by the flags, the command logs and the element value above. The synthesizer's flags change only when the browser says so (`SynthChanged`), not as a consequence of the commands.
- Speech.StoryReader.Speak: its promise is modelled as returned, not as later settled. Settlement (resolve on `onend`, reject on `onerror`) is asynchronous; the events' effect on `isPlaying` is modelled by `OnEnd` and `OnError`.
- Unified.UnifiedReader.Read: on the speech path its outcome is the promise `speak` returns, still pending. Its later settlement by the utterance's events is not part of the outcome. The element events during the audio attempt are not replayed by `Read`: the attempt's result is an input.
- Unified.PlanReadWithTextNotRejectedOnReturn: it speaks of the promise as `read` returns it. On the speech path that promise is the one `speak` returned. The utterance's `onerror` (shared/reader.js:77-82), for instance after a synthesis failure or a `cancel`, may still reject it later.
- An explicit `null` option is not modelled: options are present or absent (`undefined`). `play` tests `options.volume !== undefined`, so `play({volume: null})` would assign `null`, which the element takes as volume 0.
- The user callbacks in `options` (`onStart`, `onEnd`, `onError`, `onPause`, `onResume`), and the `onpause`/`onresume` handlers that only call them: they belong to the caller.
- `AudioPlayer.load`'s promise and its `loadeddata`/`error` listeners: their outcome is the `AudioAttempt` input of `read`.
- `AudioPlayer.getDuration`: the element's duration is media metadata that the browser supplies.
- The element's position advancing during playback is not modelled; it changes only by `stop` and `seek`.
- The element's own property checks. A volume outside [0, 1] passed to `play` makes the element throw, which would reject `play`'s promise. The browser also clamps a seek position to the media's length.
- NaN and other IEEE-754 cases: rates, pitches, volumes and times are reals, and NaN's falsiness is not modelled.
- Voices are compared as values (name and language), not by object identity.
- Events from an utterance or element that has been replaced. They reach the reader in the source too. Here `OnStart`/`OnEnd`/`OnError` apply whichever utterance fired. `OnPlay`/`OnEnded`/`OnError` of the player look only at the current element's handlers.
- The `onvoiceschanged` feature test in the constructor. `LoadVoices` can be called as that event handler at any time.
