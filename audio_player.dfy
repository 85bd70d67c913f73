/**
 * `AudioPlayer`: playback of a pre-generated audio file through an `Audio`
 * element. The element is a value: its source, the properties the player sets
 * and reads back, and whether `play` has installed the player's event handlers
 * on it. The commands the player gives the element are recorded in `mediaCalls`.
 */
module Audio {
  import opened Wrappers
  import opened Playback

  /** The `Audio` element's state, as far as the player sets or reads it. */
  datatype MediaElement = MediaElement(src: string, currentTime: real, playbackRate: real, volume: real, handlers: bool)

  /** A command given to the element. */
  datatype MediaCall = LoadMedia | PlayMedia | PauseMedia

  const MinPlaybackRate: real := 0.25
  const MaxPlaybackRate: real := 4.0
  const MinVolume: real := 0.0
  const MaxVolume: real := 1.0

  /** `new Audio(src)`: at the start, at normal speed and full volume, no handlers yet. */
  function NewMedia(src: string): MediaElement {
    MediaElement(src, 0.0, 1.0, 1.0, false)
  }

  /**
   * What `play(options)` does to the element before playing it: installs the
   * handlers, takes `options.rate` when it is truthy and `options.volume` when
   * it is present (neither is clamped here).
   */
  function Prepared(a: MediaElement, options: Options): MediaElement {
    a.(handlers := true,
       playbackRate := if NumberTruthy(options.rate) then options.rate.value else a.playbackRate,
       volume := if options.volume.Some? then options.volume.value else a.volume)
  }

  /** The commands `stop` gives: a pause, when an element is loaded. */
  function StopMediaCalls(audio: Option<MediaElement>): seq<MediaCall> {
    if audio.Some? then [PauseMedia] else []
  }

  /** `stop` on the element: rewound to the start, nothing else changed. */
  function Rewound(audio: Option<MediaElement>): Option<MediaElement> {
    match audio
    case Some(a) => Some(a.(currentTime := 0.0))
    case None => None
  }

  class AudioPlayer {
    var audio: Option<MediaElement>
    var isPlaying: bool
    var currentSource: Option<string>
    /** The commands given to the element, oldest first. */
    var mediaCalls: seq<MediaCall>

    /** The loaded element plays `currentSource`; without an element nothing plays. */
    ghost predicate Valid()
      reads this
    {
      (audio.Some? <==> currentSource.Some?)
      && (audio.Some? ==> audio.value.src == currentSource.value)
      && (audio.None? ==> !isPlaying)
    }

    /** `new AudioPlayer()` */
    constructor ()
      ensures Valid()
      ensures audio == None && !isPlaying && currentSource == None && mediaCalls == []
    {
      audio := None;
      isPlaying := false;
      currentSource := None;
      mediaCalls := [];
    }

    /**
     * `load(src)`: stops, then creates a fresh element for `src` and starts
     * loading it. Whether loading succeeds is settled later by the element.
     */
    method Load(src: string)
      requires Valid()
      modifies this
      ensures Valid()
      ensures audio == Some(NewMedia(src)) && currentSource == Some(src) && !isPlaying
      ensures mediaCalls == old(mediaCalls) + StopMediaCalls(old(audio)) + [LoadMedia]
    {
      Stop();
      audio := Some(NewMedia(src));
      currentSource := Some(src);
      mediaCalls := mediaCalls + [LoadMedia];
    }

    /** `play(options)`: rejected with "No audio loaded" when nothing is loaded. */
    method Play(options: Options) returns (p: Promise)
      requires Valid()
      modifies this`audio, this`mediaCalls
      ensures Valid()
      ensures old(audio).None? ==> p == Rejected(NoAudioLoaded) && audio == old(audio) && mediaCalls == old(mediaCalls)
      ensures old(audio).Some? ==> p == Pending && audio == Some(Prepared(old(audio).value, options))
                                   && mediaCalls == old(mediaCalls) + [PlayMedia]
    {
      if audio.None? {
        return Rejected(NoAudioLoaded);
      }
      audio := Some(Prepared(audio.value, options));
      mediaCalls := mediaCalls + [PlayMedia];
      p := Pending;
    }

    /** The element's `play` event: playing, if `play` installed the handlers. */
    method OnPlay()
      requires Valid() && audio.Some?
      modifies this`isPlaying
      ensures Valid()
      ensures isPlaying == (old(isPlaying) || audio.value.handlers)
    {
      if audio.value.handlers {
        isPlaying := true;
      }
    }

    /** The element's `ended` event: not playing, if `play` installed the handlers. */
    method OnEnded()
      requires Valid() && audio.Some?
      modifies this`isPlaying
      ensures Valid()
      ensures isPlaying == (old(isPlaying) && !audio.value.handlers)
    {
      if audio.value.handlers {
        isPlaying := false;
      }
    }

    /** The element's `error` event: not playing, if `play` installed the handlers. */
    method OnError()
      requires Valid() && audio.Some?
      modifies this`isPlaying
      ensures Valid()
      ensures isPlaying == (old(isPlaying) && !audio.value.handlers)
    {
      if audio.value.handlers {
        isPlaying := false;
      }
    }

    /** `pause()`: pauses only a loaded element that is playing. */
    method Pause()
      requires Valid()
      modifies this`isPlaying, this`mediaCalls
      ensures Valid()
      ensures old(audio.Some? && isPlaying) ==> !isPlaying && mediaCalls == old(mediaCalls) + [PauseMedia]
      ensures !old(audio.Some? && isPlaying) ==> isPlaying == old(isPlaying) && mediaCalls == old(mediaCalls)
    {
      if audio.Some? && isPlaying {
        mediaCalls := mediaCalls + [PauseMedia];
        isPlaying := false;
      }
    }

    /**
     * `resume()`: plays a loaded element that is not playing; `isPlaying` waits
     * for the element's `play` event.
     */
    method Resume()
      requires Valid()
      modifies this`mediaCalls
      ensures Valid()
      ensures mediaCalls == old(mediaCalls) + if audio.Some? && !isPlaying then [PlayMedia] else []
    {
      if audio.Some? && !isPlaying {
        mediaCalls := mediaCalls + [PlayMedia];
      }
    }

    /** `stop()`: with an element loaded, pauses it, rewinds it and clears `isPlaying`; else nothing. */
    method Stop()
      requires Valid()
      modifies this`audio, this`isPlaying, this`mediaCalls
      ensures Valid()
      ensures audio == Rewound(old(audio))
      ensures mediaCalls == old(mediaCalls) + StopMediaCalls(old(audio))
      ensures isPlaying == (old(isPlaying) && old(audio).None?)
      ensures old(audio).Some? ==> CurrentTime() == 0.0 && !isPlaying
    {
      if audio.Some? {
        mediaCalls := mediaCalls + [PauseMedia];
        audio := Some(audio.value.(currentTime := 0.0));
        isPlaying := false;
      }
    }

    /** `setRate(r)`: with an element loaded, its rate becomes the point of [0.25, 4] nearest to `r`. */
    method SetRate(r: real)
      requires Valid()
      modifies this`audio
      ensures Valid()
      ensures old(audio).None? ==> audio == None
      ensures old(audio).Some? ==> audio == Some(old(audio).value.(playbackRate := Clamp(MinPlaybackRate, MaxPlaybackRate, r)))
      ensures audio.Some? ==> MinPlaybackRate <= audio.value.playbackRate <= MaxPlaybackRate
    {
      if audio.Some? {
        audio := Some(audio.value.(playbackRate := Clamp(MinPlaybackRate, MaxPlaybackRate, r)));
      }
    }

    /** `setVolume(v)`: with an element loaded, its volume becomes the point of [0, 1] nearest to `v`. */
    method SetVolume(v: real)
      requires Valid()
      modifies this`audio
      ensures Valid()
      ensures old(audio).None? ==> audio == None
      ensures old(audio).Some? ==> audio == Some(old(audio).value.(volume := Clamp(MinVolume, MaxVolume, v)))
      ensures audio.Some? ==> MinVolume <= audio.value.volume <= MaxVolume
    {
      if audio.Some? {
        audio := Some(audio.value.(volume := Clamp(MinVolume, MaxVolume, v)));
      }
    }

    /** `seek(t)`: with an element loaded, moves it to `t`. */
    method Seek(t: real)
      requires Valid()
      modifies this`audio
      ensures Valid()
      ensures old(audio).None? ==> audio == None
      ensures old(audio).Some? ==> audio == Some(old(audio).value.(currentTime := t)) && CurrentTime() == t
    {
      if audio.Some? {
        audio := Some(audio.value.(currentTime := t));
      }
    }

    /** `getCurrentTime()`: the element's position, 0 with nothing loaded. */
    function CurrentTime(): real
      reads this
    {
      if audio.Some? then audio.value.currentTime else 0.0
    }
  }
}
