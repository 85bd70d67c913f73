/**
 * What the three reader classes share: the errors they raise, the promise a
 * playback call returns, the playback options, JavaScript truthiness of the
 * values they test, and the `Math.max(lo, Math.min(hi, x))` clamp.
 */
module Playback {
  import opened Wrappers
  import opened Voices

  /**
   * The errors a reader raises. The first three are the reader's own, with the
   * messages below; the last two stand for errors that the media element or the
   * speech engine raise and the reader passes on.
   */
  datatype ReaderError = NoTextProvided | NoAudioLoaded | NoTextOrAudioSource | MediaError | SynthesisError

  /** The message of the reader's own errors; a passed-on error keeps the browser's own. */
  function Message(e: ReaderError): Option<string> {
    match e
    case NoTextProvided => Some("No text provided")
    case NoAudioLoaded => Some("No audio loaded")
    case NoTextOrAudioSource => Some("No text or audio source provided")
    case MediaError => None
    case SynthesisError => None
  }

  /**
   * The promise a playback call returns, as far as the call itself settles it:
   * still pending (settled later by the engine's end and error events), already
   * resolved, or already rejected.
   */
  datatype Promise = Pending | Resolved | Rejected(error: ReaderError)

  /** The `options` object passed to `speak`, `play` and `read`; `None` is an absent key. */
  datatype Options = Options(voice: Option<Voice>, rate: Option<real>, pitch: Option<real>, volume: Option<real>)

  /** JavaScript truthiness of an optional number: present and not zero. */
  predicate NumberTruthy(x: Option<real>) {
    x.Some? && x.value != 0.0
  }

  /** `x || fallback` for an optional number. */
  function NumberOr(x: Option<real>, fallback: real): real {
    if NumberTruthy(x) then x.value else fallback
  }

  /** JavaScript truthiness of an optional string: present and not empty. */
  predicate TextTruthy(s: Option<string>) {
    s.Some? && |s.value| > 0
  }

  function Max(a: real, b: real): real { if a >= b then a else b }
  function Min(a: real, b: real): real { if a <= b then a else b }

  /** `Math.max(lo, Math.min(hi, x))`: the point of `[lo, hi]` nearest to `x`. */
  function Clamp(lo: real, hi: real, x: real): (r: real)
    requires lo <= hi
    ensures lo <= r <= hi
    ensures lo <= x <= hi ==> r == x
    ensures x < lo ==> r == lo
    ensures x > hi ==> r == hi
  {
    Max(lo, Min(hi, x))
  }
}
