/**
 * What the two recorder variants share: the browser capture engine
 * (`MediaRecorder`) reduced to its observable state, recorded data and the
 * `Blob` built from it, the values a JavaScript call can throw or a promise can
 * settle with, and the outcome of asking the platform for a microphone stream.
 */
module Media {

  datatype Option<+T> = None | Some(value: T)

  /** The three values of `MediaRecorder.state`. */
  datatype RecState = Inactive | Recording | Paused

  type Bytes = seq<bv8>

  /** A `Blob`: its payload and its MIME type tag. */
  datatype Blob = Blob(bytes: Bytes, mimeType: string)

  /** The type tag both variants give the finished recording. */
  const OpusWebm := "audio/webm; codecs=opus"

  /** What a call can throw, or a promise can be rejected with. */
  datatype Raised =
    | Error(message: string)   // `new Error(message)`; its `name` is "Error"
    | Platform(name: string)   // an exception raised by the browser, known by its `name`
    | Reason(text: string)     // a bare string handed to `Promise.reject` or `reject`

  /** The `name` property of a raised value; a bare string has none. */
  function NameOf(e: Raised): (n: Option<string>)
    ensures n.None? <==> e.Reason?
    ensures e.Error? ==> n == Some("Error")
    ensures e.Platform? ==> n == Some(e.name)
  {
    match e
    case Error(_) => Some("Error")
    case Platform(name) => Some(name)
    case Reason(_) => None
  }

  /** A synchronous call: it returns a value or throws. */
  datatype Call<+T> = Returned(value: T) | Threw(error: Raised)

  /** The state of a promise. */
  datatype Outcome<+T> = Pending | Resolved(value: T) | Rejected(reason: Raised)

  /** How `getUserMedia({ audio: true })` settles. */
  datatype Acquisition = Granted | Refused(error: Raised)

  // Messages common to both variants.
  const NotStartedYet := "Audio Media Recorder not started yet!"
  const NoAudioRecording := "No audio recording!"
  const NoAudioPaused := "No audio paused!"
  const NoAudioOpened := "No audio opened!"

  /** The payload of `new Blob(parts)`: the parts' bytes, in order. */
  function Concat(parts: seq<Bytes>): Bytes
  {
    if parts == [] then [] else parts[0] + Concat(parts[1..])
  }

  /** Appending one more part appends its bytes to the payload. */
  lemma {:induction false} ConcatAppend(parts: seq<Bytes>, c: Bytes)
    ensures Concat(parts + [c]) == Concat(parts) + c
  {
    if parts == [] {
      assert parts + [c] == [c];
      assert Concat([c]) == c + Concat([]);
    } else {
      calc {
        Concat(parts + [c]);
        { assert (parts + [c])[0] == parts[0];
          assert (parts + [c])[1..] == parts[1..] + [c]; }
        parts[0] + Concat(parts[1..] + [c]);
        { ConcatAppend(parts[1..], c); }
        parts[0] + (Concat(parts[1..]) + c);
        (parts[0] + Concat(parts[1..])) + c;
      }
    }
  }

  /**
   * The browser's capture engine, as far as the recorders observe it: its
   * `state`, and whether `stop()` has been called without the `stop` event
   * having been delivered yet. `stop()` makes the state "inactive" at once;
   * the `dataavailable` and `stop` events follow later.
   */
  class MediaRecorder {
    var state: RecState
    var stopQueued: bool

    ghost predicate Valid()
      reads this
    {
      stopQueued ==> state == Inactive
    }

    /** `new MediaRecorder(stream, ...)`: created inactive. */
    constructor ()
      ensures Valid() && state == Inactive && !stopQueued
    {
      state := Inactive;
      stopQueued := false;
    }

    /** `start()`, which the recorders call only on a fresh engine. */
    method Start()
      requires Valid() && state == Inactive && !stopQueued
      modifies this
      ensures Valid() && state == Recording && !stopQueued
    {
      state := Recording;
    }

    /** `pause()`, which the recorders call only while recording. */
    method Pause()
      requires Valid() && state == Recording
      modifies this
      ensures Valid() && state == Paused && !stopQueued
    {
      state := Paused;
    }

    /** `resume()`, which the recorders call only while paused. */
    method Resume()
      requires Valid() && state == Paused
      modifies this
      ensures Valid() && state == Recording && !stopQueued
    {
      state := Recording;
    }

    /** `stop()` on a recording or paused engine: inactive now, `stop` event queued. */
    method Stop()
      requires Valid() && state != Inactive
      modifies this
      ensures Valid() && state == Inactive && stopQueued
    {
      state := Inactive;
      stopQueued := true;
    }

    /** The engine delivers its queued `stop` event; no more events follow. */
    method DispatchStop()
      requires Valid() && stopQueued
      modifies this
      ensures Valid() && state == Inactive && !stopQueued
    {
      stopQueued := false;
    }
  }
}
