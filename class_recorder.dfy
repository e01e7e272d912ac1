/**
 * The `AudioRecorder` of src/recorder/class/recorder.ts: one engine per
 * recorder, never replaced; `discard` only stops the engine, so its result is
 * still built; device errors are mapped to a distinct message per cause and
 * any other error is rethrown unchanged.
 */
module ClassRecorder {
  import opened Media

  const AlreadyStarted := "Media stream already started!"
  const ErrorPrefix := "Audio recorder error - "

  /** The causes of a failed device acquisition that get their own message. */
  datatype Cause = TrackMissing | MicInUse | Unsatisfiable | PermissionDenied | EmptyConstraints

  /** Which platform error names stand for which cause. */
  const Causes: map<string, Cause> := map[
    "NotFoundError" := TrackMissing,
    "DevicesNotFoundError" := TrackMissing,
    "NotReadableError" := MicInUse,
    "TrackStartError" := MicInUse,
    "OverconstrainedError" := Unsatisfiable,
    "ConstraintNotSatisfiedError" := Unsatisfiable,
    "NotAllowedError" := PermissionDenied,
    "PermissionDeniedError" := PermissionDenied,
    "TypeError" := EmptyConstraints
  ]

  /** The message of the error that replaces an error of the given cause. */
  function Message(c: Cause): string
  {
    ErrorPrefix +
      match c
      case TrackMissing => "Required track is missing"
      case MicInUse => "Mic is already in use"
      case Unsatisfiable => "Constraints can not be satisfied by available devices"
      case PermissionDenied => "Permission denied in browser"
      case EmptyConstraints => "Empty constraints object"
  }

  /**
   * The `.catch` of `start`: an error whose name is a known cause is replaced
   * by an `Error` with that cause's message; anything else is rethrown as is.
   */
  function MapError(err: Raised): (r: Raised)
    ensures NameOf(err).Some? && NameOf(err).value in Causes ==>
              r == Error(Message(Causes[NameOf(err).value]))
    ensures (NameOf(err).None? || NameOf(err).value !in Causes) ==> r == err
  {
    var name := NameOf(err);
    if name == Some("NotFoundError") || name == Some("DevicesNotFoundError") then
      Error(ErrorPrefix + "Required track is missing")
    else if name == Some("NotReadableError") || name == Some("TrackStartError") then
      Error(ErrorPrefix + "Mic is already in use")
    else if name == Some("OverconstrainedError") || name == Some("ConstraintNotSatisfiedError") then
      Error(ErrorPrefix + "Constraints can not be satisfied by available devices")
    else if name == Some("NotAllowedError") || name == Some("PermissionDeniedError") then
      Error(ErrorPrefix + "Permission denied in browser")
    else if name == Some("TypeError") then
      Error(ErrorPrefix + "Empty constraints object")
    else
      err
  }

  /** Two known platform errors are mapped to the same error exactly when they have the same cause. */
  lemma MapErrorSeparatesCauses(a: string, b: string)
    requires a in Causes && b in Causes
    ensures MapError(Platform(a)) == MapError(Platform(b)) <==> Causes[a] == Causes[b]
  {
  }

  /** The error a second `start` raises passes through the mapping unchanged. */
  lemma AlreadyStartedPassesThrough()
    ensures MapError(Error(AlreadyStarted)) == Error(AlreadyStarted)
  {
  }

  class AudioRecorder {
    /** `_mediaRecorderInstance`: absent until the first successful `start`. */
    var instance: MediaRecorder?
    /** The `chunks` array the engine callbacks close over. */
    var chunks: seq<Bytes>
    /** `_result`. */
    var result: Option<Blob>
    /** Acquired microphone streams whose tracks have not been stopped. */
    ghost var liveStreams: nat

    /** The engine is recording or paused, or has a `stop` event still to deliver. */
    ghost predicate Live()
      reads this, instance
    {
      instance != null && (instance.state != Inactive || instance.stopQueued)
    }

    ghost predicate Valid()
      reads this, instance
    {
      && (instance == null ==> chunks == [] && result == None && liveStreams == 0)
      && (instance != null ==> instance.Valid() && (result.Some? <==> !Live()))
      && (Live() ==> liveStreams >= 1)
      && (result.Some? ==> result.value == Blob(Concat(chunks), OpusWebm))
    }

    constructor ()
      ensures Valid()
      ensures instance == null && chunks == [] && result == None && liveStreams == 0
    {
      instance := null;
      chunks := [];
      result := None;
      liveStreams := 0;
    }

    /** The `mediaRecorder` getter: throws until an engine exists. */
    method GetMediaRecorder() returns (r: Call<MediaRecorder>)
      ensures r.Threw? <==> instance == null
      ensures r.Threw? ==> r.error == Error(NotStartedYet)
      ensures r.Returned? ==> r.value == instance
    {
      if instance == null {
        r := Threw(Error(NotStartedYet));
      } else {
        r := Returned(instance);
      }
    }

    /**
     * `start`, once `getUserMedia` has settled as `acquired`. A refusal
     * rejects with the mapped error. A granted stream installs a fresh
     * recording engine and empty chunks, unless an engine already exists: then
     * the promise rejects with "Media stream already started!" and the
     * existing engine stays, while the newly acquired stream is never stopped.
     */
    method Start(acquired: Acquisition) returns (r: Outcome<()>)
      requires Valid()
      modifies this
      ensures Valid()
      ensures acquired.Refused? ==>
                && r == Rejected(MapError(acquired.error))
                && instance == old(instance) && chunks == old(chunks)
                && result == old(result) && liveStreams == old(liveStreams)
      ensures acquired.Granted? ==> liveStreams == old(liveStreams) + 1
      ensures acquired.Granted? && old(instance) != null ==>
                && r == Rejected(Error(AlreadyStarted))
                && instance == old(instance) && chunks == old(chunks) && result == old(result)
      ensures acquired.Granted? && old(instance) == null ==>
                && r == Resolved(())
                && instance != null && fresh(instance)
                && instance.state == Recording && !instance.stopQueued
                && chunks == [] && result == None
    {
      match acquired
      case Refused(e) =>
        r := Rejected(MapError(e));
      case Granted =>
        liveStreams := liveStreams + 1;
        if instance != null {
          AlreadyStartedPassesThrough();
          r := Rejected(MapError(Error(AlreadyStarted)));
        } else {
          var engine := new MediaRecorder();
          instance := engine;
          chunks := [];
          engine.Start();
          r := Resolved(());
        }
    }

    /** `pause`: only a recording engine is paused; otherwise "No audio recording!". */
    method Pause() returns (r: Call<()>)
      requires Valid()
      modifies instance
      ensures Valid()
      ensures instance == null ==> r == Threw(Error(NotStartedYet))
      ensures instance != null && old(instance.state) != Recording ==>
                r == Threw(Error(NoAudioRecording)) && unchanged(instance)
      ensures instance != null && old(instance.state) == Recording ==>
                r == Returned(()) && instance.state == Paused && !instance.stopQueued
    {
      var m := GetMediaRecorder();
      if m.Threw? {
        return Threw(m.error);
      }
      var engine := m.value;
      if engine.state != Recording {
        return Threw(Error(NoAudioRecording));
      }
      engine.Pause();
      r := Returned(());
    }

    /** `resume`: only a paused engine is resumed; otherwise "No audio paused!". */
    method Resume() returns (r: Call<()>)
      requires Valid()
      modifies instance
      ensures Valid()
      ensures instance == null ==> r == Threw(Error(NotStartedYet))
      ensures instance != null && old(instance.state) != Paused ==>
                r == Threw(Error(NoAudioPaused)) && unchanged(instance)
      ensures instance != null && old(instance.state) == Paused ==>
                r == Returned(()) && instance.state == Recording && !instance.stopQueued
    {
      var m := GetMediaRecorder();
      if m.Threw? {
        return Threw(m.error);
      }
      var engine := m.value;
      if engine.state != Paused {
        return Threw(Error(NoAudioPaused));
      }
      engine.Resume();
      r := Returned(());
    }

    /**
     * `stop`: unless the engine is recording or paused, the returned promise
     * is already rejected with "No audio recording!" and the engine is not
     * touched; otherwise the engine is stopped and the promise is pending,
     * to be settled by `PollStop`.
     */
    method Stop() returns (r: Call<Outcome<Blob>>)
      requires Valid()
      modifies instance
      ensures Valid()
      ensures instance == null ==> r == Threw(Error(NotStartedYet))
      ensures instance != null && old(instance.state) != Recording && old(instance.state) != Paused ==>
                r == Returned(Rejected(Reason(NoAudioRecording))) && unchanged(instance)
      ensures instance != null && (old(instance.state) == Recording || old(instance.state) == Paused) ==>
                r == Returned(Pending) && instance.state == Inactive && instance.stopQueued
    {
      var m := GetMediaRecorder();
      if m.Threw? {
        return Threw(m.error);
      }
      var engine := m.value;
      if engine.state != Recording && engine.state != Paused {
        return Returned(Rejected(Reason(NoAudioRecording)));
      }
      engine.Stop();
      r := Returned(Pending);
    }

    /**
     * One tick of the interval that `stop` sets up: a settled promise stays as
     * it is; a pending one resolves once `_result` is set, with the blob of all
     * chunks recorded in order, and never rejects.
     */
    function PollStop(promise: Outcome<Blob>): (next: Outcome<Blob>)
      reads this, instance
      requires Valid()
      ensures !promise.Pending? ==> next == promise
      ensures promise.Pending? ==> (next.Pending? <==> result.None?)
      ensures promise.Pending? && next.Resolved? ==> next.value == Blob(Concat(chunks), OpusWebm)
      ensures next.Rejected? ==> promise.Rejected?
    {
      if !promise.Pending? then promise
      else if result.Some? then Resolved(result.value)
      else Pending
    }

    /**
     * `discard`: unless the engine is recording or paused it throws
     * "No audio opened!"; otherwise it stops the engine, exactly as `stop`
     * does, so the result is still built when the `stop` event arrives.
     */
    method Discard() returns (r: Call<()>)
      requires Valid()
      modifies instance
      ensures Valid()
      ensures instance == null ==> r == Threw(Error(NotStartedYet))
      ensures instance != null && old(instance.state) != Recording && old(instance.state) != Paused ==>
                r == Threw(Error(NoAudioOpened)) && unchanged(instance)
      ensures instance != null && (old(instance.state) == Recording || old(instance.state) == Paused) ==>
                r == Returned(()) && instance.state == Inactive && instance.stopQueued
    {
      var m := GetMediaRecorder();
      if m.Threw? {
        return Threw(m.error);
      }
      var engine := m.value;
      if engine.state != Recording && engine.state != Paused {
        return Threw(Error(NoAudioOpened));
      }
      engine.Stop();
      r := Returned(());
    }

    /** The `ondataavailable` callback: the chunk is appended to the recording. */
    method OnData(c: Bytes)
      requires Valid() && Live()
      modifies this
      ensures Valid()
      ensures chunks == old(chunks) + [c] && Concat(chunks) == Concat(old(chunks)) + c
      ensures instance == old(instance) && result == old(result) && liveStreams == old(liveStreams)
    {
      ConcatAppend(chunks, c);
      chunks := chunks + [c];
    }

    /**
     * The engine delivers its `stop` event and the `onstop` callback runs: the
     * stream's tracks are stopped and `_result` becomes the blob of every
     * chunk, in arrival order, tagged "audio/webm; codecs=opus".
     */
    method OnStop()
      requires Valid() && instance != null && instance.stopQueued
      modifies this, instance
      ensures Valid()
      ensures instance == old(instance) && instance.state == Inactive && !instance.stopQueued
      ensures chunks == old(chunks) && liveStreams == old(liveStreams) - 1
      ensures result == Some(Blob(Concat(chunks), OpusWebm))
    {
      instance.DispatchStop();
      liveStreams := liveStreams - 1;
      result := Some(Blob(Concat(chunks), OpusWebm));
    }
  }

  /**
   * A whole session: three chunks arrive, `stop` is called, a poll tick before
   * the `stop` event leaves the promise pending, and the tick after it
   * resolves with the three chunks' bytes in order.
   */
  method RecordThreeChunks(c1: Bytes, c2: Bytes, c3: Bytes) returns (early: Outcome<Blob>, final: Outcome<Blob>)
    ensures early == Pending
    ensures final == Resolved(Blob(c1 + c2 + c3, OpusWebm))
  {
    var rec := new AudioRecorder();
    var started := rec.Start(Granted);
    assert Concat(rec.chunks) == [];
    rec.OnData(c1);
    rec.OnData(c2);
    rec.OnData(c3);
    assert Concat(rec.chunks) == c1 + c2 + c3;
    var stopped := rec.Stop();
    assert stopped == Returned(Pending);
    early := rec.PollStop(stopped.value);
    assert early == Pending;
    rec.OnStop();
    assert rec.result == Some(Blob(c1 + c2 + c3, OpusWebm));
    final := rec.PollStop(early);
  }

  /**
   * Once a session has finished, no call reopens it: a second `start` rejects
   * and keeps the engine, and `stop` rejects without a pending promise.
   */
  method NoSecondSession(c: Bytes) returns (again: Outcome<()>, stopAgain: Call<Outcome<Blob>>, kept: Option<Blob>)
    ensures again == Rejected(Error(AlreadyStarted))
    ensures stopAgain == Returned(Rejected(Reason(NoAudioRecording)))
    ensures kept == Some(Blob(c, OpusWebm))
  {
    var rec := new AudioRecorder();
    var started := rec.Start(Granted);
    assert Concat(rec.chunks) == [];
    rec.OnData(c);
    assert Concat(rec.chunks) == c;
    var stopped := rec.Stop();
    rec.OnStop();
    again := rec.Start(Granted);
    stopAgain := rec.Stop();
    kept := rec.result;
  }
}
