/**
 * The `AudioRecorder` of src/recorder/index.ts: `start` may be called again
 * and replaces the engine; a `_discardResult` flag, set by `discard` and
 * cleared by `stop`, keeps `onstop` from building a result and makes a
 * pending `stop` reject; every device error becomes the same generic error.
 */
module IndexRecorder {
  import opened Media

  const RecorderError := "Audio recorder error"
  const ResultDiscarded := "The result was discarded!"

  /**
   * The `.catch` of `start`: whatever was raised, known platform error or
   * not, the promise rejects with one generic `Error`, so neither the cause
   * nor the original name reaches the caller.
   */
  function MapError(err: Raised): (r: Raised)
    ensures r == Error(RecorderError)
    ensures NameOf(r) == Some("Error")
  {
    var name := NameOf(err);
    if name == Some("NotFoundError") || name == Some("DevicesNotFoundError") then
      Error(RecorderError)
    else if name == Some("NotReadableError") || name == Some("TrackStartError") then
      Error(RecorderError)
    else if name == Some("OverconstrainedError") || name == Some("ConstraintNotSatisfiedError") then
      Error(RecorderError)
    else if name == Some("NotAllowedError") || name == Some("PermissionDeniedError") then
      Error(RecorderError)
    else if name == Some("TypeError") then
      Error(RecorderError)
    else
      Error(RecorderError)
  }

  class AudioRecorder {
    /** `_mediaRecorderInstance`: absent until the first successful `start`. */
    var instance: MediaRecorder?
    /** The `chunks` array the current engine's callbacks close over. */
    var chunks: seq<Bytes>
    /** `_result`. */
    var result: Option<Blob>
    /** `_discardResult`. */
    var discardResult: bool
    /** Acquired microphone streams whose tracks have not been stopped. */
    ghost var liveStreams: nat

    /** The engine is recording or paused, or has a `stop` event still to deliver. */
    ghost predicate Live()
      reads this, instance
    {
      instance != null && (instance.state != Inactive || instance.stopQueued)
    }

    ghost predicate Valid()
      reads this, instance
    {
      && (instance == null ==> chunks == [] && result == None && !discardResult && liveStreams == 0)
      && (instance != null ==> instance.Valid())
      && (Live() ==> liveStreams >= 1)
    }

    /**
     * `_result`, when set, belongs to the current engine's session: that
     * session is over, was not discarded, and the result is the blob of its
     * chunks in arrival order.
     */
    ghost predicate Current()
      reads this, instance
    {
      result.Some? ==>
        && instance != null && !Live() && !discardResult
        && result.value == Blob(Concat(chunks), OpusWebm)
    }

    constructor ()
      ensures Valid() && Current()
      ensures instance == null && chunks == [] && result == None && !discardResult && liveStreams == 0
    {
      instance := null;
      chunks := [];
      result := None;
      discardResult := false;
      liveStreams := 0;
    }

    /** The `mediaRecorder` getter: throws until an engine exists. */
    method GetMediaRecorder() returns (r: Call<MediaRecorder>)
      ensures r.Threw? <==> instance == null
      ensures r.Threw? ==> r.error == Error(NotStartedYet)
      ensures r.Returned? ==> r.value == instance
    {
      if instance == null {
        r := Threw(Error(NotStartedYet));
      } else {
        r := Returned(instance);
      }
    }

    /**
     * `start` as the source has it, once `getUserMedia` has settled as
     * `acquired`: a refusal rejects with the generic error and changes
     * nothing; a granted stream always installs a fresh recording engine with
     * empty chunks, replacing any engine there was, and leaves `_result` as
     * it was, possibly the blob of an earlier session.
     */
    method StartAsWritten(acquired: Acquisition) returns (r: Outcome<()>)
      requires Valid()
      modifies this
      ensures Valid()
      ensures acquired.Refused? ==>
                && r == Rejected(Error(RecorderError))
                && instance == old(instance) && chunks == old(chunks)
                && liveStreams == old(liveStreams)
      ensures acquired.Granted? ==>
                && r == Resolved(())
                && instance != null && fresh(instance)
                && instance.state == Recording && !instance.stopQueued
                && chunks == [] && liveStreams == old(liveStreams) + 1
      ensures result == old(result) && discardResult == old(discardResult)
    {
      match acquired
      case Refused(e) =>
        r := Rejected(MapError(e));
      case Granted =>
        liveStreams := liveStreams + 1;
        var engine := new MediaRecorder();
        instance := engine;
        chunks := [];
        engine.Start();
        r := Resolved(());
    }

    /**
     * `start` with `_result` cleared when the new engine is installed, so
     * that a result is only ever the current session's. Otherwise as
     * `StartAsWritten`.
     */
    method Start(acquired: Acquisition) returns (r: Outcome<()>)
      requires Valid()
      modifies this
      ensures Valid()
      ensures acquired.Refused? ==>
                && r == Rejected(Error(RecorderError))
                && instance == old(instance) && chunks == old(chunks)
                && result == old(result) && liveStreams == old(liveStreams)
      ensures acquired.Granted? ==>
                && r == Resolved(())
                && instance != null && fresh(instance)
                && instance.state == Recording && !instance.stopQueued
                && chunks == [] && result == None && liveStreams == old(liveStreams) + 1
      ensures discardResult == old(discardResult)
      ensures old(Current()) || acquired.Granted? ==> Current()
    {
      match acquired
      case Refused(e) =>
        r := Rejected(MapError(e));
      case Granted =>
        liveStreams := liveStreams + 1;
        var engine := new MediaRecorder();
        instance := engine;
        chunks := [];
        result := None;
        engine.Start();
        r := Resolved(());
    }

    /** `pause`: only a recording engine is paused; otherwise "No audio recording!". */
    method Pause() returns (r: Call<()>)
      requires Valid()
      modifies instance
      ensures Valid()
      ensures instance == null ==> r == Threw(Error(NotStartedYet))
      ensures instance != null && old(instance.state) != Recording ==>
                r == Threw(Error(NoAudioRecording)) && unchanged(instance)
      ensures instance != null && old(instance.state) == Recording ==>
                r == Returned(()) && instance.state == Paused && !instance.stopQueued
      ensures old(Current()) ==> Current()
    {
      var m := GetMediaRecorder();
      if m.Threw? {
        return Threw(m.error);
      }
      var engine := m.value;
      if engine.state != Recording {
        return Threw(Error(NoAudioRecording));
      }
      engine.Pause();
      r := Returned(());
    }

    /** `resume`: only a paused engine is resumed; otherwise "No audio paused!". */
    method Resume() returns (r: Call<()>)
      requires Valid()
      modifies instance
      ensures Valid()
      ensures instance == null ==> r == Threw(Error(NotStartedYet))
      ensures instance != null && old(instance.state) != Paused ==>
                r == Threw(Error(NoAudioPaused)) && unchanged(instance)
      ensures instance != null && old(instance.state) == Paused ==>
                r == Returned(()) && instance.state == Recording && !instance.stopQueued
      ensures old(Current()) ==> Current()
    {
      var m := GetMediaRecorder();
      if m.Threw? {
        return Threw(m.error);
      }
      var engine := m.value;
      if engine.state != Paused {
        return Threw(Error(NoAudioPaused));
      }
      engine.Resume();
      r := Returned(());
    }

    /**
     * `stop`: on an inactive engine the returned promise is already rejected
     * with "No audio recording!" and nothing changes; otherwise
     * `_discardResult` is cleared, the engine is stopped and the promise is
     * pending, to be settled by `PollStop`.
     */
    method Stop() returns (r: Call<Outcome<Blob>>)
      requires Valid()
      modifies this, instance
      ensures Valid()
      ensures instance == old(instance) && chunks == old(chunks) && result == old(result)
      ensures liveStreams == old(liveStreams)
      ensures instance == null ==> r == Threw(Error(NotStartedYet)) && discardResult == old(discardResult)
      ensures instance != null && old(instance.state) == Inactive ==>
                && r == Returned(Rejected(Reason(NoAudioRecording))) && unchanged(instance)
                && discardResult == old(discardResult)
      ensures instance != null && old(instance.state) != Inactive ==>
                && r == Returned(Pending) && !discardResult
                && instance.state == Inactive && instance.stopQueued
      ensures old(Current()) ==> Current()
    {
      var m := GetMediaRecorder();
      if m.Threw? {
        return Threw(m.error);
      }
      var engine := m.value;
      if engine.state == Inactive {
        return Returned(Rejected(Reason(NoAudioRecording)));
      }
      discardResult := false;
      engine.Stop();
      r := Returned(Pending);
    }

    /**
     * One tick of the interval that `stop` sets up: a settled promise stays as
     * it is; a pending one first looks at `_discardResult` and rejects with
     * "The result was discarded!" if it is set, and otherwise resolves with
     * `_result` once that is set.
     */
    function PollStop(promise: Outcome<Blob>): (next: Outcome<Blob>)
      reads this, instance
      ensures !promise.Pending? ==> next == promise
      ensures promise.Pending? && discardResult ==> next == Rejected(Reason(ResultDiscarded))
      ensures promise.Pending? && !discardResult ==>
                && (next.Pending? <==> result.None?)
                && (next.Resolved? ==> result == Some(next.value))
                && !next.Rejected?
      ensures promise.Pending? && next.Resolved? && Current() ==>
                next.value == Blob(Concat(chunks), OpusWebm)
    {
      if !promise.Pending? then promise
      else if discardResult then Rejected(Reason(ResultDiscarded))
      else if result.Some? then Resolved(result.value)
      else Pending
    }

    /**
     * `discard`: unless the engine is recording or paused it throws
     * "No audio opened!" and changes nothing; otherwise it sets
     * `_discardResult` and stops the engine.
     */
    method Discard() returns (r: Call<()>)
      requires Valid()
      modifies this, instance
      ensures Valid()
      ensures instance == old(instance) && chunks == old(chunks) && result == old(result)
      ensures liveStreams == old(liveStreams)
      ensures instance == null ==> r == Threw(Error(NotStartedYet)) && discardResult == old(discardResult)
      ensures instance != null && old(instance.state) != Recording && old(instance.state) != Paused ==>
                && r == Threw(Error(NoAudioOpened)) && unchanged(instance)
                && discardResult == old(discardResult)
      ensures instance != null && (old(instance.state) == Recording || old(instance.state) == Paused) ==>
                && r == Returned(()) && discardResult
                && instance.state == Inactive && instance.stopQueued
      ensures old(Current()) ==> Current()
    {
      var m := GetMediaRecorder();
      if m.Threw? {
        return Threw(m.error);
      }
      var engine := m.value;
      if engine.state != Recording && engine.state != Paused {
        return Threw(Error(NoAudioOpened));
      }
      discardResult := true;
      engine.Stop();
      r := Returned(());
    }

    /** The `ondataavailable` callback: the chunk is appended to the recording. */
    method OnData(c: Bytes)
      requires Valid() && Live()
      modifies this
      ensures Valid()
      ensures chunks == old(chunks) + [c] && Concat(chunks) == Concat(old(chunks)) + c
      ensures instance == old(instance) && result == old(result)
      ensures discardResult == old(discardResult) && liveStreams == old(liveStreams)
      ensures old(Current()) ==> Current()
    {
      ConcatAppend(chunks, c);
      chunks := chunks + [c];
    }

    /**
     * The engine delivers its `stop` event and the `onstop` callback runs: the
     * stream's tracks are stopped; unless `_discardResult` is set, `_result`
     * becomes the blob of every chunk, in arrival order, tagged
     * "audio/webm; codecs=opus"; if it is set, `_result` is left alone.
     */
    method OnStop()
      requires Valid() && instance != null && instance.stopQueued
      modifies this, instance
      ensures Valid()
      ensures instance == old(instance) && instance.state == Inactive && !instance.stopQueued
      ensures chunks == old(chunks) && discardResult == old(discardResult)
      ensures liveStreams == old(liveStreams) - 1
      ensures discardResult ==> result == old(result)
      ensures !discardResult ==> result == Some(Blob(Concat(chunks), OpusWebm))
      ensures old(Current()) ==> Current() && (discardResult ==> result == None)
    {
      instance.DispatchStop();
      liveStreams := liveStreams - 1;
      if !discardResult {
        result := Some(Blob(Concat(chunks), OpusWebm));
      }
    }
  }

  /**
   * With `start` as written, a second session's `stop` resolves with the
   * first session's recording: the first poll tick comes before the second
   * engine's `stop` event and finds the old `_result` still set.
   */
  method StaleResultScenario(first: Bytes, second: Bytes) returns (stale: Outcome<Blob>, recorded: seq<Bytes>)
    ensures recorded == [second]
    ensures stale == Resolved(Blob(first, OpusWebm))
  {
    var rec := new AudioRecorder();
    var started := rec.StartAsWritten(Granted);
    assert Concat(rec.chunks) == [];
    rec.OnData(first);
    assert Concat(rec.chunks) == first;
    var stopped := rec.Stop();
    rec.OnStop();
    started := rec.StartAsWritten(Granted);
    rec.OnData(second);
    stopped := rec.Stop();
    stale := rec.PollStop(stopped.value);
    recorded := rec.chunks;
  }

  /**
   * The same calls with `start` clearing `_result`: the second `stop` stays
   * pending until its own `stop` event, then resolves with the second
   * session's recording.
   */
  method FreshResultScenario(first: Bytes, second: Bytes) returns (early: Outcome<Blob>, final: Outcome<Blob>)
    ensures early == Pending
    ensures final == Resolved(Blob(second, OpusWebm))
  {
    var rec := new AudioRecorder();
    var started := rec.Start(Granted);
    rec.OnData(first);
    var stopped := rec.Stop();
    rec.OnStop();
    started := rec.Start(Granted);
    assert Concat(rec.chunks) == [];
    rec.OnData(second);
    assert Concat(rec.chunks) == second;
    stopped := rec.Stop();
    early := rec.PollStop(stopped.value);
    rec.OnStop();
    final := rec.PollStop(early);
  }

  /**
   * A discarded session builds no result, and a `stop` after the discard
   * finds the engine inactive and rejects with "No audio recording!".
   */
  method DiscardScenario(c: Bytes) returns (discarded: Call<()>, late: Call<Outcome<Blob>>, kept: Option<Blob>)
    ensures discarded == Returned(())
    ensures late == Returned(Rejected(Reason(NoAudioRecording)))
    ensures kept == None
  {
    var rec := new AudioRecorder();
    var started := rec.Start(Granted);
    rec.OnData(c);
    discarded := rec.Discard();
    rec.OnStop();
    late := rec.Stop();
    kept := rec.result;
  }

  /**
   * Because each tick looks at `_discardResult` before `_result`, a pending
   * `stop` rejects with "The result was discarded!" when a new session is
   * started and discarded before the tick, even though its own session had
   * finished and not been discarded.
   */
  method LaterDiscardRejectsPendingStop(c: Bytes) returns (p: Outcome<Blob>)
    ensures p == Rejected(Reason(ResultDiscarded))
  {
    var rec := new AudioRecorder();
    var started := rec.Start(Granted);
    rec.OnData(c);
    var stopped := rec.Stop();
    rec.OnStop();
    started := rec.Start(Granted);
    var discarded := rec.Discard();
    p := rec.PollStop(stopped.value);
  }

  /**
   * What clearing `_result` in `start` does not fix: a `stop` whose promise is
   * still pending when the next session starts resolves with that next
   * session's recording, because every session shares the one `_result`.
   */
  method PendingStopAcrossRestart(first: Bytes, second: Bytes) returns (tick: Outcome<Blob>, p: Outcome<Blob>)
    ensures tick == Pending
    ensures p == Resolved(Blob(second, OpusWebm))
  {
    var rec := new AudioRecorder();
    var started := rec.Start(Granted);
    rec.OnData(first);
    var stopped := rec.Stop();
    rec.OnStop();
    started := rec.Start(Granted);
    tick := rec.PollStop(stopped.value);
    assert Concat(rec.chunks) == [];
    rec.OnData(second);
    assert Concat(rec.chunks) == second;
    var again := rec.Stop();
    rec.OnStop();
    p := rec.PollStop(tick);
  }
}
