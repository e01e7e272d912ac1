# Audio recorder session, modelled in Dafny

The repository wraps the browser's `MediaRecorder` in an `AudioRecorder`
class. The class acquires the microphone, collects the chunks the engine
emits, and builds one `Blob` tagged `audio/webm; codecs=opus` when the engine
stops. Callers drive it through `start`, `pause`, `resume`, `stop` and
`discard`. `stop` returns a promise, and a 100 ms interval settles it once
the result exists.

There are two near-duplicate versions of the class, and each is modelled as
its own module:

- `ClassRecorder` models `src/recorder/class/recorder.ts`. The engine is
  created once and never replaced, and a second `start` rejects with
  "Media stream already started!". `discard` only stops the engine, so the
  result is still built. Device errors get one message per cause. Any other
  error is rethrown unchanged.
- `IndexRecorder` models `src/recorder/index.ts`. `start` can be called again,
  and each call installs a new engine. A `_discardResult` flag is set by
  `discard`, cleared by `stop`, and read by `onstop` and by every poll tick.
  Every device error becomes the same `Error("Audio recorder error")`.

`Media` holds what both share:

- the engine, as a class `MediaRecorder` with its `state` (`Inactive`,
  `Recording` or `Paused`) and a `stopQueued` flag;
- `Blob`, `Concat` (the payload of `new Blob(parts)`) and the lemma
  `ConcatAppend`;
- `Raised`, the values JavaScript throws or rejects with: an `Error`, a
  platform exception known by its `name`, or a bare string;
- `Call` (a value returned or thrown) and `Outcome` (a promise that is pending,
  resolved or rejected).

Following the browser, the engine's `stop()` makes its state "inactive" at
once. The `dataavailable` and `stop` events come later. The engine callbacks
are the methods `OnData` and `OnStop`. Their `requires` clauses state the
engine's side of the protocol: data arrives only while the engine is live or
has a stop event queued, and the stop event follows a `stop()`.

`getUserMedia` is an input of `Start`. It is either `Granted` or
`Refused(error)`. The ghost field `liveStreams` counts acquired streams whose
tracks have not been stopped yet.

One poll tick of `stop`'s interval is the function `PollStop(promise)`. A
settled promise stays as it is, because a promise settles at most once.

Observations about the code as written:

- In recorder.ts, a second `start` acquires a new stream before it finds the
  existing engine and throws. That stream's tracks are never stopped, and
  `Start` states this as `liveStreams == old(liveStreams) + 1`.
- In index.ts, a restart while the previous engine is recording or paused
  leaves that engine running, and its stream is never released. A restart
  after a finished session leaks nothing, because that engine's `onstop` has
  already stopped its tracks.
- The `stop` guards differ in form: recorder.ts checks "not recording and not
  paused", and index.ts checks "inactive". Over the engine's three states they
  accept the same inputs.
- In index.ts, `discard` needs a recording or paused engine, and `stop` makes
  the engine inactive. So in sequential use, "The result was discarded!" can
  reject a pending `stop` only if a new session is started and discarded
  before that `stop`'s next tick (`LaterDiscardRejectsPendingStop`).

The two files differ in several places, and each is modelled as
written:

- only recorder.ts refuses a second `start`;
- index.ts clears `_discardResult` in `stop`;
- index.ts gives one message for every error;
- recorder.ts rethrows unknown errors unchanged.

Some members stand for the browser rather than for code in the repository:
- `Media.Concat` is the payload of `new Blob(parts)`.
- The `Media.MediaRecorder` members are the engine's `start()`, `pause()`,
  `resume()` and `stop()`, and the delivery of its `stop` event.

They carry no rows of their own. The rows of the recorder methods that call
them state their effect.

## Model

| member | source | states |
|---|---|---|
| Media.ConcatAppend | src/recorder/class/recorder.ts:85-91 | pushing a chunk onto `chunks` appends exactly its bytes to the payload of `new Blob(chunks)` |
| Media.NameOf | src/recorder/class/recorder.ts:97 | the `err.name` the `.catch` branches test: "Error" for an `Error`, the platform's name for a platform exception, and no name for a bare string |
| ClassRecorder.MapError | src/recorder/class/recorder.ts:96-128 | an error whose name is one of the nine known names becomes `Error` with its cause's message (NotFound/DevicesNotFound: track missing; NotReadable/TrackStart: mic in use; Overconstrained/ConstraintNotSatisfied: constraints; NotAllowed/PermissionDenied: permission denied; TypeError: empty constraints); any other error is rethrown unchanged |
| ClassRecorder.MapErrorSeparatesCauses | src/recorder/class/recorder.ts:97-125 | two known names give the same mapped error if and only if they stand for the same cause |
| ClassRecorder.AlreadyStartedPassesThrough | src/recorder/class/recorder.ts:78-127 | the "Media stream already started!" error thrown in `.then` leaves the `.catch` unchanged |
| ClassRecorder.AudioRecorder.constructor | src/recorder/class/recorder.ts:7-15 | a new recorder has no engine, no chunks and no result |
| ClassRecorder.AudioRecorder.GetMediaRecorder | src/recorder/class/recorder.ts:48-53 | throws "Audio Media Recorder not started yet!" exactly when no engine exists, and otherwise returns that engine |
| ClassRecorder.AudioRecorder.Start | src/recorder/class/recorder.ts:72-131 | a refused acquisition rejects with `MapError` of its error and changes nothing; a granted one installs a fresh recording engine with empty chunks if none exists, and otherwise rejects with "Media stream already started!" and keeps the engine, chunks and result, while the acquired stream stays live |
| ClassRecorder.AudioRecorder.Pause | src/recorder/class/recorder.ts:141-146 | before `start` it throws "not started yet"; it pauses only a recording engine; in any other state it throws "No audio recording!" and the engine is unchanged |
| ClassRecorder.AudioRecorder.Resume | src/recorder/class/recorder.ts:156-161 | it resumes only a paused engine; in any other state it throws "No audio paused!" and the engine is unchanged |
| ClassRecorder.AudioRecorder.Stop | src/recorder/class/recorder.ts:171-178 | unless the engine is recording or paused, it returns a promise already rejected with "No audio recording!" and leaves the engine alone; otherwise it stops the engine and returns a pending promise |
| ClassRecorder.AudioRecorder.PollStop | src/recorder/class/recorder.ts:179-188 | a settled promise stays settled; a pending one stays pending exactly while no result exists, then resolves with the blob of all chunks in arrival order, tagged opus; it never rejects |
| ClassRecorder.AudioRecorder.Discard | src/recorder/class/recorder.ts:198-206 | unless the engine is recording or paused, it throws "No audio opened!" and changes nothing; otherwise it stops the engine, and no flag keeps the result from being built |
| ClassRecorder.AudioRecorder.OnData | src/recorder/class/recorder.ts:85-87 | the chunk is appended in arrival order, and the recorded payload grows by exactly its bytes |
| ClassRecorder.AudioRecorder.OnStop | src/recorder/class/recorder.ts:89-92 | the stream's tracks are released and the result becomes the blob of the chunks in order, tagged "audio/webm; codecs=opus" |
| ClassRecorder.RecordThreeChunks | src/recorder/class/recorder.ts:85-188 | after chunks c1, c2, c3 and `stop`, a tick before the stop event leaves the promise pending, and the next tick resolves it with c1 + c2 + c3 |
| ClassRecorder.NoSecondSession | src/recorder/class/recorder.ts:78-178 | once a session has finished, `start` rejects with "Media stream already started!", `stop` rejects with "No audio recording!", and the result is kept |
| IndexRecorder.MapError | src/recorder/index.ts:70-105 | every raised value, whatever its name, becomes `Error("Audio recorder error")`, so no platform name escapes |
| IndexRecorder.AudioRecorder.constructor | src/recorder/index.ts:4-9 | a new recorder has no engine, no chunks, no result and the discard flag false |
| IndexRecorder.AudioRecorder.GetMediaRecorder | src/recorder/index.ts:25-30 | throws "Audio Media Recorder not started yet!" exactly when no engine exists |
| IndexRecorder.AudioRecorder.StartAsWritten | src/recorder/index.ts:39-108 | a refused acquisition rejects with the generic error and changes nothing; a granted one always installs a fresh recording engine with empty chunks, replacing any earlier engine, and keeps the old result and flag |
| IndexRecorder.AudioRecorder.Start | src/recorder/index.ts:44-51 | as `StartAsWritten`, but the result is cleared, so afterwards any result belongs to the current session (`Current`) |
| IndexRecorder.AudioRecorder.Pause | src/recorder/index.ts:110-115 | it pauses only a recording engine; otherwise it throws "No audio recording!" and the engine is unchanged |
| IndexRecorder.AudioRecorder.Resume | src/recorder/index.ts:117-122 | it resumes only a paused engine; otherwise it throws "No audio paused!" and the engine is unchanged |
| IndexRecorder.AudioRecorder.Stop | src/recorder/index.ts:124-130 | on an inactive engine, the returned promise is already rejected with "No audio recording!" and nothing changes; otherwise it clears the discard flag, stops the engine and returns a pending promise |
| IndexRecorder.AudioRecorder.PollStop | src/recorder/index.ts:131-146 | a settled promise stays settled; a pending one rejects with "The result was discarded!" whenever the flag is set, checked first; otherwise it stays pending exactly while no result exists and then resolves with that result, which is the current session's chunks in order when `Current` holds |
| IndexRecorder.AudioRecorder.Discard | src/recorder/index.ts:149-157 | unless the engine is recording or paused, it throws "No audio opened!" and the flag and engine are unchanged; otherwise it sets the flag and stops the engine |
| IndexRecorder.AudioRecorder.OnData | src/recorder/index.ts:49-51 | the chunk is appended in arrival order, and the payload grows by exactly its bytes |
| IndexRecorder.AudioRecorder.OnStop | src/recorder/index.ts:53-64 | the tracks are released; with the flag set the result is left as it was (none, under `Current`); otherwise it becomes the blob of the chunks in order, tagged opus |
| IndexRecorder.StaleResultScenario | src/recorder/index.ts:124-146 | with `start` as written, a second session that recorded only `second` has its `stop` resolved with the first session's blob |
| IndexRecorder.FreshResultScenario | src/recorder/index.ts:44-64 | with `start` clearing the result, the second `stop` stays pending until its own stop event, then resolves with the second session's bytes |
| IndexRecorder.DiscardScenario | src/recorder/index.ts:149-157 | a discarded session builds no result, and a later `stop` rejects with "No audio recording!" |
| IndexRecorder.PendingStopAcrossRestart | src/recorder/index.ts:131-146 | even with `start` clearing the result, a `stop` still pending when the next session starts resolves with that next session's blob |
| IndexRecorder.LaterDiscardRejectsPendingStop | src/recorder/index.ts:131-146 | a pending `stop` rejects with "The result was discarded!" when a new session is started and discarded before its tick, even though its own session finished normally |

## Findings

| source | as written | input that shows it | evidently intended | confidence | as-written member | corrected member |
|---|---|---|---|---|---|---|
| src/recorder/index.ts:44-51 | `start` installs a new engine and new chunks, but `_result` keeps the previous session's blob; `stop`'s wait resolves as soon as `_result` is set | start, data `first`, stop, stop event, start, data `second`, stop, then a poll tick before the second stop event: the promise resolves with `first` | a `stop` issued after a restart never resolves with an earlier session's recording, only with the current session's | medium (needs the stop event to come after the first tick); not executed | IndexRecorder.StaleResultScenario | IndexRecorder.AudioRecorder.Start |

The corrected `Start` clears `_result`. The other members are stated with
`Current()` ("the result, when set, is the current session's finished,
undiscarded recording"). `Start` establishes `Current()`, every other
operation preserves it, and under it `PollStop` resolves only with the
current session's chunks. The fix does not cover a `stop` promise that is
still pending when the next session starts. All sessions share the single
`_result` field and `_discardResult` flag, so that promise settles with the
next session's outcome (`PendingStopAcrossRestart`).

## Left out

- `isMediaStreamSupported`, `isStreamMimeTypeSupported` and the `_navigator` getter are left out. They only query `window`, `navigator` and `MediaRecorder.isTypeSupported`. So `start` throwing "Audio Media Stream is not supported!" synchronously is not modelled.
- `getUserMedia` is an input (`Acquisition`). A failure of `new MediaRecorder(stream, { mimeType: "audio/webm" })` is not modelled; the engine is assumed to be created.
- ClassRecorder.AudioRecorder.Start, IndexRecorder.AudioRecorder.StartAsWritten and IndexRecorder.AudioRecorder.Start: `this.mediaRecorder.start()` throwing is not modelled, and the engine is assumed to start. In the source it runs after `_mediaRecorderInstance` has been assigned (recorder.ts:81 and 94, index.ts:45 and 66). The promise then rejects: recorder.ts rethrows the platform error, and index.ts gives the generic error. An inactive engine is left installed. In recorder.ts, every later `start` is then refused with "Media stream already started!", and `pause`, `stop` and `discard` find an inactive engine.
- IndexRecorder.AudioRecorder.Start: the fix only clears `_result` when a new engine is installed. A `stop` promise still pending across a restart resolves with the next session's blob. It rejects with "The result was discarded!" if that session is discarded before the tick. The fix does not tie each promise to its own session.
- Stopping the media tracks is counted in the ghost `liveStreams`, not performed.
- The 100 ms `setInterval`/`clearInterval` polling is left out. One tick is the pure `PollStop`, and the order of ticks, engine events and calls is up to the caller of the model.
- `Blob` is reduced to its bytes and its type string. Each chunk is taken as its bytes, and the chunk's own type is dropped, as `new Blob(chunks, ...)` does.
- The `console.log` and `console.error` calls in index.ts are left out, because they only log.
- In index.ts, the events of an engine that a restart has replaced are not modelled. Its callbacks still hold the old `chunks`, and its `onstop` could still set `_result`.
- A stop the engine makes on its own, such as when the device is unplugged, is not modelled. The model stops the engine only through `stop()`.
- src/sample/main.js is not part of this model. It is the DOM wiring of the demo page.
