# Canvas recorder and video studio, modelled in Dafny

This project models the two pieces of logic in the "AI Cover the World" reel
studio that are more than drawing calls or page layout.

- **The canvas recording hook** (`useCanvasRecorder`). It keeps a recorder handle, an ordered
  accumulator of encoded chunks and a `{isRecording, statusMessage}` record.
  - `start(canvas)` runs two capability guards: a missing canvas, then a missing `MediaRecorder`.
  - It then runs a guarded setup. The setup captures the stream, picks the first supported codec of
    vp9, vp8 and plain WebM, builds the recorder, resets the accumulator and starts it.
  - The `dataavailable` handler keeps the chunks of nonzero size.
  - The recorder's `stop` event drops the recording flag.
  - `stop()` returns the joined chunks as a `video/webm` blob and clears everything.

  `CanvasRecorder.dfy` holds module `CanvasRecorder`.
  - The hook is the class `CanvasRecorder`, whose fields are the two refs and the state record.
  - Each method is proved against a pure transition function on a `Session` value:
    `StartSession`, `DeliverChunk`, `RecorderStopped` and `StopSession`.
  - The lemmas about several steps are stated over those functions.
- **The studio component** (`VideoStudio`). It covers `buildScript(seed)` (a fixed five-beat shot
  list whose intro is picked by `seed % 3`), the tagline carousel (a modulo-5 counter) and the
  record toggle. The toggle stops the hook and swaps in a new download URL, revoking the old one,
  or starts the hook. `VideoStudio.dfy` holds module `VideoStudio`, with a `VideoStudio` class for
  the component's state.

The browser is not modelled. What the code observes of it is passed in as values:
- a `Platform` record: whether `MediaRecorder` exists, the set of mime types `isTypeSupported`
  accepts, and which setup step (if any) throws;
- the recorder's own state (`inactive`, `recording` or `paused`);
- the chunks the encoder delivers;
- the URL that `URL.createObjectURL` returns.

The calls to `recorder.stop()` and `URL.revokeObjectURL` are reported as out-parameters.

JavaScript's `%` truncates toward zero; `JsRemainder` models it. So
`buildScript` with a negative seed that is not a multiple of 3 reads
`INTRO_VARIANTS` at a negative index and throws (modelled as `None`). A seed
of `-3` gives `-0` and picks variant 0.

When `recorder.start()` throws, the accumulator has already been reset, so
that failure empties it while the two earlier setup failures leave it alone.
The `dataavailable` and `stop` handlers are closures over the shared refs and
not over the recorder that fired them. Two lemmas describe what this means:
`LateChunkMissesBlob` for a chunk delivered after `stop()`, and
`StaleStopEventAfterRestart` for a `stop` event that arrives after a new
`start`.

The late chunk is likely the usual case, not a corner case.
`recorder.start()` is called with no time slice (useCanvasRecorder.ts:50).
A recorder started that way hands over its data in one `dataavailable` event
that fires after `stop()` is called. By then `stop` has already built the
blob from the accumulator (line 68). So in a browser the take that `stop`
returns is expected to be empty, with the data left in the accumulator. This
reading of the browser's event order comes from the MediaRecorder
specification and is not part of the model. `RecordingRoundTrip` speaks only
of the chunks delivered before `stop`.

## Model

| member | source | states |
|---|---|---|
| `CanvasRecorder.FirstSupported` | app/src/hooks/useCanvasRecorder.ts:31-36 | The result is the first preference the platform supports: it is supported and every earlier entry is not. The result is absent exactly when no entry is supported. |
| `CanvasRecorder.SelectedMimeType` | app/src/hooks/useCanvasRecorder.ts:31-38 | The recorder's mime type is vp9 if supported, else vp8, else plain `video/webm`, else undefined. |
| `CanvasRecorder.Joined` | app/src/hooks/useCanvasRecorder.ts:68 | The blob's bytes are the chunks' bytes in order. They are empty exactly when every chunk has size 0. |
| `CanvasRecorder.NonEmptyChunks` | app/src/hooks/useCanvasRecorder.ts:42-46 | The kept chunks all have nonzero size, and there are no more of them than were delivered. |
| `CanvasRecorder.NonEmptyChunksMembers` | app/src/hooks/useCanvasRecorder.ts:42-46 | A chunk is kept iff it was delivered and its size is nonzero. |
| `CanvasRecorder.CanvasRecorder.constructor` | app/src/hooks/useCanvasRecorder.ts:11-16 | The hook starts with no recorder, no chunks and `{false, "Ready to record."}`. |
| `CanvasRecorder.CanvasRecorder.Start` | app/src/hooks/useCanvasRecorder.ts:18-57 | The new state is `StartSession` of the old one: guards, codec choice, accumulator reset, recorder installed. Well-formedness is kept. |
| `CanvasRecorder.CanvasRecorder.OnDataAvailable` | app/src/hooks/useCanvasRecorder.ts:42-46 | The chunk is appended at the end iff its size is nonzero. Nothing else changes. |
| `CanvasRecorder.CanvasRecorder.OnStop` | app/src/hooks/useCanvasRecorder.ts:47-49 | `isRecording` becomes false. The message, the recorder and the chunks are unchanged. |
| `CanvasRecorder.CanvasRecorder.Stop` | app/src/hooks/useCanvasRecorder.ts:59-72 | The returned blob, the stop signal and the new state are those of `StopSession` on the old state. |
| `CanvasRecorder.StartCapabilityGuards` | app/src/hooks/useCanvasRecorder.ts:19-27 | With no canvas, or no `MediaRecorder`, only the state record changes. It becomes `{false, "Canvas is not ready yet."}` or `{false, "MediaRecorder is not supported in this browser."}`. |
| `CanvasRecorder.StartSetupFailure` | app/src/hooks/useCanvasRecorder.ts:29-56 | A throwing setup installs no recorder and sets `{false, "Failed to start recording."}`. The chunks are unchanged, except when `recorder.start()` throws: they are then empty. |
| `CanvasRecorder.StartSuccess` | app/src/hooks/useCanvasRecorder.ts:37-52 | `start` enters recording iff there is a canvas, `MediaRecorder` exists and nothing throws. Then the chunks are empty, the new recorder is installed and the state is `{true, "Recording…"}`. |
| `CanvasRecorder.TransitionsPreserveWellFormed` | app/src/hooks/useCanvasRecorder.ts:18-72 | Every transition keeps two facts: recording implies a recorder is installed, and every kept chunk has nonzero size. |
| `CanvasRecorder.DeliverAllAppends` | app/src/hooks/useCanvasRecorder.ts:42-46 | A run of data events appends exactly the nonzero-size chunks, in order. It changes nothing else. |
| `CanvasRecorder.JoinedIgnoresEmptyChunks` | app/src/hooks/useCanvasRecorder.ts:43-44 | Dropping zero-size chunks leaves the joined bytes unchanged. |
| `CanvasRecorder.StopIsIdempotent` | app/src/hooks/useCanvasRecorder.ts:60-66 | With no recorder, `stop` returns null and changes nothing. A second `stop` in a row returns null. |
| `CanvasRecorder.StopWithRecorder` | app/src/hooks/useCanvasRecorder.ts:63-71 | With a recorder, `recorder.stop()` is called iff its state is not `inactive`. The result is the accumulated bytes typed `video/webm`. Afterwards there is no recorder, no chunk and the state is `{false, "Recording saved."}`. |
| `CanvasRecorder.StopEventKeepsMessage` | app/src/hooks/useCanvasRecorder.ts:47-49 | The stop event clears `isRecording` and keeps `statusMessage`, the recorder and the chunks. |
| `CanvasRecorder.RecordingRoundTrip` | app/src/hooks/useCanvasRecorder.ts:41-71 | After a successful start, any run of chunks, then stop: the accumulator held exactly the nonzero chunks, and the blob holds every delivered byte in order. The blob is empty iff every chunk was. The hook ends idle and empty. |
| `CanvasRecorder.LateChunkMissesBlob` | app/src/hooks/useCanvasRecorder.ts:42-46 | A chunk delivered after `stop` is not in the returned blob. It sits alone in the accumulator until a start that reaches line 41 empties it. |
| `CanvasRecorder.StaleStopEventAfterRestart` | app/src/hooks/useCanvasRecorder.ts:47-52 | The old recorder's stop event, if it arrives after a new successful start, leaves the new recorder installed with `isRecording` false and the message "Recording…". |
| `VideoStudio.JsRemainder` | app/src/components/VideoStudio.tsx:42 | JavaScript `%` lies strictly between `-n` and `n`. For a nonnegative dividend it equals Dafny's Euclidean remainder. For a negative dividend it is 0 when `n` divides it and the Euclidean remainder minus `n` otherwise (so `-1 % 3` is `-1`). |
| `VideoStudio.BuildScript` | app/src/components/VideoStudio.tsx:41-82 | A script exists iff the JavaScript remainder `seed % 3` is not negative. It has exactly 5 beats, with ids 1..5 in order and timestamps 0.0s, 1.2s, 2.4s, 3.6s, 4.8s. |
| `VideoStudio.BuildScriptDefinedIff` | app/src/components/VideoStudio.tsx:42 | `buildScript` returns a script iff the seed is nonnegative or a multiple of 3. Otherwise it throws. |
| `VideoStudio.BuildScriptIntro` | app/src/components/VideoStudio.tsx:42-50 | Whenever a script is built, the intro index `seed % 3` (JavaScript remainder) is in [0,3), and for a nonnegative seed it is the ordinary remainder. Beat 1's visual, narration and prompt are `INTRO_VARIANTS` at that index. Beats 2–5 are the fixed beats for every seed. |
| `VideoStudio.CongruentSeedsSameScript` | app/src/components/VideoStudio.tsx:42 | Any two seeds that are congruent mod 3 and for which a script is built give identical scripts. |
| `VideoStudio.NegativeSeeds` | app/src/components/VideoStudio.tsx:42 | Seeds -3 and -6 give the same script as seed 0. Seed -1 throws. |
| `VideoStudio.NextTagline` | app/src/components/VideoStudio.tsx:118-120 | From an index in [0,5) the next index is in [0,5). It is the successor, or 0 after 4. |
| `VideoStudio.ShuffleStepIsModular` | app/src/components/VideoStudio.tsx:119 | One shuffle of index `k % 5` gives `(k + 1) % 5`. |
| `VideoStudio.ShuffleTimesAdvances` | app/src/components/VideoStudio.tsx:118-120 | `n` shuffles from a valid index `i` give `(i + n) % 5`. |
| `VideoStudio.FiveShufflesReturn` | app/src/components/VideoStudio.tsx:118-120 | Five shuffles return the index to where it started. |
| `VideoStudio.VideoStudio.constructor` | app/src/components/VideoStudio.tsx:85-88 | The component starts with no canvas, tagline 0, no download URL and a fresh idle hook. |
| `VideoStudio.VideoStudio.Tagline` | app/src/components/VideoStudio.tsx:128 | The displayed tagline is one of the five hero taglines. |
| `VideoStudio.VideoStudio.Script` | app/src/components/VideoStudio.tsx:90 | The displayed script is `buildScript(taglineIndex)`. It always exists and has 5 beats. Beat 1's visual, narration and prompt come from intro variant `taglineIndex % 3`. |
| `VideoStudio.VideoStudio.HandleCanvasReady` | app/src/components/VideoStudio.tsx:98-100 | The canvas the renderer reports becomes the one `start` is given. |
| `VideoStudio.VideoStudio.HandleTaglineShuffle` | app/src/components/VideoStudio.tsx:118-120 | The tagline index becomes `(i + 1) % 5` and stays in [0,5). |
| `VideoStudio.VideoStudio.HandleRecordToggle` | app/src/components/VideoStudio.tsx:102-116 | While recording it calls `stop` and never `start`. If a blob comes back, the download URL is replaced and the previous one, if any, is revoked. If none comes back, the URL is unchanged. While idle it calls `start(canvasEl)` and leaves the URL alone. |
| `VideoStudio.ToggleWhileRecordingYieldsTake` | app/src/components/VideoStudio.tsx:102-111 | When the hook says it is recording, `stop` always returns a blob of the accumulated chunks and leaves the hook idle. So a toggle while recording always produces a new download URL. |

## Left out

- The scene renderer (`app/src/components/VideoCanvas.tsx`) is not modelled. It is floating-point drawing over Canvas 2D calls, with star and ring parameters from `Math.random`, scheduled by `requestAnimationFrame`.
- Page metadata (`app/src/app/layout.tsx`), the JSX markup and the CSS block of `VideoStudio.tsx` are not modelled.
- Browser APIs are oracles and nothing more: `captureStream(60)`, `MediaRecorder` construction, `isTypeSupported`, `Blob` assembly beyond concatenation, and `URL.createObjectURL`/`revokeObjectURL`. The frame rate (60) and bitrate (6,000,000) are recorded on the recorder value only.
- `console.error` on a setup failure is left out; it is output only.
- The asynchronous timing of `dataavailable` and `stop` events is not modelled. Each event is an explicit method call, in whatever order the caller chooses.
- React's state batching and stale closures are not modelled. `handleRecordToggle` reads the hook's current `isRecording`, not the value captured at render time.
- The `useEffect` cleanup that revokes `downloadUrl` whenever it changes (VideoStudio.tsx:92-96) is not modelled. It revokes the previous URL a second time, on top of the revoke inside the toggle, and revokes the last URL on unmount.
- Seeds that are not integers (JavaScript numbers in general) are left out; the model's seed is an `int`.
- The "Record 6s loop" label is not enforced by any timer in the code, and the model adds none.
