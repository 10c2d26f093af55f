/**
 * The canvas recording hook: a recorder handle, an ordered accumulator of
 * encoded chunks and a `{isRecording, statusMessage}` record, driven by
 * `start`, `stop` and the two recorder events `dataavailable` and `stop`.
 *
 * The browser (canvas capture, the media encoder, `isTypeSupported`, Blob
 * assembly) is not modelled; what the hook observes of it is passed in as
 * oracle values: a `Platform` record, the recorder's own `RecordingState`
 * and the chunks the encoder hands over.
 *
 * The pure `Session` functions below are the specification of the
 * `CanvasRecorder` class and the objects of the lemmas about several steps.
 */
module CanvasRecorder {

  datatype Option<+T> = None | Some(value: T)

  newtype Byte = b: int | 0 <= b < 256

  /** An encoded fragment handed over by the encoder (`event.data`). */
  datatype Chunk = Chunk(bytes: seq<Byte>) {
    function Size(): nat { |bytes| }
  }

  /** The assembled artifact: its bytes and its media type. */
  datatype Blob = Blob(bytes: seq<Byte>, mimeType: string)

  /** A drawing surface; only its presence matters to the hook. */
  datatype Canvas = Canvas(id: nat)

  /** The step of the guarded setup that throws, if any. */
  datatype SetupFault =
    | NoFault
    | CaptureStreamThrows   // canvas.captureStream(60)
    | ConstructorThrows     // new MediaRecorder(stream, options)
    | StartThrows           // recorder.start(), after the accumulator was reset

  /** What the browser offers: the MediaRecorder global, the mime types it accepts, and a setup fault. */
  datatype Platform = Platform(hasMediaRecorder: bool, supportedTypes: set<string>, fault: SetupFault)

  /** The encoder's own state, as reported by `recorder.state`. */
  datatype RecordingState = Inactive | Recording | Paused

  /** The options a recorder is constructed with. */
  datatype MediaRecorder = MediaRecorder(mimeType: Option<string>, frameRate: nat, videoBitsPerSecond: nat)

  datatype RecorderState = RecorderState(isRecording: bool, statusMessage: string)

  const CODEC_PREFERENCES: seq<string> := ["video/webm;codecs=vp9", "video/webm;codecs=vp8", "video/webm"]
  const CAPTURE_FRAME_RATE: nat := 60
  const VIDEO_BITS_PER_SECOND: nat := 6_000_000
  const BLOB_TYPE: string := "video/webm"

  const READY_MSG: string := "Ready to record."
  const NOT_READY_MSG: string := "Canvas is not ready yet."
  const UNSUPPORTED_MSG: string := "MediaRecorder is not supported in this browser."
  const RECORDING_MSG: string := "Recording\U{2026}"
  const FAILED_MSG: string := "Failed to start recording."
  const SAVED_MSG: string := "Recording saved."

  /** The first entry of `prefs` that the platform accepts (`codecs.find(isTypeSupported)`). */
  function FirstSupported(prefs: seq<string>, supported: set<string>): (r: Option<string>)
    ensures r.None? <==> forall j :: 0 <= j < |prefs| ==> prefs[j] !in supported
    ensures r.Some? ==> exists k :: 0 <= k < |prefs| && prefs[k] == r.value && r.value in supported &&
                                    forall j :: 0 <= j < k ==> prefs[j] !in supported
  {
    if prefs == [] then None
    else if prefs[0] in supported then Some(prefs[0])
    else
      var r := FirstSupported(prefs[1..], supported);
      assert forall j :: 1 <= j < |prefs| ==> prefs[j] == prefs[1..][j - 1];
      r
  }

  /** The recorder that a successful `start` constructs on platform `p`. */
  function NewRecorder(p: Platform): MediaRecorder {
    MediaRecorder(FirstSupported(CODEC_PREFERENCES, p.supportedTypes), CAPTURE_FRAME_RATE, VIDEO_BITS_PER_SECOND)
  }

  /** The bytes of `new Blob(parts)`: the parts' bytes, in order. */
  function Joined(parts: seq<Chunk>): (r: seq<Byte>)
    ensures r == [] <==> forall i :: 0 <= i < |parts| ==> parts[i].Size() == 0
  {
    if parts == [] then [] else parts[0].bytes + Joined(parts[1..])
  }

  /** The chunks the data handler keeps: those of nonzero size, in order. */
  function NonEmptyChunks(events: seq<Chunk>): (r: seq<Chunk>)
    ensures |r| <= |events|
    ensures forall i :: 0 <= i < |r| ==> r[i].Size() > 0
  {
    if events == [] then []
    else if events[0].Size() > 0 then [events[0]] + NonEmptyChunks(events[1..])
    else NonEmptyChunks(events[1..])
  }

  /** The hook's state: `mediaRecorderRef.current`, `chunksRef.current` and the state record. */
  datatype Session = Session(recorder: Option<MediaRecorder>, chunks: seq<Chunk>, state: RecorderState)

  const INITIAL: Session := Session(None, [], RecorderState(false, READY_MSG))

  /** What every reachable session satisfies. */
  predicate WellFormed(s: Session) {
    (s.state.isRecording ==> s.recorder.Some?) &&
    forall i :: 0 <= i < |s.chunks| ==> s.chunks[i].Size() > 0
  }

  /** `start(canvas)`: the two capability guards, then the guarded setup. */
  function StartSession(s: Session, canvas: Option<Canvas>, p: Platform): Session {
    if canvas.None? then s.(state := RecorderState(false, NOT_READY_MSG))
    else if !p.hasMediaRecorder then s.(state := RecorderState(false, UNSUPPORTED_MSG))
    else match p.fault
      case CaptureStreamThrows => s.(state := RecorderState(false, FAILED_MSG))
      case ConstructorThrows => s.(state := RecorderState(false, FAILED_MSG))
      case StartThrows => s.(chunks := [], state := RecorderState(false, FAILED_MSG))
      case NoFault => Session(Some(NewRecorder(p)), [], RecorderState(true, RECORDING_MSG))
  }

  /** The `dataavailable` handler. */
  function DeliverChunk(s: Session, c: Chunk): Session {
    if c.Size() > 0 then s.(chunks := s.chunks + [c]) else s
  }

  /** The `stop` handler: the flag drops, the message stays. */
  function RecorderStopped(s: Session): Session {
    s.(state := s.state.(isRecording := false))
  }

  datatype StopResult = StopResult(after: Session, blob: Option<Blob>, stopSignalled: bool)

  /** `stop()`, with `status` the recorder's own state at the call. */
  function StopSession(s: Session, status: RecordingState): StopResult {
    if s.recorder.None? then StopResult(s, None, false)
    else StopResult(Session(None, [], RecorderState(false, SAVED_MSG)), Some(Blob(Joined(s.chunks), BLOB_TYPE)), status != Inactive)
  }

  /** A run of `dataavailable` events, in the order the encoder produced them. */
  function DeliverAll(s: Session, events: seq<Chunk>): Session
    decreases |events|
  {
    if events == [] then s else DeliverAll(DeliverChunk(s, events[0]), events[1..])
  }

  // ----- the hook as an object whose fields its callbacks reassign -----

  class CanvasRecorder {
    var recorder: Option<MediaRecorder>
    var chunks: seq<Chunk>
    var state: RecorderState

    function Snapshot(): Session
      reads this
    {
      Session(recorder, chunks, state)
    }

    ghost predicate Valid()
      reads this
    {
      WellFormed(Snapshot())
    }

    constructor ()
      ensures Valid() && Snapshot() == INITIAL
    {
      recorder := None;
      chunks := [];
      state := RecorderState(false, READY_MSG);
    }

    method Start(canvas: Option<Canvas>, platform: Platform)
      requires Valid()
      modifies this
      ensures Valid()
      ensures Snapshot() == StartSession(old(Snapshot()), canvas, platform)
    {
      if canvas.None? {
        state := RecorderState(false, NOT_READY_MSG);
        return;
      }
      if !platform.hasMediaRecorder {
        state := RecorderState(false, UNSUPPORTED_MSG);
        return;
      }
      if platform.fault == CaptureStreamThrows {
        state := RecorderState(false, FAILED_MSG);
        return;
      }
      var mimeType := FirstSupported(CODEC_PREFERENCES, platform.supportedTypes);
      if platform.fault == ConstructorThrows {
        state := RecorderState(false, FAILED_MSG);
        return;
      }
      var created := MediaRecorder(mimeType, CAPTURE_FRAME_RATE, VIDEO_BITS_PER_SECOND);
      chunks := [];
      if platform.fault == StartThrows {
        state := RecorderState(false, FAILED_MSG);
        return;
      }
      recorder := Some(created);
      state := RecorderState(true, RECORDING_MSG);
    }

    method OnDataAvailable(data: Chunk)
      requires Valid()
      modifies this
      ensures Valid()
      ensures Snapshot() == DeliverChunk(old(Snapshot()), data)
    {
      if data.Size() > 0 {
        chunks := chunks + [data];
      }
    }

    method OnStop()
      requires Valid()
      modifies this
      ensures Valid()
      ensures Snapshot() == RecorderStopped(old(Snapshot()))
    {
      state := state.(isRecording := false);
    }

    /** `status` is what `recorder.state` reports; `stopSignalled` says whether `recorder.stop()` was called. */
    method Stop(status: RecordingState) returns (blob: Option<Blob>, stopSignalled: bool)
      requires Valid()
      modifies this
      ensures Valid()
      ensures StopResult(Snapshot(), blob, stopSignalled) == StopSession(old(Snapshot()), status)
    {
      if recorder.None? {
        return None, false;
      }
      stopSignalled := status != Inactive;
      recorder := None;
      blob := Some(Blob(Joined(chunks), BLOB_TYPE));
      chunks := [];
      state := RecorderState(false, SAVED_MSG);
    }
  }

  // ----- properties of the session functions -----

  /** The codec choice over the hook's own preference list. */
  lemma SelectedMimeType(supported: set<string>)
    ensures var m := NewRecorder(Platform(true, supported, NoFault)).mimeType;
      && ("video/webm;codecs=vp9" in supported ==> m == Some("video/webm;codecs=vp9"))
      && ("video/webm;codecs=vp9" !in supported && "video/webm;codecs=vp8" in supported ==> m == Some("video/webm;codecs=vp8"))
      && ("video/webm;codecs=vp9" !in supported && "video/webm;codecs=vp8" !in supported && "video/webm" in supported ==> m == Some("video/webm"))
      && ("video/webm;codecs=vp9" !in supported && "video/webm;codecs=vp8" !in supported && "video/webm" !in supported ==> m == None)
  {
    var p := CODEC_PREFERENCES;
    assert p[1..] == ["video/webm;codecs=vp8", "video/webm"];
    assert p[1..][1..] == ["video/webm"];
    assert p[1..][1..][1..] == [];
    if p[0] !in supported {
      assert FirstSupported(p, supported) == FirstSupported(p[1..], supported);
      if p[1] !in supported {
        assert FirstSupported(p[1..], supported) == FirstSupported(p[1..][1..], supported);
      }
    }
  }

  /** A missing canvas or a missing MediaRecorder changes only the state record. */
  lemma StartCapabilityGuards(s: Session, canvas: Option<Canvas>, p: Platform)
    requires canvas.None? || !p.hasMediaRecorder
    ensures var r := StartSession(s, canvas, p);
      && r.recorder == s.recorder && r.chunks == s.chunks
      && r.state == RecorderState(false, if canvas.None? then NOT_READY_MSG else UNSUPPORTED_MSG)
  {
  }

  /** A setup that throws installs no recorder and reports failure; only a throwing `recorder.start()` finds the accumulator already reset. */
  lemma StartSetupFailure(s: Session, canvas: Option<Canvas>, p: Platform)
    requires canvas.Some? && p.hasMediaRecorder && p.fault != NoFault
    ensures var r := StartSession(s, canvas, p);
      && r.recorder == s.recorder
      && r.state == RecorderState(false, FAILED_MSG)
      && r.chunks == (if p.fault == StartThrows then [] else s.chunks)
  {
  }

  /** Only a successful setup enters the recording state, with an empty accumulator and a fresh recorder. */
  lemma StartSuccess(s: Session, canvas: Option<Canvas>, p: Platform)
    ensures var r := StartSession(s, canvas, p);
      r.state.isRecording <==> canvas.Some? && p.hasMediaRecorder && p.fault == NoFault
    ensures var r := StartSession(s, canvas, p);
      r.state.isRecording ==> r == Session(Some(NewRecorder(p)), [], RecorderState(true, RECORDING_MSG))
  {
  }

  /** Every transition keeps a session well formed. */
  lemma TransitionsPreserveWellFormed(s: Session, canvas: Option<Canvas>, p: Platform, c: Chunk, status: RecordingState)
    requires WellFormed(s)
    ensures WellFormed(StartSession(s, canvas, p))
    ensures WellFormed(DeliverChunk(s, c))
    ensures WellFormed(RecorderStopped(s))
    ensures WellFormed(StopSession(s, status).after)
  {
  }

  /** The data handler appends exactly the nonzero-size chunks, in order, and touches nothing else. */
  lemma {:induction false} DeliverAllAppends(s: Session, events: seq<Chunk>)
    ensures DeliverAll(s, events) == s.(chunks := s.chunks + NonEmptyChunks(events))
    decreases |events|
  {
    if events != [] {
      var head, rest := events[0], NonEmptyChunks(events[1..]);
      var next := DeliverChunk(s, head);
      assert DeliverAll(s, events) == DeliverAll(next, events[1..]);
      DeliverAllAppends(next, events[1..]);
      if head.Size() > 0 {
        assert NonEmptyChunks(events) == [head] + rest;
        assert next.chunks + rest == s.chunks + ([head] + rest);
      } else {
        assert NonEmptyChunks(events) == rest;
        assert next == s;
      }
    }
  }

  /** The data handler keeps a chunk iff it was delivered and has nonzero size. */
  lemma {:induction false} NonEmptyChunksMembers(events: seq<Chunk>)
    ensures forall c :: c in NonEmptyChunks(events) <==> c in events && c.Size() > 0
  {
    if events != [] {
      NonEmptyChunksMembers(events[1..]);
      assert forall c :: c in events <==> c == events[0] || c in events[1..];
    }
  }

  /** Dropping zero-size chunks does not change the assembled bytes. */
  lemma {:induction false} JoinedIgnoresEmptyChunks(events: seq<Chunk>)
    ensures Joined(NonEmptyChunks(events)) == Joined(events)
  {
    if events != [] {
      var head, rest := events[0], NonEmptyChunks(events[1..]);
      JoinedIgnoresEmptyChunks(events[1..]);
      assert Joined(events) == head.bytes + Joined(events[1..]);
      if head.Size() > 0 {
        var kept := [head] + rest;
        assert NonEmptyChunks(events) == kept;
        assert kept[0] == head && kept[1..] == rest;
        assert Joined(kept) == head.bytes + Joined(rest);
      } else {
        assert NonEmptyChunks(events) == rest;
        assert head.bytes + Joined(events[1..]) == Joined(events[1..]);
      }
    }
  }

  /** Without a recorder, `stop` returns nothing and changes nothing; so a second `stop` in a row returns nothing. */
  lemma StopIsIdempotent(s: Session, first: RecordingState, second: RecordingState)
    ensures s.recorder.None? ==> StopSession(s, second) == StopResult(s, None, false)
    ensures var r := StopSession(StopSession(s, first).after, second);
      r.blob == None && r.after == StopSession(s, first).after && !r.stopSignalled
  {
  }

  /** With a recorder, `stop` signals the encoder only when it is not inactive, returns the accumulated bytes typed video/webm and resets everything. */
  lemma StopWithRecorder(s: Session, status: RecordingState)
    requires s.recorder.Some?
    ensures var r := StopSession(s, status);
      && r.stopSignalled == (status != Inactive)
      && r.blob == Some(Blob(Joined(s.chunks), "video/webm"))
      && r.after == Session(None, [], RecorderState(false, "Recording saved."))
  {
  }

  /** The `stop` event clears the flag and keeps the message and the accumulator. */
  lemma StopEventKeepsMessage(s: Session)
    ensures var r := RecorderStopped(s);
      !r.state.isRecording && r.state.statusMessage == s.state.statusMessage &&
      r.recorder == s.recorder && r.chunks == s.chunks
  {
  }

  /**
   * A whole session: a successful `start`, the encoder's chunks, then `stop`.
   * The artifact holds every delivered byte in order, it is empty exactly when
   * every chunk was, and the hook ends idle with nothing left over.
   */
  lemma RecordingRoundTrip(s: Session, canvas: Option<Canvas>, p: Platform, events: seq<Chunk>, status: RecordingState)
    requires canvas.Some? && p.hasMediaRecorder && p.fault == NoFault
    ensures DeliverAll(StartSession(s, canvas, p), events).chunks == NonEmptyChunks(events)
    ensures var r := StopSession(DeliverAll(StartSession(s, canvas, p), events), status);
      && r.blob == Some(Blob(Joined(events), BLOB_TYPE))
      && (r.blob.value.bytes == [] <==> forall i :: 0 <= i < |events| ==> events[i].Size() == 0)
      && r.after == Session(None, [], RecorderState(false, SAVED_MSG))
  {
    var started := StartSession(s, canvas, p);
    DeliverAllAppends(started, events);
    assert started.chunks + NonEmptyChunks(events) == NonEmptyChunks(events);
    JoinedIgnoresEmptyChunks(events);
  }

  /**
   * A chunk that the encoder hands over after `stop` (its final flush) is not
   * in the returned artifact: it lands in the fresh accumulator and stays
   * there until the next successful `start` empties it.
   */
  lemma LateChunkMissesBlob(s: Session, status: RecordingState, late: Chunk, canvas: Option<Canvas>, p: Platform)
    requires s.recorder.Some? && late.Size() > 0
    ensures var r := StopSession(s, status);
      && r.blob == Some(Blob(Joined(s.chunks), BLOB_TYPE))
      && DeliverChunk(r.after, late).chunks == [late]
    ensures StartSession(DeliverChunk(StopSession(s, status).after, late), canvas, p).chunks ==
            (if canvas.Some? && p.hasMediaRecorder && (p.fault == NoFault || p.fault == StartThrows) then [] else [late])
  {
  }

  /**
   * The `stop` event of a recorder that was stopped is not tied to it: if it
   * arrives after a new `start`, the new recorder stays installed while the
   * flag says idle and the message still says recording.
   */
  lemma StaleStopEventAfterRestart(s: Session, status: RecordingState, canvas: Option<Canvas>, p: Platform)
    requires s.recorder.Some? && canvas.Some? && p.hasMediaRecorder && p.fault == NoFault
    ensures var r := RecorderStopped(StartSession(StopSession(s, status).after, canvas, p));
      r.recorder.Some? && !r.state.isRecording && r.state.statusMessage == RECORDING_MSG
  {
  }
}
