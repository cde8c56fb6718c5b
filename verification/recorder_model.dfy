/**
 The recording controller as values: its state, the effect of each button
 handler, of one timer tick and of one step of the capture loop, and the
 replay of a sequence of such events. The class in module AudioRecorder
 is specified by these functions.
 */
module RecorderModel {
  import opened FrameBuffer

  /** Samples per stream read. */
  const CHUNK: nat := 1024
  /** Mono capture. */
  const CHANNELS: nat := 1
  /** Samples per second. */
  const RATE: nat := 44100
  /** Bytes per sample of the 16-bit signed format (what the audio library
      reports for it). */
  const SAMPLE_WIDTH: nat := 2

  /** What one read of the input stream gives: a chunk, or an I/O error
      that the capture loop reports and skips. */
  datatype ReadResult = Data(chunk: Chunk) | ReadError

  /** The controller's state: the two flags, the buffer, the timer and
      whether the save button is enabled. */
  datatype State = State(
    recording: bool,
    paused: bool,
    frames: seq<Chunk>,
    seconds: nat,
    saveEnabled: bool)

  /** The state the application starts in. */
  const Initial: State := State(false, false, [], 0, false)

  /** What the handlers keep true: one can only be paused while recording,
      and saving is enabled exactly when a stopped session left chunks. */
  predicate Consistent(s: State) {
    && (s.paused ==> s.recording)
    && (s.saveEnabled <==> !s.recording && s.frames != [])
  }

  /** The header parameters and the payload of a written audio file. */
  datatype WaveFile = WaveFile(channels: nat, sampleWidth: nat, frameRate: nat, data: seq<Byte>)

  /** What the save handler reports. */
  datatype SaveOutcome = NothingToSave | Saved(file: WaveFile) | WriteFailed

  /** One timer tick: counts a second only while actively recording. */
  function AfterTick(s: State): State {
    if s.recording && !s.paused then s.(seconds := s.seconds + 1) else s
  }

  /** The record button: starts a fresh session (and runs one tick at once)
      when idle, stops the session when recording. */
  function AfterToggleRecord(s: State): State {
    if !s.recording then
      AfterTick(s.(recording := true, paused := false, frames := [], seconds := 0)).(saveEnabled := false)
    else
      s.(recording := false, paused := false, saveEnabled := s.saveEnabled || s.frames != [])
  }

  /** The pause button: flips pause while recording, otherwise does nothing. */
  function AfterPause(s: State): State {
    if s.recording then s.(paused := !s.paused) else s
  }

  /** One iteration of the capture loop: a successful read is appended
      while recording and not paused; a failed read is skipped. */
  function AfterCapture(s: State, r: ReadResult): State {
    if s.recording && !s.paused && r.Data? then s.(frames := s.frames + [r.chunk]) else s
  }

  /** The file written for a buffer. */
  function WaveOf(fs: seq<Chunk>): WaveFile {
    WaveFile(CHANNELS, SAMPLE_WIDTH, RATE, Concat(fs))
  }

  /** The save button: stops a running session, then writes the buffer if
      it is non-empty; `writeOk` is whether the file write succeeds. */
  function AfterStopAndSave(s: State, writeOk: bool): (State, SaveOutcome) {
    var t := if s.recording then AfterToggleRecord(s) else s;
    if t.frames == [] then (t, NothingToSave)
    else if writeOk then (t.(frames := [], seconds := 0, saveEnabled := false), Saved(WaveOf(t.frames)))
    else (t, WriteFailed)
  }

  /** Closing the window: clears the recording flag so the capture loop ends. */
  function AfterClosing(s: State): State {
    s.(recording := false)
  }

  /** The events the controller receives while the window is open. */
  datatype Command = Toggle | Pause | Tick | Capture(read: ReadResult) | Save(writeOk: bool)

  function Apply(s: State, c: Command): State {
    match c
    case Toggle => AfterToggleRecord(s)
    case Pause => AfterPause(s)
    case Tick => AfterTick(s)
    case Capture(r) => AfterCapture(s, r)
    case Save(ok) => AfterStopAndSave(s, ok).0
  }

  /** The state after the events, in order. */
  function Run(s: State, cmds: seq<Command>): State
    decreases |cmds|
  {
    if cmds == [] then s else Run(Apply(s, cmds[0]), cmds[1..])
  }

  /** Events that neither start, stop nor save: those of one running session. */
  predicate WithinSession(cmds: seq<Command>) {
    forall i :: 0 <= i < |cmds| ==> !cmds[i].Toggle? && !cmds[i].Save?
  }

  /** Reference definitions for a running session, following only the pause
      flag: whether it ends paused, the chunks read while not paused, and the
      ticks seen while not paused. */
  function PausedAfter(paused: bool, cmds: seq<Command>): bool
    decreases |cmds|
  {
    if cmds == [] then paused
    else PausedAfter(if cmds[0].Pause? then !paused else paused, cmds[1..])
  }

  function ActiveChunks(paused: bool, cmds: seq<Command>): seq<Chunk>
    decreases |cmds|
  {
    if cmds == [] then []
    else match cmds[0]
      case Pause => ActiveChunks(!paused, cmds[1..])
      case Capture(Data(c)) => (if paused then [] else [c]) + ActiveChunks(paused, cmds[1..])
      case _ => ActiveChunks(paused, cmds[1..])
  }

  function ActiveTicks(paused: bool, cmds: seq<Command>): nat
    decreases |cmds|
  {
    if cmds == [] then 0
    else match cmds[0]
      case Pause => ActiveTicks(!paused, cmds[1..])
      case Tick => (if paused then 0 else 1) + ActiveTicks(paused, cmds[1..])
      case _ => ActiveTicks(paused, cmds[1..])
  }
}
