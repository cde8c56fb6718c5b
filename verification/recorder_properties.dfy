/**
 What the recording controller promises, proved about the transitions of
 module RecorderModel.
 */
module RecorderProperties {
  import opened FrameBuffer
  import opened RecorderModel

  /** Starting a session: both flags set for recording, the buffer emptied,
      save disabled, and the timer at 1 because the start runs one tick at once. */
  lemma StartSession(s: State)
    requires !s.recording
    ensures var t := AfterToggleRecord(s);
      t.recording && !t.paused && t.frames == [] && t.seconds == 1 && !t.saveEnabled
  {
  }

  /** Stopping a session: both flags cleared, buffer and timer kept, and
      saving enabled exactly when the buffer holds a chunk. */
  lemma StopSession(s: State)
    requires Consistent(s) && s.recording
    ensures var t := AfterToggleRecord(s);
      && !t.recording && !t.paused
      && t.frames == s.frames && t.seconds == s.seconds
      && (t.saveEnabled <==> s.frames != [])
  {
  }

  /** Pause flips the pause flag while recording and changes nothing otherwise;
      pressing it twice restores the state. */
  lemma PauseToggles(s: State)
    ensures s.recording ==> AfterPause(s) == s.(paused := !s.paused)
    ensures !s.recording ==> AfterPause(s) == s
    ensures AfterPause(AfterPause(s)) == s
  {
  }

  /** A tick adds exactly one second when recording and not paused, and
      otherwise leaves the timer alone; nothing but the timer changes. */
  lemma TickCounts(s: State)
    ensures AfterTick(s).seconds == if s.recording && !s.paused then s.seconds + 1 else s.seconds
    ensures AfterTick(s).(seconds := s.seconds) == s
  {
  }

  /** A capture step appends the chunk at the end when active, and otherwise
      (paused, stopped, or a failed read) leaves the buffer as it was; the
      chunks already captured keep their positions. The payload grows by
      exactly the chunk's bytes. */
  lemma CaptureAppends(s: State, r: ReadResult)
    ensures var t := AfterCapture(s, r);
      && (s.recording && !s.paused && r.Data? ==> t.frames == s.frames + [r.chunk])
      && (!(s.recording && !s.paused && r.Data?) ==> t == s)
      && t.frames[..|s.frames|] == s.frames
      && Concat(t.frames) == Concat(s.frames) + (if t.frames == s.frames then [] else r.chunk)
  {
    if s.recording && !s.paused && r.Data? {
      ConcatAppend(s.frames, r.chunk);
    }
  }

  /** The save handler: afterwards nothing is recording, and exactly one of
      three things happened. With an empty buffer nothing is written; on a
      successful write the file holds the mono 16-bit 44100 Hz header values
      and the chunks joined in order, then the buffer and timer are cleared;
      on a failed write the buffer and timer are kept for another try. */
  lemma StopAndSaveOutcomes(s: State, writeOk: bool)
    requires Consistent(s)
    ensures var (t, out) := AfterStopAndSave(s, writeOk);
      && !t.recording && !t.paused
      && (s.frames == [] ==> out == NothingToSave && t.frames == [] && !t.saveEnabled)
      && (s.frames != [] && writeOk ==>
            && out.Saved? && out.file.channels == 1 && out.file.sampleWidth == 2
            && out.file.frameRate == 44100 && out.file.data == Concat(s.frames)
            && t.frames == [] && t.seconds == 0 && !t.saveEnabled)
      && (s.frames != [] && !writeOk ==>
            out == WriteFailed && t.frames == s.frames && t.seconds == s.seconds && t.saveEnabled)
  {
  }

  /** Saving twice in a row: unless the first write failed, the second finds
      nothing to save and writes nothing. */
  lemma SaveTwiceWritesOnce(s: State, ok1: bool, ok2: bool)
    requires AfterStopAndSave(s, ok1).1 != WriteFailed
    ensures AfterStopAndSave(AfterStopAndSave(s, ok1).0, ok2).1 == NothingToSave
  {
  }

  /** Every handler, tick and capture step keeps the controller consistent. */
  lemma ApplyPreservesConsistent(s: State, c: Command)
    requires Consistent(s)
    ensures Consistent(Apply(s, c))
  {
  }

  lemma {:induction false} RunPreservesConsistent(s: State, cmds: seq<Command>)
    requires Consistent(s)
    ensures Consistent(Run(s, cmds))
    decreases |cmds|
  {
    if cmds != [] {
      ApplyPreservesConsistent(s, cmds[0]);
      RunPreservesConsistent(Apply(s, cmds[0]), cmds[1..]);
    }
  }

  /** During a running session the buffer receives exactly the chunks read
      while not paused, in read order, and the timer counts exactly the ticks
      seen while not paused; recording stays on and save stays as it was. */
  lemma {:induction false} SessionTrace(s: State, cmds: seq<Command>)
    requires s.recording
    requires WithinSession(cmds)
    ensures Run(s, cmds) == s.(
      paused := PausedAfter(s.paused, cmds),
      frames := s.frames + ActiveChunks(s.paused, cmds),
      seconds := s.seconds + ActiveTicks(s.paused, cmds))
    decreases |cmds|
  {
    if cmds == [] {
      assert s.frames + [] == s.frames;
    } else {
      var t := Apply(s, cmds[0]);
      var rest := cmds[1..];
      assert forall i :: 0 <= i < |rest| ==> rest[i] == cmds[i + 1];
      assert !cmds[0].Toggle? && !cmds[0].Save?;
      SessionTrace(t, rest);
      match cmds[0]
      case Capture(Data(c)) =>
        if !s.paused {
          assert s.frames + [c] + ActiveChunks(s.paused, rest) == s.frames + ([c] + ActiveChunks(s.paused, rest));
        } else {
          assert [] + ActiveChunks(s.paused, rest) == ActiveChunks(s.paused, rest);
        }
      case _ =>
    }
  }

  /** One whole session: start, any events of a running session, then save.
      What is written is the chunks read while not paused, joined in order;
      with none of them nothing is written; a failed write keeps them. */
  lemma RecordThenSave(s: State, body: seq<Command>, writeOk: bool)
    requires !s.recording
    requires WithinSession(body)
    ensures var chunks := ActiveChunks(false, body);
      var r := AfterStopAndSave(Run(AfterToggleRecord(s), body), writeOk);
      && !r.0.recording && !r.0.paused
      && (chunks == [] ==> r.1 == NothingToSave && r.0.frames == [] && r.0.seconds == 1 + ActiveTicks(false, body))
      && (chunks != [] && writeOk ==> r.1 == Saved(WaveOf(chunks)) && r.0.frames == [] && r.0.seconds == 0)
      && (chunks != [] && !writeOk ==>
            r.1 == WriteFailed && r.0.frames == chunks && r.0.seconds == 1 + ActiveTicks(false, body) && r.0.saveEnabled)
  {
    var started := AfterToggleRecord(s);
    SessionTrace(started, body);
    assert [] + ActiveChunks(false, body) == ActiveChunks(false, body);
  }

  /** When every read delivers a full chunk, the written file declares
      CHUNK sample frames per captured chunk. */
  lemma FullChunksPayload(fs: seq<Chunk>)
    requires forall i :: 0 <= i < |fs| ==> |fs[i]| == CHUNK * SAMPLE_WIDTH * CHANNELS
    ensures |WaveOf(fs).data| == |fs| * CHUNK * SAMPLE_WIDTH * CHANNELS
    ensures |WaveOf(fs).data| / (WaveOf(fs).sampleWidth * WaveOf(fs).channels) == |fs| * CHUNK
  {
    UniformPayloadLength(fs, CHUNK * SAMPLE_WIDTH * CHANNELS);
  }

  /** Closing the window ends capture and timing: later capture steps and
      ticks change nothing. The pause flag is left as it was. */
  lemma ClosingStopsCapture(s: State, r: ReadResult)
    ensures var t := AfterClosing(s);
      && !t.recording && t.paused == s.paused && t.frames == s.frames && t.seconds == s.seconds
      && AfterCapture(t, r) == t && AfterTick(t) == t
  {
  }
}
