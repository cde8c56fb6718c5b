/**
 The recording controller of the application window, with its widgets,
 audio device and threads removed: the fields its handlers update in place
 and one method per handler. The capture thread becomes CaptureStep, which
 the caller invokes once per loop iteration between start and stop.
 */
module AudioRecorder {
  import opened FrameBuffer
  import opened RecorderModel

  class AudioRecorderApp {
    var isRecording: bool
    var isPaused: bool
    var frames: seq<Chunk>
    var seconds: nat
    /** Whether the save button is enabled. */
    var saveEnabled: bool

    /** The controller's fields as a value of the model. */
    function Snapshot(): State
      reads this
    {
      State(isRecording, isPaused, frames, seconds, saveEnabled)
    }

    predicate Valid()
      reads this
    {
      Consistent(Snapshot())
    }

    constructor ()
      ensures Valid() && Snapshot() == Initial
    {
      isRecording := false;
      isPaused := false;
      frames := [];
      seconds := 0;
      saveEnabled := false;
    }

    /** One timer tick (the display refresh and rescheduling are not modelled). */
    method UpdateTimer()
      modifies this`seconds
      ensures Snapshot() == AfterTick(old(Snapshot()))
    {
      if isRecording && !isPaused {
        seconds := seconds + 1;
      }
    }

    /** One iteration of the capture loop with the result of one stream read. */
    method CaptureStep(read: ReadResult)
      requires Valid()
      modifies this`frames
      ensures Valid()
      ensures Snapshot() == AfterCapture(old(Snapshot()), read)
    {
      if isRecording && !isPaused {
        if read.Data? {
          frames := frames + [read.chunk];
        }
      }
    }

    /** The record button: start a fresh session, or stop the running one. */
    method ToggleRecord()
      requires Valid()
      modifies this
      ensures Valid()
      ensures Snapshot() == AfterToggleRecord(old(Snapshot()))
    {
      if !isRecording {
        isRecording := true;
        isPaused := false;
        frames := [];
        seconds := 0;
        UpdateTimer();
        saveEnabled := false;
      } else {
        isRecording := false;
        isPaused := false;
        if frames != [] {
          saveEnabled := true;
        }
      }
    }

    /** The pause button: pause or resume while recording. */
    method PauseRecording()
      requires Valid()
      modifies this`isPaused
      ensures Valid()
      ensures Snapshot() == AfterPause(old(Snapshot()))
    {
      if isRecording {
        if !isPaused {
          isPaused := true;
        } else {
          isPaused := false;
        }
      }
    }

    /** The save button: stop if recording, then write the buffer if it holds
        anything; `writeOk` is whether the file write succeeds. */
    method StopAndSave(writeOk: bool) returns (outcome: SaveOutcome)
      requires Valid()
      modifies this
      ensures Valid()
      ensures (Snapshot(), outcome) == AfterStopAndSave(old(Snapshot()), writeOk)
    {
      if isRecording {
        ToggleRecord();
      }
      if frames != [] {
        if writeOk {
          outcome := Saved(WaveFile(CHANNELS, SAMPLE_WIDTH, RATE, Concat(frames)));
          frames := [];
          seconds := 0;
          saveEnabled := false;
        } else {
          outcome := WriteFailed;
        }
      } else {
        outcome := NothingToSave;
      }
    }

    /** Closing the window: clear the recording flag so the capture loop
        exits; the pause flag is not reset. */
    method OnClosing()
      modifies this`isRecording
      ensures Snapshot() == AfterClosing(old(Snapshot()))
    {
      isRecording := false;
    }
  }
}
