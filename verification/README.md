# Audio recorder controller, modelled in Dafny

This project models the recording controller of a small desktop audio recorder. The window has three buttons: Grabar (record/stop), Pausar (pause/resume) and Guardar (save). Behind them, the controller keeps four things:

- the `is_recording` and `is_paused` flags;
- `frames`, the ordered list of raw audio chunks that a worker thread appends to while recording;
- `seconds`, a timer that a one-second tick advances;
- whether the save button is enabled.

The save handler writes the chunks, joined in order, to a mono, 16-bit, 44100 Hz WAV file.

The project has five modules:

- `TimerDisplay` (`timer_display.dfy`): splits the seconds counter into hours, minutes and seconds for the `HH:MM:SS` label.
- `FrameBuffer` (`frame_buffer.dfy`): chunks of bytes and their in-order concatenation, which is the payload the save handler writes.
- `RecorderModel` (`recorder_model.dfy`): the controller's state as a value. It gives the effect of each handler, of one timer tick and of one capture-loop iteration as a function. `Run` replays a sequence of these events.
- `RecorderProperties` (`recorder_properties.dfy`): what the controller promises, proved about those functions.
- `AudioRecorder` (`audio_recorder.dfy`): the class `AudioRecorderApp`. Its fields are updated in place by one method per handler. Each method keeps the invariant `Valid()` and ensures `Snapshot() == AfterX(old(Snapshot()))` for its model function `AfterX`.

The worker thread's loop is modelled as `CaptureStep(read)`. The caller invokes it once per loop iteration, with the result of one stream read. After a stop, no further steps have any effect. The file write is modelled as a `writeOk` parameter to `StopAndSave`. The resulting `SaveOutcome` carries the header values and the payload that were written.

Where the code and the design description of the system disagree, the model follows the code:

- Starting a recording resets `seconds` to 0 and then runs one tick at once, so the timer reads 1 when the start returns, not 0.
- There is no `AlreadyRecording` or `InvalidTransition` error. The record button toggles between start and stop. Pause and resume are one toggle, and pausing while not recording silently does nothing.
- While paused, the capture loop does not read the stream at all. The design description says the stream should keep being drained during a pause. Here, `CaptureStep` ignores its read when paused.
- Closing the window clears `is_recording` but not `is_paused`, so `Valid()` need not hold afterwards. The window is destroyed straight after, so no handler runs on that state.

## Model

| member | source | states |
|---|---|---|
| `TimerDisplay.Split` | main.py:113-115 | the hours/minutes/seconds split has minutes and seconds below 60, and `hours*3600 + minutes*60 + secs` is the counter |
| `TimerDisplay.SplitToSeconds` | main.py:113-115 | every well-formed display reading is the split of the seconds it stands for, so the split and the counter determine each other |
| `FrameBuffer.ConcatLength` | main.py:197 | the joined payload holds exactly the total number of bytes of the chunks |
| `FrameBuffer.ConcatAppend` | main.py:132 | appending a chunk to the buffer appends its bytes at the end of the joined payload |
| `FrameBuffer.ConcatChunkAt` | main.py:197 | chunk i occupies the payload bytes right after those of chunks 0..i-1, so the payload keeps capture order |
| `FrameBuffer.UniformPayloadLength` | main.py:197 | when every chunk has k bytes, the payload has k bytes per chunk |
| `AudioRecorder.AudioRecorderApp.constructor` | main.py:32-39 | a new controller is not recording or paused, with an empty buffer, timer 0 and save disabled |
| `AudioRecorder.AudioRecorderApp.UpdateTimer` | main.py:110-112 | one tick changes only `seconds`, as `AfterTick`: +1 when recording and not paused, otherwise unchanged |
| `AudioRecorder.AudioRecorderApp.CaptureStep` | main.py:128-135 | one capture-loop iteration changes only `frames`, as `AfterCapture`, and keeps `Valid()` |
| `AudioRecorder.AudioRecorderApp.ToggleRecord` | main.py:142-172 | the record button moves the fields as `AfterToggleRecord` (start or stop) and keeps `Valid()` |
| `AudioRecorder.AudioRecorderApp.PauseRecording` | main.py:174-183 | the pause button changes only `isPaused`, as `AfterPause`, and keeps `Valid()` |
| `AudioRecorder.AudioRecorderApp.StopAndSave` | main.py:185-209 | the save button's new fields and outcome are those of `AfterStopAndSave`, and it keeps `Valid()` |
| `AudioRecorder.AudioRecorderApp.OnClosing` | main.py:211-212 | closing changes only `isRecording`, which becomes false |
| `RecorderProperties.StartSession` | main.py:143-151 | starting sets recording, clears pause, empties the buffer, disables save, and leaves the timer at 1 after the immediate tick |
| `RecorderProperties.StopSession` | main.py:157-172 | stopping clears both flags, keeps buffer and timer, and enables save exactly when the buffer is non-empty |
| `RecorderProperties.PauseToggles` | main.py:174-183 | pause flips the pause flag while recording, changes nothing otherwise, and pressing it twice restores the state |
| `RecorderProperties.TickCounts` | main.py:110-112 | a tick adds exactly one second when recording and not paused, otherwise none, and changes nothing else |
| `RecorderProperties.CaptureAppends` | main.py:128-135 | a capture step appends the chunk at the end only when recording, not paused and the read succeeded. Otherwise the state is unchanged. Earlier chunks keep their positions, and the payload grows by exactly the chunk |
| `RecorderProperties.StopAndSaveOutcomes` | main.py:185-209 | after saving nothing records. With an empty buffer nothing is written. A successful write holds 1 channel, 2-byte samples, 44100 Hz and the joined chunks, then clears buffer and timer. A failed write keeps buffer and timer |
| `RecorderProperties.SaveTwiceWritesOnce` | main.py:185-209 | unless the first write failed, a second save right after finds nothing to save |
| `RecorderProperties.ApplyPreservesConsistent` | main.py:142-209 | every handler, tick and capture step keeps "paused implies recording" and "save enabled iff stopped with a non-empty buffer" |
| `RecorderProperties.RunPreservesConsistent` | main.py:142-209 | any sequence of handler, tick and capture events keeps that invariant |
| `RecorderProperties.SessionTrace` | main.py:128-135 | during a session the buffer receives exactly the successful reads made while not paused, in read order. The timer counts exactly the ticks while not paused |
| `RecorderProperties.RecordThenSave` | main.py:142-209 | a whole session (start, events, save) writes exactly the chunks read while not paused, joined in order. With no such chunks nothing is written, and a failed write keeps them |
| `RecorderProperties.FullChunksPayload` | main.py:193-197 | when every read delivers a full 1024-sample chunk, the file's payload declares 1024 sample frames per chunk |
| `RecorderProperties.ClosingStopsCapture` | main.py:211-214 | after closing, nothing records, the pause flag and buffer are as before, and later capture steps and ticks change nothing |

## Left out

- The tkinter widgets, colours, labels, message boxes and the `after`/`after_cancel` rescheduling of the tick (main.py:43-100, 117, 119, 153-154, 165-169, 178-179, 182-183, 199, 203, 207, 209). They are UI. Only the save button's enabled state is kept, as `saveEnabled`, because it is the guard the UI places on saving. The pause button's enabled state always equals `is_recording`, so it is not kept.
- The zero-padded `HH:MM:SS` text (main.py:116). Only the integer split is modelled.
- Opening, reading, stopping and closing the audio stream, and terminating the audio library (main.py:34, 122-126, 137-140, 215). They are device I/O. A read is a `ReadResult` supplied by the caller. A failure to open the device inside the worker thread is not modelled.
- The worker thread, `join` and `join(timeout=1)` (main.py:149-150, 161-162, 213-214). They concern concurrency. The loop is modelled as explicit `CaptureStep` calls, and a stop is the point after which no step appends. Interleavings of the two threads are not modelled.
- The WAV header encoding and the file write (main.py:193-196). The `wave` module is a foreign library. Only the header values, the payload and a success/failure outcome are modelled. The sample width 2 is the value the audio library reports for 16-bit samples.
- Creating the output directory and building the timestamped file name (main.py:102-108, 190). These are filesystem and clock calls.
- AudioRecorder.AudioRecorderApp.OnClosing: does not model destroying the window or terminating the audio library. It is the last handler to run.
