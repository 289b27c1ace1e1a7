# VideoRecorder session state machine

A model of `VideoRecorder`, the Android class that records one video in
segments: `start` captures into a fixed temporary file in the cache
directory, and `pause` stops the capture and asks for that segment to be
appended onto the target file. Each call runs as an asynchronous task with a
background phase (`doInBackground`, device work) and a post-execute phase
(`onPostExecute`, which sets the status and calls exactly one listener
method).

The model has two modules:

- `RecorderSpec` (`recorder_spec.dfy`): the values. `Status` (with
  `Unknown`, set only by the private constructor), `MediaRecorderConfig` and
  `DefaultConfig` (64 * 1024 bits per second, default video source and
  encoder), the segment file name, the listener callbacks and append requests
  as values, and one function per task (`StartTask`, `PauseTask`) from the
  state before the task to the state after it. `Run` applies any sequence of
  completed tasks in order. `VideoRecorder` lets `start` and `pause` be called in
  any status, so `Run` accepts any sequence. The lemmas state what one task
  does and what holds after any sequence of tasks.
- `Recorder` (`video_recorder.dfy`): the class `VideoRecorder`. It has a
  mutable `status` and `mediaRecorder`, the constant target file name, cache
  directory and configuration, and ghost logs of the callbacks and append
  requests. `Build` overwrites the constructor's `Unknown` with
  `ReadyToRecord`. `Start` and `Pause` each run one task's two phases in
  sequence. Each is proved to have exactly the effect `RecorderSpec` gives
  that task. The queries are plain reads of `status` and of the target name.

What the device does is a boolean parameter: `ioOk` for `prepare` plus
`start`, `stopReleaseOk` for `stop` plus `release`. A pause with no
MediaRecorder yet (no start has run) always fails: `stop` on the null field
throws a NullPointerException, and the task's `catch (Exception e)` catches
it. The model calls that fault `NoMediaRecorder`. The MediaRecorder field is
assigned before `prepare`, so it stays set after a failed start. `release`
does not clear it.

Facts about `VideoRecorder` that the model keeps as they are:
- A pause succeeds when stop and release succeed. The code requests the
  append afterwards and does not check what it returns.
- `VideoRecorder.start` and `VideoRecorder.pause` are accepted in every
  status; none is rejected.
- The segment file is one fixed name per cache directory, not one per
  recorder.

## Model

| member | source | states |
|---|---|---|
| `RecorderSpec.TemporaryFileName` | recorder/src/main/java/com/github/lassana/recorder/VideoRecorder.java:220-222 | The segment file name is the cache directory, then the separator, then "tmprecord", and nothing else. |
| `RecorderSpec.TemporaryFileNameInjective` | recorder/src/main/java/com/github/lassana/recorder/VideoRecorder.java:220-222 | Two cache directories give the same segment file exactly when they are equal. So every task of a recorder uses one file, and so does every recorder sharing that cache directory. |
| `RecorderSpec.QueriesExactlyOne` | recorder/src/main/java/com/github/lassana/recorder/VideoRecorder.java:204-214 | `isRecording`, `isReady` and `isPaused` are pairwise exclusive. One of them holds exactly when the status is not `Unknown`. |
| `RecorderSpec.StartTaskOutcome` | recorder/src/main/java/com/github/lassana/recorder/VideoRecorder.java:74-105 | A start task ends `Recording` iff prepare and start succeeded, and `ReadyToRecord` iff not. It adds only `onStarted` on success and only `onException` on failure. Either way the recorder field holds a new recorder whose output file is the segment file, with the recorder's configuration and 320x240. No append is requested. |
| `RecorderSpec.PauseTaskOutcome` | recorder/src/main/java/com/github/lassana/recorder/VideoRecorder.java:112-137 | A pause task ends `RecordPaused`, with `onPaused(target)`, iff a recorder exists and stop and release succeed. Otherwise it ends `ReadyToRecord` with one `onException`: the null-recorder fault or the stop/release fault. One append (target, segment file) is requested iff the pause succeeded, and none otherwise. The recorder field is unchanged. |
| `RecorderSpec.StartThenPauseAppendsRecordedSegment` | recorder/src/main/java/com/github/lassana/recorder/VideoRecorder.java:81-122 | After a successful start, a successful pause asks to append the very file the start recorded into. The target comes first and the segment second. The callbacks are `onStarted` then `onPaused(target)`. |
| `RecorderSpec.StepAppendsOnPaused` | recorder/src/main/java/com/github/lassana/recorder/VideoRecorder.java:96-137 | Any one task adds exactly one callback. It adds an append request exactly when that callback is `onPaused`. |
| `RecorderSpec.RunStatusFollowsLastCallback` | recorder/src/main/java/com/github/lassana/recorder/VideoRecorder.java:96-137 | After any nonempty sequence of tasks, the status is the one the last callback implies: `Recording` after `onStarted`, `RecordPaused` after `onPaused`, `ReadyToRecord` after `onException`. It is never `Unknown`. |
| `RecorderSpec.RunLogsOneCallbackPerTask` | recorder/src/main/java/com/github/lassana/recorder/VideoRecorder.java:96-137 | Any sequence of n tasks adds exactly n callbacks after the earlier ones, in task order. The i-th is one the i-th task's own listener kind can receive. |
| `RecorderSpec.RunAppendsOncePerPause` | recorder/src/main/java/com/github/lassana/recorder/VideoRecorder.java:112-137 | Over any sequence of tasks, append requests are only added, never changed. Their number grows by the number of `onPaused` callbacks. Every one is (target, segment file). |
| `RecorderSpec.RunAppendsAtMostOnePerTask` | recorder/src/main/java/com/github/lassana/recorder/VideoRecorder.java:112-124 | A sequence of n tasks adds at most n append requests: only a pause task requests one, and at most once. |
| `RecorderSpec.RunRecorderSetByStart` | recorder/src/main/java/com/github/lassana/recorder/VideoRecorder.java:74-124 | Once any start task has run, whether it succeeded or not, the recorder field holds the start set-up, which targets the segment file. A sequence of pauses only leaves the field as it was. |
| `RecorderSpec.PauseBeforeStartFails` | recorder/src/main/java/com/github/lassana/recorder/VideoRecorder.java:112-124 | A freshly built recorder that is only paused has no recorder to stop. Every pause reports the null-recorder exception, no append is requested, and the status stays `ReadyToRecord`. |
| `RecorderSpec.BuiltRecorderExactlyOneQuery` | recorder/src/main/java/com/github/lassana/recorder/VideoRecorder.java:168-218 | After `build` and any sequence of completed tasks, exactly one of `isRecording`, `isReady` and `isPaused` holds. |
| `Recorder.VideoRecorder.constructor` | recorder/src/main/java/com/github/lassana/recorder/VideoRecorder.java:146-153 | The private constructor stores the target name, context (cache directory) and configuration. The status is `Unknown` and there is no recorder. |
| `Recorder.VideoRecorder.Build` | recorder/src/main/java/com/github/lassana/recorder/VideoRecorder.java:168-174 | `build` returns a fresh recorder whose status is `ReadyToRecord`, so `Unknown` is never observable. Its record file name is the given target. |
| `Recorder.VideoRecorder.BuildDefault` | recorder/src/main/java/com/github/lassana/recorder/VideoRecorder.java:160-163 | The two-argument `build` is `build` with `MediaRecorderConfig.DEFAULT` (64 * 1024 bits per second). |
| `Recorder.VideoRecorder.SetStatus` | recorder/src/main/java/com/github/lassana/recorder/VideoRecorder.java:216-218 | Sets the status and nothing else. |
| `Recorder.VideoRecorder.Start` | recorder/src/main/java/com/github/lassana/recorder/VideoRecorder.java:69-105 | Running a start task in place has exactly the effect of `StartTask` on the whole state. It keeps the recorder valid. `isRecording` holds afterwards iff the device succeeded. Exactly one callback is logged. |
| `Recorder.VideoRecorder.Pause` | recorder/src/main/java/com/github/lassana/recorder/VideoRecorder.java:108-137 | Running a pause task in place has exactly the effect of `PauseTask` on the whole state. It keeps the recorder valid. `isPaused` holds afterwards iff a recorder existed and stop and release succeeded. The append log grows by one exactly then. |
| `Recorder.VideoRecorder.ExactlyOneQuery` | recorder/src/main/java/com/github/lassana/recorder/VideoRecorder.java:196-214 | On a built recorder, exactly one of `IsRecording()`, `IsReady()` and `IsPaused()` holds. |

## Left out

- MediaRecorder calls: device I/O, so they become the booleans `ioOk` and `stopReleaseOk`. The model keeps only what a start task configures that the core relies on: the output file, the configuration and the 320x240 video size. It leaves out the default output format and the default audio encoder.
- MediaRecorder life cycle: whether the device is prepared, recording or released is not tracked. For example, a second stop on a released recorder throws in the real device. Here, as for every device outcome, that is what the parameter says.
- Exceptions other than an IOException from the start task's setters, `prepare` and `start`: the `try` catches only IOException, so these escape the task uncaught, and the model has no outcome for them.
- AsyncTask threading: `start` and `pause` hand their task to `AsyncTask.execute`. `VideoRecorder` takes no lock and keeps no queue of its own, so the order in which tasks run and interleave is whatever `AsyncTask.execute` gives on the platform version at hand. The model runs completed tasks one after another, each as its background phase followed by its post-execute phase. Interleavings of tasks running at the same time on the shared recorder field are not modelled.
- `Mp4ParserWrapper.append`: its source is not part of this model. Only the request (target, segment file) is logged; concatenation is not modelled. An append that returns normally is not checked, so the pause succeeds. An append that throws is not modelled: the call sits after the `try`/`catch`, so the exception would escape `doInBackground` with no status change and no callback.
- `Context.getCacheDir`: a platform file-system call, so the cache directory is a string given at construction. `File.separator` is taken as '/'. `MediaRecorder.VideoSource.DEFAULT` and `MediaRecorder.VideoEncoder.DEFAULT` are taken as 0; Android's definitions are not part of this model.
- Exception objects passed to `onException`: only their kind (`Fault`) is kept, not the message or stack.
- Getters `getStatus` and `getRecordFileName`: these are the plain reads `GetStatus()` and `GetRecordFileName()`. What they return is stated in `Build` and in the lemmas above, not by contracts of their own. The target name is a `const`, so no operation can change it.
