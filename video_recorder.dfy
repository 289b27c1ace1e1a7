/**
 * The recorder object itself: a status field that the tasks update in place,
 * the MediaRecorder field a start task assigns, and the fixed target file,
 * cache directory and configuration. The listener callbacks and the append
 * requests it makes outwards are kept in ghost logs. Each task method runs
 * its background phase and then its post-execute phase, and is proved to
 * have exactly the effect RecorderSpec gives that task.
 */
module Recorder {
  import opened RecorderSpec

  class VideoRecorder {
    var status: Status
    var mediaRecorder: Option<MediaRecorderSetup>
    const targetRecordFileName: string
    const cacheDir: string
    const mediaRecorderConfig: MediaRecorderConfig

    /** Every listener callback made, in order. */
    ghost var callbacks: seq<Callback>
    /** Every append request made, in order. */
    ghost var appends: seq<AppendRequest>

    /** What holds from the moment `build` returns: the private constructor's `Unknown` is gone. */
    ghost predicate Valid()
      reads this
    {
      status != Unknown
    }

    /** What the recorder fixed at construction. */
    ghost function Fixed(): Env {
      Env(targetRecordFileName, cacheDir, mediaRecorderConfig)
    }

    ghost function View(): State
      reads this
    {
      State(status, mediaRecorder, appends, callbacks)
    }

    /** The private constructor: status `Unknown`, no recorder yet. */
    constructor (cacheDir: string, targetRecordFileName: string, mediaRecorderConfig: MediaRecorderConfig)
      ensures this.targetRecordFileName == targetRecordFileName
      ensures this.cacheDir == cacheDir && this.mediaRecorderConfig == mediaRecorderConfig
      ensures status == Unknown && mediaRecorder == None && appends == [] && callbacks == []
    {
      this.targetRecordFileName := targetRecordFileName;
      this.cacheDir := cacheDir;
      this.mediaRecorderConfig := mediaRecorderConfig;
      status := Unknown;
      mediaRecorder := None;
      appends, callbacks := [], [];
    }

    /** A ready-to-use recorder for the given target file and configuration. */
    static method Build(cacheDir: string, targetFileName: string, mediaRecorderConfig: MediaRecorderConfig)
      returns (r: VideoRecorder)
      ensures fresh(r) && r.Valid()
      ensures r.Fixed() == Env(targetFileName, cacheDir, mediaRecorderConfig)
      ensures r.GetRecordFileName() == targetFileName
      ensures r.View() == Built() && r.IsReady()
    {
      r := new VideoRecorder(cacheDir, targetFileName, mediaRecorderConfig);
      r.status := ReadyToRecord;
    }

    /** A ready-to-use recorder for the given target file, with the default configuration. */
    static method BuildDefault(cacheDir: string, targetFileName: string) returns (r: VideoRecorder)
      ensures fresh(r) && r.Valid()
      ensures r.Fixed() == Env(targetFileName, cacheDir, DefaultConfig)
      ensures r.mediaRecorderConfig.videoEncodingBitRate == 64 * 1024
      ensures r.View() == Built() && r.IsReady()
    {
      r := Build(cacheDir, targetFileName, DefaultConfig);
    }

    method SetStatus(st: Status)
      modifies this`status
      ensures status == st
    {
      status := st;
    }

    /**
     * One start task, completed: `ioOk` says whether prepare and start
     * succeeded. `VideoRecorder.start` puts no condition on the status.
     */
    method Start(ioOk: bool)
      modifies this
      ensures View() == StartTask(Fixed(), old(View()), ioOk)
      ensures Valid()
      ensures IsRecording() <==> ioOk
      ensures callbacks == old(callbacks) + [if ioOk then OnStarted else OnException(PrepareOrStartFailed)]
    {
      // doInBackground
      mediaRecorder := Some(MediaRecorderSetup(TemporaryFileName(cacheDir), mediaRecorderConfig, VideoWidth, VideoHeight));
      var exception: Option<Fault> := if ioOk then None else Some(PrepareOrStartFailed);
      // onPostExecute
      if exception.None? {
        SetStatus(Recording);
        callbacks := callbacks + [OnStarted];
      } else {
        SetStatus(ReadyToRecord);
        callbacks := callbacks + [OnException(exception.value)];
      }
    }

    /**
     * One pause task, completed: `stopReleaseOk` says whether stop and release
     * succeeded on the recorder, if there is one. `VideoRecorder.pause` puts no
     * condition on the status.
     */
    method Pause(stopReleaseOk: bool)
      modifies this
      ensures View() == PauseTask(Fixed(), old(View()), stopReleaseOk)
      ensures Valid()
      ensures IsPaused() <==> old(mediaRecorder).Some? && stopReleaseOk
      ensures |appends| == |old(appends)| + (if IsPaused() then 1 else 0)
    {
      // doInBackground
      var exception: Option<Fault>;
      if mediaRecorder.None? {
        exception := Some(NoMediaRecorder);
      } else if !stopReleaseOk {
        exception := Some(StopOrReleaseFailed);
      } else {
        exception := None;
      }
      if exception.None? {
        appends := appends + [AppendRequest(targetRecordFileName, TemporaryFileName(cacheDir))];
      }
      // onPostExecute
      if exception.None? {
        SetStatus(RecordPaused);
        callbacks := callbacks + [OnPaused(targetRecordFileName)];
      } else {
        SetStatus(ReadyToRecord);
        callbacks := callbacks + [OnException(exception.value)];
      }
    }

    function GetStatus(): Status
      reads this
    {
      status
    }

    function GetRecordFileName(): string {
      targetRecordFileName
    }

    predicate IsRecording()
      reads this
    {
      RecorderSpec.IsRecording(status)
    }

    predicate IsReady()
      reads this
    {
      RecorderSpec.IsReady(status)
    }

    predicate IsPaused()
      reads this
    {
      RecorderSpec.IsPaused(status)
    }

    /** Once built, exactly one of the three queries holds. */
    lemma ExactlyOneQuery()
      requires Valid()
      ensures IsRecording() <==> !IsReady() && !IsPaused()
      ensures IsReady() <==> !IsRecording() && !IsPaused()
      ensures IsPaused() <==> !IsRecording() && !IsReady()
    {
      QueriesExactlyOne(status);
    }
  }
}
