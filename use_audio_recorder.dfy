/** The `AudioRecorderState` of hooks/useAudioRecorder.ts over the shared
    audio service. Each operation's two state updates (clearing the error,
    then the outcome) are one step; the one-second interval of the timer
    effect is a `Tick` the environment calls. */
module UseAudioRecorder {
  import opened Common
  import opened AudioServiceModel

  class AudioRecorder {
    const service: AudioService
    var isRecording: bool
    var isPaused: bool
    var recordingTime: nat
    var recordingUri: Option<string>
    var error: Option<string>

    /** Both flags down, no time, no uri, no error. */
    predicate IsInitial()
      reads this
    {
      !isRecording && !isPaused && recordingTime == 0 && recordingUri == None && error == None
    }

    constructor (service: AudioService)
      ensures this.service == service
      ensures IsInitial()
    {
      this.service := service;
      isRecording := false;
      isPaused := false;
      recordingTime := 0;
      recordingUri := None;
      error := None;
    }

    /** Whether the timer effect has an interval running. */
    predicate Counting()
      reads this
    {
      isRecording && !isPaused
    }

    /** One firing of the interval: one second more, and only while
        recording and not paused. */
    method Tick()
      modifies this
      ensures recordingTime == old(recordingTime) + (if old(Counting()) then 1 else 0)
      ensures isRecording == old(isRecording) && isPaused == old(isPaused)
      ensures recordingUri == old(recordingUri) && error == old(error)
    {
      if isRecording && !isPaused {
        recordingTime := recordingTime + 1;
      }
    }

    /** `startRecording`. */
    method StartRecording(fails: set<AudioCall>)
      modifies this, service
      ensures var started := (!old(service.hasRecording) || StopAndUnload !in fails) &&
                             Prepare !in fails && Start !in fails;
              (started ==>
                 isRecording && !isPaused && recordingTime == 0 && recordingUri == None && error == None) &&
              (!started ==>
                 error == Some(StartFailed) && isRecording == old(isRecording) && isPaused == old(isPaused) &&
                 recordingTime == old(recordingTime) && recordingUri == old(recordingUri))
      ensures var started := (!old(service.hasRecording) || StopAndUnload !in fails) &&
                             Prepare !in fails && Start !in fails;
              (started ==> service.isRecording && !service.isPaused && service.recordingUri == None) &&
              (!started ==>
                 service.isRecording == old(service.isRecording) && service.isPaused == old(service.isPaused) &&
                 service.recordingUri == old(service.recordingUri))
      ensures service.hasRecording && service.hasSound == old(service.hasSound)
      ensures error == None ==> service.isRecording && !service.isPaused
      ensures old(service.Consistent()) ==> service.Consistent()
    {
      error := None;
      var r := service.StartRecording(fails);
      if r.Err? {
        error := Some(r.error);
        return;
      }
      isRecording := true;
      isPaused := false;
      recordingTime := 0;
      recordingUri := None;
    }

    /** `pauseRecording`: a failure leaves `isPaused` as it was. */
    method PauseRecording(fails: set<AudioCall>)
      modifies this, service
      ensures isRecording == old(isRecording) && recordingTime == old(recordingTime)
      ensures recordingUri == old(recordingUri)
      ensures old(service.hasRecording) && Pause !in fails ==> isPaused && error == None
      ensures !(old(service.hasRecording) && Pause !in fails) ==>
                isPaused == old(isPaused) && error == Some(PauseFailed)
      ensures service.hasRecording == old(service.hasRecording) && service.hasSound == old(service.hasSound)
      ensures service.isRecording == old(service.isRecording) && service.recordingUri == old(service.recordingUri)
      ensures service.isPaused == (if old(service.hasRecording) && Pause !in fails then true else old(service.isPaused))
      ensures old(service.Consistent()) ==> service.Consistent()
    {
      error := None;
      var r := service.PauseRecording(fails);
      if r.Fail? {
        error := Some(r.error);
        return;
      }
      isPaused := true;
    }

    /** `resumeRecording`: a failure leaves `isPaused` as it was. The guard
        is the service's own `isPaused`, not the hook's. */
    method ResumeRecording(fails: set<AudioCall>)
      modifies this, service
      ensures isRecording == old(isRecording) && recordingTime == old(recordingTime)
      ensures recordingUri == old(recordingUri)
      ensures old(service.hasRecording) && old(service.isPaused) && Start !in fails ==>
                !isPaused && error == None
      ensures !(old(service.hasRecording) && old(service.isPaused) && Start !in fails) ==>
                isPaused == old(isPaused) && error == Some(ResumeFailed)
      ensures service.hasRecording == old(service.hasRecording) && service.hasSound == old(service.hasSound)
      ensures service.isRecording == old(service.isRecording) && service.recordingUri == old(service.recordingUri)
      ensures service.isPaused ==
                (if old(service.hasRecording) && old(service.isPaused) && Start !in fails then false else old(service.isPaused))
      ensures old(service.Consistent()) ==> service.Consistent()
    {
      error := None;
      var r := service.ResumeRecording(fails);
      if r.Fail? {
        error := Some(r.error);
        return;
      }
      isPaused := false;
    }

    /** `stopRecording`: `uri` is what the recording reports once unloaded.
        A success stores and returns the uri; a failure records the error,
        drops `isRecording` and returns null. */
    method StopRecording(uri: Option<string>, fails: set<AudioCall>) returns (r: Option<string>)
      modifies this, service
      ensures recordingTime == old(recordingTime)
      ensures !isRecording
      ensures var stopped := old(service.hasRecording) && StopAndUnload !in fails && Truthy(uri);
              (stopped ==> r == uri && recordingUri == uri && !isPaused && error == None) &&
              (!stopped ==>
                 r == None && error == Some(StopFailed) && isPaused == old(isPaused) &&
                 recordingUri == old(recordingUri))
      ensures old(service.hasRecording) && StopAndUnload !in fails ==>
                !service.hasRecording && !service.isRecording && !service.isPaused &&
                service.recordingUri == (if Truthy(uri) then uri else None)
      ensures !old(service.hasRecording) || StopAndUnload in fails ==>
                service.isRecording == old(service.isRecording) && service.hasRecording == old(service.hasRecording) &&
                service.isPaused == old(service.isPaused) && service.recordingUri == old(service.recordingUri)
      ensures service.hasSound == old(service.hasSound)
      ensures old(service.Consistent()) ==> service.Consistent()
    {
      error := None;
      var stopped := service.StopRecording(uri, fails);
      if stopped.Err? {
        error := Some(stopped.error);
        isRecording := false;
        return None;
      }
      isRecording := false;
      isPaused := false;
      recordingUri := Some(stopped.value);
      return Some(stopped.value);
    }

    /** `clearRecording`: back to the initial state. */
    method ClearRecording()
      modifies this
      ensures IsInitial()
    {
      isRecording := false;
      isPaused := false;
      recordingTime := 0;
      recordingUri := None;
      error := None;
    }
  }

  /** Started, the recorder counts one second per tick; paused, it stops
      counting. */
  method CountWhileRecording(rec: AudioRecorder) returns (running: nat, paused: nat)
    modifies rec, rec.service
    ensures running == 2 && paused == 2
  {
    rec.StartRecording({});
    rec.Tick();
    rec.Tick();
    running := rec.recordingTime;
    rec.PauseRecording({});
    rec.Tick();
    paused := rec.recordingTime;
  }

  /** A whole session through the hook with no failing call: the pause
      reaches the service, so the resume that follows succeeds, and the stop
      releases the recording and hands back its uri when it has one. */
  method RecordPauseResumeStop(rec: AudioRecorder, uri: Option<string>)
    returns (paused: bool, resumed: bool, r: Option<string>)
    modifies rec, rec.service
    ensures paused && resumed
    ensures r == (if Truthy(uri) then uri else None)
    ensures rec.error == (if Truthy(uri) then None else Some(StopFailed))
    ensures !rec.isRecording && !rec.service.isRecording && !rec.service.hasRecording && !rec.service.isPaused
  {
    rec.StartRecording({});
    rec.PauseRecording({});
    paused := rec.isPaused && rec.service.isPaused && rec.error == None;
    rec.ResumeRecording({});
    resumed := !rec.isPaused && !rec.service.isPaused && rec.error == None;
    r := rec.StopRecording(uri, {});
  }

  /** When the service cannot unload the recording, the hook still reports
      that recording has stopped while the service keeps recording. */
  method FailedStopDesynchronises(rec: AudioRecorder, uri: Option<string>)
    modifies rec, rec.service
    ensures !rec.isRecording && rec.service.isRecording
    ensures rec.error == Some(StopFailed)
  {
    rec.StartRecording({});
    var _ := rec.StopRecording(uri, {StopAndUnload});
  }
}
