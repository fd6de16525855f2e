/** The flag state machine of `AudioService` (services/audioService.ts).
    The expo-av recording and sound objects are reduced to whether one is
    held; each of their asynchronous calls may throw, and `fails` names the
    calls that throw during one operation. */
module AudioServiceModel {
  import opened Common

  /** The expo-av calls the service awaits. */
  datatype AudioCall =
    | StopAndUnload   // recording.stopAndUnloadAsync
    | Prepare         // recording.prepareToRecordAsync
    | Start           // recording.startAsync
    | Pause           // recording.pauseAsync
    | UnloadSound     // sound.unloadAsync
    | LoadSound       // sound.loadAsync
    | PlaySound       // sound.playAsync
    | PauseSound      // sound.pauseAsync

  const StartFailed: string := "Não foi possível iniciar a gravação"
  const PauseFailed: string := "Não foi possível pausar a gravação"
  const ResumeFailed: string := "Não foi possível retomar a gravação"
  const StopFailed: string := "Não foi possível parar a gravação"
  const PlayFailed: string := "Não foi possível reproduzir o áudio"
  const StopAudioFailed: string := "Não foi possível parar o áudio"
  const Started: string := "Gravação iniciada"

  /** What `getStatus` reports. */
  datatype Status = Status(isRecording: bool, isPaused: bool, recordingUri: Option<string>)

  class AudioService {
    var hasRecording: bool
    var hasSound: bool
    var recordingUri: Option<string>
    var isRecording: bool
    var isPaused: bool

    /** A fresh service: nothing held, nothing recorded. */
    constructor ()
      ensures !hasRecording && !hasSound && recordingUri == None && !isRecording && !isPaused
      ensures Consistent()
    {
      hasRecording := false;
      hasSound := false;
      recordingUri := None;
      isRecording := false;
      isPaused := false;
    }

    /** The flags never claim an active or paused recording without a
        recording object. */
    predicate Consistent()
      reads this
    {
      (isRecording || isPaused) ==> hasRecording
    }

    /** `getStatus`: the three public fields. */
    function GetStatus(): (s: Status)
      reads this
      ensures s.isRecording == isRecording && s.isPaused == isPaused && s.recordingUri == recordingUri
    {
      Status(isRecording, isPaused, recordingUri)
    }

    /** `startRecording`: unloads a held recording, creates a new one,
        prepares and starts it. A new recording object is in place as soon
        as the unload succeeded, even if preparing or starting throws. */
    method StartRecording(fails: set<AudioCall>) returns (r: Result<string, string>)
      modifies this
      ensures hasSound == old(hasSound)
      ensures r.Ok? <==> (!old(hasRecording) || StopAndUnload !in fails) && Prepare !in fails && Start !in fails
      ensures r.Ok? ==> r.value == Started && isRecording && !isPaused && recordingUri == None
      ensures r.Err? ==>
                r.error == StartFailed && isRecording == old(isRecording) && isPaused == old(isPaused) &&
                recordingUri == old(recordingUri)
      ensures hasRecording
      ensures old(Consistent()) ==> Consistent()
    {
      if hasRecording && StopAndUnload in fails {
        return Err(StartFailed);
      }
      hasRecording := true;
      if Prepare in fails || Start in fails {
        return Err(StartFailed);
      }
      isRecording := true;
      isPaused := false;
      recordingUri := None;
      return Ok(Started);
    }

    /** `pauseRecording`: needs a recording object. */
    method PauseRecording(fails: set<AudioCall>) returns (r: Outcome<string>)
      modifies this
      ensures hasRecording == old(hasRecording) && hasSound == old(hasSound)
      ensures isRecording == old(isRecording) && recordingUri == old(recordingUri)
      ensures r.Pass? <==> old(hasRecording) && Pause !in fails
      ensures r.Pass? ==> isPaused
      ensures r.Fail? ==> r.error == PauseFailed && isPaused == old(isPaused)
      ensures old(Consistent()) ==> Consistent()
    {
      if !hasRecording || Pause in fails {
        return Fail(PauseFailed);
      }
      isPaused := true;
      return Pass;
    }

    /** `resumeRecording`: needs a recording object that is paused. */
    method ResumeRecording(fails: set<AudioCall>) returns (r: Outcome<string>)
      modifies this
      ensures hasRecording == old(hasRecording) && hasSound == old(hasSound)
      ensures isRecording == old(isRecording) && recordingUri == old(recordingUri)
      ensures r.Pass? <==> old(hasRecording) && old(isPaused) && Start !in fails
      ensures r.Pass? ==> !isPaused
      ensures r.Fail? ==> r.error == ResumeFailed && isPaused == old(isPaused)
      ensures old(Consistent()) ==> Consistent()
    {
      if !hasRecording || !isPaused || Start in fails {
        return Fail(ResumeFailed);
      }
      isPaused := false;
      return Pass;
    }

    /** `stopRecording`: `uri` is what `getURI()` gives once the recording
        is unloaded. After a successful unload the recording is released,
        both flags drop and the uri (or null) is kept, even when a missing
        uri then makes the call throw. */
    method StopRecording(uri: Option<string>, fails: set<AudioCall>) returns (r: Result<string, string>)
      modifies this
      ensures hasSound == old(hasSound)
      ensures r.Ok? <==> old(hasRecording) && StopAndUnload !in fails && Truthy(uri)
      ensures r.Ok? ==> r.value == uri.value
      ensures r.Err? ==> r.error == StopFailed
      ensures old(hasRecording) && StopAndUnload !in fails ==>
                !hasRecording && !isRecording && !isPaused &&
                recordingUri == (if Truthy(uri) then uri else None)
      ensures !old(hasRecording) || StopAndUnload in fails ==>
                hasRecording == old(hasRecording) && isRecording == old(isRecording) &&
                isPaused == old(isPaused) && recordingUri == old(recordingUri)
      ensures old(Consistent()) ==> Consistent()
    {
      if !hasRecording || StopAndUnload in fails {
        return Err(StopFailed);
      }
      hasRecording := false;
      isRecording := false;
      isPaused := false;
      recordingUri := if Truthy(uri) then uri else None;
      if !Truthy(uri) {
        return Err(StopFailed);
      }
      return Ok(uri.value);
    }

    /** `playAudio`: unloads a held sound, creates a new one, loads and
        plays it. */
    method PlayAudio(uri: string, fails: set<AudioCall>) returns (r: Outcome<string>)
      modifies this
      ensures hasRecording == old(hasRecording) && isRecording == old(isRecording)
      ensures isPaused == old(isPaused) && recordingUri == old(recordingUri)
      ensures r.Pass? <==> (!old(hasSound) || UnloadSound !in fails) && LoadSound !in fails && PlaySound !in fails
      ensures r.Fail? ==> r.error == PlayFailed
      ensures hasSound
    {
      if hasSound && UnloadSound in fails {
        return Fail(PlayFailed);
      }
      hasSound := true;
      if LoadSound in fails || PlaySound in fails {
        return Fail(PlayFailed);
      }
      return Pass;
    }

    /** `stopAudio`: pauses a held sound; nothing changes in the state. */
    method StopAudio(fails: set<AudioCall>) returns (r: Outcome<string>)
      ensures r.Pass? <==> !hasSound || PauseSound !in fails
      ensures r.Fail? ==> r.error == StopAudioFailed
    {
      if hasSound && PauseSound in fails {
        return Fail(StopAudioFailed);
      }
      return Pass;
    }

    /** `cleanup`: releases the recording, then the sound, then drops both
        flags; a throwing call ends it early and is swallowed, leaving what
        was already done in place. The last uri is kept. */
    method Cleanup(fails: set<AudioCall>)
      modifies this
      ensures recordingUri == old(recordingUri)
      ensures old(hasRecording) && StopAndUnload in fails ==>
                hasRecording && hasSound == old(hasSound) &&
                isRecording == old(isRecording) && isPaused == old(isPaused)
      ensures (!old(hasRecording) || StopAndUnload !in fails) ==> !hasRecording
      ensures (!old(hasRecording) || StopAndUnload !in fails) && old(hasSound) && UnloadSound in fails ==>
                hasSound && isRecording == old(isRecording) && isPaused == old(isPaused)
      ensures (!old(hasRecording) || StopAndUnload !in fails) && (!old(hasSound) || UnloadSound !in fails) ==>
                !hasSound && !isRecording && !isPaused
      ensures (!old(hasSound) || UnloadSound !in fails) && old(Consistent()) ==> Consistent()
    {
      if hasRecording {
        if StopAndUnload in fails {
          return;
        }
        hasRecording := false;
      }
      if hasSound {
        if UnloadSound in fails {
          return;
        }
        hasSound := false;
      }
      isRecording := false;
      isPaused := false;
    }
  }

  /** `AudioService.instance`: the one service object, created on first use. */
  class AudioServiceHolder {
    var instance: Option<AudioService>

    constructor ()
      ensures instance == None
    {
      instance := None;
    }

    /** `getInstance`. */
    method GetInstance() returns (s: AudioService)
      modifies this
      ensures old(instance).Some? ==> s == old(instance).value && instance == old(instance)
      ensures old(instance).None? ==>
                fresh(s) && instance == Some(s) && s.GetStatus() == Status(false, false, None)
    {
      if instance.None? {
        var created := new AudioService();
        instance := Some(created);
      }
      return instance.value;
    }
  }

  /** A full recording: start, pause, resume and stop succeed in turn, and
      the status reports the uri with both flags down. */
  method RecordOnce(s: AudioService, uri: string) returns (r: Result<string, string>)
    requires uri != ""
    modifies s
    ensures r == Ok(uri)
    ensures s.GetStatus() == Status(false, false, Some(uri))
  {
    var _ := s.StartRecording({});
    var _ := s.PauseRecording({});
    var _ := s.ResumeRecording({});
    r := s.StopRecording(Some(uri), {});
  }

  /** A cleanup whose sound unload throws, after the recording was
      released, leaves the service reporting an active recording it no
      longer holds. */
  method CleanupCanLeaveStaleFlags(uri: string) returns (s: AudioService)
    ensures s.GetStatus().isRecording && !s.hasRecording && !s.Consistent()
  {
    s := new AudioService();
    var _ := s.StartRecording({});
    var _ := s.PlayAudio(uri, {});
    s.Cleanup({UnloadSound});
  }
}
