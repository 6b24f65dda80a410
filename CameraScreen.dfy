/** The camera screen's component state (App.js), held as fields that its
    handlers update in place. Each handler is proved to do what the matching
    function of module Session says, and `calls` records what the screen asked
    of the camera object. */
module CameraScreen {
  import opened Js
  import opened Session

  class Screen {
    var camera: bool
    var facing: Facing
    var image: Option<string>
    var mode: CameraMode
    var mirrorMode: bool
    var autoFocus: bool
    var flashMode: bool
    var timerMode: bool
    var timer: int
    var aspectRatio: bool
    var isRecording: bool
    var recordUri: Option<string>
    /** The calls made on the camera object so far, oldest first. */
    var calls: seq<CameraCall>

    /** The fields as one value. */
    function Snapshot(): State
      reads this
    {
      Session.State(camera, facing, image, mode, mirrorMode, autoFocus, flashMode, timerMode,
                    timer, aspectRatio, isRecording, recordUri)
    }

    /** The `useState` initial values. */
    constructor ()
      ensures Snapshot() == Initial
      ensures calls == []
    {
      camera := false;
      facing := Back;
      image := None;
      mode := Photo;
      mirrorMode := false;
      autoFocus := true;
      flashMode := false;
      timerMode := false;
      timer := 3;
      aspectRatio := true;
      isRecording := false;
      recordUri := None;
      calls := [];
    }

    method FlipCamera()
      modifies this
      ensures Snapshot() == Session.FlipCamera(old(Snapshot()))
      ensures calls == old(calls)
    {
      facing := if facing == Back then Front else Back;
    }

    /** `takePicture`, where `uri` is what `takePictureAsync` resolves to. */
    method TakePicture(uri: string)
      modifies this
      ensures Snapshot() == Session.TakePicture(old(Snapshot()), uri).next
      ensures calls == old(calls) + Session.TakePicture(old(Snapshot()), uri).calls
    {
      if camera {
        calls := calls + [TakePhoto];
        image := Some(uri);
      }
    }

    /** `startRecord` up to `await camera.recordAsync(...)`. */
    method StartRecord()
      modifies this
      ensures Snapshot() == Session.StartRecord(old(Snapshot())).next
      ensures calls == old(calls) + Session.StartRecord(old(Snapshot())).calls
    {
      if !isRecording && camera {
        isRecording := true;
        calls := calls + [StartRecording];
      }
    }

    /** The rest of `startRecord`, once the recording resolves with `uri`. */
    method RecordResolved(uri: string)
      modifies this
      ensures Snapshot() == Session.RecordResolved(old(Snapshot()), uri)
      ensures calls == old(calls)
    {
      recordUri := Some(uri);
    }

    method StopRecord()
      modifies this
      ensures Snapshot() == Session.StopRecord(old(Snapshot())).next
      ensures calls == old(calls) + Session.StopRecord(old(Snapshot())).calls
    {
      if camera && isRecording {
        calls := calls + [StopRecording];
        isRecording := false;
      }
    }

    /** `dispatchCaptureButton`; `uri` is used only when a picture is taken. */
    method DispatchCaptureButton(uri: string)
      modifies this
      ensures Snapshot() == Session.DispatchCaptureButton(old(Snapshot()), uri).next
      ensures calls == old(calls) + Session.DispatchCaptureButton(old(Snapshot()), uri).calls
    {
      if mode == Photo {
        TakePicture(uri);
      } else if mode == Video {
        if isRecording {
          StopRecord();
        } else {
          StartRecord();
        }
      }
    }

    /** The state setter of flag `k`. */
    method SetFlag(k: Setting, v: bool)
      modifies this
      ensures Snapshot() == Session.SetFlag(old(Snapshot()), k, v)
      ensures calls == old(calls)
    {
      match k
      case FlashMode => flashMode := v;
      case TimerMode => timerMode := v;
      case MirrorMode => mirrorMode := v;
      case AspectRatio => aspectRatio := v;
      case AutoFocus => autoFocus := v;
    }

    method SetCurrentCameraMode(m: CameraMode)
      modifies this
      ensures Snapshot() == Session.SetCurrentCameraMode(old(Snapshot()), m)
      ensures calls == old(calls)
    {
      mode := m;
    }

    /** The camera view's ref callback `(ref) => setCamera(ref)`. */
    method SetCamera(present: bool)
      modifies this
      ensures Snapshot() == Session.SetCamera(old(Snapshot()), present)
      ensures calls == old(calls)
    {
      camera := present;
    }
  }

  /** A Photo-mode press on a freshly mounted screen whose camera is ready
      takes exactly one photo and shows its uri. */
  method PhotoScenario(uri: string) returns (screen: Screen)
    ensures screen.calls == [TakePhoto]
    ensures screen.image == Some(uri) && screen.mode == Photo && !screen.isRecording
  {
    screen := new Screen();
    screen.SetCamera(true);
    screen.DispatchCaptureButton(uri);
  }

  /** A Video-mode session: the first press starts a recording and marks the
      screen as recording at once; the second press stops it; the recording
      then resolves with `uri`. */
  method VideoScenario(uri: string) returns (screen: Screen)
    ensures screen.calls == [StartRecording, StopRecording]
    ensures !screen.isRecording && screen.recordUri == Some(uri) && screen.mode == Video
  {
    screen := new Screen();
    screen.SetCamera(true);
    screen.SetCurrentCameraMode(Video);
    screen.DispatchCaptureButton("");
    assert screen.isRecording;
    screen.DispatchCaptureButton("");
    screen.RecordResolved(uri);
  }
}
