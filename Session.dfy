/** The capture session of the camera screen (App.js): the values the screen
    keeps in component state, and what each of its actions does to them. Every
    action is a function of the current state (and, for a capture, of the uri
    the camera hands back); the calls it makes on the camera object are listed
    in the result. */
module Session {
  import opened Js

  datatype Facing = Back | Front

  /** `cameraMode`: the four modes, whose numbers are 0 to 3. */
  datatype CameraMode = Slow | Portrait | Photo | Video

  /** The object literal `cameraMode` of App.js. */
  const CameraModeObject: JsValue :=
    Object(map["Slow" := Number(0), "Portrait" := Number(1), "Photo" := Number(2), "Video" := Number(3)])

  /** The key of a mode in `cameraMode`. */
  function ModeKey(m: CameraMode): string {
    match m
    case Slow => "Slow"
    case Portrait => "Portrait"
    case Photo => "Photo"
    case Video => "Video"
  }

  /** The number a mode stands for: its value in `cameraMode`. */
  function ModeValue(m: CameraMode): (n: nat)
    ensures n < 4
    ensures Member(CameraModeObject, ModeKey(m)) == Number(n)
  {
    match m
    case Slow => 0
    case Portrait => 1
    case Photo => 2
    case Video => 3
  }

  /** The mode a number stands for, if any. */
  function ModeOf(n: int): (m: Option<CameraMode>)
    ensures m.Some? <==> 0 <= n < 4
    ensures m.Some? ==> ModeValue(m.value) == n
  {
    if n == 0 then Some(Slow)
    else if n == 1 then Some(Portrait)
    else if n == 2 then Some(Photo)
    else if n == 3 then Some(Video)
    else None
  }

  /** A call the screen makes on the camera object. */
  datatype CameraCall = TakePhoto | StartRecording | StopRecording

  /** The session's state. `camera` says whether the camera view has handed
      back its ref. `zoom` and `availablePictureSizes` are not modelled. */
  datatype State = State(
    camera: bool,
    facing: Facing,
    image: Option<string>,
    mode: CameraMode,
    mirrorMode: bool,
    autoFocus: bool,
    flashMode: bool,
    timerMode: bool,
    timer: int,
    aspectRatio: bool,
    isRecording: bool,
    recordUri: Option<string>)

  /** The state when the screen mounts. */
  const Initial: State := State(
    camera := false,
    facing := Back,
    image := None,
    mode := Photo,
    mirrorMode := false,
    autoFocus := true,
    flashMode := false,
    timerMode := false,
    timer := 3,
    aspectRatio := true,
    isRecording := false,
    recordUri := None)

  /** The screen starts in Photo mode on the back camera, with flash, timer and
      mirror off, autofocus and the 4:3 aspect ratio on, a 3 second timer, not
      recording, no camera ref and no media yet. */
  lemma InitialState()
    ensures Initial.mode == Photo && ModeValue(Initial.mode) == 2 && Initial.facing == Back
    ensures !Initial.flashMode && !Initial.timerMode && !Initial.mirrorMode
    ensures Initial.autoFocus && Initial.aspectRatio && Initial.timer == 3
    ensures !Initial.isRecording && !Initial.camera
    ensures Initial.image == None && Initial.recordUri == None
  {
  }

  /** The new state after an action, with the calls it made on the camera. */
  datatype Step = Step(next: State, calls: seq<CameraCall>)

  function Other(f: Facing): Facing {
    if f == Back then Front else Back
  }

  /** `flipCamera`: switches between the back and the front camera and changes
      nothing else. */
  function FlipCamera(s: State): (r: State)
    ensures r.facing != s.facing
    ensures r.(facing := s.facing) == s
  {
    s.(facing := Other(s.facing))
  }

  /** Flipping twice returns to the same state. */
  lemma FlipTwice(s: State)
    ensures FlipCamera(FlipCamera(s)) == s
  {
  }

  /** `takePicture`, once the camera has returned `uri`: with a camera it takes
      one photo and keeps its uri in `image`; without one it does nothing. No
      other field changes. */
  function TakePicture(s: State, uri: string): (r: Step)
    ensures s.camera ==> r.calls == [TakePhoto] && r.next.image == Some(uri)
    ensures !s.camera ==> r == Step(s, [])
    ensures r.next.(image := s.image) == s
  {
    if s.camera then Step(s.(image := Some(uri)), [TakePhoto]) else Step(s, [])
  }

  /** The first half of `startRecord`, up to the point where it waits for the
      recording: if not recording and a camera is there, it marks the session
      as recording and starts one recording; otherwise it does nothing. No
      other field changes. */
  function StartRecord(s: State): (r: Step)
    ensures !s.isRecording && s.camera ==> r.calls == [StartRecording] && r.next.isRecording
    ensures s.isRecording || !s.camera ==> r == Step(s, [])
    ensures r.next.(isRecording := s.isRecording) == s
  {
    if !s.isRecording && s.camera then Step(s.(isRecording := true), [StartRecording])
    else Step(s, [])
  }

  /** The second half of `startRecord`, when the recording has resolved with
      `uri`: keeps the uri in `recordUri` and leaves everything else as it is,
      `isRecording` included. */
  function RecordResolved(s: State, uri: string): (r: State)
    ensures r.recordUri == Some(uri)
    ensures r.(recordUri := s.recordUri) == s
  {
    s.(recordUri := Some(uri))
  }

  /** `stopRecord`: with a camera and while recording, stops the recording once
      and marks the session as not recording; otherwise it does nothing. No
      other field changes. */
  function StopRecord(s: State): (r: Step)
    ensures s.camera && s.isRecording ==> r.calls == [StopRecording] && !r.next.isRecording
    ensures !s.camera || !s.isRecording ==> r == Step(s, [])
    ensures r.next.(isRecording := s.isRecording) == s
  {
    if s.camera && s.isRecording then Step(s.(isRecording := false), [StopRecording])
    else Step(s, [])
  }

  /** `dispatchCaptureButton`: takes a picture in Photo mode, stops or starts a
      recording in Video mode, and does nothing in Slow or Portrait mode. */
  function DispatchCaptureButton(s: State, uri: string): (r: Step)
    ensures s.mode == Photo && s.camera ==>
      r.calls == [TakePhoto] && r.next == s.(image := Some(uri))
    ensures s.mode == Video && s.camera && !s.isRecording ==>
      r.calls == [StartRecording] && r.next == s.(isRecording := true)
    ensures s.mode == Video && s.camera && s.isRecording ==>
      r.calls == [StopRecording] && r.next == s.(isRecording := false)
    ensures s.mode in {Slow, Portrait} || !s.camera ==> r == Step(s, [])
    ensures r.next.mode == s.mode
    ensures |r.calls| <= 1
  {
    if s.mode == Photo then TakePicture(s, uri)
    else if s.mode == Video then
      if s.isRecording then StopRecord(s) else StartRecord(s)
    else Step(s, [])
  }

  /** A Video-mode recording from start to finish: the first press marks the
      session as recording before the recording resolves; the second press
      stops it; the resolution then keeps its uri. Exactly one start and one
      stop are issued. */
  lemma VideoRoundTrip(s: State, ignored: string, uri: string)
    requires s.mode == Video && s.camera && !s.isRecording
    ensures var first := DispatchCaptureButton(s, ignored);
            var second := DispatchCaptureButton(first.next, ignored);
            first.next.isRecording
            && first.calls + second.calls == [StartRecording, StopRecording]
            && RecordResolved(second.next, uri) == s.(recordUri := Some(uri))
  {
  }

  /** Which flag a state setter writes. `autoFocus` has a setter that nothing
      calls. */
  datatype Setting = FlashMode | TimerMode | MirrorMode | AspectRatio | AutoFocus

  function Flag(s: State, k: Setting): bool {
    match k
    case FlashMode => s.flashMode
    case TimerMode => s.timerMode
    case MirrorMode => s.mirrorMode
    case AspectRatio => s.aspectRatio
    case AutoFocus => s.autoFocus
  }

  /** The state setter for flag `k`, called with `v`: only that flag changes. */
  function SetFlag(s: State, k: Setting, v: bool): (r: State)
    ensures Flag(r, k) == v
    ensures forall j :: j != k ==> Flag(r, j) == Flag(s, j)
    ensures r.(flashMode := s.flashMode, timerMode := s.timerMode, mirrorMode := s.mirrorMode,
               aspectRatio := s.aspectRatio, autoFocus := s.autoFocus) == s
  {
    match k
    case FlashMode => s.(flashMode := v)
    case TimerMode => s.(timerMode := v)
    case MirrorMode => s.(mirrorMode := v)
    case AspectRatio => s.(aspectRatio := v)
    case AutoFocus => s.(autoFocus := v)
  }

  /** `setCurrentCameraMode`: nothing guards a mode change, so the session may
      go on recording in any mode. */
  function SetCurrentCameraMode(s: State, m: CameraMode): (r: State)
    ensures r.mode == m
    ensures r.(mode := s.mode) == s
  {
    s.(mode := m)
  }

  /** The camera view's ref callback: a ref is present or it is null. */
  function SetCamera(s: State, present: bool): (r: State)
    ensures r.camera == present
    ensures r.(camera := s.camera) == s
  {
    s.(camera := present)
  }

  /** Without a camera ref every capture action leaves the state as it is and
      calls nothing; `startRecord` does nothing while recording and
      `stopRecord` nothing while not recording. */
  lemma GuardsMakeNoOps(s: State, uri: string)
    ensures !s.camera ==> TakePicture(s, uri) == Step(s, []) && StartRecord(s) == Step(s, [])
                          && StopRecord(s) == Step(s, []) && DispatchCaptureButton(s, uri) == Step(s, [])
    ensures s.isRecording ==> StartRecord(s) == Step(s, [])
    ensures !s.isRecording ==> StopRecord(s) == Step(s, [])
  {
  }
}
