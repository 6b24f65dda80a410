/** What the camera screen (App.js) renders from its state, how its children
    are wired to it, and the sessions that arise from a sequence of user and
    camera events.

    Three expressions of App.js do not do what their surroundings suggest: the
    settings icon's flag (line 200), the props handed to the mode carousel
    (lines 230-233) and the test that picks the preview (line 248). `Build`
    selects them as written or as evidently intended; everything else is the
    same in both. */
module AppView {
  import opened Js
  import opened Session
  import CameraOption
  import CarouselMenu

  datatype Build = AsWritten | Corrected

  // ---------------------------------------------------------------------------
  // Permission gate

  datatype Gate = NoAccess | CameraShown

  /** Only a camera permission known to be refused shows the "no access" view;
      while the answer is pending (`null`) the camera screen is shown. */
  function PermissionGate(hasCameraPermission: Option<bool>): (g: Gate)
    ensures g == NoAccess <==> hasCameraPermission == Some(false)
  {
    if hasCameraPermission == Some(false) then NoAccess else CameraShown
  }

  // ---------------------------------------------------------------------------
  // Camera view props and the capture button

  datatype AutoFocusSetting = AutoFocusOn | AutoFocusOff
  datatype FlashSetting = FlashOn | FlashOff

  /** The props of the camera view that come from the session (the zoom and the
      stabilisation mode are constants and are not modelled). */
  datatype CameraProps = CameraProps(facing: Facing, ratio: string, autoFocus: AutoFocusSetting, flashMode: FlashSetting)

  function CameraPropsOf(s: State): (p: CameraProps)
    ensures p.facing == s.facing
    ensures p.ratio == "4:3" <==> s.aspectRatio
    ensures p.ratio == "16:9" <==> !s.aspectRatio
    ensures p.autoFocus == AutoFocusOn <==> s.autoFocus
    ensures p.flashMode == FlashOn <==> s.flashMode
  {
    CameraProps(
      s.facing,
      if s.aspectRatio then "4:3" else "16:9",
      if s.autoFocus then AutoFocusOn else AutoFocusOff,
      if s.flashMode then FlashOn else FlashOff)
  }

  /** The capture button is red while recording and white otherwise. */
  function CaptureIconColor(s: State): (c: string)
    ensures c == "red" <==> s.isRecording
    ensures c == "white" <==> !s.isRecording
  {
    if s.isRecording then "red" else "white"
  }

  // ---------------------------------------------------------------------------
  // Top menu: five toggles

  datatype Slot = FlashSlot | TimerSlot | MirrorSlot | AspectSlot | SettingsSlot

  /** The toggles, left to right. */
  const Slots: seq<Slot> := [FlashSlot, TimerSlot, MirrorSlot, AspectSlot, SettingsSlot]

  function Icon(k: Slot): string {
    match k
    case FlashSlot => "offline-bolt"
    case TimerSlot => "av-timer"
    case MirrorSlot => "camera-alt"
    case AspectSlot => "aspect-ratio"
    case SettingsSlot => "settings"
  }

  /** The flag whose setter each toggle is given; the settings icon is given
      the flash setter. */
  function SlotSetting(k: Slot): Setting {
    match k
    case FlashSlot => FlashMode
    case TimerSlot => TimerMode
    case MirrorSlot => MirrorMode
    case AspectSlot => AspectRatio
    case SettingsSlot => FlashMode
  }

  function SetterName(k: Setting): string {
    match k
    case FlashMode => "setFlashMode"
    case TimerMode => "setTimerMode"
    case MirrorMode => "setMirrorMode"
    case AspectRatio => "setAspectRatio"
    case AutoFocus => "setAutoFocus"
  }

  /** The flag a setter name belongs to. */
  function SettingOfSetter(name: string): (k: Option<Setting>)
    ensures k.Some? ==> SetterName(k.value) == name
  {
    if name == "setFlashMode" then Some(FlashMode)
    else if name == "setTimerMode" then Some(TimerMode)
    else if name == "setMirrorMode" then Some(MirrorMode)
    else if name == "setAspectRatio" then Some(AspectRatio)
    else if name == "setAutoFocus" then Some(AutoFocus)
    else None
  }

  /** The settings icon's flag. As written it is `flashMode === flashMode.on`:
      a boolean has no property `on`, so this compares a boolean with
      `undefined`. */
  function SettingsEnabled(b: Build, flashMode: bool): (r: bool)
    ensures b == AsWritten ==> !r
    ensures b == Corrected ==> r == flashMode
  {
    match b
    case AsWritten => StrictEquals(Bool(flashMode), Member(Bool(flashMode), "on"))
    case Corrected => flashMode
  }

  /** The props App passes to the toggle in slot `k`. */
  function SlotProps(b: Build, s: State, k: Slot): (p: CameraOption.OptionProps)
    ensures p.iconName == Icon(k) && p.setEnabled == SetterName(SlotSetting(k))
    ensures k != SettingsSlot ==> p.enabled == Flag(s, SlotSetting(k))
    ensures k == SettingsSlot && b == AsWritten ==> !p.enabled
    ensures k == SettingsSlot && b == Corrected ==> p.enabled == s.flashMode
  {
    var enabled := if k == SettingsSlot then SettingsEnabled(b, s.flashMode) else Flag(s, SlotSetting(k));
    CameraOption.OptionProps(Icon(k), enabled, SetterName(SlotSetting(k)))
  }

  /** The rendered top menu: flash, timer, mirror and aspect-ratio toggles
      tinted by their flags, then the settings icon, which as written is never
      yellow; every press hands its setter the negation of what is shown, and
      the settings icon's setter is the flash setter. */
  function TopMenu(b: Build, s: State): (views: seq<CameraOption.OptionView>)
    ensures |views| == 5
    ensures views[0].iconName == "offline-bolt" && views[1].iconName == "av-timer"
    ensures views[2].iconName == "camera-alt" && views[3].iconName == "aspect-ratio"
    ensures views[4].iconName == "settings"
    ensures views[0].color == "yellow" <==> s.flashMode
    ensures views[1].color == "yellow" <==> s.timerMode
    ensures views[2].color == "yellow" <==> s.mirrorMode
    ensures views[3].color == "yellow" <==> s.aspectRatio
    ensures views[0].color == "white" <==> !s.flashMode
    ensures views[1].color == "white" <==> !s.timerMode
    ensures views[2].color == "white" <==> !s.mirrorMode
    ensures views[3].color == "white" <==> !s.aspectRatio
    ensures b == AsWritten ==> views[4].color == "white"
    ensures b == Corrected ==> (views[4].color == "yellow" <==> s.flashMode)
    ensures b == Corrected ==> (views[4].color == "white" <==> !s.flashMode)
    ensures views[0].onPress == [CameraOption.SetterCall("setFlashMode", !s.flashMode)]
    ensures views[1].onPress == [CameraOption.SetterCall("setTimerMode", !s.timerMode)]
    ensures views[2].onPress == [CameraOption.SetterCall("setMirrorMode", !s.mirrorMode)]
    ensures views[3].onPress == [CameraOption.SetterCall("setAspectRatio", !s.aspectRatio)]
    ensures b == AsWritten ==> views[4].onPress == [CameraOption.SetterCall("setFlashMode", true)]
    ensures b == Corrected ==> views[4].onPress == [CameraOption.SetterCall("setFlashMode", !s.flashMode)]
  {
    seq(|Slots|, i requires 0 <= i < |Slots| => CameraOption.Render(SlotProps(b, s, Slots[i])))
  }

  /** App's state setter receiving a call from a toggle. */
  function ApplySetterCall(s: State, c: CameraOption.SetterCall): State {
    match SettingOfSetter(c.setter)
    case Some(k) => SetFlag(s, k, c.arg)
    case None => s
  }

  /** Pressing the toggle in slot `k`: the flag behind its setter becomes the
      negation of the flag the toggle shows; nothing else changes. */
  function PressOption(b: Build, s: State, k: Slot): (r: State)
    ensures Flag(r, SlotSetting(k)) == !SlotProps(b, s, k).enabled
    ensures forall j :: j != SlotSetting(k) ==> Flag(r, j) == Flag(s, j)
    ensures r.(flashMode := s.flashMode, timerMode := s.timerMode, mirrorMode := s.mirrorMode,
               aspectRatio := s.aspectRatio, autoFocus := s.autoFocus) == s
  {
    var p := SlotProps(b, s, k);
    var call := CameraOption.Render(p).onPress[0];
    assert SettingOfSetter(call.setter) == Some(SlotSetting(k));
    ApplySetterCall(s, call)
  }

  /** A press is the flag setter of the toggle's slot, given the negation of
      what the toggle shows. */
  lemma PressIsSetFlag(b: Build, s: State, k: Slot)
    ensures PressOption(b, s, k) == SetFlag(s, SlotSetting(k), !SlotProps(b, s, k).enabled)
  {
    var p := SlotProps(b, s, k);
    assert SettingOfSetter(CameraOption.Render(p).onPress[0].setter) == Some(SlotSetting(k));
  }

  /** Setting a flag to its negation and back restores the state. */
  lemma SetFlagBack(s: State, j: Setting)
    ensures SetFlag(SetFlag(s, j, !Flag(s, j)), j, Flag(s, j)) == s
  {
    match j
    case FlashMode =>
    case TimerMode =>
    case MirrorMode =>
    case AspectRatio =>
    case AutoFocus =>
  }

  /** The four ordinary toggles, and the settings icon once corrected, flip
      their flag; two presses restore the state. */
  lemma PressTwiceRestores(b: Build, s: State, k: Slot)
    requires k != SettingsSlot || b == Corrected
    ensures Flag(PressOption(b, s, k), SlotSetting(k)) == !Flag(s, SlotSetting(k))
    ensures PressOption(b, PressOption(b, s, k), k) == s
  {
    PressIsSetFlag(b, s, k);
    PressIsSetFlag(b, PressOption(b, s, k), k);
    SetFlagBack(s, SlotSetting(k));
  }

  // ---------------------------------------------------------------------------
  // Preview thumbnail

  datatype Preview = ImagePreview(uri: Option<string>) | VideoPreview(uri: Option<string>)

  /** The last-capture thumbnail. As written the test is
      `cameraMode === cameraMode.Video`: the mode object against the number 3. */
  function PreviewOf(b: Build, s: State): (r: Preview)
    ensures r.ImagePreview? ==> r.uri == s.image
    ensures r.VideoPreview? ==> r.uri == s.recordUri
    ensures r.VideoPreview? <==> b == Corrected && s.mode == Video
  {
    var video := Member(CameraModeObject, "Video");
    var isVideo := match b
      case AsWritten => StrictEquals(CameraModeObject, video)
      case Corrected => StrictEquals(Number(ModeValue(s.mode)), video);
    if isVideo then VideoPreview(s.recordUri) else ImagePreview(s.image)
  }

  // ---------------------------------------------------------------------------
  // Mode carousel wiring

  const ModeSetterName: string := "setCurrentCameraMode"

  /** The props App passes to the carousel. As written they are named
      `currentCameraMode` and `setCurrentCameraMode`. */
  function CarouselProps(b: Build, s: State): (p: Props)
    ensures b == AsWritten ==>
      (Prop(p, "currentCameraMode") == Number(ModeValue(s.mode))
       && Prop(p, "setCurrentCameraMode") == Function(ModeSetterName)
       && Prop(p, "cameraMode") == Undefined && Prop(p, "setCameraMode") == Undefined)
    ensures b == Corrected ==>
      (Prop(p, "cameraMode") == Number(ModeValue(s.mode))
       && Prop(p, "setCameraMode") == Function(ModeSetterName))
  {
    var mode := Number(ModeValue(s.mode));
    var setter := Function(ModeSetterName);
    match b
    case AsWritten => map["currentCameraMode" := mode, "setCurrentCameraMode" := setter]
    case Corrected => map["cameraMode" := mode, "setCameraMode" := setter]
  }

  /** Whether the carousel item at `index` is drawn selected. */
  function ItemSelected(b: Build, s: State, index: int): bool {
    CarouselMenu.IsSelected(index, Prop(CarouselProps(b, s), "cameraMode"))
  }

  /** Each carousel item's index is the number the item's title stands for in
      `cameraMode`, and the item the carousel starts on is the screen's initial
      mode. */
  lemma CarouselItemsAreModes()
    ensures |CarouselMenu.Data| == 4
    ensures forall i :: 0 <= i < |CarouselMenu.Data| ==>
              Member(CameraModeObject, CarouselMenu.Data[i].title) == Number(i)
    ensures ModeOf(CarouselMenu.FirstItem) == Some(Initial.mode)
  {
    CarouselMenu.DataLayout();
  }

  /** App's response to the carousel snapping to `index` (the carousel only
      snaps to one of its items). */
  function SnapToItem(b: Build, s: State, index: int): (r: State)
    requires 0 <= index < |CarouselMenu.Data|
    ensures b == AsWritten ==> r == s
    ensures b == Corrected ==> ModeOf(index) == Some(r.mode) && r == s.(mode := r.mode)
  {
    match CarouselMenu.Snap(CarouselProps(b, s), index)
    case TypeError => s
    case Snapped(call, _) =>
      if call.fn == ModeSetterName && ModeOf(call.arg).Some? then SetCurrentCameraMode(s, ModeOf(call.arg).value)
      else s
  }

  // ---------------------------------------------------------------------------
  // Sessions: the state after a sequence of events

  /** What can happen while the camera screen is shown. */
  datatype Event =
    | CameraRef(present: bool)        // the camera view hands back its ref, or null
    | FlipPressed
    | CapturePressed(uri: string)     // `uri` is what a photo taken now resolves to
    | RecordingResolved(uri: string)  // a pending `recordAsync` resolves
    | OptionPressed(slot: Slot)
    | CarouselSnapped(index: int)

  /** The session, the number of recordings started but not yet resolved, and
      every call made on the camera object. */
  datatype Trace = Trace(s: State, pending: nat, calls: seq<CameraCall>)

  const Mounted: Trace := Trace(Initial, 0, [])

  /** One event. Only a capture press talks to the camera, appending what
      the dispatcher calls; a resolution needs a pending recording. */
  function Apply(b: Build, sc: Trace, e: Event): (r: Trace)
    ensures e.CapturePressed? ==> r.calls == sc.calls + DispatchCaptureButton(sc.s, e.uri).calls
    ensures !e.CapturePressed? ==> r.calls == sc.calls
    ensures e.RecordingResolved? && sc.pending == 0 ==> r == sc
    ensures e.RecordingResolved? && sc.pending > 0 ==> r.pending == sc.pending - 1 && r.s.recordUri == Some(e.uri)
    ensures e.FlipPressed? ==> r == sc.(s := FlipCamera(sc.s))
  {
    match e
    case CameraRef(present) => sc.(s := SetCamera(sc.s, present))
    case FlipPressed => sc.(s := FlipCamera(sc.s))
    case CapturePressed(uri) =>
      var st := DispatchCaptureButton(sc.s, uri);
      Trace(st.next, sc.pending + (if st.calls == [StartRecording] then 1 else 0), sc.calls + st.calls)
    case RecordingResolved(uri) =>
      if sc.pending > 0 then Trace(RecordResolved(sc.s, uri), sc.pending - 1, sc.calls) else sc
    case OptionPressed(k) => sc.(s := PressOption(b, sc.s, k))
    case CarouselSnapped(i) =>
      if 0 <= i < |CarouselMenu.Data| then sc.(s := SnapToItem(b, sc.s, i)) else sc
  }

  /** The events in order. Calls on the camera are only ever appended, at
      most one per event. */
  function Run(b: Build, sc: Trace, events: seq<Event>): (r: Trace)
    ensures sc.calls <= r.calls
    ensures |r.calls| <= |sc.calls| + |events|
    decreases |events|
  {
    if events == [] then sc else Run(b, Apply(b, sc, events[0]), events[1..])
  }

  // ---------------------------------------------------------------------------
  // Recording calls alternate, in every build

  /** The recording calls among `calls`, in order. */
  function RecordingCalls(calls: seq<CameraCall>): (r: seq<CameraCall>)
    ensures |r| <= |calls|
    ensures forall c :: c in r <==> c in calls && c != TakePhoto
    decreases |calls|
  {
    if calls == [] then []
    else
      var last := calls[|calls| - 1];
      RecordingCalls(calls[..|calls| - 1]) + (if last == TakePhoto then [] else [last])
  }

  lemma RecordingCallsAppend(calls: seq<CameraCall>, c: CameraCall)
    ensures RecordingCalls(calls + [c]) == RecordingCalls(calls) + (if c == TakePhoto then [] else [c])
  {
    assert (calls + [c])[..|calls|] == calls;
  }

  /** Starts and stops strictly alternate, beginning with a start. */
  ghost predicate Alternating(r: seq<CameraCall>) {
    forall i :: 0 <= i < |r| ==> r[i] == (if i % 2 == 0 then StartRecording else StopRecording)
  }

  /** What every session keeps: recording calls alternate, the session is
      recording exactly after a start that was not yet stopped, no more
      recordings are pending than were started, and a video uri is only ever
      kept after a recording was started. */
  ghost predicate RecordingInvariant(sc: Trace) {
    var r := RecordingCalls(sc.calls);
    && Alternating(r)
    && (sc.s.isRecording <==> |r| % 2 == 1)
    && sc.pending <= (|r| + 1) / 2
    && (sc.s.recordUri.Some? ==> |r| > 0)
  }

  lemma AlternatingAppend(r: seq<CameraCall>, c: CameraCall)
    requires Alternating(r)
    requires c == (if |r| % 2 == 0 then StartRecording else StopRecording)
    ensures Alternating(r + [c])
  {
  }

  /** A capture press appends at most one call, and a recording call only
      where the alternation expects it. */
  lemma RecordingInvariantCapture(sc: Trace, uri: string)
    requires RecordingInvariant(sc)
    ensures RecordingInvariant(Apply(AsWritten, sc, CapturePressed(uri)))
  {
    var st := DispatchCaptureButton(sc.s, uri);
    var next := Apply(AsWritten, sc, CapturePressed(uri));
    assert next == Trace(st.next, sc.pending + (if st.calls == [StartRecording] then 1 else 0), sc.calls + st.calls);
    var r := RecordingCalls(sc.calls);
    if sc.s.mode == Video && sc.s.camera && !sc.s.isRecording {
      assert st.calls == [StartRecording] && st.next.isRecording && st.next.recordUri == sc.s.recordUri;
      RecordingCallsAppend(sc.calls, StartRecording);
      AlternatingAppend(r, StartRecording);
      assert RecordingCalls(next.calls) == r + [StartRecording];
    } else if sc.s.mode == Video && sc.s.camera && sc.s.isRecording {
      assert st.calls == [StopRecording] && !st.next.isRecording && st.next.recordUri == sc.s.recordUri;
      RecordingCallsAppend(sc.calls, StopRecording);
      AlternatingAppend(r, StopRecording);
      assert RecordingCalls(next.calls) == r + [StopRecording];
    } else if sc.s.mode == Photo && sc.s.camera {
      assert st.calls == [TakePhoto] && st.next.isRecording == sc.s.isRecording && st.next.recordUri == sc.s.recordUri;
      RecordingCallsAppend(sc.calls, TakePhoto);
      assert RecordingCalls(next.calls) == r;
    } else {
      assert st == Step(sc.s, []);
      assert sc.calls + [] == sc.calls;
    }
  }

  lemma RecordingInvariantStep(b: Build, sc: Trace, e: Event)
    requires RecordingInvariant(sc)
    ensures RecordingInvariant(Apply(b, sc, e))
  {
    match e
    case CapturePressed(uri) =>
      assert Apply(b, sc, e) == Apply(AsWritten, sc, e);
      RecordingInvariantCapture(sc, uri);
    case RecordingResolved(uri) =>
    case CameraRef(_) =>
    case FlipPressed =>
    case OptionPressed(k) =>
      assert Apply(b, sc, e).s.isRecording == sc.s.isRecording;
    case CarouselSnapped(i) =>
  }

  lemma {:induction false} RecordingInvariantRun(b: Build, sc: Trace, events: seq<Event>)
    requires RecordingInvariant(sc)
    ensures RecordingInvariant(Run(b, sc, events))
    decreases |events|
  {
    if events != [] {
      RecordingInvariantStep(b, sc, events[0]);
      RecordingInvariantRun(b, Apply(b, sc, events[0]), events[1..]);
    }
  }

  /** In every session from mount, in either build: recording starts and stops
      alternate, beginning with a start; the session is recording exactly when
      the last recording call was a start; and a video uri is only kept once a
      recording was started. */
  lemma RecordingCallsAlternate(b: Build, events: seq<Event>)
    ensures var sc := Run(b, Mounted, events);
            var r := RecordingCalls(sc.calls);
            && (forall i :: 0 <= i < |r| ==> r[i] == (if i % 2 == 0 then StartRecording else StopRecording))
            && (sc.s.isRecording <==> |r| % 2 == 1)
            && (sc.s.recordUri.Some? ==> StartRecording in sc.calls)
  {
    RecordingInvariantRun(b, Mounted, events);
    var sc := Run(b, Mounted, events);
    var r := RecordingCalls(sc.calls);
    if sc.s.recordUri.Some? {
      RecordingCallIsCall(sc.calls, 0);
    }
  }

  /** Each recording call is one of the calls. */
  lemma {:induction false} RecordingCallIsCall(calls: seq<CameraCall>, i: nat)
    requires i < |RecordingCalls(calls)|
    ensures RecordingCalls(calls)[i] in calls
    decreases |calls|
  {
    var init := calls[..|calls| - 1];
    if i < |RecordingCalls(init)| {
      RecordingCallIsCall(init, i);
      assert init[..] <= calls;
    }
  }

  // ---------------------------------------------------------------------------
  // Nothing guards a mode change while recording

  /** With the carousel connected, a session can be recording in Photo mode:
      start a recording in Video mode, then snap the carousel to Photo. No stop
      is issued. */
  lemma RecordingInPhotoMode()
    ensures var sc := Run(Corrected, Mounted, [CameraRef(true), CarouselSnapped(3), CapturePressed(""), CarouselSnapped(2)]);
            sc.s.isRecording && sc.s.mode == Photo && sc.calls == [StartRecording]
  {
  }

  // ---------------------------------------------------------------------------
  // The three expressions, as written and as intended

  /** As written, the carousel reads props App never passes: no item is drawn
      selected and a snap throws before any setter call, leaving the state
      unchanged. */
  lemma AsWrittenCarouselIsDisconnected(s: State, index: int)
    requires 0 <= index < |CarouselMenu.Data|
    ensures forall i :: !ItemSelected(AsWritten, s, i)
    ensures CarouselMenu.Snap(CarouselProps(AsWritten, s), index).TypeError?
    ensures SnapToItem(AsWritten, s, index) == s
  {
  }

  /** Connected, the carousel selects exactly the item of the current mode, and
      snapping to an item switches to its mode and changes nothing else. */
  lemma CorrectedCarouselFollowsMode(s: State, index: int)
    requires 0 <= index < |CarouselMenu.Data|
    ensures forall i :: ItemSelected(Corrected, s, i) <==> i == ModeValue(s.mode)
    ensures var r := SnapToItem(Corrected, s, index);
            ModeOf(index) == Some(r.mode) && r == s.(mode := r.mode)
            && (forall i :: ItemSelected(Corrected, r, i) <==> i == index)
  {
  }

  /** As written, pressing the settings icon always sets the flash on. */
  lemma AsWrittenSettingsAlwaysSetsFlash(s: State)
    ensures !SlotProps(AsWritten, s, SettingsSlot).enabled
    ensures CameraOption.Render(SlotProps(AsWritten, s, SettingsSlot)).color == "white"
    ensures PressOption(AsWritten, s, SettingsSlot) == s.(flashMode := true)
  {
  }

  /** Corrected, the settings icon shows the flash flag and flips it, like the
      flash toggle. */
  lemma CorrectedSettingsTogglesFlash(s: State)
    ensures CameraOption.Render(SlotProps(Corrected, s, SettingsSlot)).color
         == CameraOption.Render(SlotProps(Corrected, s, FlashSlot)).color
    ensures PressOption(Corrected, s, SettingsSlot) == s.(flashMode := !s.flashMode)
  {
  }

  /** As written, the thumbnail always shows the last photo, in every mode. */
  lemma AsWrittenPreviewShowsImage(s: State)
    ensures PreviewOf(AsWritten, s) == ImagePreview(s.image)
  {
  }

  /** Corrected, the thumbnail shows the last video in Video mode and the last
      photo otherwise. */
  lemma CorrectedPreviewFollowsMode(s: State)
    ensures s.mode == Video ==> PreviewOf(Corrected, s) == VideoPreview(s.recordUri)
    ensures s.mode != Video ==> PreviewOf(Corrected, s) == ImagePreview(s.image)
  {
  }

  /** The invariant of every as-written session: the carousel can never change
      the mode, so the session stays in Photo mode, never records, and only
      ever takes photos. */
  ghost predicate PhotoOnly(sc: Trace) {
    && sc.s.mode == Photo
    && !sc.s.isRecording
    && sc.pending == 0
    && sc.s.recordUri == None
    && forall i :: 0 <= i < |sc.calls| ==> sc.calls[i] == TakePhoto
  }

  lemma PhotoOnlyStep(sc: Trace, e: Event)
    requires PhotoOnly(sc)
    ensures PhotoOnly(Apply(AsWritten, sc, e))
  {
    if e.CarouselSnapped? && 0 <= e.index < |CarouselMenu.Data| {
      AsWrittenCarouselIsDisconnected(sc.s, e.index);
    }
  }

  lemma {:induction false} PhotoOnlyRun(sc: Trace, events: seq<Event>)
    requires PhotoOnly(sc)
    ensures PhotoOnly(Run(AsWritten, sc, events))
    decreases |events|
  {
    if events != [] {
      PhotoOnlyStep(sc, events[0]);
      PhotoOnlyRun(Apply(AsWritten, sc, events[0]), events[1..]);
    }
  }

  /** As written, every session from mount stays in Photo mode, never records
      and only ever takes photos, whatever the user does. */
  lemma AsWrittenStaysInPhoto(events: seq<Event>)
    ensures var sc := Run(AsWritten, Mounted, events);
            && sc.s.mode == Photo && !sc.s.isRecording && sc.s.recordUri == None
            && (forall i :: 0 <= i < |sc.calls| ==> sc.calls[i] == TakePhoto)
  {
    PhotoOnlyRun(Mounted, events);
  }
}
