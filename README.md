# Camera screen capture session, modelled in Dafny

This project models the single screen of an Expo/React Native camera app. The
screen keeps a capture session in component state:
- which camera faces the scene;
- the mode (Slow, Portrait, Photo or Video, numbered 0 to 3);
- the flash, timer, mirror, autofocus and aspect-ratio flags;
- whether a video is being recorded;
- the uri of the last photo and of the last video.

The capture button dispatches on the mode. In Photo mode it takes a picture. In
Video mode it starts or stops a recording. In Slow and Portrait mode it does
nothing. A flip button swaps the front and back camera. Four toggles in the top
menu flip flash, timer, mirror and aspect ratio; a fifth, the settings icon,
always shows off and always turns the flash on. A carousel is meant to pick the
mode, but as wired it never reaches the mode setter, so the mode stays Photo.
The camera view receives props derived from the flags.

Modules:
- `Js`: the few JavaScript semantics the screen relies on. A missing property
  or prop reads as `undefined`, and `===` between values of different types is
  false. It also holds an `Option` type.
- `CameraOption` (src/components/CameraOption.js): the stateless toggle, as pure
  functions.
- `CarouselMenu` (src/components/CarouselMenu.js): the item list, the
  highlight rule and the layout arithmetic, as pure definitions. One rendering
  of the component is a class whose `OnSnapToItem` calls the setter prop and
  reassigns the local `cameraMode`.
- `Session` (App.js): the session as a datatype. Each handler is a function
  from the current state to the next state and the calls it made on the camera
  object (take a photo, start recording, stop recording). These functions are
  the specification.
- `CameraScreen` (App.js): the same state as a class whose fields the handlers
  update in place. Each method is proved to do what its `Session` function says.
- `AppView` (App.js): what the screen derives from the state (camera props,
  capture-button colour, permission gate, top menu, preview), how the children
  are wired to it, and sessions built from sequences of events (`Run`).

`startRecord` awaits the recording between marking the session as recording and
keeping the video's uri. It is therefore two steps: `StartRecord` and
`RecordResolved`. A taken picture's uri is a parameter of `TakePicture`.

Three expressions in App.js do not do what their surroundings suggest (line 200,
lines 230-233 and line 248; see "## Findings"). They are modelled as written.
`AppView.Build` also offers a corrected reading of each, and `Run` takes either.

The code has none of the following guards, and the model follows the code:
- nothing keeps "recording implies Video mode";
- a mode change does not stop a recording first;
- flipping is allowed while recording;
- recording is not gated on the microphone permission;
- a second capture press while one is in flight is not suppressed;
- a failed start is not rolled back;
- Slow and Portrait presses do nothing;
- the last photo and the last video are kept in two separate fields;
- autofocus starts on.

## Model

| member | source | states |
|---|---|---|
| Session.InitialState | App.js:29-63 | On mount: Photo mode (number 2), back camera, flash, timer and mirror off, autofocus and 4:3 on, a 3 s timer, not recording, no camera ref, no photo or video uri |
| Session.ModeValue | App.js:42-47 | Each mode's number is below 4 and is the value under the mode's key in the `cameraMode` object |
| Session.ModeOf | App.js:42-47 | A number names a mode exactly when it is 0 to 3, and it names the mode with that number |
| Session.FlipCamera | App.js:89-95 | Flipping changes the facing, to the other camera, and changes no other field |
| Session.FlipTwice | App.js:89-95 | Flipping is an involution |
| Session.TakePicture | App.js:109-121 | With a camera: exactly one take-photo call, and `image` becomes the returned uri. Without one: nothing. Only `image` can change |
| Session.StartRecord | App.js:124-127 | With a camera and not recording: exactly one start-recording call, and the session is recording before the recording resolves. Otherwise nothing. Only `isRecording` can change |
| Session.RecordResolved | App.js:128-129 | When the recording resolves, `recordUri` becomes its uri; `isRecording` and everything else stay as they are |
| Session.StopRecord | App.js:139-144 | With a camera and while recording: exactly one stop-recording call, and the session stops recording. Otherwise nothing. Only `isRecording` can change |
| Session.DispatchCaptureButton | App.js:147-153 | With a camera: Photo mode takes one photo and sets `image`; Video mode starts if not recording and stops if recording. Slow, Portrait or no camera: no call and no change. The mode never changes; at most one call is made |
| Session.VideoRoundTrip | App.js:124-153 | In Video mode two presses issue exactly one start and then one stop. The session is recording between them. After the resolution the session equals the original one with `recordUri` set |
| Session.GuardsMakeNoOps | App.js:109-144 | Without a camera every action is a no-op; `startRecord` is a no-op while recording and `stopRecord` while not recording |
| Session.SetFlag | App.js:51-57 | A flag's setter sets that flag to its argument and changes no other field |
| Session.SetCurrentCameraMode | App.js:48 | The mode setter sets the mode and changes nothing else, whether or not the session is recording |
| Session.SetCamera | App.js:26 | The camera ref callback records whether a ref is present and changes nothing else |
| CameraScreen.Screen.constructor | App.js:19-63 | The fields start at the `useState` initial values and no camera call has been made |
| CameraScreen.Screen.FlipCamera | App.js:89-95 | The in-place handler leaves the fields as `Session.FlipCamera` says and makes no camera call |
| CameraScreen.Screen.TakePicture | App.js:109-121 | The in-place handler leaves the fields and the call log as `Session.TakePicture` says |
| CameraScreen.Screen.StartRecord | App.js:124-127 | The in-place handler leaves the fields and the call log as `Session.StartRecord` says |
| CameraScreen.Screen.RecordResolved | App.js:128-129 | The in-place continuation leaves the fields as `Session.RecordResolved` says and makes no call |
| CameraScreen.Screen.StopRecord | App.js:139-144 | The in-place handler leaves the fields and the call log as `Session.StopRecord` says |
| CameraScreen.Screen.DispatchCaptureButton | App.js:147-153 | The in-place dispatcher leaves the fields and the call log as `Session.DispatchCaptureButton` says |
| CameraScreen.Screen.SetFlag | App.js:51-57 | The in-place setter leaves the fields as `Session.SetFlag` says |
| CameraScreen.Screen.SetCurrentCameraMode | App.js:48 | The in-place mode setter leaves the fields as `Session.SetCurrentCameraMode` says |
| CameraScreen.Screen.SetCamera | App.js:210 | The in-place ref callback leaves the fields as `Session.SetCamera` says |
| CameraScreen.PhotoScenario | App.js:147-148 | After mount, a camera ref and one press in Photo mode, exactly one photo has been taken. `image` is its uri, and the mode and recording state are unchanged |
| CameraScreen.VideoScenario | App.js:124-151 | After mount, a ref, Video mode, two presses and the recording's resolution: exactly one start then one stop, not recording, `recordUri` is the video's uri |
| AppView.PermissionGate | App.js:80-86 | The "no access" view is shown exactly when the camera permission is known to be refused; a pending (`null`) answer shows the camera |
| AppView.CameraPropsOf | App.js:212-217 | The camera view gets the session's facing, ratio 4:3 iff the aspect flag is on (else 16:9), autofocus on iff the autofocus flag is on, and flash on iff the flash flag is on |
| AppView.CaptureIconColor | App.js:261 | The capture button is red iff recording, white otherwise |
| AppView.SlotProps | App.js:170-203 | Each top-menu toggle gets its icon and its flag's setter, and shows that flag. The settings icon gets the flash setter. As written it shows `false`; corrected it shows the flash flag |
| AppView.SettingsEnabled | App.js:200 | The settings icon's flag: as written, `flashMode === flashMode.on` is always false; corrected, it is the flash flag |
| AppView.TopMenu | App.js:167-205 | Five views in order: `offline-bolt`, `av-timer`, `camera-alt`, `aspect-ratio`, `settings`. The first four are yellow iff flash, timer, mirror and aspect ratio are on, white iff off, and a press sends their setter the negated flag. As written the settings icon is white and a press calls `setFlashMode(true)`. Corrected, it is yellow iff the flash is on, white iff off, and a press calls `setFlashMode` with the negated flash flag |
| AppView.PressOption | App.js:170-203 | Pressing a toggle sets the flag behind its setter to the negation of the flag shown, and changes nothing else |
| AppView.PressTwiceRestores | App.js:170-196 | The four ordinary toggles flip their own flag, and two presses restore the state |
| AppView.PreviewOf | App.js:247-252 | The thumbnail shows `image` in the Image branch and `recordUri` in the Video branch. The Video branch is taken iff the build is corrected and the mode is Video |
| AppView.CarouselProps | App.js:230-233 | As written, the carousel receives `currentCameraMode` and `setCurrentCameraMode`, so `cameraMode` and `setCameraMode` read as `undefined`. Corrected, they are the mode's number and the mode setter |
| AppView.SnapToItem | App.js:230-233 | As written, a snap leaves the state unchanged. Corrected, snapping to i sets the mode to mode i and changes nothing else |
| AppView.Apply | App.js:210-268 | One event: ref callback, flip, capture, recording resolution, toggle press or carousel snap. Only a capture press calls the camera, and it appends what the dispatcher calls. A resolution without a pending recording changes nothing; with one, it keeps the uri and leaves one fewer pending. A flip is `flipCamera` |
| AppView.Run | App.js:210-268 | Over a sequence of events, camera calls are only appended, at most one per event |
| Js.StrictEquals | src/components/CarouselMenu.js:40 | JavaScript `===` (also at App.js:200 and 248): true only for equal values, and always true for an equal non-reference value. Values of different types are never equal |
| AppView.CarouselItemsAreModes | src/components/CarouselMenu.js:15-32 | There are four carousel items. Item i's title names the mode whose number in `cameraMode` is i (App.js:42-47). The first item shown (2) is the initial mode, Photo (App.js:48) |
| AppView.RecordingCallsAlternate | App.js:124-153 | In every session from mount, in either build, recording calls alternate start, stop, start, and so on. The session is recording iff an odd number of them were made. A video uri is kept only after a start |
| AppView.RecordingInPhotoMode | App.js:124-153 | With the carousel connected, a session can be recording in Photo mode: start in Video mode, then snap to Photo. No stop is issued |
| AppView.AsWrittenCarouselIsDisconnected | App.js:230-233 | With App's prop names, no carousel item is selected. A snap throws before calling any setter, and the state is unchanged |
| AppView.CorrectedCarouselFollowsMode | App.js:230-233 | With the props the carousel reads, item i is selected iff i is the mode's number. Snapping to i switches to mode i, changes nothing else and selects only item i |
| AppView.AsWrittenSettingsAlwaysSetsFlash | App.js:197-203 | As written, the settings icon is always white and every press sets the flash on |
| AppView.CorrectedSettingsTogglesFlash | App.js:197-203 | Corrected, the settings icon has the flash toggle's tint, and a press flips the flash |
| AppView.AsWrittenPreviewShowsImage | App.js:247-252 | As written, the thumbnail shows the last photo in every mode |
| AppView.CorrectedPreviewFollowsMode | App.js:247-252 | Corrected, the thumbnail shows the last video in Video mode and the last photo otherwise |
| AppView.AsWrittenStaysInPhoto | App.js:230-233 | As written, every session from mount stays in Photo mode. It never records, never keeps a video uri, and only takes photos |
| CameraOption.Color | src/components/CameraOption.js:8 | The tint is yellow iff the flag is on, white iff it is off |
| CameraOption.OnPress | src/components/CameraOption.js:9 | A press calls the given setter exactly once, with the negated flag |
| CameraOption.Render | src/components/CameraOption.js:6-10 | The view shows the given icon, is yellow iff the flag is on and white iff it is off, and a press makes one call of the setter with the negated flag |
| CameraOption.ViewDependsOnlyOnIconAndFlag | src/components/CameraOption.js:6-10 | Two props with the same icon and flag give the same icon, tint and setter argument: the component has no state of its own |
| CameraOption.PressesFlipParity | src/components/CameraOption.js:9 | After n presses, each fed back through the parent's setter, the flag is flipped iff n is odd |
| CameraOption.TwoPressesRestore | src/components/CameraOption.js:9 | Two fed-back presses restore the flag |
| CarouselMenu.ItemWidth | src/components/CarouselMenu.js:7-12 | An item is 90 wide: the 50-wide slide plus a 20 margin on each side |
| CarouselMenu.DataLayout | src/components/CarouselMenu.js:15-66 | Exactly four items, Slow, Portrait, Photo, Video, with ids 1 to 4. The carousel starts on item 2, Photo |
| CarouselMenu.IsSelected | src/components/CarouselMenu.js:40 | An item is drawn selected iff the component's `cameraMode` is the number equal to its index |
| CarouselMenu.AtMostOneSelected | src/components/CarouselMenu.js:40 | At most one item is selected |
| CarouselMenu.UndefinedSelectsNothing | src/components/CarouselMenu.js:36-40 | A missing `cameraMode` prop selects no item |
| CarouselMenu.Snap | src/components/CarouselMenu.js:61-64 | If `setCameraMode` is a function, a snap to i calls it once with i and sets the local `cameraMode` to i. Otherwise the call throws and nothing happens |
| CarouselMenu.Menu.constructor | src/components/CarouselMenu.js:36 | The local `cameraMode` starts as the `cameraMode` prop, with no calls made |
| CarouselMenu.Menu.Selected | src/components/CarouselMenu.js:38-46 | `renderItem` selects the item whose index is the local `cameraMode` |
| CarouselMenu.Menu.OnSnapToItem | src/components/CarouselMenu.js:61-64 | A snap to i that does not throw appends one setter call with i and then selects exactly item i. A snap that throws changes nothing |

## Left out

- Permission requests (App.js:66-77) are asynchronous I/O. Only the gate that reads the camera answer, a value that may be null, true or false, is modelled. The microphone and media-library answers are never read and are not modelled.
- Saving to the media library (App.js:99-106) has its whole body commented out. The try/catch blocks around it (App.js:115-119, App.js:130-134) catch nothing observable.
- The camera library (`takePictureAsync`, `recordAsync`, `stopRecording`, the stabilisation constant) is abstract: a call is an entry in a log, and a resolution hands back an uri chosen by the caller.
- A rejected `takePictureAsync` (App.js:113) or `recordAsync` (App.js:128) is not modelled. Neither await has a catch. A rejection leaves the call made, the uri field unchanged and the rejection unhandled. `TakePicture` always sets `image` together with its call. A failed recording looks like one that never resolves: `isRecording` stays true.
- Asynchrony: every await is a separate sequential step, and `takePicture` resolves at once. Overlapping captures and re-renders between the steps are not modelled. A session allows a recording's resolution only while one is pending.
- `zoom` (App.js:56) and the preview aspect numbers 0.77 and 0.56 (App.js:212, App.js:324) are floating point. Nothing ever changes them.
- `timer` (App.js:55) is kept but never read or changed. `availablePictureSizes` (App.js:35) is never read and is left out.
- Layout and rendering: style sheets, JSX nesting, the window width, the carousel's own ref (src/components/CarouselMenu.js:50-52) and the snapping library's scrolling. The carousel is assumed to snap only to one of its four items.
- `Video` is used at App.js:249 but never imported. Taking that branch would fail at render time. The model's preview only says which branch is chosen.
- The TypeError of an as-written carousel snap escapes into the snapping library's handler. What React Native then does with the uncaught error (an error screen, or a crash) is not modelled: `Run` carries on as if the snap had been ignored.
- `Js.StrictEquals` leaves out comparisons between two objects or functions (identity). The screen makes none.

## Findings

| source | as written | input that shows it | evidently intended | confidence | as-written member | corrected member |
|---|---|---|---|---|---|---|
| App.js:230-233 | App passes `currentCameraMode` and `setCurrentCameraMode`, but the carousel reads `props.cameraMode` and calls `props.setCameraMode` (src/components/CarouselMenu.js:36, 62) | any snap, e.g. to index 3 (Video): `undefined` is called and throws; no item is highlighted; the mode stays Photo in every session | pass the mode and its setter under the names the carousel reads | high, not executed | AppView.AsWrittenStaysInPhoto | AppView.CorrectedCarouselFollowsMode |
| App.js:200 | the settings icon's flag is `flashMode === flashMode.on`, and a boolean has no `on` property | flash off: press settings, flash on; press again, still on, and the icon stays white | show the flash flag, so that the icon toggles it | medium, not executed | AppView.AsWrittenSettingsAlwaysSetsFlash | AppView.CorrectedSettingsTogglesFlash |
| App.js:248 | the preview test is `cameraMode === cameraMode.Video`, comparing the mode object with the number 3 | mode Video with a recorded uri: the thumbnail still shows `image` | compare the current mode, `currentCameraMode === cameraMode.Video` | high, not executed | AppView.AsWrittenPreviewShowsImage | AppView.CorrectedPreviewFollowsMode |
