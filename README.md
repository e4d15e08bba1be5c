# Video capture controller of YPImagePicker, in Dafny

This project models the state machine inside `YPVideoCaptureVC`, the controller of the
picker's video screen. The controller owns one `ViewState` record: whether it is recording,
the flash mode, the recording progress and the elapsed time. It changes that record only
through `updateState`, which applies a mutation block and then projects the record onto the
camera view: flash icon, enabled and hidden flags, record-button icon, progress bar and
elapsed label. User taps reach the capture helper (`YPVideoCaptureHelper`) as commands. The
record tap is gated by a camera check and then a microphone check. The helper's callbacks
(progress ticks, capture completion, camera ready, flip completion) are folded back into
the record.

Modules:

- `Flash` (flash.dfy): `FlashMode`, the device's `TorchMode` and `FlashModeFrom`.
- `Surface` (surface.dfy): `ViewState`, the button images and the pure projection `Project`.
- `Permissions` (permissions.dfy): the camera-then-microphone chain.
- `CaptureAdapter` (capture_adapter.dfy): the helper as an abstract class. It holds the
  helper's hardware readings (`isRecording`, `hasTorch`, `torchMode`) and a log of every
  command the controller has issued.
- `CaptureMachine` (capture_machine.dfy): the whole observable state as one value. It has
  one `Step` per entry point or callback, `Run` over a sequence of events, and the lemmas
  about such sequences.
- `VideoCapture` (video_capture_vc.dfy): the controller as a class. It has the
  `viewState` field and the view properties that the projection assigns. Each entry point
  is a method. The method's contract states its effect and ties the new state to `Step`:
  `Model() == Step(old(Model()), e)`.

Inputs from outside the controller are parameters:

- the permission answers;
- the torch mode the device reports after a toggle;
- hardware-side changes, through `CaptureHelper.Report`;
- the file reference of a finished capture.

The process-wide idle-timer flag (`UIApplication.shared.isIdleTimerDisabled`) is the field
`idleTimerDisabled` of the controller. A new controller receives the value the flag already
holds, because creating the controller does not write it. Progress and elapsed time are `real`s. The controller
only copies them and resets them to zero, and the model does the same.

Behaviour one might expect that the code does not have:

- A capture completion does not re-enable the idle timer. `CompletionLeavesIdleTimerDisabled`
  shows the timer still disabled after recording that the helper ended on its own.
- There is no separate stop entry point. A granted record tap stops or starts according to
  the helper's `isRecording`, never according to `viewState` (`GrantedTapFollowsHelper`,
  `DoubleTapStartsTwice`).
- Flip and flash taps are not refused while recording. Only the disabled buttons keep
  them away.
- `progress` is not clamped to [0, 1], and `timeElapsed` is copied without any sign check.
- A stop tap does not clear progress or elapsed time: `stopRecording` (135-145) clears only
  `isRecording`. Until the capture completes, the view shows the last tick's bar and label
  while not recording. Ticks are never checked against the recording flag, so a tick that
  arrives after the stop is still written. Progress and elapsed time can therefore be
  non-zero while not recording (`StopKeepsProgress`, `StopKeepsProgressTrace`).
- `flashMode == NoFlash` does not mean that the torch is absent. An unrecognised torch mode
  also gives `NoFlash`, and so does the initial state before the first refresh.
- A missing torch does not imply `NoFlash` either. The flash mode is re-derived only by a
  refresh, a flash tap, a flip completion or a capture completion. Between a hardware-side
  torch change and the next of these, the flash button shows the old mode. For example,
  between a lens switch that loses the torch and the flip's completion (89-96), it still
  shows `Off` (`StaleFlashAfterLensChange`). What does hold is narrower. A run that starts
  without a torch and in `NoFlash`, and in which the hardware never reports a torch, keeps
  `NoFlash` and the flash button hidden (`NoTorchKeepsFlashHidden`).

## Model

| member | source | states |
|---|---|---|
| `Flash.FlashModeFrom` | Source/Pages/Video/YPVideoCaptureVC.swift:228-241 | no torch gives `NoFlash`; with a torch, off/on/auto map to the same-named flash mode, each in both directions, and an unknown torch mode gives `NoFlash` |
| `Surface.FlashImage` | Source/Pages/Video/YPVideoCaptureVC.swift:198-205 | the flash image is empty exactly for `NoFlash`, is never a record-button image, and reads back as the flash mode it was chosen for |
| `Surface.Project` | Source/Pages/Video/YPVideoCaptureVC.swift:206-213 | flash and flip enabled iff not recording, flash hidden iff `NoFlash`, record icon is the "on" variant iff recording, flash icon shows the flash mode, bar and label get progress and elapsed time unchanged |
| `Permissions.PermissionChain` | Source/Pages/Video/YPVideoCaptureVC.swift:111-117 | the action runs iff camera and microphone are both granted; camera is asked first; the microphone is asked iff the camera was granted; no check is asked twice |
| `CaptureMachine.Step` | Source/Pages/Video/YPVideoCaptureVC.swift:56-174 | every modelled entry point or callback (all but `focusTapped`, which is left out) only appends to the helper's command log (at most one command) and to the deliveries |
| `CaptureMachine.Run` | Source/Pages/Video/YPVideoCaptureVC.swift:56-174 | over any sequence of events, commands and deliveries only grow, by at most one command per event |
| `CaptureMachine.NoTorchKeepsFlashHidden` | Source/Pages/Video/YPVideoCaptureVC.swift:228-241 | while the hardware never reports a torch, the flash mode stays `NoFlash` and the projected flash button stays hidden (the camera view shows it from the first state update on), whatever taps and callbacks occur |
| `CaptureMachine.NoRecordingCommandKeepsInitial` | Source/Pages/Video/YPVideoCaptureVC.swift:123-145 | a command log with no recording command leaves the idle-timer reading at its starting value |
| `CaptureMachine.StepKeepsIdleTimerInvariant` | Source/Pages/Video/YPVideoCaptureVC.swift:123-145 | no single step breaks "idle timer disabled iff the last recording command was a start, or as it started if there is none" |
| `CaptureMachine.IdleTimerFollowsRecordingCommands` | Source/Pages/Video/YPVideoCaptureVC.swift:123-145 | over any sequence of events, the idle timer is disabled iff the last recording command issued was a start, and keeps its starting value while there is none |
| `CaptureMachine.InitKeepsIdleTimerInvariant` | Source/Pages/Video/YPVideoCaptureVC.swift:22-35 | for a controller created while the process-wide flag holds any value f: after any events, the flag is f while no recording command has been issued, and otherwise is set iff the last one was a start |
| `CaptureMachine.DeniedTapsChangeNothing` | Source/Pages/Video/YPVideoCaptureVC.swift:111-117 | any number of record taps refused by a permission check leave the view state, idle timer, helper and deliveries unchanged |
| `CaptureMachine.GrantedTapFollowsHelper` | Source/Pages/Video/YPVideoCaptureVC.swift:119-145 | a granted tap issues `stopRecording` if the helper records and `startRecording` otherwise; the view's recording flag and the idle timer follow that choice; the hardware readings are untouched |
| `CaptureMachine.DoubleTapStartsTwice` | Source/Pages/Video/YPVideoCaptureVC.swift:119-133 | two granted taps before the hardware reports recording issue two `startRecording` commands (a consequence of the helper abstraction, in which commands never change the helper's recording flag) |
| `CaptureMachine.CompletionResets` | Source/Pages/Video/YPVideoCaptureVC.swift:25-28 | completion forwards the file before the reset (the delivery record keeps the pre-reset view state to show the order; the handler receives only the file reference), zeroes progress and elapsed time whatever they were, re-reads recording and flash mode from the helper, and leaves the idle timer and commands alone |
| `CaptureMachine.CompletionLeavesIdleTimerDisabled` | Source/Pages/Video/YPVideoCaptureVC.swift:219-226 | start, then a hardware-side end, then completion: the view is reset and no longer recording, but the idle timer is still disabled |
| `CaptureMachine.StopKeepsProgress` | Source/Pages/Video/YPVideoCaptureVC.swift:135-145 | a granted tap while the helper records issues `stopRecording` and clears `isRecording` but keeps progress and elapsed time; a later tick is still written to the non-recording view |
| `CaptureMachine.StopKeepsProgressTrace` | Source/Pages/Video/YPVideoCaptureVC.swift:135-145 | start, hardware reports recording, tick (0.5, 15), stop: not recording, progress 0.5, elapsed 15, commands `[startRecording, stopRecording]` |
| `CaptureMachine.StaleFlashAfterLensChange` | Source/Pages/Video/YPVideoCaptureVC.swift:89-96 | after a flip command and a lens change that loses the torch, the flash button still shows `Off` until the flip completes, which then gives `NoFlash` |
| `CaptureAdapter.CaptureHelper.constructor` | Source/Pages/Video/YPVideoCaptureVC.swift:14 | a new helper is not recording, has the given torch and has received no command |
| `CaptureAdapter.CaptureHelper.Start` | Source/Pages/Video/YPVideoCaptureVC.swift:57-58 | logs `start` with the recording time limit |
| `CaptureAdapter.CaptureHelper.StartRecording` | Source/Pages/Video/YPVideoCaptureVC.swift:129 | logs `startRecording` |
| `CaptureAdapter.CaptureHelper.StopRecording` | Source/Pages/Video/YPVideoCaptureVC.swift:141 | logs `stopRecording` |
| `CaptureAdapter.CaptureHelper.ToggleTorch` | Source/Pages/Video/YPVideoCaptureVC.swift:102 | logs one torch toggle; the torch is then in the mode the device reports |
| `CaptureAdapter.CaptureHelper.FlipCamera` | Source/Pages/Video/YPVideoCaptureVC.swift:91 | logs `flipCamera` |
| `CaptureAdapter.CaptureHelper.Zoom` | Source/Pages/Video/YPVideoCaptureVC.swift:173 | logs `zoom` with `began` and `scale` as given |
| `CaptureAdapter.CaptureHelper.StopCamera` | Source/Pages/Video/YPVideoCaptureVC.swift:148 | logs `stopCamera` |
| `CaptureAdapter.CaptureHelper.Report` | Source/Pages/Video/YPVideoCaptureVC.swift:229-230 | the hardware readings become the reported ones |
| `VideoCapture.VideoCaptureVC.constructor` | Source/Pages/Video/YPVideoCaptureVC.swift:185-190 | a new controller holds `isRecording == false`, `NoFlash`, zero progress and zero elapsed time, no handler, and a fresh helper that has no commands; the idle-timer flag keeps the value it had |
| `VideoCapture.VideoCaptureVC.SetCaptureHandler` | Source/Pages/Video/YPVideoCaptureVC.swift:12 | sets or clears the client's capture handler |
| `VideoCapture.VideoCaptureVC.UpdateState` | Source/Pages/Video/YPVideoCaptureVC.swift:192-195 | the new view state is the block applied to the old one; afterwards the view shows it; the idle timer, handler and deliveries are untouched |
| `VideoCapture.VideoCaptureVC.UpdateUI` | Source/Pages/Video/YPVideoCaptureVC.swift:197-213 | assigns exactly the view properties, and they become `Project(state)` |
| `VideoCapture.VideoCaptureVC.Start` | Source/Pages/Video/YPVideoCaptureVC.swift:56-63 | issues `start` with the time limit and changes nothing else |
| `VideoCapture.VideoCaptureVC.RefreshState` | Source/Pages/Video/YPVideoCaptureVC.swift:65-71 | recording flag and flash mode are re-read from the helper; progress and elapsed time are kept; the view shows the state |
| `VideoCapture.VideoCaptureVC.FlipButtonTapped` | Source/Pages/Video/YPVideoCaptureVC.swift:89-96 | issues one `flipCamera` and leaves the view state alone |
| `VideoCapture.VideoCaptureVC.FlipCompleted` | Source/Pages/Video/YPVideoCaptureVC.swift:92-94 | only the flash mode changes, to `flashModeFrom` of the helper |
| `VideoCapture.VideoCaptureVC.FlashButtonTapped` | Source/Pages/Video/YPVideoCaptureVC.swift:100-106 | issues exactly one torch toggle, then only the flash mode changes, to `flashModeFrom` of the helper's new torch mode |
| `VideoCapture.VideoCaptureVC.ShotButtonTapped` | Source/Pages/Video/YPVideoCaptureVC.swift:110-117 | asks the permissions `PermissionChain` asks for; on any refusal, state, view and helper are unchanged; when both are granted, it toggles recording |
| `VideoCapture.VideoCaptureVC.ToggleRecording` | Source/Pages/Video/YPVideoCaptureVC.swift:119-121 | if the helper records: `stopRecording`, idle timer enabled, not recording; otherwise `startRecording`, idle timer disabled, recording |
| `VideoCapture.VideoCaptureVC.StartRecording` | Source/Pages/Video/YPVideoCaptureVC.swift:123-133 | idle timer disabled, one `startRecording` issued, `isRecording` set and nothing else in the state changed |
| `VideoCapture.VideoCaptureVC.StopRecording` | Source/Pages/Video/YPVideoCaptureVC.swift:135-145 | idle timer enabled, one `stopRecording` issued, `isRecording` cleared and nothing else in the state changed |
| `VideoCapture.VideoCaptureVC.StopCamera` | Source/Pages/Video/YPVideoCaptureVC.swift:147-149 | issues `stopCamera` only |
| `VideoCapture.VideoCaptureVC.Zoom` | Source/Pages/Video/YPVideoCaptureVC.swift:167-174 | forwards `began` (the pinch is in its first phase) and `scale` unmodified, and changes nothing else |
| `VideoCapture.VideoCaptureVC.OnRecordingProgress` | Source/Pages/Video/YPVideoCaptureVC.swift:29-34 | progress and elapsed time become the delivered values; recording flag and flash mode are unchanged |
| `VideoCapture.VideoCaptureVC.OnVideoCaptured` | Source/Pages/Video/YPVideoCaptureVC.swift:25-28 | the file reference goes to the handler (if set) before the state is reset, and the delivery record keeps the pre-reset view state to show that order; then the state is reset; the idle timer is untouched |
| `VideoCapture.VideoCaptureVC.ResetVisualState` | Source/Pages/Video/YPVideoCaptureVC.swift:219-226 | progress and elapsed time become zero; recording flag and flash mode are re-read from the helper |

## Left out

- View setup and layout (`loadView`, `viewDidLoad`, `setupButtons`, `linkButtons`, gesture-recognizer registration, the screen title): these only build UIKit views.
- VideoCapture.VideoCaptureVC.constructor: says nothing about the camera view before the first state update. The images set before then come from `setupButtons`, which is view setup.
- `focusTapped`: the tap point is normalised by floating-point division by the preview's size, with no range promise and no handling of a zero-size view. The focus indicator is only animated. Neither is modelled.
- The progress-bar animation (`UIView.animate`) and the elapsed-time text format (`YPHelper.formattedStrigFrom`). The model records the duration handed to the formatter.
- The `DispatchQueue.main.async` hops around the idle-timer writes and the ready callback. Each write is modelled as happening within its transition.
- Threads: every entry point and helper callback is assumed to run one at a time on the main thread. The progress and capture closures (25-34) do not switch threads themselves. The model therefore relies on the helper to call them on the main thread; if it did not, they could race with taps on `viewState`.
- The diagnostic log line for an unknown torch mode.
- The internals of the capture helper. Its commands are logged. `startRecording` and `stopRecording` do not change its `isRecording`; hardware-side changes arrive through `Report`.
- The permission checks themselves and the deny popup (Source/Helpers/Permissions/YPPermissionDeniedPopup.swift, which builds an alert and opens the settings URL). Each check is a boolean input.
- Source/Pages/Gallery/Album/YPAlbumView.swift: view layout only.
- The client's capture handler (`didCaptureVideo`, line 26) is a foreign closure that runs before `resetVisualState`. The model records only what it is given. The claims that completion leaves the commands and the idle timer alone (`CompletionResets`, `OnVideoCaptured`) assume that the handler does not call back into the controller, for example `stopCamera`.
- The permission checks take completion blocks that may run later (112-113). `ShotTapped` and `ShotButtonTapped` treat the tap, both checks and the toggle as one atomic step. The model therefore does not capture other events arriving between the tap and the toggle.
- `[weak self]` captures: the controller is assumed to be alive when a callback arrives.
- Swift's `Float` and `TimeInterval`: the model uses `real`, since the values are only copied or set to zero.
