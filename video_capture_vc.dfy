/** The video capture screen's controller: it owns the view state, turns taps into
    permission-gated helper commands, folds the helper's callbacks back into the state and
    projects the state onto the camera view after every change. */
module VideoCapture {
  import opened Flash
  import opened Surface
  import opened Permissions
  import opened CaptureAdapter
  import opened CaptureMachine

  class VideoCaptureVC {
    const helper: CaptureHelper
    var viewState: ViewState

    // Properties of the camera view that the controller assigns.
    var flashIcon: Icon
    var flashEnabled: bool
    var flashHidden: bool
    var shotIcon: Icon
    var flipEnabled: bool
    var progressShown: real
    var elapsedShown: real

    /** The process-wide flag that keeps the screen from sleeping. */
    var idleTimerDisabled: bool
    /** Whether the client has set its capture handler. */
    var hasCaptureHandler: bool
    /** What the capture handler has been given, oldest first. */
    var delivered: seq<Delivery>

    /** What the camera view currently shows. */
    function Shown(): Props
      reads this
    {
      Props(flashIcon, flashEnabled, flashHidden, shotIcon, flipEnabled, progressShown, elapsedShown)
    }

    /** The camera view shows the view state. */
    predicate ShowsState()
      reads this
    {
      Shown() == Project(viewState)
    }

    /** The controller and its helper as one value. */
    function Model(): Machine
      reads this, helper
    {
      Machine(viewState, Hardware(helper.isRecording, helper.hasTorch, helper.torchMode),
              idleTimerDisabled, hasCaptureHandler, helper.commands, delivered)
    }

    /** A new controller with a fresh helper over a device with the given torch.
        `idleTimerDisabled` is the value the process-wide flag already holds; creating
        the controller does not change it. */
    constructor (hasTorch: bool, torchMode: TorchMode, idleTimerDisabled: bool)
      ensures fresh(helper)
      ensures !viewState.isRecording && viewState.flashMode == NoFlash
      ensures viewState.progress == 0.0 && viewState.timeElapsed == 0.0
      ensures this.idleTimerDisabled == idleTimerDisabled
      ensures Model() == Init(Hardware(false, hasTorch, torchMode), idleTimerDisabled)
    {
      helper := new CaptureHelper(hasTorch, torchMode);
      viewState := Initial;
      this.idleTimerDisabled := idleTimerDisabled;
      hasCaptureHandler := false;
      delivered := [];
    }

    method SetCaptureHandler(present: bool)
      modifies this`hasCaptureHandler
      ensures hasCaptureHandler == present
      ensures Model() == Step(old(Model()), HandlerAssigned(present))
    {
      hasCaptureHandler := present;
    }

    /** Applies `block` to the view state and re-projects it; the only way the state changes. */
    method UpdateState(block: ViewState -> ViewState)
      modifies this
      ensures viewState == block(old(viewState))
      ensures ShowsState()
      ensures idleTimerDisabled == old(idleTimerDisabled) && hasCaptureHandler == old(hasCaptureHandler)
      ensures delivered == old(delivered)
    {
      viewState := block(viewState);
      UpdateUI(viewState);
    }

    /** Assigns every view property from `state`, and nothing else. */
    method UpdateUI(state: ViewState)
      modifies this`flashIcon, this`flashEnabled, this`flashHidden, this`shotIcon,
               this`flipEnabled, this`progressShown, this`elapsedShown
      ensures Shown() == Project(state)
    {
      flashIcon := FlashImage(state.flashMode);
      flashEnabled := !state.isRecording;
      flashHidden := state.flashMode == NoFlash;
      shotIcon := if state.isRecording then CaptureVideoOnImage else CaptureVideoImage;
      flipEnabled := !state.isRecording;
      progressShown := state.progress;
      elapsedShown := state.timeElapsed;
    }

    /** Starts the camera; the helper later calls back `RefreshState`. */
    method Start(recordingTimeLimit: real)
      modifies helper
      ensures helper.commands == old(helper.commands) + [Command.Start(recordingTimeLimit)]
      ensures Model() == Step(old(Model()), CameraStarted(recordingTimeLimit))
    {
      helper.Start(recordingTimeLimit);
    }

    /** Reads the recording flag and the flash mode from the helper. */
    method RefreshState()
      modifies this
      ensures viewState == old(viewState).(isRecording := helper.isRecording,
                                           flashMode := FlashModeFrom(helper.hasTorch, helper.torchMode))
      ensures ShowsState()
      ensures Model() == Step(old(Model()), Ready)
    {
      var recording := helper.isRecording;
      var mode := FlashModeFrom(helper.hasTorch, helper.torchMode);
      UpdateState((s: ViewState) => s.(isRecording := recording, flashMode := mode));
    }

    /** Asks the helper to switch lens; the state changes only in `FlipCompleted`. */
    method FlipButtonTapped()
      modifies helper
      ensures helper.commands == old(helper.commands) + [Command.FlipCamera]
      ensures Model() == Step(old(Model()), FlipTapped)
    {
      helper.FlipCamera();
    }

    /** The flip's completion: the new lens may have a different torch. */
    method FlipCompleted()
      modifies this
      ensures viewState == old(viewState).(flashMode := FlashModeFrom(helper.hasTorch, helper.torchMode))
      ensures ShowsState()
      ensures Model() == Step(old(Model()), FlipFinished)
    {
      var mode := FlashModeFrom(helper.hasTorch, helper.torchMode);
      UpdateState((s: ViewState) => s.(flashMode := mode));
    }

    /** One torch toggle, then the flash mode is read back; `reported` is the torch mode
        the device is in afterwards. */
    method FlashButtonTapped(reported: TorchMode)
      modifies this, helper
      ensures helper.commands == old(helper.commands) + [Command.ToggleTorch]
      ensures viewState == old(viewState).(flashMode := FlashModeFrom(helper.hasTorch, reported))
      ensures ShowsState()
      ensures Model() == Step(old(Model()), FlashTapped(reported))
    {
      helper.ToggleTorch(reported);
      var mode := FlashModeFrom(helper.hasTorch, helper.torchMode);
      UpdateState((s: ViewState) => s.(flashMode := mode));
    }

    /** Camera check, then microphone check, then the recording toggle; `asked` lists the
        checks made. A refusal changes nothing. */
    method ShotButtonTapped(cameraGranted: bool, microphoneGranted: bool) returns (asked: seq<Permission>)
      modifies this, helper
      ensures asked == PermissionChain(cameraGranted, microphoneGranted).asked
      ensures !(cameraGranted && microphoneGranted) ==> Model() == old(Model()) && Shown() == old(Shown())
      ensures cameraGranted && microphoneGranted ==> ShowsState()
      ensures Model() == Step(old(Model()), ShotTapped(cameraGranted, microphoneGranted))
    {
      asked := [Camera];
      if cameraGranted {
        asked := asked + [Microphone];
        if microphoneGranted {
          ToggleRecording();
        }
      }
    }

    /** Stops if the helper reports recording, starts otherwise. */
    method ToggleRecording()
      modifies this, helper
      ensures old(helper.isRecording) ==>
        helper.commands == old(helper.commands) + [Command.StopRecording]
        && !idleTimerDisabled && !viewState.isRecording
      ensures !old(helper.isRecording) ==>
        helper.commands == old(helper.commands) + [Command.StartRecording]
        && idleTimerDisabled && viewState.isRecording
      ensures ShowsState()
      ensures Model() == CaptureMachine.ToggleRecording(old(Model()))
    {
      if helper.isRecording {
        StopRecording();
      } else {
        StartRecording();
      }
    }

    method StartRecording()
      modifies this, helper
      ensures idleTimerDisabled
      ensures helper.commands == old(helper.commands) + [Command.StartRecording]
      ensures viewState == old(viewState).(isRecording := true)
      ensures ShowsState()
      ensures Model() == BeginRecording(old(Model()))
    {
      idleTimerDisabled := true;
      helper.StartRecording();
      UpdateState((s: ViewState) => s.(isRecording := true));
    }

    method StopRecording()
      modifies this, helper
      ensures !idleTimerDisabled
      ensures helper.commands == old(helper.commands) + [Command.StopRecording]
      ensures viewState == old(viewState).(isRecording := false)
      ensures ShowsState()
      ensures Model() == EndRecording(old(Model()))
    {
      idleTimerDisabled := false;
      helper.StopRecording();
      UpdateState((s: ViewState) => s.(isRecording := false));
    }

    method StopCamera()
      modifies helper
      ensures helper.commands == old(helper.commands) + [Command.StopCamera]
      ensures Model() == Step(old(Model()), CameraStopped)
    {
      helper.StopCamera();
    }

    /** Forwards the pinch to the helper: `began` is whether the gesture is in its first
        phase, and the scale passes through unchanged. */
    method Zoom(phase: PinchPhase, scale: real)
      modifies helper
      ensures helper.commands == old(helper.commands) + [Command.Zoom(phase == Began, scale)]
      ensures Model() == Step(old(Model()), Pinched(phase, scale))
    {
      helper.Zoom(phase == Began, scale);
    }

    /** The helper's progress callback: both values are copied as delivered. */
    method OnRecordingProgress(progress: real, timeElapsed: real)
      modifies this
      ensures viewState == old(viewState).(progress := progress, timeElapsed := timeElapsed)
      ensures ShowsState()
      ensures Model() == Step(old(Model()), RecordingProgress(progress, timeElapsed))
    {
      UpdateState((s: ViewState) => s.(progress := progress, timeElapsed := timeElapsed));
    }

    /** The helper's capture callback: the file goes to the client first, and then the
        view state is reset. The delivery record keeps the state as it was at the hand-off,
        which shows the order; the client itself receives only the file reference. */
    method OnVideoCaptured(url: string)
      modifies this
      ensures delivered == old(if hasCaptureHandler then delivered + [Delivery(url, viewState)] else delivered)
      ensures viewState == ViewState(helper.isRecording, FlashModeFrom(helper.hasTorch, helper.torchMode), 0.0, 0.0)
      ensures idleTimerDisabled == old(idleTimerDisabled)
      ensures ShowsState()
      ensures Model() == Step(old(Model()), VideoCaptured(url))
    {
      if hasCaptureHandler {
        delivered := delivered + [Delivery(url, viewState)];
      }
      ResetVisualState();
    }

    /** Zeroes progress and elapsed time and re-reads recording flag and flash mode. */
    method ResetVisualState()
      modifies this
      ensures viewState == ViewState(helper.isRecording, FlashModeFrom(helper.hasTorch, helper.torchMode), 0.0, 0.0)
      ensures ShowsState()
      ensures Model() == ResetVisual(old(Model()))
    {
      var recording := helper.isRecording;
      var mode := FlashModeFrom(helper.hasTorch, helper.torchMode);
      UpdateState((s: ViewState) => s.(isRecording := recording, flashMode := mode, progress := 0.0, timeElapsed := 0.0));
    }
  }
}
