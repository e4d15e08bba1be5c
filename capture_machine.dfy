/** A value-level reference for the video capture controller: the whole observable state
    as one datatype, one `Step` per entry point or helper callback, and what holds over
    any sequence of them. The controller class is proved to move exactly as `Step` does. */
module CaptureMachine {
  import opened Flash
  import opened Surface
  import opened CaptureAdapter

  /** The capture helper's readings of the hardware. */
  datatype Hardware = Hardware(recording: bool, hasTorch: bool, torch: TorchMode)

  /** A file reference handed to the client's capture handler. The handler receives only
      `url`; `stateSeen` is kept by the model alone, to record the view state at the moment
      of the hand-off, and so that the file goes out before the reset. */
  datatype Delivery = Delivery(url: string, stateSeen: ViewState)

  /** The phase of a pinch gesture. */
  datatype PinchPhase = Possible | Began | Changed | Ended | Cancelled | Failed

  datatype Machine = Machine(
    view: ViewState,
    hw: Hardware,
    idleTimerDisabled: bool,
    handlerSet: bool,
    commands: seq<Command>,
    delivered: seq<Delivery>)

  datatype Event =
    | HandlerAssigned(present: bool)              // didCaptureVideo set or cleared
    | CameraStarted(limit: real)                  // start()
    | Ready                                       // start()'s ready callback
    | ShotTapped(cameraGranted: bool, microphoneGranted: bool)
    | FlashTapped(reported: TorchMode)            // torch mode the device reports after the toggle
    | FlipTapped
    | FlipFinished                                // flipCamera's completion
    | Pinched(phase: PinchPhase, scale: real)
    | CameraStopped
    | RecordingProgress(progress: real, elapsed: real)
    | VideoCaptured(url: string)
    | HardwareChanged(now: Hardware)              // a change on the helper's side

  /** A new controller: `idleTimerDisabled` is whatever the process-wide flag already holds,
      since creating the controller does not write it. */
  function Init(hw: Hardware, idleTimerDisabled: bool): Machine {
    Machine(Initial, hw, idleTimerDisabled, false, [], [])
  }

  function FlashModeOf(hw: Hardware): FlashMode {
    FlashModeFrom(hw.hasTorch, hw.torch)
  }

  function BeginRecording(m: Machine): Machine {
    m.(idleTimerDisabled := true,
       commands := m.commands + [Command.StartRecording],
       view := m.view.(isRecording := true))
  }

  function EndRecording(m: Machine): Machine {
    m.(idleTimerDisabled := false,
       commands := m.commands + [Command.StopRecording],
       view := m.view.(isRecording := false))
  }

  /** Branches on what the hardware reports, not on the view state. */
  function ToggleRecording(m: Machine): Machine {
    if m.hw.recording then EndRecording(m) else BeginRecording(m)
  }

  /** `refreshState`: recording flag and flash mode re-read from the helper. */
  function Refresh(m: Machine): Machine {
    m.(view := m.view.(isRecording := m.hw.recording, flashMode := FlashModeOf(m.hw)))
  }

  /** `resetVisualState`: as `Refresh`, and progress and elapsed time back to zero. */
  function ResetVisual(m: Machine): Machine {
    m.(view := ViewState(m.hw.recording, FlashModeOf(m.hw), 0.0, 0.0))
  }

  /** The helper's capture callback: forward the file, then reset. */
  function Captured(m: Machine, url: string): Machine {
    var forwarded := if m.handlerSet then m.delivered + [Delivery(url, m.view)] else m.delivered;
    ResetVisual(m.(delivered := forwarded))
  }

  /** One modelled entry point or callback (tap-to-focus is not modelled). Commands and deliveries are only ever appended, at most
      one command per step. */
  function Step(m: Machine, e: Event): (r: Machine)
    ensures m.commands <= r.commands && |r.commands| <= |m.commands| + 1
    ensures m.delivered <= r.delivered
  {
    match e
    case HandlerAssigned(present) => m.(handlerSet := present)
    case CameraStarted(limit) => m.(commands := m.commands + [Command.Start(limit)])
    case Ready => Refresh(m)
    case ShotTapped(camera, microphone) => if camera && microphone then ToggleRecording(m) else m
    case FlashTapped(reported) =>
      var hw := m.hw.(torch := reported);
      m.(hw := hw,
         commands := m.commands + [Command.ToggleTorch],
         view := m.view.(flashMode := FlashModeOf(hw)))
    case FlipTapped => m.(commands := m.commands + [Command.FlipCamera])
    case FlipFinished => m.(view := m.view.(flashMode := FlashModeOf(m.hw)))
    case Pinched(phase, scale) => m.(commands := m.commands + [Command.Zoom(phase == Began, scale)])
    case CameraStopped => m.(commands := m.commands + [Command.StopCamera])
    case RecordingProgress(progress, elapsed) =>
      m.(view := m.view.(progress := progress, timeElapsed := elapsed))
    case VideoCaptured(url) => Captured(m, url)
    case HardwareChanged(now) => m.(hw := now)
  }

  /** The machine after a sequence of events, the first one first. */
  function Run(m: Machine, events: seq<Event>): (r: Machine)
    ensures m.commands <= r.commands && |r.commands| <= |m.commands| + |events|
    ensures m.delivered <= r.delivered
    decreases |events|
  {
    if events == [] then m else Run(Step(m, events[0]), events[1..])
  }

  // ----- The torch is absent: the flash button stays hidden -----

  predicate KeepsTorchAbsent(e: Event) {
    !(e.HardwareChanged? && e.now.hasTorch)
  }

  /** While the hardware never reports a torch, the flash mode stays `NoFlash` and the
      projected flash button stays hidden, whatever else happens. (The camera view itself
      shows the projection from the first state update on.) */
  lemma {:induction false} NoTorchKeepsFlashHidden(m: Machine, events: seq<Event>)
    requires !m.hw.hasTorch && m.view.flashMode == NoFlash
    requires forall i :: 0 <= i < |events| ==> KeepsTorchAbsent(events[i])
    ensures !Run(m, events).hw.hasTorch
    ensures Run(m, events).view.flashMode == NoFlash
    ensures Project(Run(m, events).view).flashHidden
    decreases |events|
  {
    if events != [] {
      var m' := Step(m, events[0]);
      assert KeepsTorchAbsent(events[0]);
      assert !m'.hw.hasTorch && m'.view.flashMode == NoFlash;
      forall i | 0 <= i < |events[1..]| ensures KeepsTorchAbsent(events[1..][i]) {
        assert events[1..][i] == events[i + 1];
      }
      NoTorchKeepsFlashHidden(m', events[1..]);
    }
  }

  // ----- The idle timer follows the last recording command -----

  predicate IsRecordingCommand(c: Command) {
    c == Command.StartRecording || c == Command.StopRecording
  }

  /** Whether the last recording command in `cs` was a start; `initially` when `cs` has none. */
  predicate RecordingRequested(cs: seq<Command>, initially: bool)
    decreases |cs|
  {
    if cs == [] then initially
    else if cs[|cs| - 1] == Command.StartRecording then true
    else if cs[|cs| - 1] == Command.StopRecording then false
    else RecordingRequested(cs[..|cs| - 1], initially)
  }

  /** Until the first recording command, the answer is the starting value. */
  lemma {:induction false} NoRecordingCommandKeepsInitial(cs: seq<Command>, initially: bool)
    requires forall i :: 0 <= i < |cs| ==> !IsRecordingCommand(cs[i])
    ensures RecordingRequested(cs, initially) == initially
    decreases |cs|
  {
    if cs != [] {
      assert !IsRecordingCommand(cs[|cs| - 1]);
      NoRecordingCommandKeepsInitial(cs[..|cs| - 1], initially);
    }
  }

  /** The idle-timer flag agrees with the last recording command, or with `initially`, the
      value the flag held before any recording command was issued. */
  predicate IdleTimerInvariant(m: Machine, initially: bool) {
    m.idleTimerDisabled == RecordingRequested(m.commands, initially)
  }

  lemma StepKeepsIdleTimerInvariant(m: Machine, e: Event, initially: bool)
    requires IdleTimerInvariant(m, initially)
    ensures IdleTimerInvariant(Step(m, e), initially)
  {
  }

  /** From any state where it holds, the idle timer is disabled exactly when the last
      recording command sent to the helper was a start (or, before any, as it started);
      completion and every other event leave it alone. */
  lemma {:induction false} IdleTimerFollowsRecordingCommands(m: Machine, events: seq<Event>, initially: bool)
    requires IdleTimerInvariant(m, initially)
    ensures IdleTimerInvariant(Run(m, events), initially)
    decreases |events|
  {
    if events != [] {
      StepKeepsIdleTimerInvariant(m, events[0], initially);
      IdleTimerFollowsRecordingCommands(Step(m, events[0]), events[1..], initially);
    }
  }

  /** For a new controller created while the process-wide flag holds `f`: after any events,
      the flag is `f` if no recording command has been issued, and otherwise is set exactly
      when the last one was a start. */
  lemma InitKeepsIdleTimerInvariant(hw: Hardware, f: bool, events: seq<Event>)
    ensures var r := Run(Init(hw, f), events);
            r.idleTimerDisabled == RecordingRequested(r.commands, f)
    ensures var r := Run(Init(hw, f), events);
            (forall i :: 0 <= i < |r.commands| ==> !IsRecordingCommand(r.commands[i])) ==>
            r.idleTimerDisabled == f
  {
    IdleTimerFollowsRecordingCommands(Init(hw, f), events, f);
    var r := Run(Init(hw, f), events);
    if forall i :: 0 <= i < |r.commands| ==> !IsRecordingCommand(r.commands[i]) {
      NoRecordingCommandKeepsInitial(r.commands, f);
    }
  }

  // ----- Denied permissions change nothing -----

  predicate DeniedTap(e: Event) {
    e.ShotTapped? && !(e.cameraGranted && e.microphoneGranted)
  }

  /** Any number of record taps that a permission check refuses leave view state,
      idle timer and helper untouched. */
  lemma {:induction false} DeniedTapsChangeNothing(m: Machine, events: seq<Event>)
    requires forall i :: 0 <= i < |events| ==> DeniedTap(events[i])
    ensures Run(m, events) == m
    decreases |events|
  {
    if events != [] {
      assert DeniedTap(events[0]);
      forall i | 0 <= i < |events[1..]| ensures DeniedTap(events[1..][i]) {
        assert events[1..][i] == events[i + 1];
      }
      DeniedTapsChangeNothing(m, events[1..]);
    }
  }

  // ----- Recording follows the helper, not the view -----

  /** A granted tap starts or stops according to the helper's flag alone: the view's
      `isRecording` plays no part in the choice, and the view ends up agreeing with the
      command issued. */
  lemma GrantedTapFollowsHelper(m: Machine)
    ensures Step(m, ShotTapped(true, true)).commands
      == m.commands + [if m.hw.recording then Command.StopRecording else Command.StartRecording]
    ensures Step(m, ShotTapped(true, true)).view.isRecording == !m.hw.recording
    ensures Step(m, ShotTapped(true, true)).idleTimerDisabled == !m.hw.recording
    ensures Step(m, ShotTapped(true, true)).hw == m.hw
  {
  }

  /** Two granted taps before the hardware reports that recording began issue two starts.
      This follows from the helper abstraction, in which a command never changes the
      helper's `isRecording`; it is not observed behaviour of the real capture helper. */
  lemma DoubleTapStartsTwice(hw: Hardware, f: bool)
    requires !hw.recording
    ensures Run(Init(hw, f), [ShotTapped(true, true), ShotTapped(true, true)]).commands
      == [Command.StartRecording, Command.StartRecording]
  {
  }

  // ----- Completion -----

  /** A completion resets progress and elapsed time whatever they were, re-reads the
      recording flag and flash mode from the helper, and leaves idle timer and commands
      alone. The file is forwarded before the reset: the recorded `stateSeen` is the view
      state from before it. */
  lemma CompletionResets(m: Machine, url: string)
    ensures Step(m, VideoCaptured(url)).view == ViewState(m.hw.recording, FlashModeOf(m.hw), 0.0, 0.0)
    ensures Step(m, VideoCaptured(url)).delivered
      == if m.handlerSet then m.delivered + [Delivery(url, m.view)] else m.delivered
    ensures Step(m, VideoCaptured(url)).idleTimerDisabled == m.idleTimerDisabled
    ensures Step(m, VideoCaptured(url)).commands == m.commands
  {
  }

  /** Recording that ends on the helper's side (for instance at the duration limit) and is
      then reported as captured leaves the idle timer disabled. */
  lemma CompletionLeavesIdleTimerDisabled(hw: Hardware, f: bool, url: string, p: real, t: real)
    requires !hw.recording
    ensures var m := Step(Step(Step(Step(Init(hw, f), ShotTapped(true, true)),
                                    HardwareChanged(hw.(recording := true))),
                               RecordingProgress(p, t)),
                          HardwareChanged(hw));
            var done := Step(m, VideoCaptured(url));
            m.view.isRecording && m.view.progress == p
            && !done.view.isRecording && done.view.progress == 0.0 && done.view.timeElapsed == 0.0
            && done.idleTimerDisabled
  {
  }

  // ----- A hardware-side torch change is not seen until the next refresh -----

  /** A lens switch that loses the torch leaves the flash mode and the flash button as
      they were until the flip completes (or the state is refreshed): right after the flip
      command and the hardware change, there is no torch yet the flash button still shows
      `Off`. */
  lemma StaleFlashAfterLensChange(f: bool)
    ensures var hw := Hardware(false, true, TorchOff);
            var m := Step(Step(Step(Init(hw, f), Ready), FlipTapped), HardwareChanged(hw.(hasTorch := false)));
            !m.hw.hasTorch && m.view.flashMode == Off && !Project(m.view).flashHidden
            && Step(m, FlipFinished).view.flashMode == NoFlash
  {
  }

  // ----- A stop leaves progress and elapsed time in place -----

  /** A granted tap while the helper records stops recording but keeps progress and
      elapsed time, and a tick that arrives afterwards is still written, though the view
      is no longer recording: ticks are never checked against the recording flag. */
  lemma StopKeepsProgress(m: Machine, p: real, t: real)
    requires m.hw.recording
    ensures var s := Step(m, ShotTapped(true, true));
            !s.view.isRecording && s.view.progress == m.view.progress
            && s.view.timeElapsed == m.view.timeElapsed
            && s.commands == m.commands + [Command.StopRecording]
    ensures var s := Step(Step(m, ShotTapped(true, true)), RecordingProgress(p, t));
            !s.view.isRecording && s.view.progress == p && s.view.timeElapsed == t
  {
  }

  /** From a new controller: start, the hardware reports recording, one tick, stop. The
      view is not recording but still shows the tick's progress and elapsed time. */
  lemma StopKeepsProgressTrace(f: bool)
    ensures var hw := Hardware(false, true, TorchOff);
            var m := Step(Step(Step(Step(Init(hw, f), ShotTapped(true, true)),
                                    HardwareChanged(hw.(recording := true))),
                               RecordingProgress(0.5, 15.0)),
                          ShotTapped(true, true));
            !m.view.isRecording && m.view.progress == 0.5 && m.view.timeElapsed == 15.0
            && m.commands == [Command.StartRecording, Command.StopRecording]
  {
  }
}
