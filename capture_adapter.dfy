/** The capture helper as the controller sees it: a few readings of the hardware and the
    commands it has been given. Its internals are not part of this model. */
module CaptureAdapter {
  import opened Flash

  /** A command the controller issues to the capture helper. */
  datatype Command =
    | Start(recordingTimeLimit: real)
    | StartRecording
    | StopRecording
    | ToggleTorch
    | FlipCamera
    | Zoom(began: bool, scale: real)
    | StopCamera

  class CaptureHelper {
    /** Whether the hardware reports that it is recording. */
    var isRecording: bool
    var hasTorch: bool
    var torchMode: TorchMode
    /** Every command received, oldest first. */
    var commands: seq<Command>

    constructor (hasTorch: bool, torchMode: TorchMode)
      ensures !isRecording && this.hasTorch == hasTorch && this.torchMode == torchMode
      ensures commands == []
    {
      isRecording := false;
      this.hasTorch := hasTorch;
      this.torchMode := torchMode;
      commands := [];
    }

    method Start(limit: real)
      modifies this`commands
      ensures commands == old(commands) + [Command.Start(limit)]
    {
      commands := commands + [Command.Start(limit)];
    }

    /** The hardware starts recording asynchronously, so `isRecording` is not changed here. */
    method StartRecording()
      modifies this`commands
      ensures commands == old(commands) + [Command.StartRecording]
    {
      commands := commands + [Command.StartRecording];
    }

    method StopRecording()
      modifies this`commands
      ensures commands == old(commands) + [Command.StopRecording]
    {
      commands := commands + [Command.StopRecording];
    }

    /** `reported` is the torch mode the device is in once the toggle is done. */
    method ToggleTorch(reported: TorchMode)
      modifies this`commands, this`torchMode
      ensures commands == old(commands) + [Command.ToggleTorch]
      ensures torchMode == reported
    {
      commands := commands + [Command.ToggleTorch];
      torchMode := reported;
    }

    method FlipCamera()
      modifies this`commands
      ensures commands == old(commands) + [Command.FlipCamera]
    {
      commands := commands + [Command.FlipCamera];
    }

    method Zoom(began: bool, scale: real)
      modifies this`commands
      ensures commands == old(commands) + [Command.Zoom(began, scale)]
    {
      commands := commands + [Command.Zoom(began, scale)];
    }

    method StopCamera()
      modifies this`commands
      ensures commands == old(commands) + [Command.StopCamera]
    {
      commands := commands + [Command.StopCamera];
    }

    /** A change on the hardware side that the controller did not cause: recording has
        begun or ended, or a lens switch changed the torch. */
    method Report(recording: bool, hasTorch: bool, torchMode: TorchMode)
      modifies this`isRecording, this`hasTorch, this`torchMode
      ensures isRecording == recording && this.hasTorch == hasTorch && this.torchMode == torchMode
    {
      isRecording := recording;
      this.hasTorch := hasTorch;
      this.torchMode := torchMode;
    }
  }
}
