/** The controller's view state and its projection onto the buttons and labels of the camera view. */
module Surface {
  import opened Flash

  /** The single record of UI-relevant capture state. `progress` and `timeElapsed` are
      only ever copied or reset to zero, so they are kept as plain reals. */
  datatype ViewState = ViewState(isRecording: bool, flashMode: FlashMode, progress: real, timeElapsed: real)

  /** The view state a freshly created controller holds. */
  const Initial: ViewState := ViewState(false, NoFlash, 0.0, 0.0)

  /** Images the controller puts on its buttons; `NoImage` is an empty image. */
  datatype Icon = NoImage | FlashOnIcon | FlashOffIcon | FlashAutoIcon | CaptureVideoImage | CaptureVideoOnImage

  /** The flash mode a flash-button image stands for (every non-flash image reads as `NoFlash`). */
  function FlashShownBy(icon: Icon): FlashMode {
    match icon
    case FlashOnIcon => On
    case FlashOffIcon => Off
    case FlashAutoIcon => Auto
    case _ => NoFlash
  }

  /** The image `updateUIWith` puts on the flash button for a flash mode. */
  function FlashImage(mode: FlashMode): (icon: Icon)
    ensures icon == NoImage <==> mode == NoFlash
    ensures icon != CaptureVideoImage && icon != CaptureVideoOnImage
    ensures FlashShownBy(icon) == mode
  {
    match mode
    case NoFlash => NoImage
    case On => FlashOnIcon
    case Off => FlashOffIcon
    case Auto => FlashAutoIcon
  }

  /** The property assignments `updateUIWith` makes. `elapsed` is the duration handed to
      the label formatter, whose text format is outside this model. */
  datatype Props = Props(
    flashIcon: Icon,
    flashEnabled: bool,
    flashHidden: bool,
    shotIcon: Icon,
    flipEnabled: bool,
    progress: real,
    elapsed: real)

  /** What the surface shows for a view state. */
  function Project(state: ViewState): (p: Props)
    ensures p.flashEnabled <==> !state.isRecording
    ensures p.flipEnabled <==> !state.isRecording
    ensures p.flashHidden <==> state.flashMode == NoFlash
    ensures p.shotIcon == CaptureVideoOnImage <==> state.isRecording
    ensures p.shotIcon == CaptureVideoImage <==> !state.isRecording
    ensures FlashShownBy(p.flashIcon) == state.flashMode
    ensures p.progress == state.progress && p.elapsed == state.timeElapsed
  {
    Props(
      FlashImage(state.flashMode),
      !state.isRecording,
      state.flashMode == NoFlash,
      if state.isRecording then CaptureVideoOnImage else CaptureVideoImage,
      !state.isRecording,
      state.progress,
      state.timeElapsed)
  }
}
