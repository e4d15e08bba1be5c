/** Flash state as the video screen shows it, and how it is read off the capture device. */
module Flash {

  /** The flash button's mode; `NoFlash` means the button has nothing to show. */
  datatype FlashMode = NoFlash | Off | On | Auto

  /** The torch mode the capture device reports. `TorchUnknown` stands for any case
      added to the device's enumeration that the controller's switch does not name. */
  datatype TorchMode = TorchOff | TorchOn | TorchAuto | TorchUnknown(raw: int)

  /** The controller's `flashModeFrom`: no torch means no flash; otherwise the torch
      mode of the same name, and an unrecognised torch mode degrades to `NoFlash`. */
  function FlashModeFrom(hasTorch: bool, torch: TorchMode): (mode: FlashMode)
    ensures !hasTorch ==> mode == NoFlash
    ensures mode == NoFlash <==> !hasTorch || torch.TorchUnknown?
    ensures mode == Off <==> hasTorch && torch == TorchOff
    ensures mode == On <==> hasTorch && torch == TorchOn
    ensures mode == Auto <==> hasTorch && torch == TorchAuto
  {
    if hasTorch then
      match torch
      case TorchOff => Off
      case TorchOn => On
      case TorchAuto => Auto
      case TorchUnknown(_) => NoFlash
    else
      NoFlash
  }
}
