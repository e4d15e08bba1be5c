/** The permission chain in front of the record button. */
module Permissions {

  datatype Permission = Camera | Microphone

  /** Which checks were made, in order, and whether the gated action ran. */
  datatype GateOutcome = GateOutcome(asked: seq<Permission>, proceeds: bool)

  /** Camera is checked first; the microphone is checked only once the camera is
      granted; the action runs only when both are granted. */
  function PermissionChain(cameraGranted: bool, microphoneGranted: bool): (o: GateOutcome)
    ensures o.proceeds <==> cameraGranted && microphoneGranted
    ensures |o.asked| > 0 && o.asked[0] == Camera
    ensures Microphone in o.asked <==> cameraGranted
    ensures forall i, j :: 0 <= i < j < |o.asked| ==> o.asked[i] != o.asked[j]
  {
    if !cameraGranted then GateOutcome([Camera], false)
    else GateOutcome([Camera, Microphone], microphoneGranted)
  }
}
