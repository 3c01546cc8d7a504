/** The control messages of the volume and calibration protocols
    (crates/protocol/src/control.rs). Request ids are unbounded here. */
module ControlMessages {
  import opened Numbers

  datatype VolumePurpose = User | Calibration | RestoreSpeaker

  datatype CalibrationAction = Begin | Cancel | Commit(index: u16)

  datatype DeviceStatus = DeviceStatus(
    requestId: nat,
    deviceId: string,
    name: string,
    volume: u16,
    minimum: u16,
    maximum: u16,
    fixed: bool,
    speaker: bool,
    failed: bool)

  datatype ControlMessage =
    | QueryDevice(requestId: nat)
    | SetVolume(requestId: nat, index: u16, purpose: VolumePurpose)
    | CalibrationSession(requestId: nat, action: CalibrationAction)
    | CalibrationTone(requestId: nat, enabled: bool)
}
