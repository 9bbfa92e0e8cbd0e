/** Vocabulary shared by the model: what the sensors report and the commands the
    program sends to the motors and to the drive base. The hardware itself is not
    modelled; every call into it becomes one of these values. */
module Ev3 {

  datatype Option<T> = None | Some(value: T)

  /** The classifications a colour sensor reports; NoColor stands for None. */
  datatype Color = NoColor | Black | Blue | Green | Yellow | Red | White | Brown

  /** A primitive issued to one of the two catapult motors. */
  datatype MotorCommand =
    | TensionStall(power: int, dutyLimit: int)  // tension motor: run until stalled, then hold
    | ReleaseStall(power: int, dutyLimit: int)  // release motor: run until stalled
    | TensionTarget(speed: int, angle: int)     // tension motor: run to an absolute angle

  /** A command issued to the drive base. */
  datatype DriveCommand = Stop | Drive(speed: int, turnRate: real)
}
