/**
 * The two value structs passed from the orientation producers to the Signal K
 * outputs. Every float of the source is a `real` payload that is only copied.
 */
module SignalKOrientation {
  /** Yaw, pitch and roll in radians, with a flag saying whether they are valid. */
  datatype Attitude = Attitude(
    isDataValid: bool,
    yaw: real,
    pitch: real,
    roll: real)

  /** Magnetic calibration diagnostics, with a flag saying whether they are valid. */
  datatype MagCal = MagCal(
    isDataValid: bool,
    magneticInclination: real,
    calFitError: real,
    calFitErrorTrial: real,
    magFieldMagnitude: real,
    magFieldMagnitudeTrial: real,
    magNoiseCovariance: real,
    magSolver: int)
}
