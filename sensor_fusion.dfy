/**
 * The external sensor-fusion engine (`SensorFusion`), seen only from outside.
 * What it answers is world state: the hardware's replies to the setup calls
 * and the current fused readings. A ghost trace records every call made on it,
 * in order, so that callers can state what they asked of the engine and when.
 */
module SensorFusionEngine {
  /** An unsigned 8-bit value: I2C addresses and pin numbers. */
  newtype uint8 = x: int | 0 <= x < 256

  datatype SensorType = Magnetometer | Accelerometer | Thermometer | Gyroscope

  /** The engine's scalar getters, one constructor per getter. */
  datatype Getter =
    | HeadingRadians
    | RollRadians
    | PitchRadians
    | AccelXMPerSS
    | AccelYMPerSS
    | AccelZMPerSS
    | TurnRateRadPerS
    | PitchRateRadPerS
    | RollRateRadPerS
    | TemperatureK
    | MagneticFitError
    | MagneticFitErrorTrial
    | MagneticCalSolver
    | MagneticInclinationRad
    | MagneticBMag
    | MagneticBMagTrial
    | MagneticNoiseCovariance

  datatype EngineCall =
    | InitializeInputOutputSubsystem
    | InstallSensor(address: uint8, sensor: SensorType)
    | Begin(pinSda: uint8, pinScl: uint8)
    | ReadSensors
    | RunFusion
    | InjectCommand(command: string)
    | Get(getter: Getter)

  /** How the attached hardware answers the setup calls. */
  datatype Hardware = Hardware(ioReady: bool, installs: (uint8, SensorType) -> bool)

  class SensorFusion {
    const hardware: Hardware
    var readings: Getter -> real
    ghost var trace: seq<EngineCall>

    constructor (hardware: Hardware, readings: Getter -> real)
      ensures this.hardware == hardware && this.readings == readings && trace == []
    {
      this.hardware := hardware;
      this.readings := readings;
      trace := [];
    }

    method InitializeInputOutputSubsystem() returns (ok: bool)
      modifies this
      ensures ok == hardware.ioReady
      ensures trace == old(trace) + [EngineCall.InitializeInputOutputSubsystem]
    {
      ok := hardware.ioReady;
      trace := trace + [EngineCall.InitializeInputOutputSubsystem];
    }

    method InstallSensor(address: uint8, sensor: SensorType) returns (ok: bool)
      modifies this
      ensures ok == hardware.installs(address, sensor)
      ensures trace == old(trace) + [EngineCall.InstallSensor(address, sensor)]
    {
      ok := hardware.installs(address, sensor);
      trace := trace + [EngineCall.InstallSensor(address, sensor)];
    }

    method Begin(pinSda: uint8, pinScl: uint8)
      modifies this
      ensures trace == old(trace) + [EngineCall.Begin(pinSda, pinScl)]
    {
      trace := trace + [EngineCall.Begin(pinSda, pinScl)];
    }

    /** Reading the sensors and running the fusion may change every reading. */
    method ReadSensors()
      modifies this
      ensures trace == old(trace) + [EngineCall.ReadSensors]
    {
      trace := trace + [EngineCall.ReadSensors];
    }

    method RunFusion()
      modifies this
      ensures trace == old(trace) + [EngineCall.RunFusion]
    {
      trace := trace + [EngineCall.RunFusion];
    }

    /** A command ("SVMC", "ERMC", ...) may change the engine's state in any way. */
    method InjectCommand(command: string)
      modifies this
      ensures trace == old(trace) + [EngineCall.InjectCommand(command)]
    {
      trace := trace + [EngineCall.InjectCommand(command)];
    }

    /** A getter returns the current reading and changes no reading. */
    method Get(getter: Getter) returns (v: real)
      modifies this
      ensures v == readings(getter) && readings == old(readings)
      ensures trace == old(trace) + [EngineCall.Get(getter)]
    {
      v := readings(getter);
      trace := trace + [EngineCall.Get(getter)];
    }
  }
}
