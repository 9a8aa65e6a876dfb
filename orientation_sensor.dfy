/**
 * The orientation adapter: `OrientationSensor`, whose constructor brings up the
 * fusion engine through a short-circuit chain of setup calls, and
 * `OrientationValues`, which reports one named quantity per call of
 * `ReportValue`, first sending a one-shot save/erase calibration command when
 * one was requested.
 */
module Orientation {
  import opened Wrappers
  import opened SensorFusionEngine

  // ---------------------------------------------------------------------------
  // Bringing up the engine
  // ---------------------------------------------------------------------------

  /** The order in which the constructor installs the sensors. */
  const InstallOrder: seq<SensorType> := [Magnetometer, Accelerometer, Thermometer, Gyroscope]

  /**
   * The setup calls of the constructor, in the order the source chains them:
   * IO init, then one install per sensor of `InstallOrder`, the gyroscope at the
   * gyroscope's address and the three others at the accelerometer/magnetometer's.
   */
  function SetupSteps(accelMagAddr: uint8, gyroAddr: uint8): (s: seq<EngineCall>)
    ensures |s| == 1 + |InstallOrder| && s[0] == EngineCall.InitializeInputOutputSubsystem
    ensures forall i :: 1 <= i < |s| ==>
      s[i].InstallSensor? && s[i].sensor == InstallOrder[i - 1] &&
      s[i].address == (if s[i].sensor == Gyroscope then gyroAddr else accelMagAddr)
  {
    [ EngineCall.InitializeInputOutputSubsystem,
      EngineCall.InstallSensor(accelMagAddr, Magnetometer),
      EngineCall.InstallSensor(accelMagAddr, Accelerometer),
      EngineCall.InstallSensor(accelMagAddr, Thermometer),
      EngineCall.InstallSensor(gyroAddr, Gyroscope) ]
  }

  /** Whether the hardware answers a setup call with success. */
  predicate Succeeds(hw: Hardware, call: EngineCall) {
    match call
    case InitializeInputOutputSubsystem => hw.ioReady
    case InstallSensor(a, s) => hw.installs(a, s)
    case _ => true
  }

  predicate AllSucceed(hw: Hardware, steps: seq<EngineCall>) {
    forall i :: 0 <= i < |steps| ==> Succeeds(hw, steps[i])
  }

  /** The calls `s0 && s1 && ...` makes: each step in turn, up to the first that fails. */
  function ShortCircuit(hw: Hardware, steps: seq<EngineCall>): (r: seq<EngineCall>)
    ensures |r| <= |steps|
    ensures steps != [] ==> r != [] && r[0] == steps[0]
  {
    if steps == [] then []
    else [steps[0]] + (if Succeeds(hw, steps[0]) then ShortCircuit(hw, steps[1..]) else [])
  }

  /** A short-circuit chain issues a prefix of its steps and stops exactly at the first failure. */
  lemma {:induction false} ShortCircuitStopsAtFirstFailure(hw: Hardware, steps: seq<EngineCall>)
    ensures var r := ShortCircuit(hw, steps);
      |r| <= |steps| && r == steps[..|r|] &&
      (forall i :: 0 <= i < |r| - 1 ==> Succeeds(hw, r[i])) &&
      (AllSucceed(hw, steps) ==> r == steps) &&
      (!AllSucceed(hw, steps) ==> r != [] && !Succeeds(hw, r[|r| - 1]))
  {
    if steps != [] {
      ShortCircuitStopsAtFirstFailure(hw, steps[1..]);
      var r := ShortCircuit(hw, steps);
      if Succeeds(hw, steps[0]) {
        var rest := ShortCircuit(hw, steps[1..]);
        assert r == [steps[0]] + rest;
        assert AllSucceed(hw, steps) <==> AllSucceed(hw, steps[1..]) by {
          if AllSucceed(hw, steps[1..]) {
            forall i | 0 <= i < |steps| ensures Succeeds(hw, steps[i]) {
              if i > 0 { assert steps[i] == steps[1..][i - 1]; }
            }
          }
          if AllSucceed(hw, steps) {
            forall i | 0 <= i < |steps[1..]| ensures Succeeds(hw, steps[1..][i]) {
              assert steps[1..][i] == steps[i + 1];
            }
          }
        }
        forall i | 0 <= i < |r| - 1 ensures Succeeds(hw, r[i]) {
          if i > 0 { assert r[i] == rest[i - 1]; }
        }
      }
    }
  }

  /** The chain of five steps written out, as the constructor's `&&` expression runs it. */
  lemma ShortCircuitFive(hw: Hardware, s0: EngineCall, s1: EngineCall, s2: EngineCall, s3: EngineCall, s4: EngineCall)
    ensures ShortCircuit(hw, [s0, s1, s2, s3, s4]) ==
      if !Succeeds(hw, s0) then [s0]
      else if !Succeeds(hw, s1) then [s0, s1]
      else if !Succeeds(hw, s2) then [s0, s1, s2]
      else if !Succeeds(hw, s3) then [s0, s1, s2, s3]
      else [s0, s1, s2, s3, s4]
  {
    assert [s4][1..] == [];
    assert ShortCircuit(hw, [s4]) == [s4];
    assert [s3, s4][1..] == [s4];
    assert ShortCircuit(hw, [s3, s4]) == if Succeeds(hw, s3) then [s3, s4] else [s3];
    assert [s2, s3, s4][1..] == [s3, s4];
    assert ShortCircuit(hw, [s2, s3, s4]) == [s2] + if Succeeds(hw, s2) then ShortCircuit(hw, [s3, s4]) else [];
    assert [s1, s2, s3, s4][1..] == [s2, s3, s4];
    assert ShortCircuit(hw, [s1, s2, s3, s4]) == [s1] + if Succeeds(hw, s1) then ShortCircuit(hw, [s2, s3, s4]) else [];
    assert [s0, s1, s2, s3, s4][1..] == [s1, s2, s3, s4];
  }

  /** The engine calls made by the `OrientationSensor` constructor; `Begin` only after full success. */
  function InitTrace(hw: Hardware, pinSda: uint8, pinScl: uint8, accelMagAddr: uint8, gyroAddr: uint8)
    : (t: seq<EngineCall>)
    ensures 1 <= |t| <= 6 && t[0] == EngineCall.InitializeInputOutputSubsystem
  {
    var steps := SetupSteps(accelMagAddr, gyroAddr);
    ShortCircuit(hw, steps) + (if AllSucceed(hw, steps) then [EngineCall.Begin(pinSda, pinScl)] else [])
  }

  /**
   * IO init comes first, the four installs follow in order, the chain stops at
   * the first failure, and `Begin` is called if and only if every step succeeded.
   */
  lemma InitSequence(hw: Hardware, pinSda: uint8, pinScl: uint8, accelMagAddr: uint8, gyroAddr: uint8)
    ensures var steps := SetupSteps(accelMagAddr, gyroAddr);
      var t := InitTrace(hw, pinSda, pinScl, accelMagAddr, gyroAddr);
      1 <= |t| <= 6 && t == (steps + [EngineCall.Begin(pinSda, pinScl)])[..|t|] &&
      (forall i :: 0 <= i < |t| - 1 ==> Succeeds(hw, t[i])) &&
      (!AllSucceed(hw, steps) ==> !Succeeds(hw, t[|t| - 1])) &&
      (EngineCall.Begin(pinSda, pinScl) in t <==> AllSucceed(hw, steps))
  {
    var steps := SetupSteps(accelMagAddr, gyroAddr);
    var full := steps + [EngineCall.Begin(pinSda, pinScl)];
    var r := ShortCircuit(hw, steps);
    var t := InitTrace(hw, pinSda, pinScl, accelMagAddr, gyroAddr);
    ShortCircuitStopsAtFirstFailure(hw, steps);
    assert steps != [];
    if AllSucceed(hw, steps) {
      assert t == full;
    } else {
      assert t == r;
      assert t == full[..|t|] by {
        forall i | 0 <= i < |t| ensures t[i] == full[i] {
          assert t[i] == steps[..|r|][i];
        }
      }
      assert EngineCall.Begin(pinSda, pinScl) !in t by {
        forall i | 0 <= i < |t| ensures t[i] != EngineCall.Begin(pinSda, pinScl) {
          assert t[i] == steps[i];
        }
      }
    }
  }

  /** The constructor's `success` is the conjunction of the five setup results. */
  lemma SetupSucceedsIff(hw: Hardware, accelMagAddr: uint8, gyroAddr: uint8)
    ensures AllSucceed(hw, SetupSteps(accelMagAddr, gyroAddr)) <==>
      hw.ioReady && hw.installs(accelMagAddr, Magnetometer) &&
      hw.installs(accelMagAddr, Accelerometer) && hw.installs(accelMagAddr, Thermometer) &&
      hw.installs(gyroAddr, Gyroscope)
  {
    var steps := SetupSteps(accelMagAddr, gyroAddr);
    if hw.ioReady && hw.installs(accelMagAddr, Magnetometer) &&
       hw.installs(accelMagAddr, Accelerometer) && hw.installs(accelMagAddr, Thermometer) &&
       hw.installs(gyroAddr, Gyroscope)
    {
      forall i | 0 <= i < |steps| ensures Succeeds(hw, steps[i]) { }
    } else {
      assert !(Succeeds(hw, steps[0]) && Succeeds(hw, steps[1]) && Succeeds(hw, steps[2]) &&
               Succeeds(hw, steps[3]) && Succeeds(hw, steps[4]));
    }
  }

  class OrientationSensor {
    const sensorInterface: SensorFusion

    /** Creates the engine, runs the setup chain, and begins fusion only if it all succeeded. */
    constructor (pinSda: uint8, pinScl: uint8, accelMagAddr: uint8, gyroAddr: uint8,
                 hardware: Hardware, readings: Getter -> real)
      ensures fresh(sensorInterface) && sensorInterface.hardware == hardware
      ensures sensorInterface.trace == InitTrace(hardware, pinSda, pinScl, accelMagAddr, gyroAddr)
    {
      var engine := new SensorFusion(hardware, readings);
      ghost var steps := SetupSteps(accelMagAddr, gyroAddr);
      var success := engine.InitializeInputOutputSubsystem();
      if success {
        success := engine.InstallSensor(accelMagAddr, Magnetometer);
      }
      if success {
        success := engine.InstallSensor(accelMagAddr, Accelerometer);
      }
      if success {
        success := engine.InstallSensor(accelMagAddr, Thermometer);
      }
      if success {
        success := engine.InstallSensor(gyroAddr, Gyroscope);
      }
      SetupSucceedsIff(hardware, accelMagAddr, gyroAddr);
      ShortCircuitFive(hardware, steps[0], steps[1], steps[2], steps[3], steps[4]);
      assert steps == [steps[0], steps[1], steps[2], steps[3], steps[4]];
      if success {
        engine.Begin(pinSda, pinScl);
      }
      sensorInterface := engine;
    }

    /** One fusion step: read the sensors, then run the fusion algorithm. */
    method ReadAndProcessSensors()
      modifies sensorInterface
      ensures sensorInterface.trace ==
        old(sensorInterface.trace) + [EngineCall.ReadSensors, EngineCall.RunFusion]
    {
      sensorInterface.ReadSensors();
      sensorInterface.RunFusion();
    }
  }

  // ---------------------------------------------------------------------------
  // Reporting one orientation quantity
  // ---------------------------------------------------------------------------

  /** A signed 8-bit value: the calibration-command flag. */
  newtype int8 = x: int | -128 <= x < 128

  datatype OrientationValType =
    | CompassHeading
    | Yaw
    | Pitch
    | Roll
    | Attitude
    | AccelerationX
    | AccelerationY
    | AccelerationZ
    | RateOfTurn
    | RateOfPitch
    | RateOfRoll
    | Temperature
    | MagCalFitInUse
    | MagCalFitTrial
    | MagCalAlgorithmSolver
    | MagInclination
    | MagFieldMagnitude
    | MagFieldMagnitudeTrial
    | MagNoiseCovariance

  /** The engine getter `ReportValue` consults for a type; none for the attitude triple. */
  function GetterFor(t: OrientationValType): (r: Option<Getter>)
    ensures r == None <==> t == Attitude
    ensures r == Some(HeadingRadians) <==> t == CompassHeading || t == Yaw
  {
    match t
    case CompassHeading | Yaw => Some(HeadingRadians)
    case Roll => Some(RollRadians)
    case Pitch => Some(PitchRadians)
    case AccelerationX => Some(AccelXMPerSS)
    case AccelerationY => Some(AccelYMPerSS)
    case AccelerationZ => Some(AccelZMPerSS)
    case RateOfTurn => Some(TurnRateRadPerS)
    case RateOfPitch => Some(PitchRateRadPerS)
    case RateOfRoll => Some(RollRateRadPerS)
    case Temperature => Some(TemperatureK)
    case MagCalFitInUse => Some(MagneticFitError)
    case MagCalFitTrial => Some(MagneticFitErrorTrial)
    case MagCalAlgorithmSolver => Some(MagneticCalSolver)
    case MagInclination => Some(MagneticInclinationRad)
    case MagFieldMagnitude => Some(MagneticBMag)
    case MagFieldMagnitudeTrial => Some(MagneticBMagTrial)
    case MagNoiseCovariance => Some(MagneticNoiseCovariance)
    case Attitude => None
  }

  /** The same table read the other way: which types report a getter's value. */
  function TypesReporting(g: Getter): set<OrientationValType> {
    match g
    case HeadingRadians => {CompassHeading, Yaw}
    case RollRadians => {Roll}
    case PitchRadians => {Pitch}
    case AccelXMPerSS => {AccelerationX}
    case AccelYMPerSS => {AccelerationY}
    case AccelZMPerSS => {AccelerationZ}
    case TurnRateRadPerS => {RateOfTurn}
    case PitchRateRadPerS => {RateOfPitch}
    case RollRateRadPerS => {RateOfRoll}
    case TemperatureK => {Temperature}
    case MagneticFitError => {MagCalFitInUse}
    case MagneticFitErrorTrial => {MagCalFitTrial}
    case MagneticCalSolver => {MagCalAlgorithmSolver}
    case MagneticInclinationRad => {MagInclination}
    case MagneticBMag => {MagFieldMagnitude}
    case MagneticBMagTrial => {MagFieldMagnitudeTrial}
    case MagneticNoiseCovariance => {MagNoiseCovariance}
  }

  /** Heading and yaw share the heading getter; every other getter serves one type; attitude none. */
  lemma DispatchTable(t: OrientationValType, g: Getter)
    ensures GetterFor(t) == Some(g) <==> t in TypesReporting(g)
    ensures GetterFor(t) == None <==> t == Attitude
  {
  }

  /** The types that bump the log-throttle counter. */
  predicate IsHeading(t: OrientationValType) {
    t == CompassHeading || t == Yaw
  }

  /** The command a pending flag sends: 1 saves the calibration, -1 erases it. */
  function CommandFor(flag: int8): (r: Option<string>)
    ensures r == Some("SVMC") <==> flag == 1
    ensures r == Some("ERMC") <==> flag == -1
    ensures r.Some? <==> flag == 1 || flag == -1
  {
    if flag == 1 then Some("SVMC")
    else if flag == -1 then Some("ERMC")
    else None
  }

  /** The engine calls one `ReportValue` makes: the pending command, if any, then the getter. */
  function ReportCalls(flag: int8, t: OrientationValType): (calls: seq<EngineCall>)
    ensures |calls| == (if CommandFor(flag).Some? then 1 else 0) + (if GetterFor(t).Some? then 1 else 0)
    ensures forall c :: c in calls ==> c.InjectCommand? || c.Get?
  {
    (match CommandFor(flag)
     case Some(c) => [EngineCall.InjectCommand(c)]
     case None => []) +
    (match GetterFor(t)
     case Some(g) => [EngineCall.Get(g)]
     case None => [])
  }

  /**
   * "SVMC" is sent exactly when the flag is 1, "ERMC" exactly when it is -1,
   * at most one command is sent, and it precedes the fetch of the value.
   */
  lemma ReportCallsOrder(flag: int8, t: OrientationValType)
    ensures var calls := ReportCalls(flag, t);
      (EngineCall.InjectCommand("SVMC") in calls <==> flag == 1) &&
      (EngineCall.InjectCommand("ERMC") in calls <==> flag == -1) &&
      (forall i :: 0 <= i < |calls| && calls[i].InjectCommand? ==> i == 0) &&
      (forall i :: 0 <= i < |calls| && calls[i].Get? ==> i == |calls| - 1) &&
      (exists i :: 0 <= i < |calls| && calls[i].InjectCommand?) == (flag == 1 || flag == -1)
  {
  }

  /** The value `ReportValue` returns for a type, given the engine's readings. */
  function ReportedValue(t: OrientationValType, readings: Getter -> real): (v: real)
    ensures t == Attitude ==> v == 0.0
    ensures t == CompassHeading || t == Yaw ==> v == readings(HeadingRadians)
  {
    match GetterFor(t)
    case Some(g) => readings(g)
    case None => 0.0
  }

  lemma ReportedValueTable(t: OrientationValType, readings: Getter -> real)
    ensures IsHeading(t) ==> ReportedValue(t, readings) == readings(HeadingRadians)
    ensures t == Attitude ==> ReportedValue(t, readings) == 0.0
    ensures forall g :: t in TypesReporting(g) ==> ReportedValue(t, readings) == readings(g)
  {
  }

  /** How many heading log lines a throttle count of `n` has produced: one per multiple of 50. */
  function LinesLogged(n: nat): nat {
    if n == 0 then 0 else LinesLogged(n - 1) + (if n % 50 == 0 then 1 else 0)
  }

  /** The log line fires once every 50 heading reports. */
  lemma {:induction false} LinesLoggedEveryFifty(n: nat)
    ensures LinesLogged(n) == n / 50
  {
    if n > 0 {
      LinesLoggedEveryFifty(n - 1);
      var q, r := (n - 1) / 50, (n - 1) % 50;
      assert n - 1 == 50 * q + r;
      if r == 49 {
        assert n == 50 * (q + 1);
      } else {
        assert n == 50 * q + (r + 1) && r + 1 < 50;
      }
    }
  }

  class OrientationValues {
    const orientationSensor: OrientationSensor
    const valueType: OrientationValType
    /** 1 asks for the calibration to be saved, -1 for it to be erased, 0 for nothing. */
    var saveMagCal: int8
    var throttlePrint: nat
    /** The heading values written to the log, in order. */
    ghost var logged: seq<real>

    ghost predicate Valid()
      reads this
    {
      |logged| == LinesLogged(throttlePrint)
    }

    constructor (orientationSensor: OrientationSensor, valType: OrientationValType)
      ensures this.orientationSensor == orientationSensor && valueType == valType
      ensures throttlePrint == 0 && saveMagCal == 0 && logged == []
      ensures Valid()
    {
      this.orientationSensor := orientationSensor;
      valueType := valType;
      throttlePrint := 0;
      saveMagCal := 0;
      logged := [];
    }

    /** Every 50th heading report writes one log line. */
    lemma LoggedEveryFifty()
      requires Valid()
      ensures |logged| == throttlePrint / 50
    {
      LinesLoggedEveryFifty(throttlePrint);
    }

    method ReportValue() returns (output: real)
      requires Valid()
      modifies this, orientationSensor.sensorInterface
      ensures Valid()
      ensures saveMagCal == 0
      ensures CommandFor(old(saveMagCal)) == None ==>
        orientationSensor.sensorInterface.readings == old(orientationSensor.sensorInterface.readings)
      ensures orientationSensor.sensorInterface.trace ==
        old(orientationSensor.sensorInterface.trace) + ReportCalls(old(saveMagCal), valueType)
      ensures output == ReportedValue(valueType, orientationSensor.sensorInterface.readings)
      ensures throttlePrint == old(throttlePrint) + (if IsHeading(valueType) then 1 else 0)
      ensures logged == old(logged) +
        (if IsHeading(valueType) && throttlePrint % 50 == 0 then [output] else [])
    {
      var engine := orientationSensor.sensorInterface;
      if saveMagCal == 1 {
        engine.InjectCommand("SVMC");
      } else if saveMagCal == -1 {
        engine.InjectCommand("ERMC");
      }
      saveMagCal := 0;
      output := FetchValue();
    }

    /** The switch over the value type: one getter, and the heading log throttle. */
    method FetchValue() returns (output: real)
      requires Valid()
      modifies this`throttlePrint, this`logged, orientationSensor.sensorInterface
      ensures orientationSensor.sensorInterface.readings == old(orientationSensor.sensorInterface.readings)
      ensures Valid()
      ensures orientationSensor.sensorInterface.trace ==
        old(orientationSensor.sensorInterface.trace) +
        (match GetterFor(valueType) case Some(g) => [EngineCall.Get(g)] case None => [])
      ensures output == ReportedValue(valueType, orientationSensor.sensorInterface.readings)
      ensures throttlePrint == old(throttlePrint) + (if IsHeading(valueType) then 1 else 0)
      ensures logged == old(logged) +
        (if IsHeading(valueType) && throttlePrint % 50 == 0 then [output] else [])
    {
      var engine := orientationSensor.sensorInterface;
      output := 0.0;
      match valueType {
        case CompassHeading | Yaw =>
          output := engine.Get(HeadingRadians);
          throttlePrint := throttlePrint + 1;
          if throttlePrint % 50 == 0 {
            logged := logged + [output];
          }
        case _ => output := ReadGetter();
      }
    }

    /** The remaining cases of the switch, which read one getter and touch nothing else. */
    method ReadGetter() returns (output: real)
      requires !IsHeading(valueType)
      modifies orientationSensor.sensorInterface
      ensures orientationSensor.sensorInterface.readings == old(orientationSensor.sensorInterface.readings)
      ensures orientationSensor.sensorInterface.trace ==
        old(orientationSensor.sensorInterface.trace) +
        (match GetterFor(valueType) case Some(g) => [EngineCall.Get(g)] case None => [])
      ensures output == ReportedValue(valueType, orientationSensor.sensorInterface.readings)
    {
      var engine := orientationSensor.sensorInterface;
      output := 0.0;
      match valueType {
        case Roll => output := engine.Get(RollRadians);
        case Pitch => output := engine.Get(PitchRadians);
        case AccelerationX => output := engine.Get(AccelXMPerSS);
        case AccelerationY => output := engine.Get(AccelYMPerSS);
        case AccelerationZ => output := engine.Get(AccelZMPerSS);
        case RateOfTurn => output := engine.Get(TurnRateRadPerS);
        case RateOfPitch => output := engine.Get(PitchRateRadPerS);
        case RateOfRoll => output := engine.Get(RollRateRadPerS);
        case Temperature => output := engine.Get(TemperatureK);
        case MagCalFitInUse => output := engine.Get(MagneticFitError);
        case MagCalFitTrial => output := engine.Get(MagneticFitErrorTrial);
        case MagCalAlgorithmSolver => output := engine.Get(MagneticCalSolver);
        case MagInclination => output := engine.Get(MagneticInclinationRad);
        case MagFieldMagnitude => output := engine.Get(MagneticBMag);
        case MagFieldMagnitudeTrial => output := engine.Get(MagneticBMagTrial);
        case MagNoiseCovariance => output := engine.Get(MagneticNoiseCovariance);
        case _ =>
      }
    }
  }
}
