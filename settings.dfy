/** The in-memory settings the store mirrors, and the build constants
    (defaults, limits and mode codes) of one firmware configuration. */
module Settings {
  import opened Bytes
  import opened Float32
  import opened Layout

  /** Heater controller settings (the heated bed and every extruder have one). */
  datatype Heater = Heater(
    driveMax: Byte, driveMin: Byte,
    pGain: Float, iGain: Float, dGain: Float,
    pidMax: Byte, sensorType: Byte)

  /** Per-extruder settings. `maxStartFeedrate` is the extruder's jerk limit (maxEJerk). */
  datatype Extruder = Extruder(
    stepsPerMM: Float, maxFeedrate: Float, maxStartFeedrate: Float, maxAcceleration: Float,
    heater: Heater, offset: seq<Float>, coolerSpeed: Byte)

  /** The settings variables the store is loaded into and persisted from. */
  datatype Mirror = Mirror(
    baudrate: Int32, maxInactiveTime: Int32, stepperInactiveTime: Int32,
    axisStepsPerMM: seq<Float>, maxFeedrate: seq<Float>,
    zOffset: Int32, zMode: Byte, moveMode: seq<Byte>, moveKosys: bool, movePositionFeedrate: bool,
    homingFeedrate: seq<Float>, maxXYJerk: Float, maxZJerk: Float,
    maxAccel: seq<Float>, maxTravelAccel: seq<Float>, millAcceleration: Int16,
    bed: Heater, axisLength: seq<Float>,
    extruders: seq<Extruder>,
    stepsPackingMinInterval: Int16, operatingMode: Mode, manualStepsZ: int,
    motorCurrent: seq<Byte>, microSteps: seq<Byte>)

  /** Build constants of one configuration (the values of the firmware's configuration macros). */
  datatype Config = Config(
    magic: Byte,                 // EEPROM_MODE
    protocolVersion: Byte,       // EEPROM_PROTOCOL_VERSION
    numExtruders: int,           // NUM_EXTRUDER
    channels: int,               // DRV8711_NUM_CHANNELS
    printCode: Byte,             // OPERATING_MODE_PRINT
    millCode: Byte,              // OPERATING_MODE_MILL
    baudrate: Int32, maxInactiveTime: Int32, stepperInactiveTime: Int32,
    axisStepsPerMM: seq<Float>, maxFeedrate: seq<Float>,
    homingPrint: seq<Float>, homingMill: seq<Float>,
    maxXYJerk: Float, maxZJerk: Float,
    moveMode: seq<Byte>, moveKosys: bool, movePositionFeedrate: bool,
    maxAccel: seq<Float>, maxTravelAccel: seq<Float>,
    accelMinXY: Float, accelMaxXY: Float, accelMinZ: Float, accelMaxZ: Float,
    bed: Heater,
    xLengthPrint: Float, xLengthMill: Float, yLength: Float, zLength: Float,
    extruders: seq<Extruder>,    // EXT0_* and EXT1_*
    waitRetractTemp: Int16,      // EXT0_WAIT_RETRACT_TEMP
    waitRetractUnits: Int16,     // EXT0_WAIT_RETRACT_UNITS
    stepPacking: Int16, stepPackingMin: Int16, stepPackingMax: Int16,
    zMode: Byte,
    motorCurrentNormal: seq<Byte>, motorCurrentMax: seq<Byte>, motorCurrentMin: Byte,
    microSteps: seq<Byte>,       // initial driver micro-step mode value of each channel
    manualStepsZ: int,           // the Z jog step count restored with the defaults
    stepTableMax: int,           // last entry of the acceptable Z step size table
    millerAcceleration: Int16)   // MILLER_ACCELERATION

  /** Number of driver channels whose micro-step mode is kept (X, Y, Z, E0, E1). */
  const MicroStepChannels := 5

  predicate WellFormedExtruder(e: Extruder) {
    |e.offset| == 3
  }

  /** The length of every array the firmware declares with a fixed size. */
  predicate WellFormed(C: Config, m: Mirror) {
    && |m.axisStepsPerMM| == 3 && |m.maxFeedrate| == 3 && |m.moveMode| == 3
    && |m.homingFeedrate| == 3 && |m.maxAccel| == 3 && |m.maxTravelAccel| == 3
    && |m.axisLength| == 3
    && |m.extruders| == C.numExtruders
    && (forall i :: 0 <= i < |m.extruders| ==> WellFormedExtruder(m.extruders[i]))
    && 0 <= m.manualStepsZ < 0x1_0000
    && |m.motorCurrent| == C.channels
    && |m.microSteps| == MicroStepChannels
  }

  /** What the firmware's configuration guarantees of its constants. */
  predicate ValidConfig(C: Config) {
    && (C.numExtruders == 1 || C.numExtruders == 2)
    && 3 + C.numExtruders <= C.channels <= MaxChannels
    && C.printCode != C.millCode
    && |C.axisStepsPerMM| == 3 && |C.maxFeedrate| == 3 && |C.moveMode| == 3
    && |C.homingPrint| == 3 && |C.homingMill| == 3
    && |C.maxAccel| == 3 && |C.maxTravelAccel| == 3
    && |C.extruders| == MaxExtruders
    && (forall i :: 0 <= i < MaxExtruders ==> WellFormedExtruder(C.extruders[i]))
    && |C.motorCurrentNormal| == C.channels && |C.motorCurrentMax| == C.channels
    && |C.microSteps| == MicroStepChannels
    && 0 <= C.manualStepsZ < 0x1_0000
    && 1 <= C.stepTableMax < 0x1_0000
  }

  /** The byte that encodes an operating mode. */
  function ModeCode(C: Config, mode: Mode): Byte {
    if mode == Print then C.printCode else C.millCode
  }

  /** The homing feed rate defaults of a mode. */
  function HomingDefaults(C: Config, mode: Mode): seq<Float> {
    if mode == Print then C.homingPrint else C.homingMill
  }

  /** The X axis length default of a mode. */
  function XLengthDefault(C: Config, mode: Mode): Float {
    if mode == Print then C.xLengthPrint else C.xLengthMill
  }

  /** The acceleration window of an axis: X and Y share one, Z has its own. */
  function AccelMin(C: Config, a: Axis): Float {
    if a == 2 then C.accelMinZ else C.accelMinXY
  }

  function AccelMax(C: Config, a: Axis): Float {
    if a == 2 then C.accelMaxZ else C.accelMaxXY
  }

  // ------------------------------------------------------------ load guards
  // Each is the condition under which the loader keeps a stored value.

  /** Acceleration outside [min, max] is replaced; a NaN compares false both ways and is kept. */
  predicate AccelOk(C: Config, a: Axis, v: Float) {
    !(Lt(v, AccelMin(C, a)) || Lt(AccelMax(C, a), v))
  }

  /** An X length that is not positive or above 245 is replaced. */
  predicate XLengthOk(v: Float) {
    !(Le(v, Zero) || Lt(F245, v))
  }

  predicate ExtStepsOk(v: Float) { Lt(v, F5540) }
  predicate ExtFeedrateOk(v: Float) { Lt(Zero, v) && Lt(v, F100) }
  predicate ExtStartFeedrateOk(v: Float, maxFeedrate: Float) { Lt(Zero, v) && Le(v, maxFeedrate) }
  predicate ExtAccelOk(v: Float) { Lt(Zero, v) && Lt(v, F10000) }

  /** The drive pairs (40, 40) and (0, 0) mark unset integral limits. */
  predicate DriveSentinel(driveMin: Byte, driveMax: Byte) {
    (driveMin == 40 && driveMax == 40) || (driveMin == 0 && driveMax == 0)
  }

  predicate SensorTypeOk(b: Byte) { 0 < b <= 100 }

  /** Extruder Z offsets may only lower a hot end. */
  predicate OffsetZOk(v: Float) { !Lt(Zero, v) }

  predicate MotorCurrentOk(C: Config, ch: int, b: Byte)
    requires ValidConfig(C) && 0 <= ch < C.channels
  {
    C.motorCurrentMin <= b <= C.motorCurrentMax[ch]
  }

  /** The defaults pass the guards the loader applies to stored values. */
  predicate DefaultsValid(C: Config)
    requires ValidConfig(C)
  {
    && (forall a: Axis :: AccelOk(C, a, C.maxAccel[a]) && AccelOk(C, a, C.maxTravelAccel[a]))
    && XLengthOk(C.xLengthPrint) && XLengthOk(C.xLengthMill)
    && (forall i :: 0 <= i < MaxExtruders ==> ExtruderDefaultsValid(C.extruders[i]))
    && (forall ch :: 0 <= ch < C.channels ==> MotorCurrentOk(C, ch, C.motorCurrentNormal[ch]))
    && C.stepPacking != 0 && C.stepPackingMin <= C.stepPacking <= C.stepPackingMax
    && C.millerAcceleration > 0
    && C.bed.sensorType != 0
    && 1 <= C.manualStepsZ <= C.stepTableMax
    && (forall a: Axis :: !Lt(C.maxFeedrate[a], C.homingPrint[a]) && !Lt(C.maxFeedrate[a], C.homingMill[a]))
  }

  predicate ExtruderDefaultsValid(e: Extruder)
    requires WellFormedExtruder(e)
  {
    && ExtStepsOk(e.stepsPerMM) && ExtFeedrateOk(e.maxFeedrate)
    && ExtStartFeedrateOk(e.maxStartFeedrate, e.maxFeedrate) && ExtAccelOk(e.maxAcceleration)
    && !DriveSentinel(e.heater.driveMin, e.heater.driveMax)
    && e.heater.pidMax > 0 && SensorTypeOk(e.heater.sensorType)
    && OffsetZOk(e.offset[2])
  }

  /** How the guards treat a stored NaN, which compares false with everything:
      the acceleration, X length and Z offset guards only reject values that
      compare out of range, so a NaN passes them; the extruder guards require
      a comparison to hold, so a NaN steps per mm, feed rate, start feed rate
      or acceleration is rejected. */
  lemma NaNGuards(C: Config, a: Axis, v: Float, limit: Float)
    requires IsNaN(v)
    ensures AccelOk(C, a, v) && XLengthOk(v) && OffsetZOk(v)
    ensures !ExtStepsOk(v) && !ExtFeedrateOk(v) && !ExtStartFeedrateOk(v, limit) && !ExtAccelOk(v)
  { }
}
