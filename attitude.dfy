/**
 * The attitude module of flight/modules/Attitude/revolution/attitude.c as
 * one object: the local copies of the settings objects, the statics that
 * choose and (re)start the fusion algorithm, the statics of the two
 * algorithms, the state of the INSGPS library as far as the module reads it
 * back, and the objects the module publishes.  The methods are the settings
 * callback, the start of the task and one iteration of its loop, and one
 * step of each algorithm.
 */
module Attitude {
  import opened IeeeFloat
  import opened AttitudeTypes
  import opened ComplementaryFilter
  import opened InsGpsFilter

  /**
   * The check of settingsUpdatedCb: one pass over P, one over Q and one
   * over R, raising the error for every unusable variance.
   */
  method CheckVariances(ekf: EkfConfiguration) returns (error: bool)
    requires ekf.WellFormed()
    ensures error <==> AnyInvalidVariance(ekf)
  {
    error := false;
    for t := 0 to P_NUMELEM
      invariant error <==> exists i :: 0 <= i < t && InvalidVar(ekf.p[i])
    {
      if InvalidVar(ekf.p[t]) {
        error := true;
      }
    }
    ghost var inP := error;
    for t := 0 to Q_NUMELEM
      invariant error <==> inP || exists i :: 0 <= i < t && InvalidVar(ekf.q[i])
    {
      if InvalidVar(ekf.q[t]) {
        error := true;
      }
    }
    ghost var inPQ := error;
    for t := 0 to R_NUMELEM
      invariant error <==> inPQ || exists i :: 0 <= i < t && InvalidVar(ekf.r[i])
    {
      if InvalidVar(ekf.r[t]) {
        error := true;
      }
    }
  }

  /** The settings events that re-read EKFConfiguration and RevoSettings (a flight status change only while in error). */
  predicate ReloadsFilterSettings(ev: SettingsEvent, varianceError: bool)
  {
    ev == Forced || ev == EkfConfigurationChanged || ev == RevoSettingsChanged
    || (varianceError && ev == FlightStatusChanged)
  }

  /** The gyro or the accel queue stayed empty for the step. */
  predicate TimedOut(c: Cycle)
  {
    !c.gyroArrived || !c.accelArrived
  }

  /** A timeout outside simulation: the step raises a warning and fails. */
  predicate Stalled(c: Cycle)
  {
    TimedOut(c) && !c.attitudeReadOnly
  }

  /** The gyro and accel samples are finite. */
  predicate SamplesUsable(c: Cycle)
  {
    c.gyros.IsFinite() && c.accels.IsFinite()
  }

  /** A delay-timer difference in microseconds as seconds. */
  function Seconds(us: nat): real
  {
    us as real / 1000000.0
  }

  /** RAD2DEG on a float vector. */
  function Rad2DegVec(v: Vec3): Vec3
  {
    Vec3(Div(Mul(v.x, Finite(180.0)), Finite(PI)),
         Div(Mul(v.y, Finite(180.0)), Finite(PI)),
         Div(Mul(v.z, Finite(180.0)), Finite(PI)))
  }

  /** The streams as they stand before the new events are or-ed in: cleared once the filter runs. */
  function CarriedStreams(s: StreamFlags, inited: bool): StreamFlags
  {
    if inited then NoStreams else s
  }

  /** The usable GPS streams of an INSGPS step, and value_error, from the samples of the cycle. */
  predicate GatedCycle(acc: StreamFlags, c: Cycle, home: HomeLocation, ekf: EkfConfiguration, g: StreamFlags, valueError: bool)
    requires ekf.WellFormed()
  {
    Gated(acc, c.mag, home, c.baroAltitude, c.airspeed, c.gps, ekf.r, c.gpsVel, g, valueError)
  }

  /** A zero-filled EKFConfiguration: what the static copy holds before the settings are read. */
  const EMPTY_EKF: EkfConfiguration :=
    EkfConfiguration(seq(P_NUMELEM, _ => Zero), seq(Q_NUMELEM, _ => Zero), seq(R_NUMELEM, _ => Zero), seq(FAKER_NUMELEM, _ => Zero))

  const EMPTY_HOME: HomeLocation := HomeLocation(0, 0, Zero, ZeroVec, false)

  const EMPTY_ATTITUDE_SETTINGS: AttitudeSettings := AttitudeSettings(Zero, Zero, Zero, false)

  /** The local copies of the settings objects that settingsUpdatedCb writes. */
  datatype SettingsCopies = SettingsCopies(
    armed: ArmedState,           // flightStatus.Armed
    biasCorrectedRaw: bool,      // revoCalibration.BiasCorrectedRaw
    ekf: EkfConfiguration,       // ekfConfiguration
    fusionAlgorithm: nat,        // revoSettings.FusionAlgorithm
    home: HomeLocation,          // homeLocation
    t: Vec3)                     // T, the getNED coefficients of the home location

  /** The objects the module publishes, other than the alarm. */
  datatype Objects = Objects(
    attitude: Quat,              // AttitudeActual
    gyrosBias: Vec3,             // GyrosBias
    position: Vec3,              // PositionActual
    velocity: Vec3,              // VelocityActual
    airspeed: AirspeedActual)    // AirspeedActual

  /** The statics of updateAttitudeComplementary and the globals it keeps between steps. */
  datatype ComplementaryStatics = ComplementaryStatics(gains: Gains, timeval: nat, magErr: Vec3)

  /** The statics of updateAttitudeINSGPS. */
  datatype InsStatics = InsStatics(
    streams: StreamFlags, valueError: bool, baroOffset: Float, lastTime: nat, inited: bool, initStage: nat)

  /** The state of the INSGPS library that the module sets and reads back. */
  datatype InsLibrary = InsLibrary(
    nav: NavState,                      // Nav: attitude, position, velocity and gyro bias
    variances: InsVariances,            // the variances set at start-up
    posVelVariances: PosVelVariances,   // the last INSSetPosVelVar
    magNorth: Vec3,                     // the last INSSetMagNorth
    covariance: seq<Float>)             // the P handed to INSResetP

  /** Without a variance error the configuration passes the settings check. */
  predicate ConfigurationChecked(ekf: EkfConfiguration, varianceError: bool)
  {
    ekf.WellFormed() && (!varianceError ==> !AnyInvalidVariance(ekf))
  }

  predicate VariancesUsable(v: InsVariances)
  {
    UsableVariances(v.mag) && UsableVariances(v.accel) && UsableVariances(v.gyro)
    && UsableVariances(v.gyroBias) && UsableVariance(v.baro)
  }

  /**
   * The filter counts as initialised exactly when the start-up has run more
   * than ten steps, and once the start-up has begun the variances it handed
   * to the filter are usable.
   */
  predicate StartupConsistent(ins: InsStatics, lib: InsLibrary)
  {
    (ins.inited <==> ins.initStage > 10) && (ins.initStage > 0 ==> VariancesUsable(lib.variances))
  }

  class AttitudeEstimator {
    var settings: SettingsCopies
    // The statics that choose and (re)start the fusion algorithm.
    var varianceError: bool
    var initializationRequired: bool
    var runningAlgorithm: nat
    // The attitude system alarm and the published objects.
    var alarm: Severity
    var objects: Objects
    var comp: ComplementaryStatics
    var ins: InsStatics
    var lib: InsLibrary

    ghost predicate Valid()
      reads this
    {
      ConfigurationChecked(settings.ekf, varianceError) && StartupConsistent(ins, lib)
    }

    /**
     * AttitudeInitialize: AttitudeActual is the identity and GyrosBias zero;
     * no algorithm runs yet, a (re)initialisation is pending and the
     * variances count as bad until the settings have been checked.
     */
    constructor ()
      ensures Valid()
      ensures objects.attitude == IdentityQuat && objects.gyrosBias == ZeroVec
      ensures varianceError && initializationRequired && runningAlgorithm == NO_ALGORITHM
      ensures !ins.inited && ins.initStage == 0 && ins.streams == NoStreams
    {
      settings := SettingsCopies(Disarmed, false, EMPTY_EKF, FUSION_COMPLEMENTARY, EMPTY_HOME, ZeroVec);
      varianceError := true;
      initializationRequired := true;
      runningAlgorithm := NO_ALGORITHM;
      alarm := Cleared;
      objects := Objects(IdentityQuat, ZeroVec, ZeroVec, ZeroVec, AirspeedActual(Zero, Zero));
      comp := ComplementaryStatics(Gains(EMPTY_ATTITUDE_SETTINGS, Finite(MAG_KP_DEFAULT), false), 0, ZeroVec);
      ins := InsStatics(NoStreams, false, Zero, 0, false, 0);
      lib := InsLibrary(NavState(IdentityQuat, ZeroVec, ZeroVec, ZeroVec),
                        InsVariances(ZeroVec, ZeroVec, ZeroVec, ZeroVec, Zero),
                        PosVelVariances(ZeroVec, ZeroVec), ZeroVec, []);
    }

    /**
     * The part of settingsUpdatedCb that re-reads EKFConfiguration and
     * RevoSettings: the variances are checked, and an error (or arming with
     * a run in progress) raises the variance error and keeps the running
     * algorithm; otherwise the new algorithm is selected and a
     * reinitialisation requested.
     */
    method ReloadFilterSettings(pub: Published)
      requires Valid() && pub.ekf.WellFormed()
      modifies this
      ensures Valid()
      ensures settings == old(settings).(ekf := pub.ekf, fusionAlgorithm := pub.fusionAlgorithm)
      ensures varianceError <==> AnyInvalidVariance(pub.ekf) || (settings.armed == Armed && !old(initializationRequired))
      ensures varianceError ==> runningAlgorithm == old(runningAlgorithm) && initializationRequired == old(initializationRequired)
      ensures !varianceError ==> runningAlgorithm == pub.fusionAlgorithm && initializationRequired
      ensures alarm == old(alarm) && objects == old(objects) && comp == old(comp) && ins == old(ins) && lib == old(lib)
    {
      var error := CheckVariances(pub.ekf);
      settings := settings.(ekf := pub.ekf, fusionAlgorithm := pub.fusionAlgorithm);
      if settings.armed == Armed && !initializationRequired {
        error := true;
      }
      if error {
        varianceError := true;
      } else {
        runningAlgorithm := pub.fusionAlgorithm;
        varianceError := false;
        initializationRequired := true;
      }
    }

    /**
     * settingsUpdatedCb: copy the updated object (every object on the
     * forced call).  A change of the filter settings, or of the flight
     * status while in error, reloads the filter settings; a new home
     * location recomputes the getNED coefficients.
     */
    method SettingsUpdated(ev: SettingsEvent, pub: Published, ext: Externals)
      requires Valid() && pub.ekf.WellFormed()
      modifies this
      ensures Valid()
      ensures settings.armed == (if ev == Forced || ev == FlightStatusChanged then pub.armed else old(settings.armed))
      ensures settings.biasCorrectedRaw ==
                (if ev == Forced || ev == RevoCalibrationChanged then pub.biasCorrectedRaw else old(settings.biasCorrectedRaw))
      ensures ReloadsFilterSettings(ev, old(varianceError)) ==>
                && settings.ekf == pub.ekf && settings.fusionAlgorithm == pub.fusionAlgorithm
                && (varianceError <==> AnyInvalidVariance(pub.ekf) || (settings.armed == Armed && !old(initializationRequired)))
                && (varianceError ==> runningAlgorithm == old(runningAlgorithm) && initializationRequired == old(initializationRequired))
                && (!varianceError ==> runningAlgorithm == pub.fusionAlgorithm && initializationRequired)
      ensures !ReloadsFilterSettings(ev, old(varianceError)) ==>
                && settings.ekf == old(settings.ekf) && settings.fusionAlgorithm == old(settings.fusionAlgorithm)
                && varianceError == old(varianceError) && initializationRequired == old(initializationRequired)
                && runningAlgorithm == old(runningAlgorithm)
      ensures ev == Forced || ev == HomeLocationChanged ==>
                settings.home == pub.home && settings.t == NedCoefficients(pub.home, ext.cos)
      ensures !(ev == Forced || ev == HomeLocationChanged) ==>
                settings.home == old(settings.home) && settings.t == old(settings.t)
      ensures comp == (if ev == Forced || ev == AttitudeSettingsChanged
                       then old(comp).(gains := old(comp.gains).(settings := pub.attitudeSettings))
                       else old(comp))
      ensures alarm == old(alarm) && objects == old(objects) && ins == old(ins) && lib == old(lib)
    {
      if ev == Forced || ev == FlightStatusChanged {
        settings := settings.(armed := pub.armed);
      }
      if ev == Forced || ev == RevoCalibrationChanged {
        settings := settings.(biasCorrectedRaw := pub.biasCorrectedRaw);
      }
      if ev == Forced || ev == EkfConfigurationChanged || ev == RevoSettingsChanged
         || (varianceError && ev == FlightStatusChanged) {
        ReloadFilterSettings(pub);
      }
      if ev == Forced || ev == HomeLocationChanged {
        settings := settings.(home := pub.home, t := NedCoefficients(pub.home, ext.cos));
      }
      if ev == Forced || ev == AttitudeSettingsChanged {
        comp := comp.(gains := comp.gains.(settings := pub.attitudeSettings));
      }
    }

    /** The start of AttitudeTask: clear the alarm and force a read of every settings object. */
    method TaskStart(pub: Published, ext: Externals)
      requires Valid() && pub.ekf.WellFormed()
      modifies this
      ensures Valid()
      ensures settings == SettingsCopies(pub.armed, pub.biasCorrectedRaw, pub.ekf, pub.fusionAlgorithm,
                                         pub.home, NedCoefficients(pub.home, ext.cos))
      ensures comp == old(comp).(gains := old(comp.gains).(settings := pub.attitudeSettings))
      ensures varianceError <==> AnyInvalidVariance(pub.ekf) || (pub.armed == Armed && !old(initializationRequired))
      ensures !varianceError ==> runningAlgorithm == pub.fusionAlgorithm && initializationRequired
      ensures alarm == Cleared && objects == old(objects) && ins == old(ins) && lib == old(lib)
    {
      alarm := Cleared;
      SettingsUpdated(Forced, pub, ext);
    }

    /**
     * The first run of the complementary filter, given a magnetometer
     * event: forget the loaded gains, level the attitude from the accels
     * and the magnetometer, and restart the clock.
     */
    method ComplementaryFirstRun(c: Cycle, ext: Externals)
      requires Valid()
      modifies this
      ensures Valid()
      ensures comp == old(comp).(gains := old(comp.gains).(loaded := false), timeval := c.now)
      ensures objects == old(objects).(attitude := ext.level(c.accels, c.mag))
      ensures settings == old(settings) && alarm == old(alarm) && ins == old(ins) && lib == old(lib)
      ensures varianceError == old(varianceError) && initializationRequired == old(initializationRequired)
      ensures runningAlgorithm == old(runningAlgorithm)
    {
      comp := comp.(gains := comp.gains.(loaded := false), timeval := c.now);
      objects := objects.(attitude := ext.level(c.accels, c.mag));
    }

    /**
     * The objects a complementary step copies: the GPS position through
     * getNED when a fix arrived and home is set, the GPS velocity when it
     * arrived, and the airspeed (true airspeed at the height of the new
     * position) when it arrived from a connected sensor.
     */
    method CopyNavigation(c: Cycle)
      modifies this
      ensures var position := if c.gpsArrived && settings.home.isSet then GetNed(settings.t, settings.home, c.gps) else old(objects.position);
              var cal := c.airspeed.calibrated;
              objects == old(objects).(
                position := position,
                velocity := if c.gpsVelArrived then c.gpsVel else old(objects.velocity),
                airspeed := if c.airspeedArrived && c.airspeed.connected
                            then AirspeedActual(cal, TrueAirspeed(cal, settings.home.altitude, position.z))
                            else old(objects.airspeed))
      ensures settings == old(settings) && alarm == old(alarm) && comp == old(comp) && ins == old(ins) && lib == old(lib)
      ensures varianceError == old(varianceError) && initializationRequired == old(initializationRequired)
      ensures runningAlgorithm == old(runningAlgorithm)
    {
      if c.gpsArrived && settings.home.isSet {
        objects := objects.(position := GetNed(settings.t, settings.home, c.gps));
      }
      if c.gpsVelArrived {
        objects := objects.(velocity := c.gpsVel);
      }
      if c.airspeedArrived && c.airspeed.connected {
        var cal := c.airspeed.calibrated;
        objects := objects.(airspeed := AirspeedActual(cal, TrueAirspeed(cal, settings.home.altitude, objects.position.z)));
      }
    }

    /**
     * A steady-state step of the complementary filter: schedule the gains,
     * run the numeric step over the time since the previous step, publish
     * the attitude and the gyro bias, copy the navigation objects, and set
     * the alarm from the variance error.  The published attitude has a
     * finite, non-negative scalar part.
     */
    method ComplementaryStep(c: Cycle, ext: Externals)
      requires Valid() && ext.Sound()
      modifies this
      ensures Valid()
      ensures var g := ScheduleGains(old(comp.gains), c.ticks, settings.armed, c.attitudeSettingsObject);
              var s := AttitudeStep(old(objects.attitude), old(objects.gyrosBias), old(comp.magErr), g, settings.biasCorrectedRaw,
                                    c.gyros, c.accels, c.magArrived, c.mag, settings.home.be,
                                    Seconds(ext.diffUs(old(comp.timeval), c.now)), ext);
              && comp == ComplementaryStatics(g, c.now, s.magErr)
              && objects.attitude == s.q && objects.gyrosBias == s.bias
      ensures objects.attitude.q0.Finite? && objects.attitude.q0.v >= 0.0
      ensures var position := if c.gpsArrived && settings.home.isSet then GetNed(settings.t, settings.home, c.gps) else old(objects.position);
              var cal := c.airspeed.calibrated;
              && objects.position == position
              && objects.velocity == (if c.gpsVelArrived then c.gpsVel else old(objects.velocity))
              && objects.airspeed == (if c.airspeedArrived && c.airspeed.connected
                                      then AirspeedActual(cal, TrueAirspeed(cal, settings.home.altitude, position.z))
                                      else old(objects.airspeed))
      ensures alarm == (if varianceError then Critical else Cleared)
      ensures settings == old(settings) && ins == old(ins) && lib == old(lib)
      ensures varianceError == old(varianceError) && initializationRequired == old(initializationRequired)
      ensures runningAlgorithm == old(runningAlgorithm)
    {
      var gains := ScheduleGains(comp.gains, c.ticks, settings.armed, c.attitudeSettingsObject);
      var dT := Seconds(ext.diffUs(comp.timeval, c.now));
      var s := AttitudeStep(objects.attitude, objects.gyrosBias, comp.magErr, gains, settings.biasCorrectedRaw,
                            c.gyros, c.accels, c.magArrived, c.mag, settings.home.be, dT, ext);
      comp := ComplementaryStatics(gains, c.now, s.magErr);
      objects := objects.(attitude := s.q, gyrosBias := s.bias);
      CopyNavigation(c);
      if varianceError {
        alarm := Critical;
      } else {
        alarm := Cleared;
      }
    }

    /**
     * updateAttitudeComplementary.  A timeout outside simulation raises a
     * warning and fails; a first run without a magnetometer event fails;
     * otherwise it is the first run or a steady-state step.
     */
    method UpdateComplementary(firstRun: bool, c: Cycle, ext: Externals) returns (ret: int)
      requires Valid() && ext.Sound()
      modifies this
      ensures Valid()
      ensures settings == old(settings) && ins == old(ins) && lib == old(lib)
      ensures varianceError == old(varianceError) && initializationRequired == old(initializationRequired)
      ensures runningAlgorithm == old(runningAlgorithm)
      ensures ret == -1 <==> Stalled(c) || (firstRun && !c.magArrived)
      ensures Stalled(c) ==> alarm == Warning && objects == old(objects) && comp == old(comp)
      ensures !Stalled(c) && firstRun && !c.magArrived ==> alarm == old(alarm) && objects == old(objects) && comp == old(comp)
      ensures !Stalled(c) && firstRun && c.magArrived ==>
                && comp == old(comp).(gains := old(comp.gains).(loaded := false), timeval := c.now)
                && objects == old(objects).(attitude := ext.level(c.accels, c.mag)) && alarm == old(alarm)
      ensures !Stalled(c) && !firstRun ==>
                && comp.gains == ScheduleGains(old(comp.gains), c.ticks, settings.armed, c.attitudeSettingsObject)
                && comp.timeval == c.now
                && objects.attitude.q0.Finite? && objects.attitude.q0.v >= 0.0
                && alarm == (if varianceError then Critical else Cleared)
    {
      if TimedOut(c) {
        if !c.attitudeReadOnly {
          alarm := Warning;
          return -1;
        }
      }
      if firstRun {
        if !c.magArrived {
          return -1;
        }
        ComplementaryFirstRun(c, ext);
        return 0;
      }
      ComplementaryStep(c, ext);
      return 0;
    }

    /** A first run of the INSGPS step: restart the staging, clear the streams and restart the clock. */
    method InsFirstRun(c: Cycle)
      requires Valid()
      modifies this
      ensures Valid()
      ensures ins == old(ins).(streams := NoStreams, lastTime := c.now, inited := false, initStage := 0)
      ensures settings == old(settings) && alarm == old(alarm) && objects == old(objects) && comp == old(comp) && lib == old(lib)
      ensures varianceError == old(varianceError) && initializationRequired == old(initializationRequired)
      ensures runningAlgorithm == old(runningAlgorithm)
    {
      ins := ins.(streams := NoStreams, lastTime := c.now, inited := false, initStage := 0);
    }

    /**
     * The checks of an INSGPS step after the first run: the new events are
     * or-ed into the streams (cleared first once the filter runs); with
     * non-finite gyro or accel samples the alarm is an error and the step
     * ends (`usable` false); otherwise the streams are gated and the alarm
     * set from the outcome.
     */
    method InsCheckSamples(outdoor: bool, c: Cycle) returns (usable: bool)
      requires Valid()
      modifies this
      ensures Valid()
      ensures usable <==> SamplesUsable(c)
      ensures var acc := AccumulateStreams(CarriedStreams(old(ins.streams), old(ins.inited)), c, outdoor);
              && (!usable ==> alarm == Error && ins == old(ins).(streams := acc, valueError := false))
              && (usable ==> GatedCycle(acc, c, settings.home, settings.ekf, ins.streams, ins.valueError))
      ensures usable ==> alarm == InsAlarm(ins.inited, ins.valueError, varianceError, outdoor, c.gps.satellites)
      ensures ins.baroOffset == old(ins.baroOffset) && ins.lastTime == old(ins.lastTime)
      ensures ins.inited == old(ins.inited) && ins.initStage == old(ins.initStage)
      ensures settings == old(settings) && objects == old(objects) && comp == old(comp) && lib == old(lib)
      ensures varianceError == old(varianceError) && initializationRequired == old(initializationRequired)
      ensures runningAlgorithm == old(runningAlgorithm)
    {
      var streams := AccumulateStreams(CarriedStreams(ins.streams, ins.inited), c, outdoor);
      ins := ins.(streams := streams, valueError := false);
      if !SamplesUsable(c) {
        alarm := Error;
        return false;
      }
      var gated, valueError := GateStreams(streams, c.mag, settings.home, c.baroAltitude, c.airspeed, c.gps, settings.ekf.r, c.gpsVel);
      ins := ins.(streams := gated, valueError := valueError);
      alarm := InsAlarm(ins.inited, valueError, varianceError, outdoor, c.gps.satellites);
      return true;
    }

    /**
     * One start-up step of the INSGPS filter.  The first one resets the
     * library with the configured variances, the levelled attitude, the
     * start position (getNED outdoors, zero height indoors) and P, and fixes
     * the barometric offset; the later ones only run the prediction and
     * publish its attitude.  The step counter advances, and the filter is
     * initialised once it exceeds 10.
     */
    method InsStartupStep(outdoor: bool, c: Cycle, bias: Vec3, dT: real, ext: Externals)
      requires Valid() && !ins.inited && !varianceError
      modifies this
      ensures Valid()
      ensures (ins.initStage, ins.inited) == StageStep(old(ins.initStage))
      ensures old(ins.initStage) == 0 ==>
                var pos := InitialPosition(outdoor, settings.t, settings.home, c.gps, c.baroAltitude);
                && lib == old(lib).(nav := NavState(ext.level(c.accels, c.magAfterWait), pos, ZeroVec, ZeroVec),
                                    variances := InitialVariances(settings.ekf), covariance := settings.ekf.p)
                && ins.baroOffset == (if outdoor then OutdoorInitialOffset(pos, c.baroAltitude)
                                      else IndoorInitialOffset(c.baroAltitude))
      ensures old(ins.initStage) != 0 ==>
                && lib == old(lib).(nav := ext.predict(old(lib.nav), PredictionRates(c.gyros, bias, settings.biasCorrectedRaw), c.accels, dT))
                && ins.baroOffset == old(ins.baroOffset)
      ensures objects == old(objects).(attitude := lib.nav.q)
      ensures ins.streams == old(ins.streams) && ins.valueError == old(ins.valueError) && ins.lastTime == old(ins.lastTime)
      ensures settings == old(settings) && alarm == old(alarm) && comp == old(comp)
      ensures varianceError == old(varianceError) && initializationRequired == old(initializationRequired)
      ensures runningAlgorithm == old(runningAlgorithm)
    {
      if ins.initStage == 0 {
        InitialVariancesUsable(settings.ekf);
        var pos := InitialPosition(outdoor, settings.t, settings.home, c.gps, c.baroAltitude);
        var offset := if outdoor then OutdoorInitialOffset(pos, c.baroAltitude) else IndoorInitialOffset(c.baroAltitude);
        var q := ext.level(c.accels, c.magAfterWait);
        ins := ins.(baroOffset := offset);
        objects := objects.(attitude := q);
        lib := lib.(nav := NavState(q, pos, ZeroVec, ZeroVec), variances := InitialVariances(settings.ekf),
                    covariance := settings.ekf.p);
      } else {
        lib := lib.(nav := ext.predict(lib.nav, PredictionRates(c.gyros, bias, settings.biasCorrectedRaw), c.accels, dT));
        objects := objects.(attitude := lib.nav.q);
      }
      var next := StageStep(ins.initStage);
      ins := ins.(initStage := next.0, inited := next.1);
    }

    /**
     * The correction half of a step of the running INSGPS filter, after the
     * prediction: set the reference field, assemble the measurements (GPS
     * position with the barometric offset tracking it, or the fake indoor
     * position; GPS velocity; the airspeed, which also stands in for the
     * velocity when no GPS stream is in), correct when any sensor is in,
     * and publish position, velocity and gyro bias from the filter.
     */
    method InsCorrect(outdoor: bool, c: Cycle, ext: Externals)
      requires Valid() && ins.inited
      modifies this
      ensures Valid()
      ensures var s := ins.streams;
              var predicted := old(lib.nav);
              var tas := TrueAirspeed(c.airspeed.calibrated, settings.home.altitude, predicted.pos.z);
              var ned := CorrectionNed(s, outdoor, settings.t, settings.home, c.gps, c.baroAltitude, old(ins.baroOffset));
              var vel := CorrectionVel(s, outdoor, c.gpsVel, ext.rotate(predicted.q, Vec3(tas, Zero, Zero)));
              var mask := SensorMask(s, outdoor);
              var offset := if s.gps && outdoor then BaroOffsetLowPass(old(ins.baroOffset), BaroTarget(ned, c.baroAltitude))
                            else old(ins.baroOffset);
              && ins == old(ins).(baroOffset := offset)
              && lib == old(lib).(
                   nav := if mask != 0 then ext.correct(predicted, c.mag, ned, vel, Add(c.baroAltitude, offset), mask) else predicted,
                   posVelVariances := if s.airspeed && !s.gpsVel && !s.gps then AirspeedPosVelVariances(settings.ekf)
                                      else if s.gps && outdoor then GpsPosVelVariances(settings.ekf)
                                      else if !outdoor then IndoorPosVelVariances(settings.ekf)
                                      else old(lib.posVelVariances),
                   magNorth := settings.home.be)
              && objects == old(objects).(
                   gyrosBias := Rad2DegVec(lib.nav.gyroBias), position := lib.nav.pos, velocity := lib.nav.vel,
                   airspeed := if s.airspeed then AirspeedActual(c.airspeed.calibrated, tas) else old(objects.airspeed))
      ensures settings == old(settings) && alarm == old(alarm) && comp == old(comp)
      ensures varianceError == old(varianceError) && initializationRequired == old(initializationRequired)
      ensures runningAlgorithm == old(runningAlgorithm)
    {
      var s := ins.streams;
      var nav := lib.nav;
      var sensors := AssembleSensors(s, outdoor);
      var posVel := lib.posVelVariances;
      var offset := ins.baroOffset;
      var ned := ZeroVec;
      var vel := ZeroVec;
      if s.gps && outdoor {
        posVel := GpsPosVelVariances(settings.ekf);
        ned := GetNed(settings.t, settings.home, c.gps);
        offset := BaroOffsetLowPass(offset, BaroTarget(ned, c.baroAltitude));
      } else if !outdoor {
        posVel := IndoorPosVelVariances(settings.ekf);
        vel := ZeroVec;
        ned := IndoorNed(c.baroAltitude, offset);
      }
      if s.gpsVel && outdoor {
        vel := c.gpsVel;
      }
      var airspeed := objects.airspeed;
      if s.airspeed {
        var tas := TrueAirspeed(c.airspeed.calibrated, settings.home.altitude, nav.pos.z);
        airspeed := AirspeedActual(c.airspeed.calibrated, tas);
        if !s.gpsVel && !s.gps {
          posVel := AirspeedPosVelVariances(settings.ekf);
          vel := ext.rotate(nav.q, Vec3(tas, Zero, Zero));
        }
      }
      if sensors != 0 {
        nav := ext.correct(nav, c.mag, ned, vel, Add(c.baroAltitude, offset), sensors);
      }
      ins := ins.(baroOffset := offset);
      lib := lib.(nav := nav, posVelVariances := posVel, magNorth := settings.home.be);
      objects := objects.(gyrosBias := Rad2DegVec(nav.gyroBias), position := nav.pos, velocity := nav.vel, airspeed := airspeed);
    }

    /**
     * One step of the running INSGPS filter: the prediction over dT with
     * the raw rates, the published attitude from it, then the correction.
     */
    method InsFilterStep(outdoor: bool, c: Cycle, bias: Vec3, dT: real, ext: Externals)
      requires Valid() && ins.inited
      modifies this
      ensures Valid()
      ensures var predicted := ext.predict(old(lib.nav), PredictionRates(c.gyros, bias, settings.biasCorrectedRaw), c.accels, dT);
              && objects.attitude == predicted.q
              && (SensorMask(ins.streams, outdoor) == 0 ==> lib.nav == predicted)
      ensures objects.position == lib.nav.pos && objects.velocity == lib.nav.vel
      ensures objects.gyrosBias == Rad2DegVec(lib.nav.gyroBias)
      ensures ins == old(ins).(baroOffset := ins.baroOffset) && lib.magNorth == settings.home.be
      ensures lib.variances == old(lib.variances) && lib.covariance == old(lib.covariance)
      ensures settings == old(settings) && alarm == old(alarm) && comp == old(comp)
      ensures varianceError == old(varianceError) && initializationRequired == old(initializationRequired)
      ensures runningAlgorithm == old(runningAlgorithm)
    {
      var nav := ext.predict(lib.nav, PredictionRates(c.gyros, bias, settings.biasCorrectedRaw), c.accels, dT);
      lib := lib.(nav := nav);
      objects := objects.(attitude := nav.q);
      InsCorrect(outdoor, c, ext);
    }

    /** updateAttitudeINSGPS after the stall and first-run checks: sample checks, then start-up or the filter. */
    method InsProcess(outdoor: bool, c: Cycle, ext: Externals)
      requires Valid()
      modifies this
      ensures Valid()
      ensures settings == old(settings) && comp == old(comp)
      ensures varianceError == old(varianceError) && initializationRequired == old(initializationRequired)
      ensures runningAlgorithm == old(runningAlgorithm)
      ensures !SamplesUsable(c) ==>
                && alarm == Error && objects == old(objects) && lib == old(lib)
                && ins == old(ins).(streams := AccumulateStreams(CarriedStreams(old(ins.streams), old(ins.inited)), c, outdoor),
                                    valueError := false)
      ensures SamplesUsable(c) ==>
                && GatedCycle(AccumulateStreams(CarriedStreams(old(ins.streams), old(ins.inited)), c, outdoor),
                              c, settings.home, settings.ekf, ins.streams, ins.valueError)
                && alarm == InsAlarm(old(ins.inited), ins.valueError, varianceError, outdoor, c.gps.satellites)
                && ins.lastTime == c.now
                && ins.initStage == old(ins.initStage) + (if InitReady(old(ins.inited), ins.streams, outdoor, varianceError) then 1 else 0)
      ensures lib != old(lib) || objects != old(objects) ==>
                SamplesUsable(c) && (old(ins.inited) || InitReady(old(ins.inited), ins.streams, outdoor, varianceError))
      ensures !old(ins.inited) ==> objects.position == old(objects.position) && objects.velocity == old(objects.velocity)
    {
      var usable := InsCheckSamples(outdoor, c);
      if !usable {
        return;
      }
      var bias := if objects.gyrosBias.IsFinite() then objects.gyrosBias else ZeroVec;
      var dT := ClampDt(Seconds(ext.diffUs(ins.lastTime, c.now)));
      ins := ins.(lastTime := c.now);
      if InitReady(ins.inited, ins.streams, outdoor, varianceError) {
        InsStartupStep(outdoor, c, bias, dT, ext);
        return;
      }
      if !ins.inited {
        return;
      }
      InsFilterStep(outdoor, c, bias, dT, ext);
    }

    /**
     * updateAttitudeINSGPS.  A timeout outside simulation raises a warning
     * and fails.  A first run restarts the staging.  Otherwise the samples
     * are checked and gated, the clamped time step is taken, and the step is
     * a start-up step when everything the start-up waits for is in, a filter
     * step when the filter is initialised, and nothing more otherwise.  The
     * filter state and the published objects change only in those two kinds
     * of step, and position and velocity only once the filter is initialised.
     */
    method UpdateInsGps(firstRun: bool, outdoor: bool, c: Cycle, ext: Externals) returns (ret: int)
      requires Valid()
      modifies this
      ensures Valid()
      ensures settings == old(settings) && comp == old(comp)
      ensures varianceError == old(varianceError) && initializationRequired == old(initializationRequired)
      ensures runningAlgorithm == old(runningAlgorithm)
      ensures ret == -1 <==> Stalled(c)
      ensures Stalled(c) ==> alarm == Warning && objects == old(objects) && ins == old(ins) && lib == old(lib)
      ensures !Stalled(c) && firstRun ==>
                && ins == old(ins).(streams := NoStreams, lastTime := c.now, inited := false, initStage := 0)
                && alarm == old(alarm) && objects == old(objects) && lib == old(lib)
      ensures !Stalled(c) && !firstRun && !SamplesUsable(c) ==>
                && alarm == Error && objects == old(objects) && lib == old(lib)
                && ins == old(ins).(streams := AccumulateStreams(CarriedStreams(old(ins.streams), old(ins.inited)), c, outdoor),
                                    valueError := false)
      ensures !Stalled(c) && !firstRun && SamplesUsable(c) ==>
                && GatedCycle(AccumulateStreams(CarriedStreams(old(ins.streams), old(ins.inited)), c, outdoor),
                              c, settings.home, settings.ekf, ins.streams, ins.valueError)
                && alarm == InsAlarm(old(ins.inited), ins.valueError, varianceError, outdoor, c.gps.satellites)
                && ins.lastTime == c.now
                && ins.initStage == old(ins.initStage) + (if InitReady(old(ins.inited), ins.streams, outdoor, varianceError) then 1 else 0)
      ensures lib != old(lib) || objects != old(objects) ==>
                !Stalled(c) && !firstRun && SamplesUsable(c) && (old(ins.inited) || InitReady(old(ins.inited), ins.streams, outdoor, varianceError))
      ensures !old(ins.inited) ==> objects.position == old(objects.position) && objects.velocity == old(objects.velocity)
    {
      if TimedOut(c) {
        if !c.attitudeReadOnly {
          alarm := Warning;
          return -1;
        }
      }
      if firstRun {
        InsFirstRun(c);
        return 0;
      }
      InsProcess(outdoor, c, ext);
      return 0;
    }

    /**
     * One iteration of the task loop: take the pending (re)initialisation as
     * the first run, run the selected algorithm (an unknown one raises a
     * critical alarm), and request a (re)initialisation whenever the step
     * did not succeed.
     */
    method TaskIteration(c: Cycle, ext: Externals) returns (ret: int)
      requires Valid() && ext.Sound()
      modifies this
      ensures Valid()
      ensures settings == old(settings) && varianceError == old(varianceError) && runningAlgorithm == old(runningAlgorithm)
      ensures initializationRequired <==> ret != 0
      ensures runningAlgorithm == FUSION_COMPLEMENTARY ==>
                ins == old(ins) && lib == old(lib) && (ret == -1 <==> Stalled(c) || (old(initializationRequired) && !c.magArrived))
      ensures runningAlgorithm == FUSION_INSINDOOR || runningAlgorithm == FUSION_INSOUTDOOR ==>
                comp == old(comp) && (ret == -1 <==> Stalled(c))
      ensures (runningAlgorithm == FUSION_INSINDOOR || runningAlgorithm == FUSION_INSOUTDOOR) && old(initializationRequired) && !Stalled(c) ==>
                !ins.inited && ins.initStage == 0
      ensures runningAlgorithm !in {FUSION_COMPLEMENTARY, FUSION_INSINDOOR, FUSION_INSOUTDOOR} ==>
                ret == -1 && alarm == Critical && objects == old(objects) && comp == old(comp) && ins == old(ins) && lib == old(lib)
    {
      ret := -1;
      var firstRun := false;
      if initializationRequired {
        initializationRequired := false;
        firstRun := true;
      }
      if runningAlgorithm == FUSION_COMPLEMENTARY {
        ret := UpdateComplementary(firstRun, c, ext);
      } else if runningAlgorithm == FUSION_INSOUTDOOR {
        ret := UpdateInsGps(firstRun, true, c, ext);
      } else if runningAlgorithm == FUSION_INSINDOOR {
        ret := UpdateInsGps(firstRun, false, c, ext);
      } else {
        alarm := Critical;
      }
      if ret != 0 {
        initializationRequired := true;
      }
    }
  }
}
