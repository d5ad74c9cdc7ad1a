/**
 * The decisions of updateAttitudeINSGPS
 * (flight/modules/Attitude/revolution/attitude.c) around the INSGPS filter:
 * which sensor streams are fed to it, the alarm, the clamped time step, the
 * staged start-up, the sensor mask of a correction, the barometric offset
 * and the inputs of the prediction.  The filter's own numerics (prediction,
 * covariance and correction) are taken from `Externals`.
 */
module InsGpsFilter {
  import opened IeeeFloat
  import opened AttitudeTypes

  // ---------------------------------------------------------------------
  // Sensor streams
  // ---------------------------------------------------------------------

  /** The static *_updated flags: which streams have news for the filter. */
  datatype StreamFlags = StreamFlags(mag: bool, baro: bool, airspeed: bool, gps: bool, gpsVel: bool)

  const NoStreams: StreamFlags := StreamFlags(false, false, false, false, false)

  /**
   * The flags or-ed with the queue events of this step.  In simulation mode
   * (read-only GPS objects) the GPS streams count as updated every step;
   * indoors they never do.
   */
  function AccumulateStreams(f: StreamFlags, c: Cycle, outdoor: bool): (r: StreamFlags)
    ensures r.mag <==> f.mag || c.magArrived
    ensures r.baro <==> f.baro || c.baroArrived
    ensures r.airspeed <==> f.airspeed || c.airspeedArrived
    ensures !outdoor ==> r.gps == f.gps && r.gpsVel == f.gpsVel
    ensures outdoor ==> (r.gps <==> f.gps || c.gpsReadOnly || c.gpsArrived)
    ensures outdoor ==> (r.gpsVel <==> f.gpsVel || c.gpsVelReadOnly || c.gpsVelArrived)
  {
    StreamFlags(
      f.mag || c.magArrived,
      f.baro || c.baroArrived,
      f.airspeed || c.airspeedArrived,
      f.gps || ((if c.gpsReadOnly then true else c.gpsArrived) && outdoor),
      f.gpsVel || ((if c.gpsVelReadOnly then true else c.gpsVelArrived) && outdoor))
  }

  /** The home reference field is too weak for the magnetometer to be used: |Be|^2 < 1e-5. */
  predicate MagReferenceWeak(be: Vec3)
  {
    Less(SumSq(be), Finite(1.0e-5))
  }

  /** Some GPS position or velocity variance (R[0] to R[5]) is unusable. */
  predicate GpsVarianceInvalid(r: seq<Float>)
    requires |r| == R_NUMELEM
  {
    InvalidVar(r[0]) || InvalidVar(r[1]) || InvalidVar(r[2])
    || InvalidVar(r[3]) || InvalidVar(r[4]) || InvalidVar(r[5])
  }

  /**
   * The minimum requirement for GPS use: at least 7 satellites, a PDOP not
   * above 4, a position other than (0, 0) and a home location that is set.
   * A PDOP that is not a number passes.
   */
  predicate GpsFixUsable(gps: GpsPosition, home: HomeLocation)
  {
    !(gps.satellites < 7 || Less(Finite(4.0), gps.pdop) || (gps.latitude == 0 && gps.longitude == 0) || !home.isSet)
  }

  /**
   * The outcome of the safety checks on the latest samples: each stream
   * survives only if its sample is finite (the magnetometer also needs a
   * home field that is not weak, the GPS position usable variances), the
   * airspeed sensor is connected and, for both GPS streams, the fix is
   * usable; value_error is raised by exactly the non-finite samples, the
   * weak field and the unusable variances.
   */
  predicate Gated(f: StreamFlags, mag: Vec3, home: HomeLocation, baro: Float, airspeed: AirspeedSensor,
                  gps: GpsPosition, r: seq<Float>, gpsVel: Vec3, g: StreamFlags, valueError: bool)
    requires |r| == R_NUMELEM
  {
    && (g.mag <==> f.mag && mag.IsFinite() && !MagReferenceWeak(home.be))
    && (g.baro <==> f.baro && baro.Finite?)
    && (g.airspeed <==> f.airspeed && airspeed.calibrated.Finite? && airspeed.connected)
    && (g.gps <==> f.gps && gps.altitude.Finite? && !GpsVarianceInvalid(r) && GpsFixUsable(gps, home))
    && (g.gpsVel <==> f.gpsVel && gpsVel.IsFinite() && GpsFixUsable(gps, home))
    && (valueError <==>
         || !mag.IsFinite() || MagReferenceWeak(home.be) || !baro.Finite? || !airspeed.calibrated.Finite?
         || !gps.altitude.Finite? || GpsVarianceInvalid(r) || !gpsVel.IsFinite())
  }

  /**
   * The value checks, in the order of the source: each non-finite sample (or
   * the weak field, or an unusable GPS variance) withdraws its stream and
   * raises value_error.
   */
  method CheckSampleValues(f: StreamFlags, mag: Vec3, home: HomeLocation, baro: Float, airspeed: AirspeedSensor,
                           gps: GpsPosition, r: seq<Float>, gpsVel: Vec3)
    returns (g: StreamFlags, valueError: bool)
    requires |r| == R_NUMELEM
    ensures g.mag <==> f.mag && mag.IsFinite() && !MagReferenceWeak(home.be)
    ensures g.baro <==> f.baro && baro.Finite?
    ensures g.airspeed <==> f.airspeed && airspeed.calibrated.Finite?
    ensures g.gps <==> f.gps && gps.altitude.Finite? && !GpsVarianceInvalid(r)
    ensures g.gpsVel <==> f.gpsVel && gpsVel.IsFinite()
    ensures valueError <==>
              || !mag.IsFinite() || MagReferenceWeak(home.be) || !baro.Finite? || !airspeed.calibrated.Finite?
              || !gps.altitude.Finite? || GpsVarianceInvalid(r) || !gpsVel.IsFinite()
  {
    var magOk, baroOk, airspeedOk, gpsOk, gpsVelOk := f.mag, f.baro, f.airspeed, f.gps, f.gpsVel;
    valueError := false;
    if Invalid(mag.x) || Invalid(mag.y) || Invalid(mag.z) {
      magOk, valueError := false, true;
    }
    if MagReferenceWeak(home.be) {
      magOk, valueError := false, true;
    }
    if Invalid(baro) {
      baroOk, valueError := false, true;
    }
    if Invalid(airspeed.calibrated) {
      airspeedOk, valueError := false, true;
    }
    if Invalid(gps.altitude) {
      gpsOk, valueError := false, true;
    }
    if GpsVarianceInvalid(r) {
      gpsOk, valueError := false, true;
    }
    if Invalid(gpsVel.x) || Invalid(gpsVel.y) || Invalid(gpsVel.z) {
      gpsVelOk, valueError := false, true;
    }
    g := StreamFlags(magOk, baroOk, airspeedOk, gpsOk, gpsVelOk);
  }

  /**
   * The safety checks of a step: the value checks, then an unconnected
   * airspeed sensor and a poor GPS fix, which withdraw streams without
   * raising value_error.
   */
  method GateStreams(f: StreamFlags, mag: Vec3, home: HomeLocation, baro: Float, airspeed: AirspeedSensor,
                     gps: GpsPosition, r: seq<Float>, gpsVel: Vec3)
    returns (g: StreamFlags, valueError: bool)
    requires |r| == R_NUMELEM
    ensures Gated(f, mag, home, baro, airspeed, gps, r, gpsVel, g, valueError)
  {
    g, valueError := CheckSampleValues(f, mag, home, baro, airspeed, gps, r, gpsVel);
    if !airspeed.connected {
      g := g.(airspeed := false);
    }
    if gps.satellites < 7 || Less(Finite(4.0), gps.pdop) || (gps.latitude == 0 && gps.longitude == 0) || !home.isSet {
      g := g.(gps := false, gpsVel := false);
    }
  }

  /**
   * Gating only withdraws streams, and a stream that survives has a finite
   * sample; an unconnected airspeed sensor or a poor GPS fix alone never
   * raises value_error.
   */
  lemma GatedProperties(f: StreamFlags, mag: Vec3, home: HomeLocation, baro: Float, airspeed: AirspeedSensor,
                        gps: GpsPosition, r: seq<Float>, gpsVel: Vec3, g: StreamFlags, valueError: bool)
    requires |r| == R_NUMELEM
    requires Gated(f, mag, home, baro, airspeed, gps, r, gpsVel, g, valueError)
    ensures g.mag ==> f.mag && mag.IsFinite()
    ensures g.baro ==> f.baro && baro.Finite?
    ensures g.airspeed ==> f.airspeed && airspeed.calibrated.Finite?
    ensures g.gps ==> f.gps && gps.altitude.Finite? && GpsFixUsable(gps, home)
    ensures g.gpsVel ==> f.gpsVel && gpsVel.IsFinite()
    ensures !valueError && f.airspeed && airspeed.calibrated.Finite? ==> (g.airspeed <==> airspeed.connected)
    ensures !valueError && f.gpsVel ==> (g.gpsVel <==> GpsFixUsable(gps, home))
  {
  }

  // ---------------------------------------------------------------------
  // Alarm and time step
  // ---------------------------------------------------------------------

  /**
   * The attitude alarm of a step that passed the gyro/accel checks: an
   * error until the filter is initialised, critical on a bad sample or bad
   * variances, an error outdoors with fewer than 7 satellites, else clear.
   */
  function InsAlarm(inited: bool, valueError: bool, varianceError: bool, outdoor: bool, satellites: int): (r: Severity)
    ensures !inited ==> r == Error
    ensures r == Critical <==> inited && (valueError || varianceError)
    ensures r == Cleared <==> inited && !valueError && !varianceError && !(outdoor && satellites < 7)
    ensures r != Warning
  {
    if !inited then Error
    else if valueError then Critical
    else if varianceError then Critical
    else if outdoor && satellites < 7 then Error
    else Cleared
  }

  const DT_MAX: real := 0.01
  const DT_MIN: real := 0.001

  /** The measured step in seconds, clamped to [1 ms, 10 ms]; a step inside that range is kept. */
  function ClampDt(dT: real): (r: real)
    ensures DT_MIN <= r <= DT_MAX
    ensures DT_MIN < dT <= DT_MAX ==> r == dT
    ensures dT > DT_MAX ==> r == DT_MAX
    ensures dT <= DT_MIN ==> r == DT_MIN
  {
    if dT > DT_MAX then DT_MAX
    else if dT <= DT_MIN then DT_MIN
    else dT
  }

  // ---------------------------------------------------------------------
  // Staged start-up
  // ---------------------------------------------------------------------

  /** All that the start-up waits for: a magnetometer, a barometer, the GPS outdoors, and good variances. */
  predicate InitReady(inited: bool, s: StreamFlags, outdoor: bool, varianceError: bool)
  {
    !inited && s.mag && s.baro && (s.gps || !outdoor) && !varianceError
  }

  /** init_stage++, and inited once it exceeds 10. */
  function StageStep(stage: nat): (nat, bool)
  {
    (stage + 1, stage + 1 > 10)
  }

  /** (init_stage, inited) after k start-up steps following a first run. */
  function StagesFrom(k: nat): (nat, bool)
  {
    if k == 0 then (0, false) else StageStep(StagesFrom(k - 1).0)
  }

  /**
   * The k-th start-up step (each one the StageStep of
   * AttitudeEstimator.InsStartupStep) leaves init_stage at k; the filter
   * counts as initialised from the 11th step on (one reset and ten
   * predictions), and not before.
   */
  lemma {:induction false} StagingCount(k: nat)
    ensures StagesFrom(k) == (k, k > 10)
  {
    if k > 0 {
      StagingCount(k - 1);
    }
  }

  // ---------------------------------------------------------------------
  // Sensor mask of a correction
  // ---------------------------------------------------------------------

  // The sensor bits of the INSGPS library (insgps.h is not part of this model).
  const HORIZ_POS_SENSORS: bv16 := 0x003
  const POS_SENSORS: bv16 := 0x007
  const HORIZ_SENSORS: bv16 := 0x018
  const VERT_SENSORS: bv16 := 0x020
  const MAG_SENSORS: bv16 := 0x1C0
  const BARO_SENSOR: bv16 := 0x200
  const FULL_SENSORS: bv16 := 0x3FF

  /** The velocity bits are set indoors, with GPS velocity outdoors, or with airspeed alone. */
  predicate VelocityFed(s: StreamFlags, outdoor: bool)
  {
    !outdoor || (s.gpsVel && outdoor) || (s.airspeed && !s.gpsVel && !s.gps)
  }

  /**
   * The sensors of one correction: magnetometer, barometer, GPS position
   * outdoors (or the fake indoor position), GPS velocity outdoors, and
   * airspeed when neither GPS stream is in.  Only the library's sensor bits
   * are used, and the mask is empty exactly when the filter is outdoors
   * with no news at all.
   */
  function SensorMask(s: StreamFlags, outdoor: bool): (m: bv16)
    ensures m & MAG_SENSORS == (if s.mag then MAG_SENSORS else 0)
    ensures m & BARO_SENSOR == (if s.baro then BARO_SENSOR else 0)
    ensures m & POS_SENSORS == (if (s.gps && outdoor) || !outdoor then POS_SENSORS else 0)
    ensures m & (HORIZ_SENSORS | VERT_SENSORS) == (if VelocityFed(s, outdoor) then HORIZ_SENSORS | VERT_SENSORS else 0)
    ensures m & !FULL_SENSORS == 0
    ensures m == 0 <==> outdoor && s == NoStreams
  {
    (if s.mag then MAG_SENSORS else 0)
    | (if s.baro then BARO_SENSOR else 0)
    | (if s.gps && outdoor then POS_SENSORS
       else if !outdoor then HORIZ_SENSORS | HORIZ_POS_SENSORS | POS_SENSORS | VERT_SENSORS
       else 0)
    | (if s.gpsVel && outdoor then HORIZ_SENSORS | VERT_SENSORS else 0)
    | (if s.airspeed && !s.gpsVel && !s.gps then HORIZ_SENSORS | VERT_SENSORS else 0)
  }

  /** The mask built up bit group by bit group, in the order of the source. */
  method AssembleSensors(s: StreamFlags, outdoor: bool) returns (m: bv16)
    ensures m == SensorMask(s, outdoor)
  {
    m := 0;
    if s.mag {
      m := m | MAG_SENSORS;
    }
    if s.baro {
      m := m | BARO_SENSOR;
    }
    if s.gps && outdoor {
      m := m | POS_SENSORS;
    } else if !outdoor {
      m := m | HORIZ_SENSORS | HORIZ_POS_SENSORS;
      m := m | POS_SENSORS | VERT_SENSORS;
    }
    if s.gpsVel && outdoor {
      m := m | HORIZ_SENSORS | VERT_SENSORS;
    }
    if s.airspeed && !s.gpsVel && !s.gps {
      m := m | HORIZ_SENSORS | VERT_SENSORS;
    }
  }

  // ---------------------------------------------------------------------
  // Barometric offset
  // ---------------------------------------------------------------------

  const BARO_OFFSET_LOWPASS_ALPHA: real := 0.9997

  /** The offset that makes the barometer read the GPS height: -NED.Down - baro. */
  function BaroTarget(ned: Vec3, baro: Float): Float
  {
    Sub(Neg(ned.z), baro)
  }

  /** One step of the low-pass filter that tracks the barometric offset. */
  function BaroOffsetLowPass(offset: Float, target: Float): Float
  {
    Add(Mul(Finite(BARO_OFFSET_LOWPASS_ALPHA), offset),
        Mul(Sub(One, Finite(BARO_OFFSET_LOWPASS_ALPHA)), target))
  }

  /**
   * The filtered offset moves towards the target by 0.03 % of the distance:
   * it stays finite, its distance to the target shrinks by the factor
   * 0.9997, and a target already reached is kept.
   */
  lemma BaroOffsetContracts(offset: real, target: real)
    ensures var r := BaroOffsetLowPass(Finite(offset), Finite(target));
            && r.Finite?
            && r.v - target == BARO_OFFSET_LOWPASS_ALPHA * (offset - target)
  {
    var a := Mul(Finite(BARO_OFFSET_LOWPASS_ALPHA), Finite(offset));
    assert a == Finite(BARO_OFFSET_LOWPASS_ALPHA * offset);
    var w := Sub(One, Finite(BARO_OFFSET_LOWPASS_ALPHA));
    assert w == Finite(1.0 - BARO_OFFSET_LOWPASS_ALPHA);
    var b := Mul(w, Finite(target));
    assert b == Finite((1.0 - BARO_OFFSET_LOWPASS_ALPHA) * target);
  }

  /** The offset fixed at start-up outdoors: the barometer plus the offset gives the GPS height. */
  function OutdoorInitialOffset(pos: Vec3, baro: Float): Float
  {
    BaroTarget(pos, baro)
  }

  lemma OutdoorOffsetAligns(pos: Vec3, baro: Float)
    requires pos.z.Finite? && baro.Finite?
    ensures Add(baro, OutdoorInitialOffset(pos, baro)) == Neg(pos.z)
  {
  }

  /** Indoors the start-up offset is -baro, so the initial height -(baro + offset) is zero. */
  function IndoorInitialOffset(baro: Float): (r: Float)
    ensures baro.Finite? ==> r.Finite? && Neg(Add(baro, r)) == Zero
    ensures !baro.Finite? ==> !Neg(Add(baro, r)).Finite?
  {
    Neg(baro)
  }

  /** The position the filter is started at: getNED of the fix outdoors, zero height indoors. */
  function InitialPosition(outdoor: bool, t: Vec3, home: HomeLocation, gps: GpsPosition, baro: Float): (pos: Vec3)
    ensures !outdoor && baro.Finite? ==> pos == ZeroVec
    ensures !outdoor && !baro.Finite? ==> !pos.z.Finite?
  {
    if outdoor then GetNed(t, home, gps)
    else Vec3(Zero, Zero, Neg(Add(baro, IndoorInitialOffset(baro))))
  }

  /** The fake indoor measurement: no horizontal movement, height from the corrected barometer. */
  function IndoorNed(baro: Float, baroOffset: Float): Vec3
  {
    Vec3(Zero, Zero, Neg(Add(baro, baroOffset)))
  }

  /**
   * The position measurement of a correction: getNED of the fix when the
   * GPS position is in, the fake indoor position indoors, and the origin
   * otherwise (the mask then has no position bits).
   */
  function CorrectionNed(s: StreamFlags, outdoor: bool, t: Vec3, home: HomeLocation, gps: GpsPosition,
                         baro: Float, baroOffset: Float): (ned: Vec3)
    ensures !outdoor ==> ned == IndoorNed(baro, baroOffset)
    ensures outdoor && !s.gps ==> ned == ZeroVec
  {
    if s.gps && outdoor then GetNed(t, home, gps)
    else if !outdoor then IndoorNed(baro, baroOffset)
    else ZeroVec
  }

  /**
   * The velocity measurement of a correction: GPS velocity outdoors when it
   * is in, else the true airspeed along the body x axis rotated by the
   * predicted attitude when airspeed is the only source, else zero.
   */
  function CorrectionVel(s: StreamFlags, outdoor: bool, gpsVel: Vec3, airspeedVel: Vec3): (vel: Vec3)
    ensures !VelocityFed(s, outdoor) ==> vel == ZeroVec
    ensures s.gpsVel && outdoor ==> vel == gpsVel
  {
    if s.airspeed && !s.gpsVel && !s.gps then airspeedVel
    else if s.gpsVel && outdoor then gpsVel
    else ZeroVec
  }

  // ---------------------------------------------------------------------
  // Inputs of the filter
  // ---------------------------------------------------------------------

  /** DEG2RAD on a float. */
  function Deg2RadF(a: Float): Float
  {
    Div(Mul(a, Finite(PI)), Finite(180.0))
  }

  /**
   * The rates for INSStatePrediction in rad/s: the gyro sample, with the
   * bias added back when the sensor module already removed it.
   */
  function PredictionRates(gyros: Vec3, bias: Vec3, biasCorrectedRaw: bool): Vec3
  {
    var g := Vec3(Deg2RadF(gyros.x), Deg2RadF(gyros.y), Deg2RadF(gyros.z));
    if biasCorrectedRaw then Vec3(Add(g.x, Deg2RadF(bias.x)), Add(g.y, Deg2RadF(bias.y)), Add(g.z, Deg2RadF(bias.z)))
    else g
  }

  lemma Deg2RadRestoresBias(g: real, b: real)
    ensures Add(Deg2RadF(Finite(g - b)), Deg2RadF(Finite(b))) == Deg2RadF(Finite(g))
  {
    assert Deg2RadF(Finite(b)) == Finite(b * PI / 180.0);
    assert Deg2RadF(Finite(g - b)) == Finite((g - b) * PI / 180.0);
    assert Deg2RadF(Finite(g)) == Finite(g * PI / 180.0);
  }

  /**
   * The filter sees the same raw rate whichever way the sensor module is
   * configured: a bias-corrected sample g - b with b added back gives what
   * the uncorrected sample g gives.
   */
  lemma {:induction false} PredictionRatesRaw(gyros: Vec3, bias: Vec3)
    requires gyros.IsFinite() && bias.IsFinite()
    ensures var corrected := Vec3(Finite(gyros.x.v - bias.x.v), Finite(gyros.y.v - bias.y.v), Finite(gyros.z.v - bias.z.v));
            PredictionRates(corrected, bias, true) == PredictionRates(gyros, bias, false)
  {
    Deg2RadRestoresBias(gyros.x.v, bias.x.v);
    Deg2RadRestoresBias(gyros.y.v, bias.y.v);
    Deg2RadRestoresBias(gyros.z.v, bias.z.v);
  }

  /** TrueAirspeed: the calibrated airspeed scaled by IAS2TAS at the height home altitude - Down. */
  function TrueAirspeed(calibrated: Float, homeAltitude: Float, down: Float): Float
  {
    Mul(calibrated, Ias2Tas(Sub(homeAltitude, down)))
  }

  /**
   * For finite inputs, true airspeed is the calibrated airspeed scaled by
   * 1 + 2% per 304.8 m of the altitude home altitude - Down: at altitude 0
   * (Down equal to the home altitude) the two agree, and at the home
   * location itself (Down = 0) the factor is IAS2TAS of the home altitude.
   */
  lemma {:induction false} TrueAirspeedScaling(calibrated: real, home: real, down: real)
    ensures TrueAirspeed(Finite(calibrated), Finite(home), Finite(down))
              == Finite(calibrated * (1.0 + 0.02 * (home - down) / 304.8))
    ensures TrueAirspeed(Finite(calibrated), Finite(home), Finite(home)) == Finite(calibrated)
    ensures TrueAirspeed(Finite(calibrated), Finite(home), Zero) == Mul(Finite(calibrated), Ias2Tas(Finite(home)))
  {
    var h := home - down;
    assert Sub(Finite(home), Finite(down)) == Finite(h);
    assert Mul(Finite(0.02), Finite(h)) == Finite(0.02 * h);
    assert Div(Finite(0.02 * h), Finite(304.8)) == Finite(0.02 * h / 304.8);
    assert Ias2Tas(Finite(h)) == Finite(1.0 + 0.02 * h / 304.8);
    assert Sub(Finite(home), Finite(home)) == Zero;
    Ias2TasGrowth(0.0);
    assert Sub(Finite(home), Zero) == Finite(home);
  }

  // ---------------------------------------------------------------------
  // Variances handed to the filter
  // ---------------------------------------------------------------------

  /** The variances set at start-up: magnetometer R[6..8], accels Q[3..5], gyros Q[0..2], gyro drift Q[6..8], baro R[9]. */
  datatype InsVariances = InsVariances(mag: Vec3, accel: Vec3, gyro: Vec3, gyroBias: Vec3, baro: Float)

  function InitialVariances(ekf: EkfConfiguration): InsVariances
    requires ekf.WellFormed()
  {
    InsVariances(
      Vec3(ekf.r[R_MAGX], ekf.r[R_MAGX + 1], ekf.r[R_MAGX + 2]),
      Vec3(ekf.q[Q_ACCELX], ekf.q[Q_ACCELX + 1], ekf.q[Q_ACCELX + 2]),
      Vec3(ekf.q[Q_GYROX], ekf.q[Q_GYROX + 1], ekf.q[Q_GYROX + 2]),
      Vec3(ekf.q[Q_GYRODRIFTX], ekf.q[Q_GYRODRIFTX + 1], ekf.q[Q_GYRODRIFTX + 2]),
      ekf.r[R_BAROZ])
  }

  predicate UsableVariance(a: Float)
  {
    a.Finite? && a.v >= 1.0e-15
  }

  predicate UsableVariances(v: Vec3)
  {
    UsableVariance(v.x) && UsableVariance(v.y) && UsableVariance(v.z)
  }

  /** A configuration that passes the settings check hands only usable variances to the filter at start-up. */
  lemma InitialVariancesUsable(ekf: EkfConfiguration)
    requires ekf.WellFormed() && !AnyInvalidVariance(ekf)
    ensures var v := InitialVariances(ekf);
            UsableVariances(v.mag) && UsableVariances(v.accel) && UsableVariances(v.gyro)
            && UsableVariances(v.gyroBias) && UsableVariance(v.baro)
  {
    assert !InvalidVar(ekf.r[6]) && !InvalidVar(ekf.r[7]) && !InvalidVar(ekf.r[8]) && !InvalidVar(ekf.r[9]);
    assert forall i :: 0 <= i < Q_NUMELEM ==> !InvalidVar(ekf.q[i]);
  }

  /** The position and velocity variances of a correction: GPS R[0..5], indoor FakeR, or airspeed FakeR. */
  datatype PosVelVariances = PosVelVariances(pos: Vec3, vel: Vec3)

  function Same(a: Float): Vec3 { Vec3(a, a, a) }

  function GpsPosVelVariances(ekf: EkfConfiguration): PosVelVariances
    requires ekf.WellFormed()
  {
    PosVelVariances(Vec3(ekf.r[R_GPSPOSNORTH], ekf.r[R_GPSPOSNORTH + 1], ekf.r[R_GPSPOSNORTH + 2]),
                    Vec3(ekf.r[R_GPSVELNORTH], ekf.r[R_GPSVELNORTH + 1], ekf.r[R_GPSVELNORTH + 2]))
  }

  function IndoorPosVelVariances(ekf: EkfConfiguration): PosVelVariances
    requires ekf.WellFormed()
  {
    PosVelVariances(Same(ekf.fakeR[FAKER_FAKEGPSPOSINDOOR]), Same(ekf.fakeR[FAKER_FAKEGPSVELINDOOR]))
  }

  function AirspeedPosVelVariances(ekf: EkfConfiguration): PosVelVariances
    requires ekf.WellFormed()
  {
    PosVelVariances(Same(ekf.fakeR[FAKER_FAKEGPSPOSINDOOR]), Same(ekf.fakeR[FAKER_FAKEGPSVELAIRSPEED]))
  }

  /** The GPS variances of a step whose GPS stream survived the gating are usable. */
  lemma GpsVariancesUsable(ekf: EkfConfiguration)
    requires ekf.WellFormed() && !GpsVarianceInvalid(ekf.r)
    ensures UsableVariances(GpsPosVelVariances(ekf).pos) && UsableVariances(GpsPosVelVariances(ekf).vel)
  {
  }
}
