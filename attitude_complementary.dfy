/**
 * The numeric steps of updateAttitudeComplementary
 * (flight/modules/Attitude/revolution/attitude.c), one pure function per
 * step: the gain schedule, the accelerometer and magnetometer errors, the
 * bias integration, the rate correction and the renormalisation of the
 * stepped quaternion.  The Euler step itself and the body-frame rotation
 * of the reference field are calls into CoordinateConversions and are
 * taken from `Externals`.
 */
module ComplementaryFilter {
  import opened IeeeFloat
  import opened AttitudeTypes

  /** magKi: integral gain of the yaw bias from the magnetometer error. */
  const MAG_KI: real := 0.000001
  /** magKp once the settings are loaded. */
  const MAG_KP_DEFAULT: real := 0.01
  /** AccelKp, AccelKi, YawBiasRate and magKp while the filter converges fast. */
  const BOOST_ACCEL_KP: real := 1.0
  const BOOST_ACCEL_KI: real := 0.9
  const BOOST_YAW_BIAS_RATE: real := 0.23
  const BOOST_MAG_KP: real := 1.0
  /** Below this norm (or when the norm is not a number) the quaternion is reset. */
  const MIN_QUAT_NORM: real := 1.0e-3

  // ---------------------------------------------------------------------
  // Gain schedule
  // ---------------------------------------------------------------------

  /** The gains the filter runs with; `loaded` is the static `init` being non-zero. */
  datatype Gains = Gains(settings: AttitudeSettings, magKp: Float, loaded: bool)

  /** The settings with the fast-convergence gains written over them. */
  function Boosted(s: AttitudeSettings): AttitudeSettings
  {
    s.(accelKp := Finite(BOOST_ACCEL_KP), accelKi := Finite(BOOST_ACCEL_KI), yawBiasRate := Finite(BOOST_YAW_BIAS_RATE))
  }

  /** Between 1 s and 7 s after boot, before the settings were ever loaded. */
  predicate InSettlingWindow(g: Gains, ticks: nat)
  {
    !g.loaded && ticks < 7000 && ticks > 1000
  }

  /** ZeroDuringArming is on and the vehicle is arming. */
  predicate ArmingBoost(g: Gains, armed: ArmedState)
  {
    g.settings.zeroDuringArming && armed == Arming
  }

  /**
   * The gain schedule at the start of every steady-state step: fast gains in
   * the settling window or while arming (arming also forgets that the
   * settings were loaded), otherwise the stored AttitudeSettings object is
   * loaded once with magKp = 0.01 and then kept.
   */
  function ScheduleGains(g: Gains, ticks: nat, armed: ArmedState, stored: AttitudeSettings): (r: Gains)
    ensures r.loaded <==> !InSettlingWindow(g, ticks) && !ArmingBoost(g, armed)
    ensures !r.loaded ==> r.settings == Boosted(g.settings) && r.magKp == Finite(BOOST_MAG_KP)
    ensures r.loaded && !g.loaded ==> r.settings == stored && r.magKp == Finite(MAG_KP_DEFAULT)
    ensures r.loaded && g.loaded ==> r == g
  {
    if InSettlingWindow(g, ticks) then
      g.(settings := Boosted(g.settings), magKp := Finite(BOOST_MAG_KP))
    else if ArmingBoost(g, armed) then
      Gains(Boosted(g.settings), Finite(BOOST_MAG_KP), false)
    else if !g.loaded then
      Gains(stored, Finite(MAG_KP_DEFAULT), true)
    else
      g
  }

  /**
   * Outside the settling window and while the vehicle is not arming, one
   * step loads the settings and every later step keeps them unchanged.
   */
  lemma {:induction false} ScheduleSettles(g: Gains, ticks: nat, armed: ArmedState, stored: AttitudeSettings)
    requires armed != Arming && (g.loaded || ticks >= 7000 || ticks <= 1000)
    ensures var r := ScheduleGains(g, ticks, armed, stored);
            r.loaded && ScheduleGains(r, ticks, armed, stored) == r
  {
    var r := ScheduleGains(g, ticks, armed, stored);
    assert r.loaded;
  }

  // ---------------------------------------------------------------------
  // Vector arithmetic on floats
  // ---------------------------------------------------------------------

  /**
   * CrossProduct of CoordinateConversions (that file is not part of this
   * model): the usual right-handed cross product a x b.
   */
  function Cross(a: Vec3, b: Vec3): Vec3
  {
    Vec3(
      Sub(Mul(a.y, b.z), Mul(a.z, b.y)),
      Sub(Mul(a.z, b.x), Mul(a.x, b.z)),
      Sub(Mul(a.x, b.y), Mul(a.y, b.x)))
  }

  // ---------------------------------------------------------------------
  // Accelerometer error
  // ---------------------------------------------------------------------

  /** grot: gravity (0, 0, -1 in the earth frame, up to sign) rotated into the body frame by q. */
  function GravityInBody(q: Quat): Vec3
  {
    var two := Finite(2.0);
    Vec3(
      Neg(Mul(two, Sub(Mul(q.q1, q.q3), Mul(q.q0, q.q2)))),
      Neg(Mul(two, Add(Mul(q.q2, q.q3), Mul(q.q0, q.q1)))),
      Neg(Add(Sub(Sub(Mul(q.q0, q.q0), Mul(q.q1, q.q1)), Mul(q.q2, q.q2)), Mul(q.q3, q.q3))))
  }

  /** accel_err: accels x grot divided by the magnitude of accels. */
  function AccelError(q: Quat, accels: Vec3, sqrt: real -> real): Vec3
  {
    DivVec(Cross(accels, GravityInBody(q)), Sqrt(sqrt, SumSq(accels)))
  }

  // ---------------------------------------------------------------------
  // Magnetometer error
  // ---------------------------------------------------------------------

  /**
   * mag_err after one step, as written: it is recomputed only when NO new
   * magnetometer event is waiting and zeroed when one is.  A non-finite
   * reading keeps the previous error; a reading or a rotated reference
   * (brot, the home Be rotated into the body frame) shorter than 1 gives a
   * zero error; otherwise it is the cross product of the two unit vectors.
   */
  function MagError(prev: Vec3, magArrived: bool, mag: Vec3, q: Quat, be: Vec3, ext: Externals): (r: Vec3)
    ensures magArrived ==> r == ZeroVec
    ensures !magArrived && !mag.IsFinite() ==> r == prev
  {
    if magArrived then ZeroVec
    else if !mag.IsFinite() then prev
    else
      var brot := ext.rotate(q, be);
      var magLen := Sqrt(ext.sqrt, SumSq(mag));
      var bmag := Sqrt(ext.sqrt, SumSq(brot));
      if Less(bmag, One) || Less(magLen, One) then ZeroVec
      else Cross(DivVec(mag, magLen), DivVec(brot, bmag))
  }

  lemma SquareBelowOne(r: real)
    requires 0.0 <= r && Sq(r) < 1.0
    ensures r < 1.0
  {
  }

  /** A finite magnetometer reading of length below 1 (no calibrated field) contributes no error. */
  lemma {:induction false} MagErrorShortReading(prev: Vec3, mag: Vec3, q: Quat, be: Vec3, ext: Externals)
    requires ext.Sound() && mag.IsFinite() && Less(SumSq(mag), One)
    ensures MagError(prev, false, mag, q, be, ext) == ZeroVec
  {
    SumSqNonNegative(mag);
    var s := SumSq(mag).v;
    SquareBelowOne(ext.sqrt(s));
    assert Less(Sqrt(ext.sqrt, SumSq(mag)), One);
  }

  // ---------------------------------------------------------------------
  // Bias integration and rate correction
  // ---------------------------------------------------------------------

  /** The gyro bias after integrating the errors: x and y from the accels, z from the magnetometer. */
  function IntegrateBias(bias: Vec3, accelErr: Vec3, magErr: Vec3, accelKi: Float): Vec3
  {
    Vec3(
      Sub(bias.x, Mul(accelErr.x, accelKi)),
      Sub(bias.y, Mul(accelErr.y, accelKi)),
      Sub(bias.z, Mul(magErr.z, Finite(MAG_KI))))
  }

  /**
   * The rates fed to the Euler step: bias removed unless the sensor module
   * already did, plus the proportional correction Kp * error / dT (the yaw
   * rate also gets the magnetometer term).
   */
  function CorrectedRates(gyros: Vec3, bias: Vec3, biasCorrectedRaw: bool, accelErr: Vec3, magErr: Vec3,
                          accelKp: Float, magKp: Float, dT: Float): Vec3
  {
    var g := if biasCorrectedRaw then gyros else Vec3(Sub(gyros.x, bias.x), Sub(gyros.y, bias.y), Sub(gyros.z, bias.z));
    Vec3(
      Add(g.x, Div(Mul(accelErr.x, accelKp), dT)),
      Add(g.y, Div(Mul(accelErr.y, accelKp), dT)),
      Add(Add(g.z, Div(Mul(accelErr.z, accelKp), dT)), Div(Mul(magErr.z, magKp), dT)))
  }

  // ---------------------------------------------------------------------
  // Renormalisation
  // ---------------------------------------------------------------------

  /** q, negated when q0 < 0 so that the scalar part is not negative. */
  function SignNormalised(q: Quat): (r: Quat)
    ensures !Less(r.q0, Zero)
    ensures r == q || r == Quat(Neg(q.q0), Neg(q.q1), Neg(q.q2), Neg(q.q3))
  {
    if Less(q.q0, Zero) then Quat(Neg(q.q0), Neg(q.q1), Neg(q.q2), Neg(q.q3)) else q
  }

  function QuatSumSq(q: Quat): Float
  {
    Add(Add(Add(Mul(q.q0, q.q0), Mul(q.q1, q.q1)), Mul(q.q2, q.q2)), Mul(q.q3, q.q3))
  }

  /** qmag: the Euclidean norm of q. */
  function Norm(q: Quat, sqrt: real -> real): Float
  {
    Sqrt(sqrt, QuatSumSq(q))
  }

  function Scaled(q: Quat, m: Float): Quat
  {
    Quat(Div(q.q0, m), Div(q.q1, m), Div(q.q2, m), Div(q.q3, m))
  }

  /** The sum of squares of a finite quaternion, over the reals. */
  function SumSqReal(q: Quat): real
    requires q.IsFinite()
  {
    q.q0.v * q.q0.v + q.q1.v * q.q1.v + q.q2.v * q.q2.v + q.q3.v * q.q3.v
  }

  /**
   * The renormalisation at the end of the step, as written: the identity
   * replaces q when |qmag| < 1e-3 or qmag is a NaN.  An infinite norm
   * passes the test, and q / qmag is then a NaN.
   */
  function NormaliseAsWritten(q: Quat, sqrt: real -> real): Quat
  {
    var s := SignNormalised(q);
    var qmag := Norm(s, sqrt);
    if Less(Abs(qmag), Finite(MIN_QUAT_NORM)) || qmag.NaN? then IdentityQuat else Scaled(s, qmag)
  }

  /**
   * A stepped quaternion with infinite components is published as a NaN by
   * the as-written renormalisation.  (-Inf, +Inf, +Inf, -Inf) is what the
   * Euler step makes of q = (0.5, 0.5, 0.5, 0.5) with an infinite roll rate;
   * it sign-normalises to (+Inf, -Inf, -Inf, +Inf), whose norm is +Inf.
   */
  lemma NormaliseAsWrittenPublishesNaN(sqrt: real -> real)
    ensures NormaliseAsWritten(Quat(NegInf, PosInf, PosInf, NegInf), sqrt).q0.NaN?
  {
    assert SignNormalised(Quat(NegInf, PosInf, PosInf, NegInf)) == Quat(PosInf, NegInf, NegInf, PosInf);
  }

  /**
   * The renormalisation with the reset extended to every non-finite norm:
   * the result is the identity or a finite unit quaternion, with a
   * non-negative scalar part.
   */
  function Normalise(q: Quat, sqrt: real -> real): Quat
  {
    var s := SignNormalised(q);
    var qmag := Norm(s, sqrt);
    if Less(Abs(qmag), Finite(MIN_QUAT_NORM)) || !qmag.Finite? then IdentityQuat else Scaled(s, qmag)
  }

  lemma {:induction false} QuatSumSqNonNegative(q: Quat)
    requires q.IsFinite()
    ensures QuatSumSq(q).Finite? && QuatSumSq(q).v >= 0.0
  {
    MulSelfNonNegative(q.q0);
    MulSelfNonNegative(q.q1);
    MulSelfNonNegative(q.q2);
    MulSelfNonNegative(q.q3);
  }

  /** A quaternion with a NaN or infinite component has a non-finite norm. */
  lemma {:induction false} NormOfNonFinite(q: Quat, sqrt: real -> real)
    requires !q.IsFinite()
    ensures !Norm(q, sqrt).Finite?
  {
    var a, b, c, d := Mul(q.q0, q.q0), Mul(q.q1, q.q1), Mul(q.q2, q.q2), Mul(q.q3, q.q3);
    assert !a.NegInf? && !b.NegInf? && !c.NegInf? && !d.NegInf?;
    assert !a.Finite? || !b.Finite? || !c.Finite? || !d.Finite?;
  }

  /**
   * After a complementary step the quaternion has a finite, non-negative
   * scalar part.  It is the identity whenever the norm is below 1e-3 or not
   * a number; otherwise it is the identity or the sign-normalised step
   * divided by a finite norm of at least 1e-3.
   */
  lemma {:induction false} NormaliseResult(q: Quat, ext: Externals)
    requires ext.Sound()
    ensures var r := Normalise(q, ext.sqrt);
            var s := SignNormalised(q);
            var qmag := Norm(s, ext.sqrt);
            && r.q0.Finite? && r.q0.v >= 0.0
            && ((Less(Abs(qmag), Finite(MIN_QUAT_NORM)) || qmag.NaN?) ==> r == IdentityQuat)
            && (r == IdentityQuat
                || (s.IsFinite() && qmag.Finite? && qmag.v >= MIN_QUAT_NORM && r == Scaled(s, qmag) && r.IsFinite()))
  {
    var s := SignNormalised(q);
    var qmag := Norm(s, ext.sqrt);
    if !s.IsFinite() {
      NormOfNonFinite(s, ext.sqrt);
    } else {
      QuatSumSqNonNegative(s);
      if !Less(Abs(qmag), Finite(MIN_QUAT_NORM)) {
        assert qmag.Finite? && qmag.v >= MIN_QUAT_NORM;
        assert s.q0.v >= 0.0;
      }
    }
  }

  // ---------------------------------------------------------------------
  // One steady-state step
  // ---------------------------------------------------------------------

  /** What a steady-state step leaves behind: the attitude, the gyro bias and mag_err. */
  datatype StepResult = StepResult(q: Quat, bias: Vec3, magErr: Vec3)

  /**
   * The numeric part of a steady-state step of the complementary filter:
   * the errors from the accels and the magnetometer, the bias integration,
   * the corrected rates, one Euler step over dT seconds and the
   * renormalisation.  The published attitude always has a finite,
   * non-negative scalar part and is the identity or a finite quaternion.
   */
  function AttitudeStep(q: Quat, bias: Vec3, prevMagErr: Vec3, g: Gains, biasCorrectedRaw: bool,
                        gyros: Vec3, accels: Vec3, magArrived: bool, mag: Vec3, be: Vec3,
                        dT: real, ext: Externals): (r: StepResult)
    requires ext.Sound()
    ensures r.q.q0.Finite? && r.q.q0.v >= 0.0
    ensures r.q == IdentityQuat || r.q.IsFinite()
    ensures magArrived ==> r.magErr == ZeroVec
    ensures !magArrived && !mag.IsFinite() ==> r.magErr == prevMagErr
  {
    var accelErr := AccelError(q, accels, ext.sqrt);
    var magErr := MagError(prevMagErr, magArrived, mag, q, be, ext);
    var newBias := IntegrateBias(bias, accelErr, magErr, g.settings.accelKi);
    var rates := CorrectedRates(gyros, newBias, biasCorrectedRaw, accelErr, magErr, g.settings.accelKp, g.magKp, Finite(dT));
    var stepped := ext.integrate(q, rates, dT);
    NormaliseResult(stepped, ext);
    StepResult(Normalise(stepped, ext.sqrt), newBias, magErr)
  }
}
