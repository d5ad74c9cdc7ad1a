/**
 * Records shared by the attitude module (flight/modules/Attitude/revolution/attitude.c):
 * sensor samples, the local copies of the settings objects, the calls into
 * external code, and the small pure helpers of that file: invalid,
 * invalid_var, IAS2TAS and the getNED tangent-plane conversion.
 */
module AttitudeTypes {
  import opened IeeeFloat

  datatype Vec3 = Vec3(x: Float, y: Float, z: Float)
  {
    predicate IsFinite() { x.Finite? && y.Finite? && z.Finite? }
  }

  const ZeroVec: Vec3 := Vec3(Zero, Zero, Zero)

  /** q1..q4 of AttitudeActual, scalar part first. */
  datatype Quat = Quat(q0: Float, q1: Float, q2: Float, q3: Float)
  {
    predicate IsFinite() { q0.Finite? && q1.Finite? && q2.Finite? && q3.Finite? }
  }

  const IdentityQuat: Quat := Quat(One, Zero, Zero, Zero)

  /** The part of the INSGPS library's `Nav` structure that the module reads back. */
  datatype NavState = NavState(q: Quat, pos: Vec3, vel: Vec3, gyroBias: Vec3)

  /** Severity of the attitude system alarm, from least to most severe. */
  datatype Severity = Cleared | Warning | Error | Critical

  datatype ArmedState = Disarmed | Arming | Armed

  /** HomeLocation: latitude and longitude in degrees * 1e7, altitude in metres, Be the reference field. */
  datatype HomeLocation = HomeLocation(latitude: int, longitude: int, altitude: Float, be: Vec3, isSet: bool)

  datatype GpsPosition = GpsPosition(
    latitude: int, longitude: int, altitude: Float, geoidSeparation: Float, satellites: int, pdop: Float)

  datatype AirspeedSensor = AirspeedSensor(calibrated: Float, connected: bool)

  datatype AirspeedActual = AirspeedActual(calibrated: Float, trueAirspeed: Float)

  /** The fields of AttitudeSettings that the complementary filter uses. */
  datatype AttitudeSettings = AttitudeSettings(accelKp: Float, accelKi: Float, yawBiasRate: Float, zeroDuringArming: bool)

  // Element counts and indices of the EKFConfiguration arrays.
  const P_NUMELEM: nat := 13
  const Q_NUMELEM: nat := 9
  const R_NUMELEM: nat := 10
  const FAKER_NUMELEM: nat := 3
  const Q_GYROX: nat := 0
  const Q_ACCELX: nat := 3
  const Q_GYRODRIFTX: nat := 6
  const R_GPSPOSNORTH: nat := 0
  const R_GPSVELNORTH: nat := 3
  const R_MAGX: nat := 6
  const R_BAROZ: nat := 9
  const FAKER_FAKEGPSPOSINDOOR: nat := 0
  const FAKER_FAKEGPSVELINDOOR: nat := 1
  const FAKER_FAKEGPSVELAIRSPEED: nat := 2

  /** EKFConfiguration: initial covariance P, process noise Q, measurement noise R and the indoor/airspeed FakeR. */
  datatype EkfConfiguration = EkfConfiguration(p: seq<Float>, q: seq<Float>, r: seq<Float>, fakeR: seq<Float>)
  {
    predicate WellFormed()
    {
      |p| == P_NUMELEM && |q| == Q_NUMELEM && |r| == R_NUMELEM && |fakeR| == FAKER_NUMELEM
    }
  }

  // Values of RevoSettings.FusionAlgorithm.
  const FUSION_COMPLEMENTARY: nat := 0
  const FUSION_INSINDOOR: nat := 1
  const FUSION_INSOUTDOOR: nat := 2
  /** The value running_algorithm starts with: no algorithm. */
  const NO_ALGORITHM: nat := 0xffff_ffff

  /** The settings objects as currently published, which the settings callback copies from. */
  datatype Published = Published(
    armed: ArmedState,
    biasCorrectedRaw: bool,
    ekf: EkfConfiguration,
    fusionAlgorithm: nat,
    home: HomeLocation,
    attitudeSettings: AttitudeSettings)

  /** What the settings callback was called for: no object (the forced first call) or one updated object. */
  datatype SettingsEvent =
    | Forced
    | FlightStatusChanged
    | RevoCalibrationChanged
    | EkfConfigurationChanged
    | RevoSettingsChanged
    | HomeLocationChanged
    | AttitudeSettingsChanged

  /**
   * Code the module calls but whose arithmetic is not modelled: the math
   * library, the delay timer, the rotation and Euler-step numerics of
   * CoordinateConversions and the INSGPS filter.
   */
  datatype Externals = Externals(
    sqrt: real -> real,                     // sqrtf of a finite non-negative argument
    cos: real -> real,                      // cosf
    diffUs: (nat, nat) -> nat,              // PIOS_DELAY_DiffuS(stored raw time), read at raw time now
    level: (Vec3, Vec3) -> Quat,            // atan2 levelling of (accels, mag) and RPY2Quaternion
    rotate: (Quat, Vec3) -> Vec3,           // Quaternion2R then rot_mult
    integrate: (Quat, Vec3, real) -> Quat,  // one Euler step of the quaternion kinematics (rate in deg/s, dT)
    predict: (NavState, Vec3, Vec3, real) -> NavState,               // INSStatePrediction(gyros, accels, dT)
    correct: (NavState, Vec3, Vec3, Vec3, Float, bv16) -> NavState)  // INSCorrection(mag, NED, vel, baro, sensors)
  {
    /** sqrtf returns the non-negative square root. */
    ghost predicate Sound()
    {
      forall x: real :: 0.0 <= x ==> 0.0 <= sqrt(x) && Sq(sqrt(x)) == x
    }
  }

  /**
   * What one iteration of the task loop observes: which queues delivered an
   * event (the blocking gyro/accel waits as one flag each), whether the
   * objects are in read-only (simulation) mode, the latest sample of every
   * sensor object, the scheduler tick count and the raw delay-timer value.
   */
  datatype Cycle = Cycle(
    gyroArrived: bool, accelArrived: bool, attitudeReadOnly: bool,
    magArrived: bool, baroArrived: bool, airspeedArrived: bool, gpsArrived: bool, gpsVelArrived: bool,
    gpsReadOnly: bool, gpsVelReadOnly: bool,
    gyros: Vec3, accels: Vec3, mag: Vec3, magAfterWait: Vec3, baroAltitude: Float,
    airspeed: AirspeedSensor, gps: GpsPosition, gpsVel: Vec3,
    ticks: nat, now: nat,
    attitudeSettingsObject: AttitudeSettings)

  const PI: real := 3.14159265358979323846
  const EARTH_RADIUS: real := 6.378137e6

  function Deg2Rad(d: real): real { d * PI / 180.0 }

  /** x*x + y*y + z*z, in the order the source writes it. */
  function SumSq(v: Vec3): Float
  {
    Add(Add(Mul(v.x, v.x), Mul(v.y, v.y)), Mul(v.z, v.z))
  }

  function DivVec(v: Vec3, m: Float): Vec3
  {
    Vec3(Div(v.x, m), Div(v.y, m), Div(v.z, m))
  }

  /** The product of a finite value with itself is finite and not negative. */
  lemma MulSelfNonNegative(a: Float)
    requires a.Finite?
    ensures Mul(a, a).Finite? && Mul(a, a).v >= 0.0
  {
  }

  lemma {:induction false} SumSqNonNegative(v: Vec3)
    requires v.IsFinite()
    ensures SumSq(v).Finite? && SumSq(v).v >= 0.0
  {
    MulSelfNonNegative(v.x);
    MulSelfNonNegative(v.y);
    MulSelfNonNegative(v.z);
  }

  /** invalid(): the value is a NaN or an infinity. */
  predicate Invalid(a: Float)
  {
    a.NaN? || a.PosInf? || a.NegInf?
  }

  /** invalid_var(): a variance is unusable when it is not finite or below 1e-15. */
  function InvalidVar(a: Float): (r: bool)
    ensures !r <==> a.Finite? && a.v >= 1.0e-15
  {
    Invalid(a) || Less(a, Finite(1.0e-15))
  }

  /**
   * The settings callback's check of an EKFConfiguration: some entry of P,
   * Q or R is not a usable variance.  FakeR is not checked.
   */
  predicate AnyInvalidVariance(ekf: EkfConfiguration)
  {
    || (exists i :: 0 <= i < |ekf.p| && InvalidVar(ekf.p[i]))
    || (exists i :: 0 <= i < |ekf.q| && InvalidVar(ekf.q[i]))
    || (exists i :: 0 <= i < |ekf.r| && InvalidVar(ekf.r[i]))
  }

  /** IAS2TAS: the factor from calibrated to true airspeed at altitude `alt`. */
  function Ias2Tas(alt: Float): Float
  {
    Add(One, Div(Mul(Finite(0.02), alt), Finite(304.8)))
  }

  /** The factor is 1 at sea level and grows by 2% per 1000 ft (304.8 m); it is undefined for undefined altitudes. */
  lemma Ias2TasGrowth(a: real)
    ensures Ias2Tas(Zero) == One
    ensures Ias2Tas(Finite(a)).Finite? && Ias2Tas(Finite(a + 304.8)).Finite?
    ensures Ias2Tas(Finite(a + 304.8)).v == Ias2Tas(Finite(a)).v + 0.02
    ensures Ias2Tas(NaN).NaN?
  {
    assert Mul(Finite(0.02), Finite(a)) == Finite(0.02 * a);
    assert Div(Finite(0.02 * a), Finite(304.8)) == Finite(0.02 * a / 304.8);
    assert Mul(Finite(0.02), Finite(a + 304.8)) == Finite(0.02 * (a + 304.8));
    assert Div(Finite(0.02 * (a + 304.8)), Finite(304.8)) == Finite(0.02 * (a + 304.8) / 304.8);
    assert 0.02 * (a + 304.8) / 304.8 == 0.02 * a / 304.8 + 0.02;
  }

  /** The cached coefficients T that turn a geodetic delta into NED, computed from the home location. */
  function NedCoefficients(home: HomeLocation, cos: real -> real): Vec3
  {
    var lat := Deg2Rad(home.latitude as real / 10.0e6);
    var radius := Add(home.altitude, Finite(EARTH_RADIUS));
    Vec3(radius, Mul(Finite(cos(lat)), radius), Finite(-1.0))
  }

  /** dL of getNED: latitude and longitude offsets in radians, altitude offset in metres. */
  function GeodeticDelta(home: HomeLocation, gps: GpsPosition): Vec3
  {
    Vec3(
      Finite(Deg2Rad((gps.latitude - home.latitude) as real / 10.0e6)),
      Finite(Deg2Rad((gps.longitude - home.longitude) as real / 10.0e6)),
      Sub(Add(gps.altitude, gps.geoidSeparation), home.altitude))
  }

  /** getNED: each NED component is the cached coefficient times the matching geodetic delta. */
  function GetNed(t: Vec3, home: HomeLocation, gps: GpsPosition): (ned: Vec3)
  {
    var dl := GeodeticDelta(home, gps);
    Vec3(Mul(t.x, dl.x), Mul(t.y, dl.y), Mul(t.z, dl.z))
  }

  /** Back from NED to the geodetic delta through the same coefficients. */
  function NedToDelta(t: Vec3, ned: Vec3): Vec3
  {
    Vec3(Div(ned.x, t.x), Div(ned.y, t.y), Div(ned.z, t.z))
  }

  /** At the home position itself, with no geoid separation, getNED gives the origin. */
  lemma GetNedAtHome(home: HomeLocation, cos: real -> real, gps: GpsPosition)
    requires home.altitude.Finite?
    requires gps.latitude == home.latitude && gps.longitude == home.longitude
    requires gps.altitude == home.altitude && gps.geoidSeparation == Zero
    ensures GetNed(NedCoefficients(home, cos), home, gps) == ZeroVec
  {
    var t := NedCoefficients(home, cos);
    var dl := GeodeticDelta(home, gps);
    assert dl.x == Zero && dl.y == Zero;
    assert Add(gps.altitude, gps.geoidSeparation) == home.altitude;
    assert dl.z == Zero;
    assert t.x.Finite? && t.y.Finite? && t.z.Finite?;
  }

  /** Converting a finite geodetic delta to NED and back through the same non-zero coefficients gives the delta again. */
  lemma GetNedRoundTrip(t: Vec3, home: HomeLocation, gps: GpsPosition)
    requires t.IsFinite() && t.x.v != 0.0 && t.y.v != 0.0 && t.z.v != 0.0
    requires GeodeticDelta(home, gps).IsFinite()
    ensures NedToDelta(t, GetNed(t, home, gps)) == GeodeticDelta(home, gps)
  {
    var dl := GeodeticDelta(home, gps);
    assert t.x.v * dl.x.v / t.x.v == dl.x.v;
    assert t.y.v * dl.y.v / t.y.v == dl.y.v;
    assert t.z.v * dl.z.v / t.z.v == dl.z.v;
  }
}
