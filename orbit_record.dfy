/**
 * Model of src/utility/orbit.py: the orbit record of the orbit-transfer mission.
 * Each property has a setter that stores the value (angles converted from degrees to
 * radians) and emits its change signal, and a getter that returns the stored value
 * formatted to six decimals (angles converted back to degrees first). The update methods
 * write whole field groups through those setters.
 */
module OrbitRecord {
  import Utility
  import AstronomicalData
  import opened Wrappers
  import opened OrbitTypes

  /** The numeric properties of the record. */
  datatype Field =
    | Rx | Ry | Rz | Vx | Vy | Vz
    | SpecificAngularMomentum | SemiMajorAxis | Eccentricity
    | Inclination | RightAscensionAscendingNode | PeriapsisAnomaly | TrueAnomaly
    | PeriapsisRadius | ApoapsisRadius
  {
    /** The four angles are stored in radians and shown in degrees. */
    predicate IsAngle()
    {
      Inclination? || RightAscensionAscendingNode? || PeriapsisAnomaly? || TrueAnomaly?
    }
  }

  /** The change signals the record emits. */
  datatype Signal = BodyChanged | StateChanged | Changed(field: Field)

  /** The stored fields of a record, as one value. */
  datatype OrbitState = OrbitState(
    body: int, state: int, r: Vec3, v: Vec3,
    h: real, a: real, e: real, i: real, raan: real, argp: real, theta: real,
    rp: real, ra: real)

  /** The stored (unformatted) value of a numeric property. */
  function Stored(s: OrbitState, f: Field): real
  {
    match f
    case Rx => s.r.x
    case Ry => s.r.y
    case Rz => s.r.z
    case Vx => s.v.x
    case Vy => s.v.y
    case Vz => s.v.z
    case SpecificAngularMomentum => s.h
    case SemiMajorAxis => s.a
    case Eccentricity => s.e
    case Inclination => s.i
    case RightAscensionAscendingNode => s.raan
    case PeriapsisAnomaly => s.argp
    case TrueAnomaly => s.theta
    case PeriapsisRadius => s.rp
    case ApoapsisRadius => s.ra
  }

  /** A property getter: the stored value formatted to six decimals, angles in degrees. */
  function Read(s: OrbitState, f: Field): real
  {
    Utility.Format(Stored(s, f), 6, f.IsAngle())
  }

  /**
   * A property setter: stores the value, converted to radians for an angle.
   * Exactly that property changes.
   */
  function Assign(s: OrbitState, f: Field, val: real): (t: OrbitState)
    ensures Stored(t, f) == if f.IsAngle() then Utility.DegToRad(val) else val
    ensures forall g: Field :: g != f ==> Stored(t, g) == Stored(s, g)
    ensures t.body == s.body && t.state == s.state
  {
    match f
    case Rx => s.(r := s.r.(x := val))
    case Ry => s.(r := s.r.(y := val))
    case Rz => s.(r := s.r.(z := val))
    case Vx => s.(v := s.v.(x := val))
    case Vy => s.(v := s.v.(y := val))
    case Vz => s.(v := s.v.(z := val))
    case SpecificAngularMomentum => s.(h := val)
    case SemiMajorAxis => s.(a := val)
    case Eccentricity => s.(e := val)
    case Inclination => s.(i := Utility.DegToRad(val))
    case RightAscensionAscendingNode => s.(raan := Utility.DegToRad(val))
    case PeriapsisAnomaly => s.(argp := Utility.DegToRad(val))
    case TrueAnomaly => s.(theta := Utility.DegToRad(val))
    case PeriapsisRadius => s.(rp := val)
    case ApoapsisRadius => s.(ra := val)
  }

  /** Setting a property and reading it back gives the value truncated to six decimals, angles included. */
  lemma SetThenGet(s: OrbitState, f: Field, val: real)
    ensures Read(Assign(s, f, val), f) == Utility.Format(val)
  {
    if f.IsAngle() {
      Utility.FormatDegreesOfStoredAngle(val, 6);
    }
  }

  /** get_cartesian_parameters: [r, v]. */
  function CartesianOf(s: OrbitState): (Vec3, Vec3)
  {
    (s.r, s.v)
  }

  /** get_keplerian_parameters: OrbitalElements(h, e, i, Omega, omega, theta, a) from the stored fields. */
  function KeplerianOf(s: OrbitState): OrbitalElements
  {
    OrbitalElements(s.h, s.e, s.i, s.raan, s.argp, s.theta, s.a)
  }

  /** The periapsis and apoapsis radii. */
  function RadiiOf(s: OrbitState): (real, real)
  {
    (s.rp, s.ra)
  }

  /**
   * update_cartesian_parameters(r, v): the six setters in turn. Reading the Cartesian
   * parameters back gives r and v; the Keplerian group and the radii are untouched.
   */
  function WithCartesian(s: OrbitState, r: Vec3, v: Vec3): (t: OrbitState)
    ensures CartesianOf(t) == (r, v)
    ensures KeplerianOf(t) == KeplerianOf(s) && RadiiOf(t) == RadiiOf(s)
    ensures t.body == s.body && t.state == s.state
  {
    var s1 := Assign(Assign(Assign(s, Rx, r.x), Ry, r.y), Rz, r.z);
    Assign(Assign(Assign(s1, Vx, v.x), Vy, v.y), Vz, v.z)
  }

  /**
   * update_keplerian_parameters(oe): h stored directly, then a, e and the four angles
   * through their setters, the angles given in degrees. Reading the Keplerian parameters
   * back gives oe; the Cartesian group and the radii are untouched.
   */
  function WithKeplerian(s: OrbitState, oe: OrbitalElements): (t: OrbitState)
    ensures KeplerianOf(t) == oe
    ensures CartesianOf(t) == CartesianOf(s) && RadiiOf(t) == RadiiOf(s)
    ensures t.body == s.body && t.state == s.state
  {
    Utility.DegRadRoundTrip(oe.i);
    Utility.DegRadRoundTrip(oe.raan);
    Utility.DegRadRoundTrip(oe.argp);
    Utility.DegRadRoundTrip(oe.theta);
    KeplerianAssigned(s.(h := oe.h), oe)
  }

  /** The a, e and angle setters of update_keplerian_parameters, in order, the angles given in degrees. */
  function KeplerianAssigned(s: OrbitState, oe: OrbitalElements): OrbitState
  {
    var s1 := Assign(Assign(s, SemiMajorAxis, oe.a), Eccentricity, oe.e);
    var s2 := Assign(Assign(s1, Inclination, Utility.RadToDeg(oe.i)), RightAscensionAscendingNode, Utility.RadToDeg(oe.raan));
    Assign(Assign(s2, PeriapsisAnomaly, Utility.RadToDeg(oe.argp)), TrueAnomaly, Utility.RadToDeg(oe.theta))
  }

  /** update_keplerian_parameters_from_radii raises when the two radii add up to zero. */
  predicate RadiiDivideByZero(s: OrbitState)
  {
    s.ra + s.rp == 0.0
  }

  /**
   * update_keplerian_parameters_from_radii: a := (rp + ra) / 2, then e := (ra - rp) / (ra + rp).
   * When the division raises, a has already been written and e keeps its value. Otherwise
   * a and e reproduce the radii: rp == a (1 - e) and ra == a (1 + e). Nothing else changes.
   */
  function FromRadii(s: OrbitState): (t: OrbitState)
    ensures t.a == (s.rp + s.ra) / 2.0
    ensures RadiiDivideByZero(s) ==> t.e == s.e
    ensures !RadiiDivideByZero(s) ==> t.rp == t.a * (1.0 - t.e) && t.ra == t.a * (1.0 + t.e)
    ensures t == s.(a := t.a, e := t.e)
  {
    var s1 := Assign(s, SemiMajorAxis, (s.rp + s.ra) / 2.0);
    if RadiiDivideByZero(s) then s1
    else
      var t := Assign(s1, Eccentricity, (s.ra - s.rp) / (s.ra + s.rp));
      RadiiFromElements(s.rp, s.ra, t.a, t.e);
      t
  }

  /** The semi-major axis and eccentricity computed from two radii give the radii back. */
  lemma RadiiFromElements(rp: real, ra: real, a: real, e: real)
    requires ra + rp != 0.0
    requires a == (rp + ra) / 2.0 && e == (ra - rp) / (ra + rp)
    ensures rp == a * (1.0 - e) && ra == a * (1.0 + e)
  {
    var d := ra + rp;
    assert e * d == ra - rp;
    assert a * (1.0 - e) == (d - e * d) / 2.0;
    assert a * (1.0 + e) == (d + e * d) / 2.0;
  }

  /**
   * update_modified_keplerian_parameters(oe, op): every Keplerian setter (h included), then
   * the two radii. Reading back gives oe and the radii of op; the Cartesian group is untouched.
   */
  function WithModifiedKeplerian(s: OrbitState, oe: OrbitalElements, op: OrbitalParameters): (t: OrbitState)
    ensures KeplerianOf(t) == oe
    ensures RadiiOf(t) == (op.rp, op.ra)
    ensures CartesianOf(t) == CartesianOf(s)
    ensures t.body == s.body && t.state == s.state
  {
    Utility.DegRadRoundTrip(oe.i);
    Utility.DegRadRoundTrip(oe.raan);
    Utility.DegRadRoundTrip(oe.argp);
    Utility.DegRadRoundTrip(oe.theta);
    var s3 := KeplerianAssigned(Assign(s, SpecificAngularMomentum, oe.h), oe);
    Assign(Assign(s3, PeriapsisRadius, op.rp), ApoapsisRadius, op.ra)
  }

  /** The signals of the six Cartesian setters, in order. */
  const CartesianSignals: seq<Signal> := [Changed(Rx), Changed(Ry), Changed(Rz), Changed(Vx), Changed(Vy), Changed(Vz)]

  /** The signals of the a, e and angle setters, in order. */
  const KeplerianSignals: seq<Signal> :=
    [Changed(SemiMajorAxis), Changed(Eccentricity), Changed(Inclination),
     Changed(RightAscensionAscendingNode), Changed(PeriapsisAnomaly), Changed(TrueAnomaly)]

  class Orbit {
    var body: int
    var state: int
    var rx: real
    var ry: real
    var rz: real
    var vx: real
    var vy: real
    var vz: real
    var specificAngularMomentum: real
    var semiMajorAxis: real
    var eccentricity: real
    var inclination: real
    var rightAscensionAscendingNode: real
    var periapsisAnomaly: real
    var trueAnomaly: real
    var periapsisRadius: real
    var apoapsisRadius: real
    /** The change signals emitted so far, oldest first. */
    var signals: seq<Signal>

    function Snapshot(): OrbitState
      reads this
    {
      OrbitState(body, state, Vec3(rx, ry, rz), Vec3(vx, vy, vz),
        specificAngularMomentum, semiMajorAxis, eccentricity,
        inclination, rightAscensionAscendingNode, periapsisAnomaly, trueAnomaly,
        periapsisRadius, apoapsisRadius)
    }

    /** A new record: body 0, CARTESIAN, every numeric field 0. */
    constructor ()
      ensures Snapshot().body == 0 && Snapshot().state == CARTESIAN
      ensures forall f: Field :: Stored(Snapshot(), f) == 0.0
      ensures signals == []
    {
      body := 0;
      state := CARTESIAN;
      rx, ry, rz, vx, vy, vz := 0.0, 0.0, 0.0, 0.0, 0.0, 0.0;
      specificAngularMomentum, semiMajorAxis, eccentricity := 0.0, 0.0, 0.0;
      inclination, rightAscensionAscendingNode, periapsisAnomaly, trueAnomaly := 0.0, 0.0, 0.0, 0.0;
      periapsisRadius, apoapsisRadius := 0.0, 0.0;
      signals := [];
    }

    /** The body setter. */
    method SetBody(val: int)
      modifies this
      ensures Snapshot() == old(Snapshot()).(body := val)
      ensures signals == old(signals) + [BodyChanged]
    {
      body := val;
      signals := signals + [BodyChanged];
    }

    /** The state setter. */
    method SetState(val: int)
      modifies this
      ensures Snapshot() == old(Snapshot()).(state := val)
      ensures signals == old(signals) + [StateChanged]
    {
      state := val;
      signals := signals + [StateChanged];
    }

    /** The setter of a numeric property: stores the value (an angle in radians) and emits its signal. */
    method Set(f: Field, val: real)
      modifies this
      ensures Snapshot() == Assign(old(Snapshot()), f, val)
      ensures signals == old(signals) + [Changed(f)]
    {
      match f {
      case Rx => rx := val;
      case Ry => ry := val;
      case Rz => rz := val;
      case Vx => vx := val;
      case Vy => vy := val;
      case Vz => vz := val;
      case SpecificAngularMomentum => specificAngularMomentum := val;
      case SemiMajorAxis => semiMajorAxis := val;
      case Eccentricity => eccentricity := val;
      case Inclination => inclination := Utility.DegToRad(val);
      case RightAscensionAscendingNode => rightAscensionAscendingNode := Utility.DegToRad(val);
      case PeriapsisAnomaly => periapsisAnomaly := Utility.DegToRad(val);
      case TrueAnomaly => trueAnomaly := Utility.DegToRad(val);
      case PeriapsisRadius => periapsisRadius := val;
      case ApoapsisRadius => apoapsisRadius := val;
      }
      signals := signals + [Changed(f)];
    }

    /** The getter of a numeric property. */
    function Get(f: Field): real
      reads this
    {
      Read(Snapshot(), f)
    }

    /** get_celestial_body */
    function CelestialBody(): AstronomicalData.CelestialBody
      reads this
    {
      AstronomicalData.CelestialBodyFromIndex(body)
    }

    /** update_central_body */
    method UpdateCentralBody(body: int)
      modifies this
      ensures Snapshot() == old(Snapshot()).(body := body)
      ensures signals == old(signals) + [BodyChanged]
    {
      SetBody(body);
    }

    /** update_state */
    method UpdateState(state: int)
      modifies this
      ensures Snapshot() == old(Snapshot()).(state := state)
      ensures signals == old(signals) + [StateChanged]
    {
      SetState(state);
    }

    /** update_cartesian_parameters(r, v) */
    method UpdateCartesianParameters(r: Vec3, v: Vec3)
      modifies this
      ensures Snapshot() == WithCartesian(old(Snapshot()), r, v)
      ensures CartesianOf(Snapshot()) == (r, v)
      ensures signals == old(signals) + CartesianSignals
    {
      Set(Rx, r.x);
      Set(Ry, r.y);
      Set(Rz, r.z);
      Set(Vx, v.x);
      Set(Vy, v.y);
      Set(Vz, v.z);
    }

    /** The a, e and angle setters shared by the two Keplerian updates. */
    method SetKeplerianGroup(oe: OrbitalElements)
      modifies this
      ensures Snapshot() == KeplerianAssigned(old(Snapshot()), oe)
      ensures signals == old(signals) + KeplerianSignals
    {
      Set(SemiMajorAxis, oe.a);
      Set(Eccentricity, oe.e);
      Set(Inclination, Utility.RadToDeg(oe.i));
      Set(RightAscensionAscendingNode, Utility.RadToDeg(oe.raan));
      Set(PeriapsisAnomaly, Utility.RadToDeg(oe.argp));
      Set(TrueAnomaly, Utility.RadToDeg(oe.theta));
    }

    /** update_keplerian_parameters(oe): h is stored without a signal. */
    method UpdateKeplerianParameters(oe: OrbitalElements)
      modifies this
      ensures Snapshot() == WithKeplerian(old(Snapshot()), oe)
      ensures KeplerianOf(Snapshot()) == oe
      ensures signals == old(signals) + KeplerianSignals
    {
      specificAngularMomentum := oe.h;
      SetKeplerianGroup(oe);
    }

    /** update_keplerian_parameters_from_radii: raises ZeroDivisionError after writing a when rp + ra == 0. */
    method UpdateKeplerianParametersFromRadii() returns (r: Result<()>)
      modifies this
      ensures Snapshot() == FromRadii(old(Snapshot()))
      ensures r.Raise? <==> RadiiDivideByZero(old(Snapshot()))
      ensures r.Raise? ==> r.error == ZeroDivisionError
      ensures signals == old(signals) + if r.Raise? then [Changed(SemiMajorAxis)] else [Changed(SemiMajorAxis), Changed(Eccentricity)]
    {
      Set(SemiMajorAxis, (periapsisRadius + apoapsisRadius) / 2.0);
      if apoapsisRadius + periapsisRadius == 0.0 {
        return Raise(ZeroDivisionError, "float division by zero");
      }
      Set(Eccentricity, (apoapsisRadius - periapsisRadius) / (apoapsisRadius + periapsisRadius));
      r := Ok(());
    }

    /** update_modified_keplerian_parameters(oe, op) */
    method UpdateModifiedKeplerianParameters(oe: OrbitalElements, op: OrbitalParameters)
      modifies this
      ensures Snapshot() == WithModifiedKeplerian(old(Snapshot()), oe, op)
      ensures signals == old(signals) + [Changed(SpecificAngularMomentum)] + KeplerianSignals + [Changed(PeriapsisRadius), Changed(ApoapsisRadius)]
    {
      Set(SpecificAngularMomentum, oe.h);
      SetKeplerianGroup(oe);
      Set(PeriapsisRadius, op.rp);
      Set(ApoapsisRadius, op.ra);
    }
  }
}
