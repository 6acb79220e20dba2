/**
 * Model of src/Orbit.py: the older orbit record, shared by the whole application as a
 * singleton. Its property setters store values without emitting anything; the update*
 * methods store whole field groups (the angles already in radians) and then emit one
 * change signal per stored field. It has no specific angular momentum field.
 */
module LegacyOrbit {
  import Utility
  import opened Wrappers
  import opened OrbitTypes

  /** The numeric properties of the record. */
  datatype Field =
    | Rx | Ry | Rz | Vx | Vy | Vz
    | SemiMajorAxis | Eccentricity
    | Inclination | RightAscensionAscendingNode | PeriapsisAnomaly | TrueAnomaly
    | PeriapsisRadius | ApoapsisRadius
  {
    /** The four angles are stored in radians and shown in degrees. */
    predicate IsAngle()
    {
      Inclination? || RightAscensionAscendingNode? || PeriapsisAnomaly? || TrueAnomaly?
    }
  }

  /** The change signals the record declares. */
  datatype Signal = BodyChanged | StateChanged | Changed(field: Field)

  /** The stored fields of a record, as one value. */
  datatype OrbitState = OrbitState(
    body: int, state: int, r: Vec3, v: Vec3,
    a: real, e: real, i: real, raan: real, argp: real, theta: real,
    rp: real, ra: real)

  const Initial := OrbitState(0, 0, Vec3(0.0, 0.0, 0.0), Vec3(0.0, 0.0, 0.0), 0.0, 0.0, 0.0, 0.0, 0.0, 0.0, 0.0, 0.0)

  /** The stored (unformatted) value of a numeric property. */
  function Stored(s: OrbitState, f: Field): real
  {
    match f
    case Rx => s.r.x
    case Ry => s.r.y
    case Rz => s.r.z
    case Vx => s.v.x
    case Vy => s.v.y
    case Vz => s.v.z
    case SemiMajorAxis => s.a
    case Eccentricity => s.e
    case Inclination => s.i
    case RightAscensionAscendingNode => s.raan
    case PeriapsisAnomaly => s.argp
    case TrueAnomaly => s.theta
    case PeriapsisRadius => s.rp
    case ApoapsisRadius => s.ra
  }

  /** A property getter: the stored value formatted to six decimals, angles in degrees. */
  function Read(s: OrbitState, f: Field): real
  {
    Utility.Format(Stored(s, f), 6, f.IsAngle())
  }

  /** A property setter: stores the value, converted to radians for an angle; exactly that property changes. */
  function Assign(s: OrbitState, f: Field, val: real): (t: OrbitState)
    ensures Stored(t, f) == if f.IsAngle() then Utility.DegToRad(val) else val
    ensures forall g: Field :: g != f ==> Stored(t, g) == Stored(s, g)
    ensures t.body == s.body && t.state == s.state
  {
    match f
    case Rx => s.(r := s.r.(x := val))
    case Ry => s.(r := s.r.(y := val))
    case Rz => s.(r := s.r.(z := val))
    case Vx => s.(v := s.v.(x := val))
    case Vy => s.(v := s.v.(y := val))
    case Vz => s.(v := s.v.(z := val))
    case SemiMajorAxis => s.(a := val)
    case Eccentricity => s.(e := val)
    case Inclination => s.(i := Utility.DegToRad(val))
    case RightAscensionAscendingNode => s.(raan := Utility.DegToRad(val))
    case PeriapsisAnomaly => s.(argp := Utility.DegToRad(val))
    case TrueAnomaly => s.(theta := Utility.DegToRad(val))
    case PeriapsisRadius => s.(rp := val)
    case ApoapsisRadius => s.(ra := val)
  }

  /** Setting a property and reading it back gives the value truncated to six decimals, angles included. */
  lemma SetThenGet(s: OrbitState, f: Field, val: real)
    ensures Read(Assign(s, f, val), f) == Utility.Format(val)
  {
    if f.IsAngle() {
      Utility.FormatDegreesOfStoredAngle(val, 6);
    }
  }

  /**
   * getKeplerianParameters: the stored elements, with h reported as 0 whatever was set,
   * since the record keeps no specific angular momentum.
   */
  function KeplerianOf(s: OrbitState): (oe: OrbitalElements)
    ensures oe.h == 0.0
  {
    OrbitalElements(0.0, s.e, s.i, s.raan, s.argp, s.theta, s.a)
  }

  /** The angles and shape of the orbit, as updateKeplerianParameters writes them. */
  predicate SameElements(s: OrbitState, oe: OrbitalElements)
  {
    s.a == oe.a && s.e == oe.e && s.i == oe.i && s.raan == oe.raan && s.argp == oe.argp && s.theta == oe.theta
  }

  /**
   * updateKeplerianParameters(oe): a, e and the radian angles stored as given. Reading the
   * Keplerian parameters back gives oe except that h reads 0; the Cartesian fields and
   * the radii are untouched.
   */
  function WithKeplerian(s: OrbitState, oe: OrbitalElements): (t: OrbitState)
    ensures SameElements(t, oe)
    ensures KeplerianOf(t) == oe.(h := 0.0)
    ensures t.r == s.r && t.v == s.v && t.rp == s.rp && t.ra == s.ra
    ensures t.body == s.body && t.state == s.state
  {
    s.(a := oe.a, e := oe.e, i := oe.i, raan := oe.raan, argp := oe.argp, theta := oe.theta)
  }

  /**
   * updateKeplerianParametersFromRadii: a := (rp + ra) / 2, then e := (ra - rp) / (ra + rp);
   * a stays written when the division raises. Otherwise a and e reproduce the radii.
   */
  function FromRadii(s: OrbitState): (t: OrbitState)
    ensures t.a == (s.rp + s.ra) / 2.0
    ensures s.ra + s.rp == 0.0 ==> t.e == s.e
    ensures s.ra + s.rp != 0.0 ==> t.rp == t.a * (1.0 - t.e) && t.ra == t.a * (1.0 + t.e)
    ensures t == s.(a := t.a, e := t.e)
  {
    var a := (s.rp + s.ra) / 2.0;
    if s.ra + s.rp == 0.0 then s.(a := a)
    else
      var e := (s.ra - s.rp) / (s.ra + s.rp);
      RadiiFromElements(s.rp, s.ra, a, e);
      s.(a := a, e := e)
  }

  /** The semi-major axis and eccentricity computed from two radii give the radii back. */
  lemma RadiiFromElements(rp: real, ra: real, a: real, e: real)
    requires ra + rp != 0.0
    requires a == (rp + ra) / 2.0 && e == (ra - rp) / (ra + rp)
    ensures rp == a * (1.0 - e) && ra == a * (1.0 + e)
  {
    var d := ra + rp;
    assert e * d == ra - rp;
    assert a * (1.0 - e) == (d - e * d) / 2.0;
    assert a * (1.0 + e) == (d + e * d) / 2.0;
  }

  /** updateModifiedKeplerianParameters(oe, op): the Keplerian fields as above, plus the radii of op. */
  function WithModifiedKeplerian(s: OrbitState, oe: OrbitalElements, op: OrbitalParameters): (t: OrbitState)
    ensures SameElements(t, oe) && t.rp == op.rp && t.ra == op.ra
    ensures t.r == s.r && t.v == s.v && t.body == s.body && t.state == s.state
  {
    WithKeplerian(s, oe).(rp := op.rp, ra := op.ra)
  }

  const CartesianSignals: seq<Signal> := [Changed(Rx), Changed(Ry), Changed(Rz), Changed(Vx), Changed(Vy), Changed(Vz)]

  const KeplerianSignals: seq<Signal> :=
    [Changed(SemiMajorAxis), Changed(Eccentricity), Changed(Inclination),
     Changed(RightAscensionAscendingNode), Changed(PeriapsisAnomaly), Changed(TrueAnomaly)]

  class Orbit {
    var body: int
    var state: int
    var rx: real
    var ry: real
    var rz: real
    var vx: real
    var vy: real
    var vz: real
    var semiMajorAxis: real
    var eccentricity: real
    var inclination: real
    var rightAscensionAscendingNode: real
    var periapsisAnomaly: real
    var trueAnomaly: real
    var periapsisRadius: real
    var apoapsisRadius: real
    /** The change signals emitted so far, oldest first. */
    var signals: seq<Signal>

    function Snapshot(): OrbitState
      reads this
    {
      OrbitState(body, state, Vec3(rx, ry, rz), Vec3(vx, vy, vz),
        semiMajorAxis, eccentricity,
        inclination, rightAscensionAscendingNode, periapsisAnomaly, trueAnomaly,
        periapsisRadius, apoapsisRadius)
    }

    /** A new record: body 0, state 0, every numeric field 0. */
    constructor ()
      ensures Snapshot() == Initial && signals == []
    {
      body, state := 0, 0;
      rx, ry, rz, vx, vy, vz := 0.0, 0.0, 0.0, 0.0, 0.0, 0.0;
      semiMajorAxis, eccentricity := 0.0, 0.0;
      inclination, rightAscensionAscendingNode, periapsisAnomaly, trueAnomaly := 0.0, 0.0, 0.0, 0.0;
      periapsisRadius, apoapsisRadius := 0.0, 0.0;
      signals := [];
    }

    /** The body property setter: no signal. */
    method SetBody(val: int)
      modifies this
      ensures Snapshot() == old(Snapshot()).(body := val)
      ensures signals == old(signals)
    {
      body := val;
    }

    /** The state property setter: no signal. */
    method SetState(val: int)
      modifies this
      ensures Snapshot() == old(Snapshot()).(state := val)
      ensures signals == old(signals)
    {
      state := val;
    }

    /** The setter of a numeric property: stores the value (an angle in radians), no signal. */
    method Set(f: Field, val: real)
      modifies this
      ensures Snapshot() == Assign(old(Snapshot()), f, val)
      ensures signals == old(signals)
    {
      match f {
      case Rx => rx := val;
      case Ry => ry := val;
      case Rz => rz := val;
      case Vx => vx := val;
      case Vy => vy := val;
      case Vz => vz := val;
      case SemiMajorAxis => semiMajorAxis := val;
      case Eccentricity => eccentricity := val;
      case Inclination => inclination := Utility.DegToRad(val);
      case RightAscensionAscendingNode => rightAscensionAscendingNode := Utility.DegToRad(val);
      case PeriapsisAnomaly => periapsisAnomaly := Utility.DegToRad(val);
      case TrueAnomaly => trueAnomaly := Utility.DegToRad(val);
      case PeriapsisRadius => periapsisRadius := val;
      case ApoapsisRadius => apoapsisRadius := val;
      }
    }

    /** The getter of a numeric property. */
    function Get(f: Field): real
      reads this
    {
      Read(Snapshot(), f)
    }

    /** getKeplerianParameters */
    function KeplerianParameters(): OrbitalElements
      reads this
    {
      KeplerianOf(Snapshot())
    }

    /** updateCentralBody: store, then emit. */
    method UpdateCentralBody(body: int)
      modifies this
      ensures Snapshot() == old(Snapshot()).(body := body)
      ensures signals == old(signals) + [BodyChanged]
    {
      this.body := body;
      signals := signals + [BodyChanged];
    }

    /** updateState: store, then emit. */
    method UpdateState(state: int)
      modifies this
      ensures Snapshot() == old(Snapshot()).(state := state)
      ensures signals == old(signals) + [StateChanged]
    {
      this.state := state;
      signals := signals + [StateChanged];
    }

    /** updateCartesianParameters(r, v): six fields, then six signals. */
    method UpdateCartesianParameters(r: Vec3, v: Vec3)
      modifies this
      ensures Snapshot() == old(Snapshot()).(r := r, v := v)
      ensures signals == old(signals) + CartesianSignals
    {
      rx, ry, rz := r.x, r.y, r.z;
      vx, vy, vz := v.x, v.y, v.z;
      signals := signals + CartesianSignals;
    }

    /** updateKeplerianParameters(oe) */
    method UpdateKeplerianParameters(oe: OrbitalElements)
      modifies this
      ensures Snapshot() == WithKeplerian(old(Snapshot()), oe)
      ensures signals == old(signals) + KeplerianSignals
    {
      semiMajorAxis, eccentricity := oe.a, oe.e;
      inclination, rightAscensionAscendingNode, periapsisAnomaly, trueAnomaly := oe.i, oe.raan, oe.argp, oe.theta;
      signals := signals + KeplerianSignals;
    }

    /** updateKeplerianParametersFromRadii: on a zero sum of radii, a is written, nothing is emitted and ZeroDivisionError is raised. */
    method UpdateKeplerianParametersFromRadii() returns (r: Result<()>)
      modifies this
      ensures Snapshot() == FromRadii(old(Snapshot()))
      ensures r == if old(apoapsisRadius + periapsisRadius) == 0.0
        then Raise(ZeroDivisionError, "float division by zero") else Ok(())
      ensures r.Raise? ==> signals == old(signals)
      ensures r.Ok? ==> signals == old(signals) + [Changed(SemiMajorAxis), Changed(Eccentricity)]
    {
      semiMajorAxis := (periapsisRadius + apoapsisRadius) / 2.0;
      if apoapsisRadius + periapsisRadius == 0.0 {
        return Raise(ZeroDivisionError, "float division by zero");
      }
      eccentricity := (apoapsisRadius - periapsisRadius) / (apoapsisRadius + periapsisRadius);
      signals := signals + [Changed(SemiMajorAxis), Changed(Eccentricity)];
      r := Ok(());
    }

    /** updateModifiedKeplerianParameters(oe, op): eight fields, then eight signals. */
    method UpdateModifiedKeplerianParameters(oe: OrbitalElements, op: OrbitalParameters)
      modifies this
      ensures Snapshot() == WithModifiedKeplerian(old(Snapshot()), oe, op)
      ensures signals == old(signals) + KeplerianSignals + [Changed(PeriapsisRadius), Changed(ApoapsisRadius)]
    {
      UpdateKeplerianParameters(oe);
      periapsisRadius, apoapsisRadius := op.rp, op.ra;
      signals := signals + [Changed(PeriapsisRadius), Changed(ApoapsisRadius)];
    }
  }

  /**
   * The @singleton decoration of Orbit: the first construction creates the record, every
   * later one returns that same record.
   */
  class OrbitSingleton {
    var instance: Option<Orbit>

    constructor ()
      ensures instance == None
    {
      instance := None;
    }

    /** Orbit(engine) */
    method Construct() returns (o: Orbit)
      modifies this
      ensures old(instance).Some? ==> o == old(instance).value
      ensures old(instance).None? ==> fresh(o) && o.Snapshot() == Initial && o.signals == []
      ensures instance == Some(o)
    {
      if instance.None? {
        var created := new Orbit();
        instance := Some(created);
      }
      o := instance.value;
    }
  }

  /** Every construction of the singleton record returns the one instance the first created. */
  method ConstructionsShareOneRecord() returns (first: Orbit, second: Orbit, third: Orbit)
    ensures first == second && second == third
    ensures first.Snapshot() == Initial
  {
    var decorated := new OrbitSingleton();
    first := decorated.Construct();
    second := decorated.Construct();
    third := decorated.Construct();
  }
}
