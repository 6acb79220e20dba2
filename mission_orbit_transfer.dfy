/**
 * Model of the orbit and maneuver bookkeeping of src/missions/mission_orbit_transfer.py:
 * the departure and arrival orbit records, the list of planned maneuvers, and the
 * update_*_orbit slots that re-derive the orbit groups the user did not edit.
 */
module MissionOrbitTransfer {
  import opened Wrappers
  import opened OrbitTypes
  import OrbitRecord
  import ManeuverRecord
  import Spacecraft
  import AstronomicalData

  const DepartureR := Vec3(-8173.55640, -3064.65060, -2840.15350)
  const DepartureV := Vec3(-3.0733, 5.9444, -1.5474)
  const ArrivalR := Vec3(4571.13653, 32940.33361, -14208.95231)
  const ArrivalV := Vec3(-3.06192709, 1.01383552, 0.41402772)

  /** The KEPLERIAN branch passes one tuple where update_cartesian_parameters takes r and v. */
  const MissingArgument := "Orbit.update_cartesian_parameters() missing 1 required positional argument: 'v'"
  /** The MODIFIED_KEPLERIAN branch names self.orbit, which this mission never defines. */
  const MissingAttribute := "'MissionOrbitTransfer' object has no attribute 'orbit'"

  const DivisionMessage := "float division by zero"

  /**
   * How update_departure_orbit / update_arrival_orbit end for an orbit: the KEPLERIAN and
   * MODIFIED_KEPLERIAN branches raise before changing anything, every other state returns.
   * The KEPLERIAN branch evaluates pf_2_gef before the failing call, so an orbit on which
   * pf_2_gef divides by zero raises that ZeroDivisionError instead of the TypeError.
   */
  function UpdateOutcome(s: OrbitRecord.OrbitState): (r: Result<()>)
    ensures r.Ok? <==> s.state != KEPLERIAN && s.state != MODIFIED_KEPLERIAN
    ensures s.state == KEPLERIAN && !PerifocalDividesByZero(OrbitRecord.KeplerianOf(s)) ==> r == Raise(TypeError, MissingArgument)
    ensures s.state == KEPLERIAN && PerifocalDividesByZero(OrbitRecord.KeplerianOf(s)) ==> r == Raise(ZeroDivisionError, DivisionMessage)
    ensures s.state == MODIFIED_KEPLERIAN ==> r == Raise(AttributeError, MissingAttribute)
  {
    if s.state == KEPLERIAN then
      if PerifocalDividesByZero(OrbitRecord.KeplerianOf(s)) then Raise(ZeroDivisionError, DivisionMessage)
      else Raise(TypeError, MissingArgument)
    else if s.state == MODIFIED_KEPLERIAN then Raise(AttributeError, MissingAttribute)
    else Ok(())
  }

  /**
   * The orbit after update_*_orbit. In the CARTESIAN state the Cartesian group is read and
   * left alone, and the Keplerian group and the radii become its conversions; in any
   * other state the orbit is unchanged.
   */
  function Rederived(s: OrbitRecord.OrbitState, conv: Conversions): (t: OrbitRecord.OrbitState)
    ensures s.state != CARTESIAN ==> t == s
    ensures s.state == CARTESIAN ==>
      OrbitRecord.CartesianOf(t) == OrbitRecord.CartesianOf(s)
      && OrbitRecord.KeplerianOf(t) == conv.elementsOf(s.r, s.v)
      && OrbitRecord.RadiiOf(t) == (conv.parametersOf(s.r, s.v).rp, conv.parametersOf(s.r, s.v).ra)
      && t.body == s.body && t.state == s.state
  {
    if s.state == CARTESIAN then
      var oe := conv.elementsOf(s.r, s.v);
      OrbitRecord.WithModifiedKeplerian(OrbitRecord.WithKeplerian(s, oe), oe, conv.parametersOf(s.r, s.v))
    else s
  }

  /** The change signals update_*_orbit makes the orbit emit. */
  function UpdateSignals(state: int): seq<OrbitRecord.Signal>
  {
    if state == CARTESIAN then
      OrbitRecord.KeplerianSignals
      + [OrbitRecord.Changed(OrbitRecord.SpecificAngularMomentum)] + OrbitRecord.KeplerianSignals
      + [OrbitRecord.Changed(OrbitRecord.PeriapsisRadius), OrbitRecord.Changed(OrbitRecord.ApoapsisRadius)]
    else []
  }

  /** Two orbit states with the same body, state, Cartesian and Keplerian groups and radii are the same. */
  lemma SameGroupsSameOrbit(s: OrbitRecord.OrbitState, t: OrbitRecord.OrbitState)
    requires s.body == t.body && s.state == t.state
    requires OrbitRecord.CartesianOf(s) == OrbitRecord.CartesianOf(t)
    requires OrbitRecord.KeplerianOf(s) == OrbitRecord.KeplerianOf(t)
    requires OrbitRecord.RadiiOf(s) == OrbitRecord.RadiiOf(t)
    ensures s == t
  {
  }

  /** Updating an orbit a second time changes nothing: the derived groups already match. */
  lemma {:induction false} RederiveIdempotent(s: OrbitRecord.OrbitState, conv: Conversions)
    ensures Rederived(Rederived(s, conv), conv) == Rederived(s, conv)
  {
    var t := Rederived(s, conv);
    if s.state == CARTESIAN {
      SameGroupsSameOrbit(Rederived(t, conv), t);
    }
  }

  /**
   * The state the constructor leaves an orbit in: EARTH, CARTESIAN, the given position and
   * velocity, and the Keplerian group and radii converted from them.
   */
  predicate Prepared(s: OrbitRecord.OrbitState, r: Vec3, v: Vec3, conv: Conversions)
  {
    s.body == AstronomicalData.CelestialBody.EARTH.Value() && s.state == CARTESIAN
    && OrbitRecord.CartesianOf(s) == (r, v)
    && OrbitRecord.KeplerianOf(s) == conv.elementsOf(r, v)
    && OrbitRecord.RadiiOf(s) == (conv.parametersOf(r, v).rp, conv.parametersOf(r, v).ra)
  }

  /** An orbit as constructed is already consistent: updating it changes nothing. */
  lemma {:induction false} PreparedIsStable(s: OrbitRecord.OrbitState, r: Vec3, v: Vec3, conv: Conversions)
    requires Prepared(s, r, v, conv)
    ensures Rederived(s, conv) == s
  {
    SameGroupsSameOrbit(Rederived(s, conv), s);
  }

  /** The records behind a list of maneuver objects, in list order. */
  function RecordsOf(ms: seq<ManeuverRecord.Maneuver>): (rs: seq<ManeuverRecord.ManeuverState>)
    reads set k | 0 <= k < |ms| :: ms[k]
    ensures |rs| == |ms|
    ensures forall k :: 0 <= k < |ms| ==> rs[k] == ms[k].Snapshot()
    decreases |ms|
  {
    if |ms| == 0 then [] else RecordsOf(ms[..|ms| - 1]) + [ms[|ms| - 1].Snapshot()]
  }

  /** A maneuver as add_maneuver creates it: the three given values and no costs yet. */
  function Planned(kind: int, option: int, optionValue: real): ManeuverRecord.ManeuverState
  {
    ManeuverRecord.ManeuverState(kind, option, optionValue, 0.0, 0.0, 0.0)
  }

  class MissionOrbitTransfer {
    var spacecraft: Spacecraft.Spacecraft
    var depOrbit: OrbitRecord.Orbit
    var arrOrbit: OrbitRecord.Orbit
    var maneuvers: seq<ManeuverRecord.Maneuver>
    /** The central body the conversion tools were last set to (class-level state of those tools). */
    var centralBody: AstronomicalData.CelestialBody
    /** The conversion tools, for each central body. */
    const conversionsFor: AstronomicalData.CelestialBody -> Conversions

    /** The two orbits are separate records. */
    predicate Valid()
      reads this
    {
      depOrbit != arrOrbit
    }

    function Conv(): Conversions
      reads this
    {
      conversionsFor(centralBody)
    }

    /** The planned maneuvers' values, in list order. */
    function Records(): seq<ManeuverRecord.ManeuverState>
      reads this, set k | 0 <= k < |maneuvers| :: maneuvers[k]
    {
      RecordsOf(maneuvers)
    }

    /**
     * The mission as constructed: the conversion tools on EARTH, both orbits prepared from
     * their published position and velocity, and no maneuvers. `spacecraft` is the shared
     * Spacecraft instance.
     */
    constructor (spacecraft: Spacecraft.Spacecraft, conversionsFor: AstronomicalData.CelestialBody -> Conversions)
      ensures Valid() && fresh(depOrbit) && fresh(arrOrbit)
      ensures this.spacecraft == spacecraft && this.conversionsFor == conversionsFor
      ensures centralBody == AstronomicalData.CelestialBody.EARTH
      ensures Prepared(depOrbit.Snapshot(), DepartureR, DepartureV, Conv())
      ensures Prepared(arrOrbit.Snapshot(), ArrivalR, ArrivalV, Conv())
      ensures maneuvers == []
    {
      this.spacecraft := spacecraft;
      this.conversionsFor := conversionsFor;
      centralBody := AstronomicalData.CelestialBody.EARTH;
      var conv := conversionsFor(AstronomicalData.CelestialBody.EARTH);
      var dep := PreparedOrbit(DepartureR, DepartureV, conv);
      var arr := PreparedOrbit(ArrivalR, ArrivalV, conv);
      depOrbit, arrOrbit := dep, arr;
      maneuvers := [];
    }

    /** update_celestial_body: the conversion tools follow the departure orbit's body. */
    method UpdateCelestialBody()
      modifies this
      ensures centralBody == old(depOrbit.CelestialBody())
      ensures depOrbit == old(depOrbit) && arrOrbit == old(arrOrbit) && maneuvers == old(maneuvers)
      ensures spacecraft == old(spacecraft)
    {
      centralBody := depOrbit.CelestialBody();
    }

    /** update_departure_orbit */
    method UpdateDepartureOrbit() returns (r: Result<()>)
      modifies depOrbit
      ensures r == UpdateOutcome(old(depOrbit.Snapshot()))
      ensures depOrbit.Snapshot() == Rederived(old(depOrbit.Snapshot()), Conv())
      ensures depOrbit.signals == old(depOrbit.signals) + UpdateSignals(old(depOrbit.state))
    {
      r := UpdateOrbit(depOrbit, Conv());
    }

    /** update_arrival_orbit: the same dispatch on the arrival orbit. */
    method UpdateArrivalOrbit() returns (r: Result<()>)
      modifies arrOrbit
      ensures r == UpdateOutcome(old(arrOrbit.Snapshot()))
      ensures arrOrbit.Snapshot() == Rederived(old(arrOrbit.Snapshot()), Conv())
      ensures arrOrbit.signals == old(arrOrbit.signals) + UpdateSignals(old(arrOrbit.state))
    {
      r := UpdateOrbit(arrOrbit, Conv());
    }

    /** maneuver_count */
    function ManeuverCount(): (n: nat)
      reads this, set k | 0 <= k < |maneuvers| :: maneuvers[k]
      ensures n == |Records()|
    {
      |maneuvers|
    }

    /** maneuver(index): Python list indexing, IndexError outside the list. */
    function Maneuver(index: int): (r: Result<ManeuverRecord.Maneuver>)
      reads this
      ensures r.Ok? <==> -|maneuvers| <= index < |maneuvers|
      ensures 0 <= index < |maneuvers| ==> r == Ok(maneuvers[index])
      ensures r.Raise? ==> r.error == IndexError
    {
      ListIndex(maneuvers, index)
    }

    /** clear_maneuvers */
    method ClearManeuvers()
      modifies this
      ensures maneuvers == [] && Records() == []
      ensures depOrbit == old(depOrbit) && arrOrbit == old(arrOrbit) && centralBody == old(centralBody)
      ensures spacecraft == old(spacecraft)
    {
      maneuvers := [];
    }

    /** add_maneuver(type, option, optionValue): one new record at the end; the earlier ones stay as they were. */
    method AddManeuver(kind: int, option: int, optionValue: real)
      modifies this
      ensures |maneuvers| == |old(maneuvers)| + 1 && maneuvers[..|old(maneuvers)|] == old(maneuvers)
      ensures fresh(maneuvers[|old(maneuvers)|])
      ensures Records() == old(Records()) + [Planned(kind, option, optionValue)]
      ensures depOrbit == old(depOrbit) && arrOrbit == old(arrOrbit) && centralBody == old(centralBody)
      ensures spacecraft == old(spacecraft)
    {
      var m := new ManeuverRecord.Maneuver(kind, option, optionValue);
      maneuvers := maneuvers + [m];
      assert maneuvers[..|maneuvers| - 1] == old(maneuvers);
    }
  }

  /** A new orbit record put through the constructor's five updates. */
  method PreparedOrbit(r: Vec3, v: Vec3, conv: Conversions) returns (o: OrbitRecord.Orbit)
    ensures fresh(o)
    ensures Prepared(o.Snapshot(), r, v, conv)
  {
    o := new OrbitRecord.Orbit();
    o.UpdateCentralBody(AstronomicalData.IndexFromCelestialBody(AstronomicalData.CelestialBody.EARTH.Value()));
    o.UpdateState(CARTESIAN);
    o.UpdateCartesianParameters(r, v);
    var oe := conv.elementsOf(r, v);
    o.UpdateKeplerianParameters(oe);
    o.UpdateModifiedKeplerianParameters(oe, conv.parametersOf(r, v));
  }

  /** The match of update_departure_orbit / update_arrival_orbit, on one orbit. */
  method UpdateOrbit(o: OrbitRecord.Orbit, conv: Conversions) returns (r: Result<()>)
    modifies o
    ensures r == UpdateOutcome(old(o.Snapshot()))
    ensures o.Snapshot() == Rederived(old(o.Snapshot()), conv)
    ensures o.signals == old(o.signals) + UpdateSignals(old(o.state))
  {
    if o.state == CARTESIAN {
      var rv := OrbitRecord.CartesianOf(o.Snapshot());
      var oe := conv.elementsOf(rv.0, rv.1);
      o.UpdateKeplerianParameters(oe);
      o.UpdateModifiedKeplerianParameters(oe, conv.parametersOf(rv.0, rv.1));
      r := Ok(());
    } else if o.state == KEPLERIAN {
      if PerifocalDividesByZero(OrbitRecord.KeplerianOf(o.Snapshot())) {
        r := Raise(ZeroDivisionError, DivisionMessage);
      } else {
        r := Raise(TypeError, MissingArgument);
      }
    } else if o.state == MODIFIED_KEPLERIAN {
      r := Raise(AttributeError, MissingAttribute);
    } else {
      r := Ok(());
    }
  }
}
