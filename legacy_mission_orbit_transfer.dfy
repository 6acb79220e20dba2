/**
 * Model of the orbit and maneuver bookkeeping of src/MissionOrbitTransfer.py, the older
 * orbit transfer mission. It keeps its own copy of each orbit (body, state, position,
 * velocity, elements and radii) and exchanges it with the one shared orbit record:
 * fill_*_orbit pushes a copy into the record, update_*_orbit reads the record back and
 * re-derives the groups the user did not edit.
 */
module LegacyMissionOrbitTransfer {
  import opened Wrappers
  import opened OrbitTypes
  import LegacyOrbit
  import LegacyManeuver
  import LegacySpacecraft
  import AstronomicalData
  import Mission = MissionOrbitTransfer

  type CelestialBody = AstronomicalData.CelestialBody

  /** The dep_* (or arr_*) fields: body, state, r, v, orbital elements and orbital parameters. */
  datatype Side = Side(body: CelestialBody, state: int, r: Vec3, v: Vec3, oe: OrbitalElements, op: OrbitalParameters)

  /** A side as the constructor sets it: EARTH, CARTESIAN, and elements and parameters converted from r and v. */
  function InitialSide(r: Vec3, v: Vec3, conv: Conversions): Side
  {
    Side(AstronomicalData.CelestialBody.EARTH, CARTESIAN, r, v, conv.elementsOf(r, v), conv.parametersOf(r, v))
  }

  /** A side whose elements and parameters are the conversions of its own r and v, for its own body. */
  predicate Consistent(side: Side, conversionsFor: CelestialBody -> Conversions)
  {
    side.oe == conversionsFor(side.body).elementsOf(side.r, side.v)
    && side.op == conversionsFor(side.body).parametersOf(side.r, side.v)
  }

  /**
   * fill_departure_orbit / fill_arrival_orbit: the shared record takes the side's body
   * index, state, position and velocity, elements and radii.
   */
  function Filled(s: LegacyOrbit.OrbitState, side: Side): (t: LegacyOrbit.OrbitState)
    ensures t.body == side.body.Value() && t.state == side.state
    ensures t.r == side.r && t.v == side.v
    ensures LegacyOrbit.SameElements(t, side.oe) && t.rp == side.op.rp && t.ra == side.op.ra
  {
    var s1 := s.(body := AstronomicalData.IndexFromCelestialBody(side.body.Value()), state := side.state);
    LegacyOrbit.WithModifiedKeplerian(LegacyOrbit.WithKeplerian(s1.(r := side.r, v := side.v), side.oe), side.oe, side.op)
  }

  /** The signals fill_*_orbit makes the shared record emit. */
  const FillSignals: seq<LegacyOrbit.Signal> :=
    [LegacyOrbit.BodyChanged, LegacyOrbit.StateChanged] + LegacyOrbit.CartesianSignals + LegacyOrbit.KeplerianSignals
    + LegacyOrbit.KeplerianSignals + [LegacyOrbit.Changed(LegacyOrbit.PeriapsisRadius), LegacyOrbit.Changed(LegacyOrbit.ApoapsisRadius)]

  /** The side, the shared record and the outcome after update_*_orbit. */
  datatype Update = Update(side: Side, orbit: LegacyOrbit.OrbitState, outcome: Result<()>)

  const DivisionMessage := "float division by zero"

  /**
   * Whether update_*_orbit raises on a record: the KEPLERIAN branch when pf_2_gef divides by
   * zero on the record's elements; the MODIFIED_KEPLERIAN branch when the radii add up to zero,
   * or else when pf_2_gef divides by zero on the elements recomputed from them.
   */
  predicate UpdateRaises(o: LegacyOrbit.OrbitState)
  {
    (o.state == KEPLERIAN && PerifocalDividesByZero(LegacyOrbit.KeplerianOf(o)))
    || (o.state == MODIFIED_KEPLERIAN
        && (o.ra + o.rp == 0.0 || PerifocalDividesByZero(LegacyOrbit.KeplerianOf(LegacyOrbit.FromRadii(o)))))
  }

  /**
   * update_*_orbit raises exactly for a KEPLERIAN record with a zero semi-major axis or a
   * parabolic eccentricity (the record's h is always read as 0), and for a MODIFIED_KEPLERIAN
   * record with a zero radius or radii adding up to zero.
   */
  lemma UpdateRaisesCases(o: LegacyOrbit.OrbitState)
    ensures UpdateRaises(o) <==>
      (o.state == KEPLERIAN && (o.a == 0.0 || o.e == 1.0 || o.e == -1.0))
      || (o.state == MODIFIED_KEPLERIAN && (o.ra + o.rp == 0.0 || o.rp == 0.0 || o.ra == 0.0))
  {
    PerifocalZeroCases(LegacyOrbit.KeplerianOf(o));
    if o.state == MODIFIED_KEPLERIAN && o.ra + o.rp != 0.0 {
      RadiiPerifocalZero(o);
    }
  }

  /** With radii not adding up to zero, the recomputed elements make pf_2_gef divide by zero exactly when a radius is zero. */
  lemma RadiiPerifocalZero(o: LegacyOrbit.OrbitState)
    requires o.ra + o.rp != 0.0
    ensures PerifocalDividesByZero(LegacyOrbit.KeplerianOf(LegacyOrbit.FromRadii(o))) <==> o.rp == 0.0 || o.ra == 0.0
  {
    var t := LegacyOrbit.FromRadii(o);
    var d := o.ra + o.rp;
    assert t.a == d / 2.0 && t.a != 0.0;
    assert t.e * d == o.ra - o.rp;
    assert (1.0 - t.e * t.e) * (d * d) == d * d - (t.e * d) * (t.e * d);
    assert (1.0 - t.e * t.e) * (d * d) == 4.0 * o.rp * o.ra;
    PerifocalZeroCases(LegacyOrbit.KeplerianOf(t));
    var x := 1.0 - t.e * t.e;
    if t.a * x == 0.0 {
      assert x == (t.a * x) / t.a;
    }
  }

  /**
   * update_departure_orbit / update_arrival_orbit. The side first copies the record's body
   * and state; then, by state:
   * CARTESIAN: the side takes the record's r and v and their conversions, and the record
   *   takes those elements and radii back, its Cartesian group untouched;
   * KEPLERIAN: the side takes the record's elements (h read as 0) and their Cartesian
   *   conversion, and the record takes the position, velocity and radii back, its
   *   elements untouched; when pf_2_gef divides by zero it raises after the side took the
   *   elements, with the record untouched;
   * MODIFIED_KEPLERIAN: the record's a and e are recomputed from its radii, and the side and
   *   the record take the Cartesian conversion of the new elements; with radii adding up to
   *   zero the division raises after a is written, and when pf_2_gef divides by zero it
   *   raises after a and e are written;
   * any other state: nothing more.
   */
  function Updated(side: Side, o: LegacyOrbit.OrbitState, conversionsFor: CelestialBody -> Conversions): (u: Update)
    ensures u.side.body == AstronomicalData.CelestialBodyFromIndex(o.body) && u.side.state == o.state
    ensures u.outcome.Raise? <==> UpdateRaises(o)
    ensures u.outcome.Raise? ==> u.outcome.error == ZeroDivisionError
    ensures o.state == CARTESIAN ==>
      u.side.r == o.r && u.side.v == o.v && Consistent(u.side, conversionsFor)
      && u.orbit.r == o.r && u.orbit.v == o.v
      && LegacyOrbit.SameElements(u.orbit, u.side.oe) && u.orbit.rp == u.side.op.rp && u.orbit.ra == u.side.op.ra
    ensures o.state == KEPLERIAN && u.outcome.Ok? ==>
      u.side.oe == LegacyOrbit.KeplerianOf(o)
      && (u.side.r, u.side.v) == conversionsFor(u.side.body).toCartesian(u.side.oe)
      && u.side.op == conversionsFor(u.side.body).parametersOf(u.side.r, u.side.v)
      && u.orbit.r == u.side.r && u.orbit.v == u.side.v
      && LegacyOrbit.KeplerianOf(u.orbit) == LegacyOrbit.KeplerianOf(o)
      && u.orbit.rp == u.side.op.rp && u.orbit.ra == u.side.op.ra
    ensures o.state == KEPLERIAN && u.outcome.Raise? ==>
      u.orbit == o && u.side == side.(body := u.side.body, state := o.state, oe := LegacyOrbit.KeplerianOf(o))
    ensures o.state == MODIFIED_KEPLERIAN && u.outcome.Ok? ==>
      (u.side.r, u.side.v) == conversionsFor(u.side.body).toCartesian(LegacyOrbit.KeplerianOf(LegacyOrbit.FromRadii(o)))
      && u.orbit == LegacyOrbit.FromRadii(o).(r := u.side.r, v := u.side.v)
      && u.side.oe == side.oe && u.side.op == side.op
    ensures o.state == MODIFIED_KEPLERIAN && u.outcome.Raise? ==>
      u.orbit == LegacyOrbit.FromRadii(o) && u.side == side.(body := u.side.body, state := o.state)
    ensures o.state != CARTESIAN && o.state != KEPLERIAN && o.state != MODIFIED_KEPLERIAN ==>
      u == Update(side.(body := u.side.body, state := o.state), o, Ok(()))
  {
    var body := AstronomicalData.CelestialBodyFromIndex(o.body);
    var conv := conversionsFor(body);
    var copied := side.(body := body, state := o.state);
    if o.state == CARTESIAN then
      var oe := conv.elementsOf(o.r, o.v);
      var op := conv.parametersOf(o.r, o.v);
      Update(copied.(r := o.r, v := o.v, oe := oe, op := op),
        LegacyOrbit.WithModifiedKeplerian(LegacyOrbit.WithKeplerian(o, oe), oe, op), Ok(()))
    else if o.state == KEPLERIAN then
      var oe := LegacyOrbit.KeplerianOf(o);
      if PerifocalDividesByZero(oe) then Update(copied.(oe := oe), o, Raise(ZeroDivisionError, DivisionMessage))
      else
        var rv := conv.toCartesian(oe);
        var op := conv.parametersOf(rv.0, rv.1);
        Update(copied.(oe := oe, r := rv.0, v := rv.1, op := op),
          LegacyOrbit.WithModifiedKeplerian(o.(r := rv.0, v := rv.1), oe, op), Ok(()))
    else if o.state == MODIFIED_KEPLERIAN then
      var o1 := LegacyOrbit.FromRadii(o);
      if o.ra + o.rp == 0.0 || PerifocalDividesByZero(LegacyOrbit.KeplerianOf(o1)) then
        Update(copied, o1, Raise(ZeroDivisionError, DivisionMessage))
      else
        var rv := conv.toCartesian(LegacyOrbit.KeplerianOf(o1));
        Update(copied.(r := rv.0, v := rv.1), o1.(r := rv.0, v := rv.1), Ok(()))
    else Update(copied, o, Ok(()))
  }

  /** The signals update_*_orbit makes the shared record emit. */
  function UpdateSignals(o: LegacyOrbit.OrbitState): seq<LegacyOrbit.Signal>
  {
    var modified := LegacyOrbit.KeplerianSignals
      + [LegacyOrbit.Changed(LegacyOrbit.PeriapsisRadius), LegacyOrbit.Changed(LegacyOrbit.ApoapsisRadius)];
    if o.state == CARTESIAN then LegacyOrbit.KeplerianSignals + modified
    else if o.state == KEPLERIAN && !UpdateRaises(o) then LegacyOrbit.CartesianSignals + modified
    else if o.state == MODIFIED_KEPLERIAN && o.ra + o.rp != 0.0 then
      [LegacyOrbit.Changed(LegacyOrbit.SemiMajorAxis), LegacyOrbit.Changed(LegacyOrbit.Eccentricity)]
      + (if UpdateRaises(o) then [] else LegacyOrbit.CartesianSignals)
    else []
  }

  /**
   * Filling the shared record from a consistent Cartesian side and reading it straight back
   * gives the same side and leaves the record as filled.
   */
  lemma {:induction false} FillThenUpdate(side: Side, o: LegacyOrbit.OrbitState, conversionsFor: CelestialBody -> Conversions)
    requires side.state == CARTESIAN && Consistent(side, conversionsFor)
    ensures Updated(side, Filled(o, side), conversionsFor) == Update(side, Filled(o, side), Ok(()))
  {
    AstronomicalData.IndexBodyRoundTrip(side.body);
    var f := Filled(o, side);
    var u := Updated(side, f, conversionsFor);
    assert u.side.body == side.body;
    assert u.side == side;
    assert u.orbit == f;
  }

  /** The older maneuvers' values, in list order. */
  function RecordsOf(ms: seq<LegacyManeuver.Maneuver>): (rs: seq<LegacyManeuver.ManeuverState>)
    reads set k | 0 <= k < |ms| :: ms[k]
    ensures |rs| == |ms|
    ensures forall k :: 0 <= k < |ms| ==> rs[k] == ms[k].Snapshot()
    decreases |ms|
  {
    if |ms| == 0 then [] else RecordsOf(ms[..|ms| - 1]) + [ms[|ms| - 1].Snapshot()]
  }

  class MissionOrbitTransfer {
    var spacecraft: LegacySpacecraft.Spacecraft
    /** The shared orbit record the dialogs edit. */
    var orbit: LegacyOrbit.Orbit
    var departure: Side
    var arrival: Side
    var maneuvers: seq<LegacyManeuver.Maneuver>
    /** The central body the conversion tools were last set to (class-level state of those tools). */
    var centralBody: CelestialBody
    /** The conversion tools, for each central body. */
    const conversionsFor: CelestialBody -> Conversions

    function Records(): seq<LegacyManeuver.ManeuverState>
      reads this, set k | 0 <= k < |maneuvers| :: maneuvers[k]
    {
      RecordsOf(maneuvers)
    }

    /**
     * The mission as constructed: both sides on EARTH in the CARTESIAN state with their
     * published position and velocity and the conversions of those, and no maneuvers.
     * `spacecraft` and `orbit` are the shared instances; the record is not filled yet.
     */
    constructor (spacecraft: LegacySpacecraft.Spacecraft, orbit: LegacyOrbit.Orbit,
                 conversionsFor: CelestialBody -> Conversions)
      ensures this.spacecraft == spacecraft && this.orbit == orbit && this.conversionsFor == conversionsFor
      ensures departure == InitialSide(Mission.DepartureR, Mission.DepartureV, conversionsFor(AstronomicalData.CelestialBody.EARTH))
      ensures arrival == InitialSide(Mission.ArrivalR, Mission.ArrivalV, conversionsFor(AstronomicalData.CelestialBody.EARTH))
      ensures Consistent(departure, conversionsFor) && Consistent(arrival, conversionsFor)
      ensures centralBody == AstronomicalData.CelestialBody.EARTH && maneuvers == []
    {
      this.spacecraft := spacecraft;
      this.orbit := orbit;
      this.conversionsFor := conversionsFor;
      var earth := conversionsFor(AstronomicalData.CelestialBody.EARTH);
      departure := InitialSide(Mission.DepartureR, Mission.DepartureV, earth);
      arrival := InitialSide(Mission.ArrivalR, Mission.ArrivalV, earth);
      centralBody := AstronomicalData.CelestialBody.EARTH;
      maneuvers := [];
    }

    /** fill_departure_orbit */
    method FillDepartureOrbit()
      modifies orbit
      ensures orbit.Snapshot() == Filled(old(orbit.Snapshot()), departure)
      ensures orbit.signals == old(orbit.signals) + FillSignals
    {
      Fill(orbit, departure);
    }

    /** fill_arrival_orbit */
    method FillArrivalOrbit()
      modifies orbit
      ensures orbit.Snapshot() == Filled(old(orbit.Snapshot()), arrival)
      ensures orbit.signals == old(orbit.signals) + FillSignals
    {
      Fill(orbit, arrival);
    }

    /** update_departure_orbit: also points the conversion tools at the departure body. */
    method UpdateDepartureOrbit() returns (r: Result<()>)
      modifies this, orbit
      ensures Update(departure, orbit.Snapshot(), r) == Updated(old(departure), old(orbit.Snapshot()), conversionsFor)
      ensures orbit.signals == old(orbit.signals) + UpdateSignals(old(orbit.Snapshot()))
      ensures centralBody == departure.body
      ensures arrival == old(arrival) && maneuvers == old(maneuvers) && orbit == old(orbit) && spacecraft == old(spacecraft)
    {
      var side;
      side, r := UpdateSide(departure, orbit, conversionsFor);
      departure := side;
      centralBody := side.body;
    }

    /** update_arrival_orbit: the same, for the arrival side. */
    method UpdateArrivalOrbit() returns (r: Result<()>)
      modifies this, orbit
      ensures Update(arrival, orbit.Snapshot(), r) == Updated(old(arrival), old(orbit.Snapshot()), conversionsFor)
      ensures orbit.signals == old(orbit.signals) + UpdateSignals(old(orbit.Snapshot()))
      ensures centralBody == arrival.body
      ensures departure == old(departure) && maneuvers == old(maneuvers) && orbit == old(orbit) && spacecraft == old(spacecraft)
    {
      var side;
      side, r := UpdateSide(arrival, orbit, conversionsFor);
      arrival := side;
      centralBody := side.body;
    }

    /** maneuver_count */
    function ManeuverCount(): (n: nat)
      reads this, set k | 0 <= k < |maneuvers| :: maneuvers[k]
      ensures n == |Records()|
    {
      |maneuvers|
    }

    /** maneuver(index) */
    function Maneuver(index: int): (r: Result<LegacyManeuver.Maneuver>)
      reads this
      ensures r.Ok? <==> -|maneuvers| <= index < |maneuvers|
      ensures 0 <= index < |maneuvers| ==> r == Ok(maneuvers[index])
      ensures r.Raise? ==> r.error == IndexError
    {
      ListIndex(maneuvers, index)
    }

    /** clear_maneuvers */
    method ClearManeuvers()
      modifies this
      ensures maneuvers == [] && Records() == []
      ensures departure == old(departure) && arrival == old(arrival) && orbit == old(orbit)
      ensures centralBody == old(centralBody) && spacecraft == old(spacecraft)
    {
      maneuvers := [];
    }

    /** add_maneuver(type, option, optionValue) */
    method AddManeuver(kind: int, option: int, optionValue: real)
      modifies this
      ensures |maneuvers| == |old(maneuvers)| + 1 && maneuvers[..|old(maneuvers)|] == old(maneuvers)
      ensures fresh(maneuvers[|old(maneuvers)|])
      ensures Records() == old(Records()) + [LegacyManeuver.ManeuverState(kind, option, optionValue)]
      ensures departure == old(departure) && arrival == old(arrival) && orbit == old(orbit)
      ensures centralBody == old(centralBody) && spacecraft == old(spacecraft)
    {
      var m := new LegacyManeuver.Maneuver(kind, option, optionValue);
      maneuvers := maneuvers + [m];
      assert maneuvers[..|maneuvers| - 1] == old(maneuvers);
    }
  }

  /** The five updates of fill_*_orbit, on the shared record. */
  method Fill(o: LegacyOrbit.Orbit, side: Side)
    modifies o
    ensures o.Snapshot() == Filled(old(o.Snapshot()), side)
    ensures o.signals == old(o.signals) + FillSignals
  {
    o.UpdateCentralBody(AstronomicalData.IndexFromCelestialBody(side.body.Value()));
    o.UpdateState(side.state);
    o.UpdateCartesianParameters(side.r, side.v);
    o.UpdateKeplerianParameters(side.oe);
    o.UpdateModifiedKeplerianParameters(side.oe, side.op);
  }

  /** The body of update_*_orbit, for one side. */
  method UpdateSide(side: Side, o: LegacyOrbit.Orbit, conversionsFor: CelestialBody -> Conversions)
    returns (updated: Side, r: Result<()>)
    modifies o
    ensures Update(updated, o.Snapshot(), r) == Updated(side, old(o.Snapshot()), conversionsFor)
    ensures o.signals == old(o.signals) + UpdateSignals(old(o.Snapshot()))
  {
    var body := AstronomicalData.CelestialBodyFromIndex(o.body);
    updated := side.(body := body, state := o.state);
    var conv := conversionsFor(body);
    if updated.state == CARTESIAN {
      var pos, vel := Vec3(o.rx, o.ry, o.rz), Vec3(o.vx, o.vy, o.vz);
      var oe, op := conv.elementsOf(pos, vel), conv.parametersOf(pos, vel);
      updated := updated.(r := pos, v := vel, oe := oe, op := op);
      o.UpdateKeplerianParameters(oe);
      o.UpdateModifiedKeplerianParameters(oe, op);
      r := Ok(());
    } else if updated.state == KEPLERIAN {
      var oe := o.KeplerianParameters();
      if PerifocalDividesByZero(oe) {
        updated := updated.(oe := oe);
        return updated, Raise(ZeroDivisionError, DivisionMessage);
      }
      var rv := conv.toCartesian(oe);
      var op := conv.parametersOf(rv.0, rv.1);
      updated := updated.(oe := oe, r := rv.0, v := rv.1, op := op);
      o.UpdateCartesianParameters(rv.0, rv.1);
      o.UpdateModifiedKeplerianParameters(oe, op);
      r := Ok(());
    } else if updated.state == MODIFIED_KEPLERIAN {
      r := o.UpdateKeplerianParametersFromRadii();
      if r.Ok? {
        if PerifocalDividesByZero(o.KeplerianParameters()) {
          return updated, Raise(ZeroDivisionError, DivisionMessage);
        }
        var rv := conv.toCartesian(o.KeplerianParameters());
        updated := updated.(r := rv.0, v := rv.1);
        o.UpdateCartesianParameters(rv.0, rv.1);
      }
    } else {
      r := Ok(());
    }
  }
}
