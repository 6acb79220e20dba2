/**
 * Model of ui/pages/js/PageOrbitTransferLeft.js: the left panel of the orbit transfer page.
 * Its editors write the departure and arrival orbits of the orbit transfer mission
 * (src/missions/mission_orbit_transfer.py), its restores show them again, and its maneuver
 * column keeps the component array `gr_Maneuvers` in step with the mission's maneuver list.
 */
module PageOrbitTransferLeft {
  import opened Wrappers
  import opened OrbitTypes
  import Utility
  import OrbitRecord
  import AstronomicalData
  import Mission = MissionOrbitTransfer
  import opened OrbitForms
  import opened ManeuverRows

  /**
   * What saving an editor does to its orbit: the selected representation becomes the orbit's
   * state, the group of that representation is written, and update_*_orbit re-derives the rest.
   * Only a Cartesian save reaches the conversions; the Keplerian and modified Keplerian slots
   * raise first, so their writes are kept but never turned into a new position and velocity.
   */
  function OrbitSaved(s: OrbitRecord.OrbitState, f: OrbitForm, conv: Conversions): (t: OrbitRecord.OrbitState)
    ensures t.body == s.body && t.state == f.selected
    ensures f.selected == CARTESIAN ==>
      OrbitRecord.CartesianOf(t) == (Vec3(f.x, f.y, f.z), Vec3(f.vx, f.vy, f.vz))
      && OrbitRecord.KeplerianOf(t) == conv.elementsOf(Vec3(f.x, f.y, f.z), Vec3(f.vx, f.vy, f.vz))
    ensures f.selected == KEPLERIAN ==>
      OrbitRecord.CartesianOf(t) == OrbitRecord.CartesianOf(s) && OrbitRecord.RadiiOf(t) == OrbitRecord.RadiiOf(s)
      && t.h == s.h && t.a == f.a && t.e == f.e && t.i == Utility.DegToRad(f.i)
    ensures f.selected == MODIFIED_KEPLERIAN ==>
      OrbitRecord.CartesianOf(t) == OrbitRecord.CartesianOf(s) && t.a == s.a && t.e == s.e
      && OrbitRecord.RadiiOf(t) == (f.rp, f.ra) && t.i == Utility.DegToRad(f.i2)
    ensures f.selected != CARTESIAN && f.selected != KEPLERIAN && f.selected != MODIFIED_KEPLERIAN ==>
      t == s.(state := f.selected)
  {
    Mission.Rederived(Written(s.(state := f.selected), f, f.selected), conv)
  }

  /**
   * Saving an editor and reading the orbit back through its getters (which is what a restore
   * shows) gives the representation that was saved, each value truncated to six decimals.
   */
  lemma {:induction false} SaveThenRestore(s: OrbitRecord.OrbitState, f: OrbitForm, conv: Conversions)
    ensures Restored(OrbitSaved(s, f, conv)).selected == f.selected
    ensures f.selected == CARTESIAN ==> ShowsCartesian(OrbitSaved(s, f, conv), f)
    ensures f.selected == KEPLERIAN ==> ShowsKeplerian(OrbitSaved(s, f, conv), f)
    ensures f.selected == MODIFIED_KEPLERIAN ==> ShowsModified(OrbitSaved(s, f, conv), f)
  {
    if f.selected == CARTESIAN {
      CartesianSaveThenRestore(s, f, conv);
    } else if f.selected == KEPLERIAN {
      KeplerianSaveThenRestore(s, f, conv);
    } else if f.selected == MODIFIED_KEPLERIAN {
      ModifiedSaveThenRestore(s, f, conv);
    }
  }

  /** The getters of `t` show the Cartesian fields of `f`, truncated. */
  predicate ShowsCartesian(t: OrbitRecord.OrbitState, f: OrbitForm)
  {
    OrbitRecord.Read(t, OrbitRecord.Rx) == Utility.Format(f.x) && OrbitRecord.Read(t, OrbitRecord.Ry) == Utility.Format(f.y)
    && OrbitRecord.Read(t, OrbitRecord.Rz) == Utility.Format(f.z) && OrbitRecord.Read(t, OrbitRecord.Vx) == Utility.Format(f.vx)
    && OrbitRecord.Read(t, OrbitRecord.Vy) == Utility.Format(f.vy) && OrbitRecord.Read(t, OrbitRecord.Vz) == Utility.Format(f.vz)
  }

  /** The getters of `t` show the angles `i`, `raan`, `argp` and `theta` (degrees), truncated. */
  predicate ShowsAngles(t: OrbitRecord.OrbitState, i: real, raan: real, argp: real, theta: real)
  {
    OrbitRecord.Read(t, OrbitRecord.Inclination) == Utility.Format(i)
    && OrbitRecord.Read(t, OrbitRecord.RightAscensionAscendingNode) == Utility.Format(raan)
    && OrbitRecord.Read(t, OrbitRecord.PeriapsisAnomaly) == Utility.Format(argp)
    && OrbitRecord.Read(t, OrbitRecord.TrueAnomaly) == Utility.Format(theta)
  }

  /** The getters of `t` show the Keplerian fields of `f`, truncated. */
  predicate ShowsKeplerian(t: OrbitRecord.OrbitState, f: OrbitForm)
  {
    OrbitRecord.Read(t, OrbitRecord.SemiMajorAxis) == Utility.Format(f.a)
    && OrbitRecord.Read(t, OrbitRecord.Eccentricity) == Utility.Format(f.e)
    && ShowsAngles(t, f.i, f.raan, f.argp, f.theta)
  }

  /** The getters of `t` show the radii and the `_2` angles of `f`, truncated. */
  predicate ShowsModified(t: OrbitRecord.OrbitState, f: OrbitForm)
  {
    OrbitRecord.Read(t, OrbitRecord.PeriapsisRadius) == Utility.Format(f.rp)
    && OrbitRecord.Read(t, OrbitRecord.ApoapsisRadius) == Utility.Format(f.ra)
    && ShowsAngles(t, f.i2, f.raan2, f.argp2, f.theta2)
  }

  /** Angles stored from degrees read back as those degrees, truncated. */
  lemma StoredAnglesShown(t: OrbitRecord.OrbitState, i: real, raan: real, argp: real, theta: real)
    requires t.i == Utility.DegToRad(i) && t.raan == Utility.DegToRad(raan)
    requires t.argp == Utility.DegToRad(argp) && t.theta == Utility.DegToRad(theta)
    ensures ShowsAngles(t, i, raan, argp, theta)
  {
    Utility.FormatDegreesOfStoredAngle(i, 6);
    Utility.FormatDegreesOfStoredAngle(raan, 6);
    Utility.FormatDegreesOfStoredAngle(argp, 6);
    Utility.FormatDegreesOfStoredAngle(theta, 6);
  }

  lemma CartesianSaveThenRestore(s: OrbitRecord.OrbitState, f: OrbitForm, conv: Conversions)
    requires f.selected == CARTESIAN
    ensures ShowsCartesian(OrbitSaved(s, f, conv), f)
  {
    var t := OrbitSaved(s, f, conv);
    assert t.r == Vec3(f.x, f.y, f.z) && t.v == Vec3(f.vx, f.vy, f.vz);
  }

  lemma KeplerianSaveThenRestore(s: OrbitRecord.OrbitState, f: OrbitForm, conv: Conversions)
    requires f.selected == KEPLERIAN
    ensures ShowsKeplerian(OrbitSaved(s, f, conv), f)
  {
    var t := OrbitSaved(s, f, conv);
    assert t == s.(state := f.selected, a := f.a, e := f.e, i := Utility.DegToRad(f.i), raan := Utility.DegToRad(f.raan),
                   argp := Utility.DegToRad(f.argp), theta := Utility.DegToRad(f.theta));
    StoredAnglesShown(t, f.i, f.raan, f.argp, f.theta);
  }

  lemma ModifiedSaveThenRestore(s: OrbitRecord.OrbitState, f: OrbitForm, conv: Conversions)
    requires f.selected == MODIFIED_KEPLERIAN
    ensures ShowsModified(OrbitSaved(s, f, conv), f)
  {
    var t := OrbitSaved(s, f, conv);
    assert t == s.(state := f.selected, rp := f.rp, ra := f.ra, i := Utility.DegToRad(f.i2), raan := Utility.DegToRad(f.raan2),
                   argp := Utility.DegToRad(f.argp2), theta := Utility.DegToRad(f.theta2));
    StoredAnglesShown(t, f.i2, f.raan2, f.argp2, f.theta2);
  }

  /**
   * A Keplerian save never moves the spacecraft: the position and velocity a simulation
   * starts from stay those the orbit had before, whatever the editor held.
   */
  lemma KeplerianSaveKeepsPosition(s: OrbitRecord.OrbitState, f: OrbitForm, g: OrbitForm, conv: Conversions)
    requires f.selected == KEPLERIAN && g.selected == KEPLERIAN
    ensures OrbitRecord.CartesianOf(OrbitSaved(s, f, conv)) == OrbitRecord.CartesianOf(OrbitSaved(s, g, conv))
  {
  }

  /** The page, with the mission object it edits and the state of its controls. */
  class PageOrbitTransferLeft {
    /** __MissionOrbitTransfer */
    const mission: Mission.MissionOrbitTransfer
    /** gr_Maneuvers */
    const maneuvers: ManeuverList
    /** p_SelectedCelestialBody */
    var selectedBody: int
    /** p_SelectedDepartureSateRepresentation and the `_departure_*_` fields. */
    var departure: OrbitForm
    /** p_SelectedArrivalSateRepresentation and the `_arrival_*_` fields. */
    var arrival: OrbitForm

    constructor (mission: Mission.MissionOrbitTransfer, maneuvers: ManeuverList,
                 selectedBody: int, departure: OrbitForm, arrival: OrbitForm)
      ensures this.mission == mission && this.maneuvers == maneuvers
      ensures this.selectedBody == selectedBody && this.departure == departure && this.arrival == arrival
    {
      this.mission := mission;
      this.maneuvers := maneuvers;
      this.selectedBody := selectedBody;
      this.departure := departure;
      this.arrival := arrival;
    }

    /**
     * saveCelestialBody: both orbits take the selected body, then update_celestial_body makes
     * the mission's central body the one the departure orbit now names.
     */
    method SaveCelestialBody()
      requires mission.Valid()
      modifies mission, mission.depOrbit, mission.arrOrbit
      ensures mission.depOrbit == old(mission.depOrbit) && mission.arrOrbit == old(mission.arrOrbit)
      ensures mission.depOrbit.Snapshot() == old(mission.depOrbit.Snapshot()).(body := selectedBody)
      ensures mission.arrOrbit.Snapshot() == old(mission.arrOrbit.Snapshot()).(body := selectedBody)
      ensures mission.depOrbit.signals == old(mission.depOrbit.signals) + [OrbitRecord.BodyChanged]
      ensures mission.arrOrbit.signals == old(mission.arrOrbit.signals) + [OrbitRecord.BodyChanged]
      ensures mission.centralBody == AstronomicalData.CelestialBodyFromIndex(selectedBody)
      ensures mission.maneuvers == old(mission.maneuvers) && mission.spacecraft == old(mission.spacecraft)
    {
      mission.depOrbit.SetBody(selectedBody);
      mission.arrOrbit.SetBody(selectedBody);
      mission.UpdateCelestialBody();
    }

    /**
     * saveDepartureParameters: state, the selected group, then update_departure_orbit. The
     * exception that slot raises for the Keplerian representations is returned as `raised`;
     * the page itself goes on as if nothing happened.
     */
    method SaveDepartureParameters() returns (raised: Result<()>)
      modifies mission.depOrbit
      ensures mission.depOrbit.Snapshot() == OrbitSaved(old(mission.depOrbit.Snapshot()), departure, mission.Conv())
      ensures mission.depOrbit.signals == old(mission.depOrbit.signals) + [OrbitRecord.StateChanged]
        + WrittenSignals(departure.selected) + Mission.UpdateSignals(departure.selected)
      ensures raised == Mission.UpdateOutcome(Written(old(mission.depOrbit.Snapshot()).(state := departure.selected), departure, departure.selected))
    {
      mission.depOrbit.SetState(departure.selected);
      Write(mission.depOrbit, departure, departure.selected);
      raised := mission.UpdateDepartureOrbit();
    }

    /** saveArrivalParameters: the same on the arrival orbit. */
    method SaveArrivalParameters() returns (raised: Result<()>)
      modifies mission.arrOrbit
      ensures mission.arrOrbit.Snapshot() == OrbitSaved(old(mission.arrOrbit.Snapshot()), arrival, mission.Conv())
      ensures mission.arrOrbit.signals == old(mission.arrOrbit.signals) + [OrbitRecord.StateChanged]
        + WrittenSignals(arrival.selected) + Mission.UpdateSignals(arrival.selected)
      ensures raised == Mission.UpdateOutcome(Written(old(mission.arrOrbit.Snapshot()).(state := arrival.selected), arrival, arrival.selected))
    {
      mission.arrOrbit.SetState(arrival.selected);
      Write(mission.arrOrbit, arrival, arrival.selected);
      raised := mission.UpdateArrivalOrbit();
    }

    /** restoreDepartureParameters: the selected body and every departure field from the departure orbit. */
    method RestoreDepartureParameters()
      modifies this
      ensures selectedBody == mission.depOrbit.body
      ensures departure == Restored(mission.depOrbit.Snapshot())
      ensures arrival == old(arrival)
    {
      selectedBody := mission.depOrbit.body;
      departure := Restored(mission.depOrbit.Snapshot());
    }

    /** restoreArrivalParameters: the selected body and every arrival field from the arrival orbit. */
    method RestoreArrivalParameters()
      modifies this
      ensures selectedBody == mission.arrOrbit.body
      ensures arrival == Restored(mission.arrOrbit.Snapshot())
      ensures departure == old(departure)
    {
      selectedBody := mission.arrOrbit.body;
      arrival := Restored(mission.arrOrbit.Snapshot());
    }

    /** loadManeuvers: the rows become the mission's maneuvers, without their costs. */
    method LoadManeuvers(outcome: nat -> Creation) returns (thrown: bool)
      modifies maneuvers
      ensures thrown == ClearOf(old(maneuvers.rows)).thrown
      ensures maneuvers.destroyed == old(maneuvers.destroyed) + ClearOf(old(maneuvers.rows)).destroyed
      ensures thrown ==> maneuvers.rows == ClearOf(old(maneuvers.rows)).kept
      ensures !thrown ==> maneuvers.rows == Numbered(0, Kept(ShownOf(mission.Records(), false, maneuvers.defaults), outcome))
    {
      thrown := maneuvers.Load(mission, false, outcome);
    }

    /** saveManeuvers: the mission's maneuvers become the rows' type, option and value. */
    method SaveManeuvers() returns (thrown: bool)
      modifies mission
      ensures mission.Records() == Saved(maneuvers.rows)
      ensures thrown <==> Null in maneuvers.rows
      ensures mission.depOrbit == old(mission.depOrbit) && mission.arrOrbit == old(mission.arrOrbit)
      ensures mission.centralBody == old(mission.centralBody)
    {
      thrown := maneuvers.Save(mission);
    }
  }
}
