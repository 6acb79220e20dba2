/**
 * Model of ui/dialogs/sections/js/SectionOrbitTransfer.js: the orbit transfer section of the
 * mission dialog. Its orbit editors write one shared orbit object (`__Orbit`, an
 * src/Orbit.py record), while the celestial-body, orbit-update and maneuver calls go to the
 * orbit transfer mission (src/missions/mission_orbit_transfer.py). The departure and the
 * arrival editor therefore both read and write the same record, and the mission's own orbits
 * are re-derived but never receive what the editors hold.
 */
module SectionOrbitTransfer {
  import opened Wrappers
  import opened OrbitTypes
  import OrbitRecord
  import LegacyOrbit
  import AstronomicalData
  import Mission = MissionOrbitTransfer
  import opened OrbitForms
  import opened ManeuverRows

  /** What saving an editor does to the shared record: the selected representation becomes its state and that group is written. */
  function SectionSaved(s: LegacyOrbit.OrbitState, f: OrbitForm): (t: LegacyOrbit.OrbitState)
    ensures t.body == s.body && t.state == f.selected
    ensures f.selected == CARTESIAN ==> t.r == Vec3(f.x, f.y, f.z) && t.v == Vec3(f.vx, f.vy, f.vz)
    ensures f.selected == KEPLERIAN ==> t.a == f.a && t.e == f.e && t.r == s.r && t.v == s.v
    ensures f.selected == MODIFIED_KEPLERIAN ==> t.rp == f.rp && t.ra == f.ra && t.r == s.r && t.v == s.v
    ensures f.selected != CARTESIAN && f.selected != KEPLERIAN && f.selected != MODIFIED_KEPLERIAN ==>
      t == s.(state := f.selected)
  {
    LegacyWritten(s.(state := f.selected), f, f.selected)
  }

  /**
   * Saving the departure editor and then the arrival editor in the same representation leaves
   * the shared record exactly as saving the arrival editor alone: the departure values are lost.
   */
  lemma {:induction false} ArrivalSaveOverwritesDeparture(s: LegacyOrbit.OrbitState, departure: OrbitForm, arrival: OrbitForm)
    requires departure.selected == arrival.selected
    ensures SectionSaved(SectionSaved(s, departure), arrival) == SectionSaved(s, arrival)
    ensures LegacyRestored(SectionSaved(SectionSaved(s, departure), arrival)) == LegacyRestored(SectionSaved(s, arrival))
  {
    LaterSaveOverwrites(s.(state := departure.selected), departure, arrival, departure.selected);
  }

  /** The section, with its backends and the state of its controls. */
  class SectionOrbitTransfer {
    /** __Orbit */
    const orbit: LegacyOrbit.Orbit
    /** __MissionOrbitTransfer */
    const mission: Mission.MissionOrbitTransfer
    /** r_Maneuvers */
    const maneuvers: ManeuverList
    /** p_SelectedCelestialBody */
    var selectedBody: int
    /** p_SelectedDepartureSateRepresentation and the `_departure_*_` fields. */
    var departure: OrbitForm
    /** p_SelectedArrivalSateRepresentation and the `_arrival_*_` fields. */
    var arrival: OrbitForm

    constructor (orbit: LegacyOrbit.Orbit, mission: Mission.MissionOrbitTransfer, maneuvers: ManeuverList,
                 selectedBody: int, departure: OrbitForm, arrival: OrbitForm)
      ensures this.orbit == orbit && this.mission == mission && this.maneuvers == maneuvers
      ensures this.selectedBody == selectedBody && this.departure == departure && this.arrival == arrival
    {
      this.orbit := orbit;
      this.mission := mission;
      this.maneuvers := maneuvers;
      this.selectedBody := selectedBody;
      this.departure := departure;
      this.arrival := arrival;
    }

    /**
     * saveCelestialBody: the shared record takes the selected body, then update_celestial_body
     * sets the mission's central body from the mission's own departure orbit, which the section
     * never wrote: the selection does not reach the mission.
     */
    method SaveCelestialBody()
      modifies orbit, mission
      ensures orbit.Snapshot() == old(orbit.Snapshot()).(body := selectedBody) && orbit.signals == old(orbit.signals)
      ensures mission.centralBody == old(mission.depOrbit.CelestialBody())
      ensures mission.depOrbit == old(mission.depOrbit) && mission.arrOrbit == old(mission.arrOrbit)
      ensures mission.maneuvers == old(mission.maneuvers)
    {
      orbit.SetBody(selectedBody);
      mission.UpdateCelestialBody();
    }

    /**
     * saveDepartureParameters: state and the selected group into the shared record, then
     * update_departure_orbit re-derives the mission's departure orbit from what it already held.
     */
    method SaveDepartureParameters() returns (raised: Result<()>)
      modifies orbit, mission.depOrbit
      ensures orbit.Snapshot() == SectionSaved(old(orbit.Snapshot()), departure) && orbit.signals == old(orbit.signals)
      ensures mission.depOrbit.Snapshot() == Mission.Rederived(old(mission.depOrbit.Snapshot()), mission.Conv())
      ensures mission.depOrbit.signals == old(mission.depOrbit.signals) + Mission.UpdateSignals(old(mission.depOrbit.state))
      ensures raised == Mission.UpdateOutcome(old(mission.depOrbit.Snapshot()))
    {
      orbit.SetState(departure.selected);
      LegacyWrite(orbit, departure, departure.selected);
      raised := mission.UpdateDepartureOrbit();
    }

    /** saveArrivalParameters: the same into the same shared record, then update_arrival_orbit. */
    method SaveArrivalParameters() returns (raised: Result<()>)
      modifies orbit, mission.arrOrbit
      ensures orbit.Snapshot() == SectionSaved(old(orbit.Snapshot()), arrival) && orbit.signals == old(orbit.signals)
      ensures mission.arrOrbit.Snapshot() == Mission.Rederived(old(mission.arrOrbit.Snapshot()), mission.Conv())
      ensures mission.arrOrbit.signals == old(mission.arrOrbit.signals) + Mission.UpdateSignals(old(mission.arrOrbit.state))
      ensures raised == Mission.UpdateOutcome(old(mission.arrOrbit.Snapshot()))
    {
      orbit.SetState(arrival.selected);
      LegacyWrite(orbit, arrival, arrival.selected);
      raised := mission.UpdateArrivalOrbit();
    }

    /** restoreDepartureParameters: the selected body and every departure field from the shared record. */
    method RestoreDepartureParameters()
      modifies this
      ensures selectedBody == orbit.body && departure == LegacyRestored(orbit.Snapshot())
      ensures arrival == old(arrival)
    {
      selectedBody := orbit.body;
      departure := LegacyRestored(orbit.Snapshot());
    }

    /** restoreArrivalParameters: the selected body and every arrival field from the same shared record. */
    method RestoreArrivalParameters()
      modifies this
      ensures selectedBody == orbit.body && arrival == LegacyRestored(orbit.Snapshot())
      ensures departure == old(departure)
    {
      selectedBody := orbit.body;
      arrival := LegacyRestored(orbit.Snapshot());
    }

    /** clearManeuvers */
    method ClearManeuvers() returns (thrown: bool)
      modifies maneuvers
      ensures maneuvers.rows == ClearOf(old(maneuvers.rows)).kept
      ensures maneuvers.destroyed == old(maneuvers.destroyed) + ClearOf(old(maneuvers.rows)).destroyed
      ensures thrown == ClearOf(old(maneuvers.rows)).thrown
    {
      thrown := maneuvers.Clear();
    }

    /** loadManeuvers: the rows become the mission's maneuvers, without their costs. */
    method LoadManeuvers(outcome: nat -> Creation) returns (thrown: bool)
      modifies maneuvers
      ensures thrown == ClearOf(old(maneuvers.rows)).thrown
      ensures maneuvers.destroyed == old(maneuvers.destroyed) + ClearOf(old(maneuvers.rows)).destroyed
      ensures thrown ==> maneuvers.rows == ClearOf(old(maneuvers.rows)).kept
      ensures !thrown ==> maneuvers.rows == Numbered(0, Kept(ShownOf(mission.Records(), false, maneuvers.defaults), outcome))
    {
      thrown := maneuvers.Load(mission, false, outcome);
    }

    /** addManeuver */
    method AddManeuver(outcome: Creation)
      modifies maneuvers
      ensures maneuvers.rows == Added(old(maneuvers.rows), outcome, maneuvers.defaults)
      ensures maneuvers.destroyed == old(maneuvers.destroyed)
    {
      maneuvers.Add(outcome);
    }

    /** removeManeuver(id) */
    method RemoveManeuver(id: int) returns (thrown: bool)
      modifies maneuvers
      ensures maneuvers.rows == Removed(old(maneuvers.rows), id).rows
      ensures maneuvers.destroyed == old(maneuvers.destroyed) + Removed(old(maneuvers.rows), id).destroyed
      ensures thrown == Removed(old(maneuvers.rows), id).thrown
    {
      thrown := maneuvers.Remove(id);
    }

    /** saveManeuvers: the mission's maneuvers become the rows' type, option and value. */
    method SaveManeuvers() returns (thrown: bool)
      modifies mission
      ensures mission.Records() == Saved(maneuvers.rows)
      ensures thrown <==> Null in maneuvers.rows
      ensures mission.depOrbit == old(mission.depOrbit) && mission.arrOrbit == old(mission.arrOrbit)
      ensures mission.centralBody == old(mission.centralBody)
    {
      thrown := maneuvers.Save(mission);
    }
  }
}
