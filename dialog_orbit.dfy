/**
 * Model of ui/dialogs/DialogOrbit.js: the single-orbit dialog. Its updateParameters writes the
 * body and the selected representation's fields into the shared orbit object (`__Orbit`, an
 * src/Orbit.py record), calls a save or update slot on `__MissionOrbitTransfer`, and closes the
 * dialog on a save. The mission object is seen only through the names of the slots it exposes;
 * calling a name it lacks throws a TypeError, which ends updateParameters before the close.
 */
module DialogOrbit {
  import LegacyOrbit
  import opened OrbitForms

  /** The slot updateParameters calls for the departure (`p_Departure`) or arrival orbit and the `save` option. */
  function SlotFor(departure: bool, save: bool): (name: string)
    ensures name in {"saveDepartureOrbit", "updateDepartureOrbit", "saveArrivalOrbit", "updateArrivalOrbit"}
    ensures (name == "saveDepartureOrbit" || name == "saveArrivalOrbit") <==> save
    ensures (name == "saveDepartureOrbit" || name == "updateDepartureOrbit") <==> departure
  {
    if departure then (if save then "saveDepartureOrbit" else "updateDepartureOrbit")
    else (if save then "saveArrivalOrbit" else "updateArrivalOrbit")
  }

  /** The slots of the orbit transfer mission in src/missions/mission_orbit_transfer.py. */
  const MissionSlots: set<string> := {
    "attach_canvas", "detach_canvas", "update_celestial_body",
    "update_departure_orbit", "update_arrival_orbit",
    "evaluate_departure_orbit", "evaluate_arrival_orbit",
    "evaluate_departure_ground_track", "evaluate_arrival_ground_track",
    "maneuver_count", "maneuver", "clear_maneuvers", "add_maneuver", "simulate"}

  /** The slots of the orbit transfer mission in src/MissionOrbitTransfer.py. */
  const LegacyMissionSlots: set<string> := {
    "fill_departure_orbit", "fill_arrival_orbit",
    "update_departure_orbit", "update_arrival_orbit",
    "evaluate_departure_orbit", "evaluate_arrival_orbit",
    "evaluate_departure_ground_track", "evaluate_arrival_ground_track",
    "maneuver_count", "maneuver", "clear_maneuvers", "add_maneuver", "simulate"}

  /**
   * Neither orbit transfer mission exposes any of the four slots updateParameters calls, so
   * with either one behind `__MissionOrbitTransfer` the call throws and the dialog never closes.
   */
  lemma SlotsMissingFromBothMissions(departure: bool, save: bool)
    ensures SlotFor(departure, save) !in MissionSlots
    ensures SlotFor(departure, save) !in LegacyMissionSlots
  {
  }

  class DialogOrbit {
    /** __Orbit */
    const orbit: LegacyOrbit.Orbit
    /** The slot names `__MissionOrbitTransfer` exposes. */
    const slots: set<string>
    /** _celestialBody_.currentIndex */
    var bodyIndex: int
    /** _selection_.currentIndex and the editor fields (the modified Keplerian tab's angles are the `_2` ones). */
    var form: OrbitForm
    /** p_Departure */
    var departure: bool
    /** The slots called on the mission so far, in order. */
    var calls: seq<string>
    /** Whether close() has been called. */
    var closed: bool

    constructor (orbit: LegacyOrbit.Orbit, slots: set<string>, bodyIndex: int, form: OrbitForm, departure: bool)
      ensures this.orbit == orbit && this.slots == slots
      ensures this.bodyIndex == bodyIndex && this.form == form && this.departure == departure
      ensures calls == [] && !closed
    {
      this.orbit := orbit;
      this.slots := slots;
      this.bodyIndex := bodyIndex;
      this.form := form;
      this.departure := departure;
      calls := [];
      closed := false;
    }

    /**
     * updateParameters(save): the body and the selected group are written to the shared record
     * (its state is left as it was); then the slot is called, which throws when the mission
     * lacks it; only a save whose call returned closes the dialog.
     */
    method UpdateParameters(save: bool) returns (thrown: bool)
      modifies this, orbit
      ensures orbit.Snapshot() == LegacyWritten(old(orbit.Snapshot()).(body := bodyIndex), form, form.selected)
      ensures orbit.signals == old(orbit.signals)
      ensures thrown <==> SlotFor(departure, save) !in slots
      ensures calls == if thrown then old(calls) else old(calls) + [SlotFor(departure, save)]
      ensures closed == (old(closed) || (save && !thrown))
      ensures bodyIndex == old(bodyIndex) && form == old(form) && departure == old(departure)
    {
      orbit.SetBody(bodyIndex);
      LegacyWrite(orbit, form, form.selected);
      var slot := SlotFor(departure, save);
      thrown := slot !in slots;
      if !thrown {
        calls := calls + [slot];
        if save {
          closed := true;
        }
      }
    }
  }

  /**
   * With either orbit transfer mission behind it, saving from the dialog writes the shared
   * record but leaves the dialog open and calls nothing.
   */
  method SaveNeverCloses(orbit: LegacyOrbit.Orbit, legacy: bool, bodyIndex: int, form: OrbitForm, departure: bool)
    returns (thrown: bool, closed: bool, calls: seq<string>)
    modifies orbit
    ensures thrown && !closed && calls == []
  {
    var dialog := new DialogOrbit(orbit, if legacy then LegacyMissionSlots else MissionSlots, bodyIndex, form, departure);
    SlotsMissingFromBothMissions(departure, true);
    thrown := dialog.UpdateParameters(true);
    closed := dialog.closed;
    calls := dialog.calls;
  }
}
