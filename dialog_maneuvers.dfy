/**
 * Model of ui/dialogs/DialogManeuvers.js: the maneuver dialog. It keeps the component array
 * `r_Maneuvers` in step with the orbit transfer mission's maneuver list like the other maneuver
 * columns, shows each maneuver's costs as well, sizes its scroll view to the rows it holds and
 * closes itself after a save.
 */
module DialogManeuvers {
  import Mission = MissionOrbitTransfer
  import opened ManeuverRows

  /** The height of one maneuver row in the scroll view: the component and its spacing. */
  const RowHeight: int := 100 + 16

  class DialogManeuvers {
    /** __MissionOrbitTransfer */
    const mission: Mission.MissionOrbitTransfer
    /** r_Maneuvers */
    const maneuvers: ManeuverList
    /** _scrollView_.contentHeight */
    var contentHeight: int
    /** Whether close() has been called. */
    var closed: bool

    /** The scroll view is exactly as tall as the rows it holds. */
    predicate Valid()
      reads this, maneuvers
    {
      contentHeight == RowHeight * |maneuvers.rows|
    }

    constructor (mission: Mission.MissionOrbitTransfer, maneuvers: ManeuverList, contentHeight: int)
      ensures this.mission == mission && this.maneuvers == maneuvers
      ensures this.contentHeight == contentHeight && !closed
    {
      this.mission := mission;
      this.maneuvers := maneuvers;
      this.contentHeight := contentHeight;
      closed := false;
    }

    /** clearManeuvers: destroy the rows from the last, then size the view; a null row throws before the sizing. */
    method ClearManeuvers() returns (thrown: bool)
      modifies this, maneuvers
      ensures maneuvers.rows == ClearOf(old(maneuvers.rows)).kept
      ensures maneuvers.destroyed == old(maneuvers.destroyed) + ClearOf(old(maneuvers.rows)).destroyed
      ensures thrown == ClearOf(old(maneuvers.rows)).thrown
      ensures !thrown ==> contentHeight == 0 && Valid()
      ensures thrown ==> contentHeight == old(contentHeight)
      ensures closed == old(closed)
    {
      thrown := maneuvers.Clear();
      if !thrown {
        contentHeight := RowHeight * |maneuvers.rows|;
      }
    }

    /**
     * loadManeuvers: clear, then one creation attempt per backend maneuver, costs included;
     * the view is resized after every row pushed, so it ends as tall as the rows.
     */
    method LoadManeuvers(outcome: nat -> Creation) returns (thrown: bool)
      modifies this, maneuvers
      ensures thrown == ClearOf(old(maneuvers.rows)).thrown
      ensures maneuvers.destroyed == old(maneuvers.destroyed) + ClearOf(old(maneuvers.rows)).destroyed
      ensures thrown ==> maneuvers.rows == ClearOf(old(maneuvers.rows)).kept && contentHeight == old(contentHeight)
      ensures !thrown ==> maneuvers.rows == Numbered(0, Kept(ShownOf(mission.Records(), true, maneuvers.defaults), outcome))
      ensures !thrown ==> Valid()
      ensures closed == old(closed)
    {
      thrown := ClearManeuvers();
      if !thrown {
        maneuvers.Append(mission, true, outcome);
        contentHeight := RowHeight * |maneuvers.rows|;
      }
    }

    /**
     * addManeuver: a pushed row (a component or null) resizes the view to the rows it holds,
     * whatever height a failed clear left behind; a component error changes nothing.
     */
    method AddManeuver(outcome: Creation)
      modifies this, maneuvers
      ensures maneuvers.rows == Added(old(maneuvers.rows), outcome, maneuvers.defaults)
      ensures maneuvers.destroyed == old(maneuvers.destroyed)
      ensures outcome == Created || outcome == NullObject ==> Valid()
      ensures outcome != Created && outcome != NullObject ==> contentHeight == old(contentHeight)
      ensures closed == old(closed)
    {
      maneuvers.Add(outcome);
      if outcome == Created || outcome == NullObject {
        contentHeight := RowHeight * |maneuvers.rows|;
      }
    }

    /**
     * removeManeuver(id): removing the first row with that id resizes the view to the rows it
     * holds; when nothing is removed (no match, or a null row throws first) the height stays.
     */
    method RemoveManeuver(id: int) returns (thrown: bool)
      modifies this, maneuvers
      ensures maneuvers.rows == Removed(old(maneuvers.rows), id).rows
      ensures maneuvers.destroyed == old(maneuvers.destroyed) + Removed(old(maneuvers.rows), id).destroyed
      ensures thrown == Removed(old(maneuvers.rows), id).thrown
      ensures Removed(old(maneuvers.rows), id).destroyed != [] ==> Valid()
      ensures Removed(old(maneuvers.rows), id).destroyed == [] ==> contentHeight == old(contentHeight)
      ensures closed == old(closed)
    {
      var before := |maneuvers.rows|;
      thrown := maneuvers.Remove(id);
      if |maneuvers.rows| != before {
        contentHeight := RowHeight * |maneuvers.rows|;
      }
    }

    /** saveManeuvers: the mission's maneuvers become the rows' intents, then the dialog closes unless a null row threw. */
    method SaveManeuvers() returns (thrown: bool)
      modifies this, mission
      ensures mission.Records() == Saved(maneuvers.rows)
      ensures thrown <==> Null in maneuvers.rows
      ensures closed == (old(closed) || !thrown)
      ensures contentHeight == old(contentHeight)
      ensures mission.depOrbit == old(mission.depOrbit) && mission.arrOrbit == old(mission.arrOrbit)
      ensures mission.centralBody == old(mission.centralBody)
    {
      thrown := maneuvers.Save(mission);
      if !thrown {
        closed := true;
      }
    }
  }

  /**
   * A null row pushed before a component makes the next clear throw after destroying the
   * component and before the resize: the view keeps the height of two rows while holding
   * one. The next pushed row brings the height back in step with the rows.
   */
  method StaleHeightAfterNullRow(mission: Mission.MissionOrbitTransfer, defaults: Shown)
    returns (thrown: bool, staleHeight: int, staleRows: nat, recovered: bool)
    ensures thrown && staleHeight == 2 * RowHeight && staleRows == 1 && recovered
  {
    var rows := new ManeuverList(defaults);
    var dialog := new DialogManeuvers(mission, rows, 0);
    dialog.AddManeuver(NullObject);
    dialog.AddManeuver(Created);
    assert rows.rows == [Null, Item(2, defaults)];
    assert ClearOf(rows.rows).kept == [Null];
    thrown := dialog.ClearManeuvers();
    staleHeight := dialog.contentHeight;
    staleRows := |rows.rows|;
    dialog.AddManeuver(Created);
    recovered := dialog.Valid();
  }
}