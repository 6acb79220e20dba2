/**
 * The array of maneuver components (`gr_Maneuvers` in ui/pages/js/PageOrbitTransferLeft.js,
 * `r_Maneuvers` in ui/dialogs/sections/js/SectionOrbitTransfer.js and ui/dialogs/DialogManeuvers.js)
 * and the functions those files repeat to keep it in step with the mission's maneuver list:
 * clear, load, add, remove and save.
 *
 * A row is the object createObject returned: a component with its p_Id and shown values, or
 * null (addManeuver pushes even that). Reading a property of a null row or destroying it throws
 * a TypeError, which ends the running function and every function that called it.
 */
module ManeuverRows {
  import ManeuverRecord
  import Mission = MissionOrbitTransfer

  /** The values a maneuver component shows: p_Type, p_Option, p_OptionValue and the three costs. */
  datatype Shown = Shown(kind: int, option: int, optionValue: real, deltaVelocity: real, deltaTime: real, deltaMass: real)

  /** An entry of the array: a created component with its p_Id, or null. */
  datatype Row = Null | Item(id: int, shown: Shown)

  /** What one Qt.createComponent / createObject attempt gives. */
  datatype Creation = Created | NullObject | ComponentError | ComponentLoading

  function Reverse<T>(xs: seq<T>): (r: seq<T>)
    ensures |r| == |xs|
    ensures forall k :: 0 <= k < |xs| ==> r[k] == xs[|xs| - 1 - k]
  {
    seq(|xs|, k requires 0 <= k < |xs| => xs[|xs| - 1 - k])
  }

  /** The rows left, the rows destroyed (in the order destroyed) and whether a TypeError ended the loop. */
  datatype Cleared = Cleared(kept: seq<Row>, destroyed: seq<Row>, thrown: bool)

  /**
   * clearManeuvers: from the last row down to the first, destroy the row and pop it.
   * It throws exactly when a null row is present; otherwise the array ends empty. When it
   * throws, the last null row and every row before it stay. No null row is ever destroyed.
   */
  function ClearOf(rows: seq<Row>): (c: Cleared)
    ensures c.thrown <==> Null in rows
    ensures !c.thrown ==> c.kept == []
    ensures c.thrown ==> |c.kept| > 0 && c.kept[|c.kept| - 1] == Null
    ensures Null !in c.destroyed
    decreases |rows|
  {
    if |rows| == 0 then Cleared([], [], false)
    else
      var last := rows[|rows| - 1];
      if last == Null then Cleared(rows, [], true)
      else
        var c := ClearOf(rows[..|rows| - 1]);
        assert rows == rows[..|rows| - 1] + [last];
        Cleared(c.kept, [last] + c.destroyed, c.thrown)
  }

  lemma ReverseCons<T>(x: T, xs: seq<T>)
    ensures Reverse([x] + xs) == Reverse(xs) + [x]
  {
  }

  lemma ReverseReverse<T>(xs: seq<T>)
    ensures Reverse(Reverse(xs)) == xs
  {
  }

  /** The rows kept followed by the rows destroyed, in reverse order of destruction, are the rows before the clear. */
  lemma {:induction false} ClearKeepsPrefix(rows: seq<Row>)
    ensures ClearOf(rows).kept + Reverse(ClearOf(rows).destroyed) == rows
    decreases |rows|
  {
    if |rows| > 0 && rows[|rows| - 1] != Null {
      var last := rows[|rows| - 1];
      var init := rows[..|rows| - 1];
      ClearKeepsPrefix(init);
      var c := ClearOf(init);
      ReverseCons(last, c.destroyed);
      assert ClearOf(rows) == Cleared(c.kept, [last] + c.destroyed, c.thrown);
      assert c.kept + (Reverse(c.destroyed) + [last]) == (c.kept + Reverse(c.destroyed)) + [last];
      assert rows == init + [last];
    }
  }

  /**
   * Clearing only ever takes rows off the end: the rows kept followed by the rows destroyed,
   * in reverse order of destruction, are the rows before the clear. So a clear that does not
   * throw destroys every row, last first.
   */
  lemma ClearDestroysFromTheEnd(rows: seq<Row>)
    ensures ClearOf(rows).kept + Reverse(ClearOf(rows).destroyed) == rows
    ensures !ClearOf(rows).thrown ==> ClearOf(rows).destroyed == Reverse(rows)
  {
    ClearKeepsPrefix(rows);
    if !ClearOf(rows).thrown {
      assert Reverse(ClearOf(rows).destroyed) == rows;
      ReverseReverse(ClearOf(rows).destroyed);
    }
  }

  /** The elements whose creation attempt (numbered by position) gave an object, in order. */
  function Kept<T>(xs: seq<T>, outcome: nat -> Creation): (ks: seq<T>)
    ensures |ks| <= |xs|
    ensures forall x :: x in ks ==> x in xs
    decreases |xs|
  {
    if |xs| == 0 then []
    else
      var before := Kept(xs[..|xs| - 1], outcome);
      if outcome(|xs| - 1) == Created then before + [xs[|xs| - 1]] else before
  }

  /** When every creation succeeds, every element is kept. */
  lemma {:induction false} AllCreatedKeepsAll<T>(xs: seq<T>, outcome: nat -> Creation)
    requires forall k :: 0 <= k < |xs| ==> outcome(k) == Created
    ensures Kept(xs, outcome) == xs
    decreases |xs|
  {
    if |xs| > 0 {
      AllCreatedKeepsAll(xs[..|xs| - 1], outcome);
      assert xs == xs[..|xs| - 1] + [xs[|xs| - 1]];
    }
  }

  /** Rows pushed one after the other onto an array of length `base`, each with p_Id = length + 1. */
  function Numbered(base: int, xs: seq<Shown>): (rows: seq<Row>)
    ensures |rows| == |xs|
    ensures forall k :: 0 <= k < |xs| ==> rows[k] == Item(base + k + 1, xs[k])
  {
    seq(|xs|, k requires 0 <= k < |xs| => Item(base + k + 1, xs[k]))
  }

  lemma NumberedSnoc(base: int, xs: seq<Shown>, x: Shown)
    ensures Numbered(base, xs + [x]) == Numbered(base, xs) + [Item(base + |xs| + 1, x)]
  {
    assert forall k :: 0 <= k < |xs| ==> (xs + [x])[k] == xs[k];
  }

  /**
   * What a loaded row shows of a backend maneuver: its type, option and option value, and either
   * its formatted costs (`withCosts`) or the component's declared defaults for them.
   */
  function ShownRecord(m: ManeuverRecord.ManeuverState, withCosts: bool, defaults: Shown): (s: Shown)
    ensures s.kind == m.kind && s.option == m.option && s.optionValue == m.optionValue
  {
    if withCosts then
      Shown(m.kind, m.option, m.optionValue, ManeuverRecord.ShownDeltaVelocity(m.deltaVelocity),
        ManeuverRecord.ShownDeltaTime(m.deltaTime), ManeuverRecord.ShownDeltaMass(m.deltaMass))
    else defaults.(kind := m.kind, option := m.option, optionValue := m.optionValue)
  }

  function ShownOf(records: seq<ManeuverRecord.ManeuverState>, withCosts: bool, defaults: Shown): (xs: seq<Shown>)
    ensures |xs| == |records|
    ensures forall k :: 0 <= k < |records| ==> xs[k] == ShownRecord(records[k], withCosts, defaults)
  {
    seq(|records|, k requires 0 <= k < |records| => ShownRecord(records[k], withCosts, defaults))
  }

  /**
   * addManeuver: a created component gets p_Id = length + 1 and the declared defaults; a null
   * object is pushed as it is; a component that is in error or still loading adds nothing.
   * The rows already there are untouched.
   */
  function Added(rows: seq<Row>, outcome: Creation, defaults: Shown): (r: seq<Row>)
    ensures |r| == if outcome == Created || outcome == NullObject then |rows| + 1 else |rows|
    ensures r[..|rows|] == rows
  {
    match outcome
    case Created => rows + [Item(|rows| + 1, defaults)]
    case NullObject => rows + [Null]
    case _ => rows
  }

  /**
   * The index where removeManeuver's search stops: the first row that is null (reading its
   * p_Id throws) or whose p_Id is `id`; the length of the array when there is none.
   */
  function FirstStop(rows: seq<Row>, id: int): (k: nat)
    ensures k <= |rows|
    ensures forall j :: 0 <= j < k ==> rows[j].Item? && rows[j].id != id
    ensures k < |rows| ==> rows[k] == Null || rows[k].id == id
    decreases |rows|
  {
    if |rows| == 0 || rows[0] == Null || rows[0].id == id then 0
    else 1 + FirstStop(rows[1..], id)
  }

  /** The rows left, the rows destroyed and whether a TypeError ended the search. */
  datatype Removal = Removal(rows: seq<Row>, destroyed: seq<Row>, thrown: bool)

  /**
   * removeManeuver(id): destroy and splice out the first row with p_Id `id`, keeping the others
   * in order; no change when no row matches; a TypeError, with no change, when a null row comes first.
   */
  function Removed(rows: seq<Row>, id: int): (r: Removal)
    ensures r.thrown ==> r.rows == rows && r.destroyed == [] && Null in rows
    ensures (forall j :: 0 <= j < |rows| ==> rows[j].Item? && rows[j].id != id) ==> r == Removal(rows, [], false)
    ensures r.destroyed != [] ==>
      !r.thrown && |r.destroyed| == 1 && r.destroyed[0].Item? && r.destroyed[0].id == id && |r.rows| == |rows| - 1
    ensures !r.thrown && r.destroyed == [] ==> r.rows == rows
  {
    var k := FirstStop(rows, id);
    if k == |rows| then Removal(rows, [], false)
    else if rows[k] == Null then Removal(rows, [], true)
    else Removal(rows[..k] + rows[k + 1..], [rows[k]], false)
  }

  /** Removal takes out exactly the first matching row when no null row precedes it. */
  lemma RemovesFirstMatch(rows: seq<Row>, id: int, k: nat)
    requires k < |rows| && rows[k].Item? && rows[k].id == id
    requires forall j :: 0 <= j < k ==> rows[j].Item? && rows[j].id != id
    ensures Removed(rows, id) == Removal(rows[..k] + rows[k + 1..], [rows[k]], false)
  {
  }

  /** The index of the first null row; the length of the array when there is none. */
  function FirstNull(rows: seq<Row>): (k: nat)
    ensures k <= |rows|
    ensures forall j :: 0 <= j < k ==> rows[j].Item?
    ensures k < |rows| ==> rows[k] == Null
    ensures k == |rows| <==> Null !in rows
    decreases |rows|
  {
    if |rows| == 0 || rows[0] == Null then 0 else 1 + FirstNull(rows[1..])
  }

  /** The backend record add_maneuver makes from a row's p_Type, p_Option and p_OptionValue. */
  function Intent(row: Row): (m: ManeuverRecord.ManeuverState)
    requires row.Item?
    ensures m == Mission.Planned(row.shown.kind, row.shown.option, row.shown.optionValue)
  {
    Mission.Planned(row.shown.kind, row.shown.option, row.shown.optionValue)
  }

  function Intents(rows: seq<Row>): (recs: seq<ManeuverRecord.ManeuverState>)
    requires forall k :: 0 <= k < |rows| ==> rows[k].Item?
    ensures |recs| == |rows|
    ensures forall k :: 0 <= k < |rows| ==> recs[k] == Intent(rows[k])
  {
    seq(|rows|, k requires 0 <= k < |rows| => Intent(rows[k]))
  }

  /**
   * saveManeuvers: the backend list after clear_maneuvers and one add_maneuver per row, in row
   * order, up to the first null row (reading its p_Type throws).
   */
  function Saved(rows: seq<Row>): (recs: seq<ManeuverRecord.ManeuverState>)
    ensures |recs| == FirstNull(rows)
    ensures Null !in rows ==> |recs| == |rows|
    ensures forall k :: 0 <= k < |recs| ==> rows[k].Item? && recs[k] == Intent(rows[k])
  {
    Intents(rows[..FirstNull(rows)])
  }

  /** The rows before a null row (or all of them) are what saveManeuvers sends. */
  lemma SavedUpTo(rows: seq<Row>, i: nat)
    requires i <= |rows| && (i < |rows| ==> rows[i] == Null)
    requires forall j :: 0 <= j < i ==> rows[j].Item?
    ensures Saved(rows) == Intents(rows[..i])
  {
    assert FirstNull(rows) == i;
  }

  /** One more row sent by saveManeuvers. */
  lemma IntentsSnoc(rows: seq<Row>, i: nat)
    requires i < |rows| && forall j :: 0 <= j <= i ==> rows[j].Item?
    ensures Intents(rows[..i + 1]) == Intents(rows[..i]) + [Intent(rows[i])]
  {
  }

  /**
   * Saving rows numbered 1..n that show the component defaults' costs, then loading them back with
   * every creation succeeding, gives the same rows.
   */
  lemma {:induction false} SaveThenLoad(xs: seq<Shown>, defaults: Shown, outcome: nat -> Creation)
    requires forall k :: 0 <= k < |xs| ==>
      xs[k] == defaults.(kind := xs[k].kind, option := xs[k].option, optionValue := xs[k].optionValue)
    requires forall k :: 0 <= k < |xs| ==> outcome(k) == Created
    ensures Numbered(0, Kept(ShownOf(Saved(Numbered(0, xs)), false, defaults), outcome)) == Numbered(0, xs)
  {
    var rows := Numbered(0, xs);
    assert Null !in rows;
    var shown := ShownOf(Saved(rows), false, defaults);
    assert shown == xs;
    AllCreatedKeepsAll(shown, outcome);
  }

  /** Loading the backend list with every creation succeeding and saving it again keeps each plan and drops the costs. */
  lemma {:induction false} LoadThenSave(records: seq<ManeuverRecord.ManeuverState>, withCosts: bool, defaults: Shown,
                                        outcome: nat -> Creation)
    requires forall k :: 0 <= k < |records| ==> outcome(k) == Created
    ensures var saved := Saved(Numbered(0, Kept(ShownOf(records, withCosts, defaults), outcome)));
      |saved| == |records|
      && forall k :: 0 <= k < |records| ==>
        saved[k] == records[k].(deltaVelocity := 0.0, deltaTime := 0.0, deltaMass := 0.0)
  {
    AllCreatedKeepsAll(ShownOf(records, withCosts, defaults), outcome);
  }

  /** After remove-then-add the new row can repeat an id still in use: p_Id is the length plus one, not a fresh id. */
  lemma RemoveThenAddDuplicatesId(first: Shown, second: Shown, defaults: Shown)
    ensures Added(Removed([Item(1, first), Item(2, second)], 1).rows, Created, defaults)
      == [Item(2, second), Item(2, defaults)]
  {
    var rows := [Item(1, first), Item(2, second)];
    RemovesFirstMatch(rows, 1, 0);
  }

  /** Once a null object has been pushed, clearing throws at once and saving stops before it. */
  lemma {:induction false} NullRowBlocksClearAndSave(rows: seq<Row>, defaults: Shown)
    requires Null !in rows
    ensures ClearOf(Added(rows, NullObject, defaults)) == Cleared(rows + [Null], [], true)
    ensures Saved(Added(rows, NullObject, defaults)) == Saved(rows)
  {
    var r := rows + [Null];
    assert r[..|r| - 1] == rows;
    assert FirstNull(r) == |rows|;
    assert r[..|rows|] == rows;
  }

  /** A rows array, its destroyed components, and the defaults its component declares. */
  class ManeuverList {
    var rows: seq<Row>
    /** The components destroyed so far, oldest first. */
    var destroyed: seq<Row>
    /** Maneuver.qml's declared values for the properties createObject is not given. */
    const defaults: Shown

    constructor (defaults: Shown)
      ensures rows == [] && destroyed == [] && this.defaults == defaults
    {
      rows := [];
      destroyed := [];
      this.defaults := defaults;
    }

    /** clearManeuvers */
    method Clear() returns (thrown: bool)
      modifies this
      ensures rows == ClearOf(old(rows)).kept
      ensures destroyed == old(destroyed) + ClearOf(old(rows)).destroyed
      ensures thrown == ClearOf(old(rows)).thrown
    {
      ghost var gone: seq<Row> := [];
      thrown := false;
      var i := |rows| - 1;
      while i >= 0
        invariant i == |rows| - 1
        invariant destroyed == old(destroyed) + gone
        invariant ClearOf(old(rows)) == Cleared(ClearOf(rows).kept, gone + ClearOf(rows).destroyed, ClearOf(rows).thrown)
      {
        if rows[i] == Null {
          thrown := true;
          return;
        }
        destroyed := destroyed + [rows[i]];
        gone := gone + [rows[i]];
        rows := rows[..i];
        i := i - 1;
      }
    }

    /**
     * The loop of loadManeuvers: for each backend maneuver in index order, one creation attempt;
     * a created component is pushed with p_Id = length + 1, anything else is skipped.
     */
    method Append(mission: Mission.MissionOrbitTransfer, withCosts: bool, outcome: nat -> Creation)
      modifies this
      ensures rows == old(rows) + Numbered(|old(rows)|, Kept(ShownOf(mission.Records(), withCosts, defaults), outcome))
      ensures destroyed == old(destroyed)
    {
      var len := mission.ManeuverCount();
      ghost var xs := ShownOf(mission.Records(), withCosts, defaults);
      for i := 0 to len
        invariant rows == old(rows) + Numbered(|old(rows)|, Kept(xs[..i], outcome))
        invariant destroyed == old(destroyed)
      {
        var maneuver := mission.Maneuver(i).value;
        var shown := if withCosts
          then Shown(maneuver.Kind(), maneuver.Option(), maneuver.OptionValue(),
                     maneuver.DeltaVelocity(), maneuver.DeltaTime(), maneuver.DeltaMass())
          else defaults.(kind := maneuver.Kind(), option := maneuver.Option(), optionValue := maneuver.OptionValue());
        assert shown == xs[i];
        assert xs[..i + 1][..i] == xs[..i];
        if outcome(i) == Created {
          NumberedSnoc(|old(rows)|, Kept(xs[..i], outcome), shown);
          rows := rows + [Item(|rows| + 1, shown)];
        }
      }
      assert xs[..len] == xs;
    }

    /** loadManeuvers: clear, then the loop; a throw in the clear ends the load. */
    method Load(mission: Mission.MissionOrbitTransfer, withCosts: bool, outcome: nat -> Creation) returns (thrown: bool)
      modifies this
      ensures thrown == ClearOf(old(rows)).thrown
      ensures destroyed == old(destroyed) + ClearOf(old(rows)).destroyed
      ensures thrown ==> rows == ClearOf(old(rows)).kept
      ensures !thrown ==> rows == Numbered(0, Kept(ShownOf(mission.Records(), withCosts, defaults), outcome))
    {
      thrown := Clear();
      if !thrown {
        Append(mission, withCosts, outcome);
      }
    }

    /** addManeuver */
    method Add(outcome: Creation)
      modifies this
      ensures rows == Added(old(rows), outcome, defaults) && destroyed == old(destroyed)
    {
      if outcome == Created {
        rows := rows + [Item(|rows| + 1, defaults)];
      } else if outcome == NullObject {
        rows := rows + [Null];
      }
    }

    /** removeManeuver(id) */
    method Remove(id: int) returns (thrown: bool)
      modifies this
      ensures rows == Removed(old(rows), id).rows
      ensures destroyed == old(destroyed) + Removed(old(rows), id).destroyed
      ensures thrown == Removed(old(rows), id).thrown
    {
      thrown := false;
      var i := 0;
      while i < |rows|
        invariant 0 <= i <= |rows| && rows == old(rows) && destroyed == old(destroyed)
        invariant forall j :: 0 <= j < i ==> rows[j].Item? && rows[j].id != id
      {
        if rows[i] == Null {
          thrown := true;
          return;
        }
        if rows[i].id == id {
          destroyed := destroyed + [rows[i]];
          rows := rows[..i] + rows[i + 1..];
          return;
        }
        i := i + 1;
      }
    }

    /** saveManeuvers: clear the backend list, then add_maneuver for each row in order. */
    method Save(mission: Mission.MissionOrbitTransfer) returns (thrown: bool)
      modifies mission
      ensures mission.Records() == Saved(rows)
      ensures thrown <==> Null in rows
      ensures mission.depOrbit == old(mission.depOrbit) && mission.arrOrbit == old(mission.arrOrbit)
      ensures mission.centralBody == old(mission.centralBody) && mission.spacecraft == old(mission.spacecraft)
    {
      mission.ClearManeuvers();
      thrown := false;
      var i := 0;
      while i < |rows|
        invariant 0 <= i <= |rows|
        invariant forall j :: 0 <= j < i ==> rows[j].Item?
        invariant mission.Records() == Intents(rows[..i])
        invariant mission.depOrbit == old(mission.depOrbit) && mission.arrOrbit == old(mission.arrOrbit)
        invariant mission.centralBody == old(mission.centralBody) && mission.spacecraft == old(mission.spacecraft)
      {
        if rows[i] == Null {
          SavedUpTo(rows, i);
          thrown := true;
          return;
        }
        mission.AddManeuver(rows[i].shown.kind, rows[i].shown.option, rows[i].shown.optionValue);
        IntentsSnoc(rows, i);
        i := i + 1;
      }
      SavedUpTo(rows, i);
    }
  }
}
