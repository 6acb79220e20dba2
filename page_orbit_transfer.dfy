/**
 * Model of ui/pages/js/PageOrbitTransfer.js: the summary column of the orbit transfer page.
 * It shows one ManeuverInfo component per maneuver of the orbit transfer mission (type and
 * costs) in the array `gr_ManeuverInfos`. Its load does not clear the array first.
 */
module PageOrbitTransfer {
  import ManeuverRecord
  import Mission = MissionOrbitTransfer
  import opened ManeuverRows

  /** What a ManeuverInfo component shows: p_Type and the three costs. */
  datatype Info = Info(kind: int, deltaVelocity: real, deltaTime: real, deltaMass: real)

  /**
   * The info shown for a maneuver: its type, and its costs as the getters format them, each
   * between zero and the actual cost and within the last shown decimal of it.
   */
  function InfoOf(m: ManeuverRecord.ManeuverState): (i: Info)
    ensures i.kind == m.kind
    ensures -0.000001 < m.deltaVelocity - i.deltaVelocity < 0.000001
    ensures -0.0001 < m.deltaTime - i.deltaTime < 0.0001
    ensures -0.001 < m.deltaMass - i.deltaMass < 0.001
    ensures m.deltaVelocity >= 0.0 ==> 0.0 <= i.deltaVelocity <= m.deltaVelocity
    ensures m.deltaTime >= 0.0 ==> 0.0 <= i.deltaTime <= m.deltaTime
    ensures m.deltaMass >= 0.0 ==> 0.0 <= i.deltaMass <= m.deltaMass
  {
    Info(m.kind, ManeuverRecord.ShownDeltaVelocity(m.deltaVelocity),
      ManeuverRecord.ShownDeltaTime(m.deltaTime), ManeuverRecord.ShownDeltaMass(m.deltaMass))
  }

  /** The infos of a list of maneuvers, in order. */
  function InfosOf(records: seq<ManeuverRecord.ManeuverState>): (xs: seq<Info>)
    ensures |xs| == |records|
    ensures forall k :: 0 <= k < |records| ==> xs[k] == InfoOf(records[k])
  {
    seq(|records|, k requires 0 <= k < |records| => InfoOf(records[k]))
  }

  /**
   * Loading twice with every component created shows every maneuver twice: the second load
   * appends to what the first one left.
   */
  lemma {:induction false} ReloadShowsTwice(start: seq<Info>, records: seq<ManeuverRecord.ManeuverState>, outcome: nat -> Creation)
    requires forall k :: 0 <= k < |records| ==> outcome(k) == Created
    ensures (start + Kept(InfosOf(records), outcome)) + Kept(InfosOf(records), outcome)
      == start + InfosOf(records) + InfosOf(records)
    ensures |(start + Kept(InfosOf(records), outcome)) + Kept(InfosOf(records), outcome)| == |start| + 2 * |records|
  {
    AllCreatedKeepsAll(InfosOf(records), outcome);
  }

  class PageOrbitTransfer {
    /** __MissionOrbitTransfer */
    const mission: Mission.MissionOrbitTransfer
    /** gr_ManeuverInfos */
    var infos: seq<Info>
    /** The components destroyed so far, oldest first. */
    var destroyed: seq<Info>

    constructor (mission: Mission.MissionOrbitTransfer)
      ensures this.mission == mission && infos == [] && destroyed == []
    {
      this.mission := mission;
      infos := [];
      destroyed := [];
    }

    /** clearManeuvers: every component destroyed and popped, the last one first. */
    method ClearManeuvers()
      modifies this
      ensures infos == []
      ensures destroyed == old(destroyed) + Reverse(old(infos))
    {
      var i := |infos| - 1;
      while i >= 0
        invariant -1 <= i < |old(infos)|
        invariant infos == old(infos)[..i + 1]
        invariant destroyed == old(destroyed) + Reverse(old(infos)[i + 1..])
      {
        assert old(infos)[i..] == [old(infos)[i]] + old(infos)[i + 1..];
        ReverseCons(old(infos)[i], old(infos)[i + 1..]);
        destroyed := destroyed + [infos[i]];
        infos := infos[..i];
        i := i - 1;
      }
    }

    /**
     * loadManeuvers: one creation attempt per backend maneuver, in index order; a created
     * component is appended, anything else is skipped. Nothing is cleared first.
     */
    method LoadManeuvers(outcome: nat -> Creation)
      modifies this
      ensures infos == old(infos) + Kept(InfosOf(mission.Records()), outcome)
      ensures destroyed == old(destroyed)
    {
      var len := mission.ManeuverCount();
      ghost var xs := InfosOf(mission.Records());
      for i := 0 to len
        invariant infos == old(infos) + Kept(xs[..i], outcome)
        invariant destroyed == old(destroyed)
      {
        var maneuver := mission.Maneuver(i).value;
        var info := Info(maneuver.Kind(), maneuver.DeltaVelocity(), maneuver.DeltaTime(), maneuver.DeltaMass());
        assert info == xs[i];
        assert xs[..i + 1][..i] == xs[..i];
        if outcome(i) == Created {
          infos := infos + [info];
        }
      }
      assert xs[..len] == xs;
    }
  }
}
