/**
 * Model of the staging part of src/missions/mission_orbit_insertion.py: three launcher
 * stages, the flags saying which are used, and connect_stages, which makes each stage's
 * payload the total mass of the stage above it (or the mission payload) and recalculates
 * the stages from the top down.
 */
module MissionOrbitInsertion {
  import Utility
  import opened Wrappers
  import opened LaunchMechanics

  datatype Staging = Staging(s1: StageState, s2: StageState, s3: StageState)

  /** The stages after connect_stages, and whether a calc raised on the way. */
  datatype Connection = Connection(stages: Staging, outcome: Result<()>)

  /** The payload_mass property getter: the payload truncated to six decimals. */
  function ShownPayload(payload: real): real
  {
    Utility.Format(payload)
  }

  /**
   * connect_stages: stage 3 carries the payload; stage 2 carries stage 3 when it is used,
   * otherwise the payload; stage 1 carries stage 2 when it is used, else stage 3 when that
   * is used, else the payload. Each stage is recalculated once its payload is known; a
   * calc that raises stops the chain, leaving the lower stages as they were.
   */
  function Connect(st: Staging, payload: real, use2: bool, use3: bool): (c: Connection)
    ensures c.stages.s3 == Calculated(st.s3.(m_payload := ShownPayload(payload)))
    ensures CalcRaises(st.s3) ==> c == Connection(st.(s3 := c.stages.s3), Raise(ZeroDivisionError, DivisionMessage))
    ensures !CalcRaises(st.s3) ==>
      c.stages.s2 == Calculated(st.s2.(m_payload := if use3 then c.stages.s3.m_0 else ShownPayload(payload)))
    ensures !CalcRaises(st.s3) && CalcRaises(st.s2) ==> c.stages.s1 == st.s1 && c.outcome.Raise?
    ensures !CalcRaises(st.s3) && !CalcRaises(st.s2) ==>
      c.stages.s1 == Calculated(st.s1.(m_payload :=
        if use2 then c.stages.s2.m_0 else if use3 then c.stages.s3.m_0 else ShownPayload(payload)))
    ensures c.outcome.Raise? <==> CalcRaises(st.s3) || CalcRaises(st.s2) || CalcRaises(st.s1)
  {
    var s3 := Calculated(st.s3.(m_payload := ShownPayload(payload)));
    if CalcRaises(st.s3) then Connection(st.(s3 := s3), Raise(ZeroDivisionError, DivisionMessage))
    else
      var s2 := Calculated(st.s2.(m_payload := if use3 then s3.m_0 else ShownPayload(payload)));
      if CalcRaises(st.s2) then Connection(st.(s2 := s2, s3 := s3), Raise(ZeroDivisionError, DivisionMessage))
      else
        var s1 := Calculated(st.s1.(m_payload := if use2 then s2.m_0 else if use3 then s3.m_0 else ShownPayload(payload)));
        Connection(Staging(s1, s2, s3), if CalcRaises(st.s1) then Raise(ZeroDivisionError, DivisionMessage) else Ok(()))
  }

  /** The dry plus propellant mass of a stage. */
  function GrossMass(s: StageState): real
  {
    s.m_s + s.m_p
  }

  /**
   * With all three stages used, the lift-off mass of stage 1 is the gross mass of the three
   * stages plus the (shown) payload, and each stage's total mass is what it carries plus
   * its own gross mass.
   */
  lemma {:induction false} LiftOffMass(st: Staging, payload: real)
    requires !CalcRaises(st.s3) && !CalcRaises(st.s2)
    ensures Connect(st, payload, true, true).stages.s3.m_0 == GrossMass(st.s3) + ShownPayload(payload)
    ensures Connect(st, payload, true, true).stages.s2.m_0 == GrossMass(st.s2) + GrossMass(st.s3) + ShownPayload(payload)
    ensures Connect(st, payload, true, true).stages.s1.m_0
         == GrossMass(st.s1) + GrossMass(st.s2) + GrossMass(st.s3) + ShownPayload(payload)
  {
    var c := Connect(st, payload, true, true);
    assert c.stages.s2.m_payload == c.stages.s3.m_0;
    assert c.stages.s1.m_payload == c.stages.s2.m_0;
  }

  /** Without stage 2, stage 1 carries stage 3 when that is used, and the payload alone otherwise. */
  lemma {:induction false} SkippedSecondStage(st: Staging, payload: real, use3: bool)
    requires !CalcRaises(st.s3) && !CalcRaises(st.s2)
    ensures use3 ==> Connect(st, payload, false, use3).stages.s1.m_payload == GrossMass(st.s3) + ShownPayload(payload)
    ensures !use3 ==> Connect(st, payload, false, use3).stages.s1.m_payload == ShownPayload(payload)
  {
    var c := Connect(st, payload, false, use3);
    assert c.stages.s1.m_payload == if use3 then c.stages.s3.m_0 else ShownPayload(payload);
  }

  /** The launcher simulations calculate_staging can start. */
  datatype StagingCall = ThreeStageVehicleToOrbit | TwoStageVehicleToOrbit | SingleStageVehicleToOrbit

  /**
   * calculate_staging: the simulation matching the used stages. Only the patterns
   * (1, 2, 3), (1, 2, not 3) and (1, not 2, not 3) start one; any other makes no call.
   */
  function CalculateStaging(use1: bool, use2: bool, use3: bool): (call: Option<StagingCall>)
    ensures call.Some? <==> use1 && (use2 || !use3)
    ensures call == Some(ThreeStageVehicleToOrbit) <==> use1 && use2 && use3
    ensures call == Some(TwoStageVehicleToOrbit) <==> use1 && use2 && !use3
    ensures call == Some(SingleStageVehicleToOrbit) <==> use1 && !use2 && !use3
  {
    if use1 && use2 && use3 then Some(ThreeStageVehicleToOrbit)
    else if use1 && use2 && !use3 then Some(TwoStageVehicleToOrbit)
    else if use1 && !use2 && !use3 then Some(SingleStageVehicleToOrbit)
    else None
  }

  class MissionOrbitInsertion {
    var pitchoverHeight: real
    var pitchoverFlightPathAngle: real
    var circularParkingOrbitHeight: real
    var finalIntegrationTime: real
    var useStage1: bool
    var useStage2: bool
    var useStage3: bool
    var stage1: Stage
    var stage2: Stage
    var stage3: Stage
    var payloadMass: real

    /** The three stages are separate objects. */
    predicate Valid()
      reads this
    {
      stage1 != stage2 && stage2 != stage3 && stage1 != stage3
    }

    function Stages(): Staging
      reads this, stage1, stage2, stage3
    {
      Staging(stage1.Snapshot(), stage2.Snapshot(), stage3.Snapshot())
    }

    /** connect_stages */
    method ConnectStages() returns (r: Result<()>)
      requires Valid()
      modifies stage1, stage2, stage3
      ensures Stages() == Connect(old(Stages()), payloadMass, useStage2, useStage3).stages
      ensures r == Connect(old(Stages()), payloadMass, useStage2, useStage3).outcome
    {
      stage3.m_payload := ShownPayload(payloadMass);
      r := stage3.Calc();
      if r.Raise? {
        return;
      }
      if useStage3 {
        stage2.m_payload := stage3.m_0;
      } else {
        stage2.m_payload := ShownPayload(payloadMass);
      }
      r := stage2.Calc();
      if r.Raise? {
        return;
      }
      if useStage2 {
        stage1.m_payload := stage2.m_0;
      } else if useStage3 {
        stage1.m_payload := stage3.m_0;
      } else {
        stage1.m_payload := ShownPayload(payloadMass);
      }
      r := stage1.Calc();
    }

    /** calculate_staging, on the current flags. */
    function ChosenStaging(): Option<StagingCall>
      reads this
    {
      CalculateStaging(useStage1, useStage2, useStage3)
    }

    /**
     * The mission as constructed: the pitchover and parking orbit settings, three stages with
     * their published masses, motors and diameters, all used, a 1558 kg payload, and the
     * stages connected, so that stage 1 lifts off at 209062 kg.
     */
    constructor ()
      ensures Valid() && fresh(stage1) && fresh(stage2) && fresh(stage3)
      ensures useStage1 && useStage2 && useStage3 && payloadMass == 1558.0
      ensures stage3.m_0 == 13558.0 && stage2.m_0 == 54035.0 && stage1.m_0 == 209062.0
    {
      pitchoverHeight := 130.0;
      pitchoverFlightPathAngle := 89.85;
      circularParkingOrbitHeight := 300.0;
      finalIntegrationTime := 300.0;
      var first := NewStage(13393.0, 141634.0, 54035.0, 4323000.0, 279.0, 3.4);
      var second := NewStage(4238.0, 36239.0, 13558.0, 1304000.0, 293.5, 2.4);
      var third := NewStage(1433.0, 10567.0, 1558.0, 317000.0, 295.9, 1.9);
      useStage1, useStage2, useStage3 := true, true, true;
      stage1, stage2, stage3 := first, second, third;
      payloadMass := 1558.0;
      new;
      WholePayloadShown();
      var st := Stages();
      var r := ConnectStages();
      LiftOffMass(st, 1558.0);
    }
  }

  /**
   * One stage as the constructor sets it up: masses, a motor with no thrust angle, a drag
   * coefficient of 0.5 and no lift, then calc, which succeeds since thrust and Isp are not zero.
   */
  method NewStage(m_s: real, m_p: real, m_payload: real, F_vac: real, I_sp_vac: real, D: real)
    returns (stage: Stage)
    requires F_vac != 0.0 && I_sp_vac != 0.0
    ensures fresh(stage)
    ensures stage.m_s == m_s && stage.m_p == m_p && stage.F_vac == F_vac && stage.I_sp_vac == I_sp_vac
  {
    stage := new Stage();
    stage.Mass(m_s, m_p, m_payload);
    stage.Motor(F_vac, I_sp_vac, 0.0);
    stage.Aerodynamics(D, 0.5, 0.0);
    var r := stage.Calc();
  }

  /** A payload of whole kilograms is shown unchanged. */
  lemma WholePayloadShown()
    ensures ShownPayload(1558.0) == 1558.0
  {
    assert Utility.Scale(6) == 1000000.0;
    assert Utility.IsWhole(1558.0 * Utility.Scale(6));
    Utility.FormatUnique(1558.0, 6, 1558.0);
  }
}
