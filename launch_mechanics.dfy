/**
 * Model of the Stage class of tools/launch_mechanics.py: one launcher stage, its masses,
 * motor, nozzle and aerodynamics, and the quantities calc derives from them. The
 * nozzle's Gamma formula and the altitude decay of the thrust are transcendental and enter
 * as uninterpreted functions.
 */
module LaunchMechanics {
  import Utility
  import AstronomicalData
  import opened Wrappers

  /** Sea-level gravity of the Earth [m/s^2], as the astronomical tables give it. */
  function G0(): (g: real)
    ensures g == 9.80665
  {
    AstronomicalData.Gravity(AstronomicalData.CelestialBody.EARTH.Value())
  }

  /** The stored fields of a stage, as one value. */
  datatype StageState = StageState(
    m_0: real, m_g: real, m_s: real, m_p: real, m_payload: real,
    F_vac: real, I_sp_vac: real, t_burn: real, csi: real, m_p_dot: real,
    gamma: real, Gamma: real, epsilon: real, p_c: real,
    D: real, S: real, C_D: real, C_L: real)

  const Zero := StageState(0.0, 0.0, 0.0, 0.0, 0.0, 0.0, 0.0, 0.0, 0.0, 0.0, 0.0, 0.0, 0.0, 0.0, 0.0, 0.0, 0.0, 0.0)

  const DivisionMessage := "float division by zero"

  /** calc divides by the specific impulse (times g0) and then by the propellant flow, so either being zero raises. */
  predicate CalcRaises(s: StageState)
  {
    s.I_sp_vac == 0.0 || s.F_vac == 0.0
  }

  /**
   * The stage after calc: the gross and total masses always; the propellant flow only when
   * the specific impulse is not zero, the burn time only when the flow is not zero either.
   * When nothing raises, the flow delivers the vacuum thrust and burns the propellant in
   * the burn time.
   */
  function Calculated(s: StageState): (t: StageState)
    ensures t.m_g == s.m_s + s.m_p && t.m_0 == s.m_s + s.m_p + s.m_payload
    ensures !CalcRaises(s) ==> t.m_p_dot * (s.I_sp_vac * G0()) == s.F_vac && t.t_burn * t.m_p_dot == s.m_p
    ensures s.I_sp_vac == 0.0 ==> t.m_p_dot == s.m_p_dot
    ensures CalcRaises(s) ==> t.t_burn == s.t_burn
    ensures t == s.(m_g := t.m_g, m_0 := t.m_0, m_p_dot := t.m_p_dot, t_burn := t.t_burn)
  {
    var m_g := s.m_s + s.m_p;
    var s1 := s.(m_g := m_g, m_0 := m_g + s.m_payload);
    if s.I_sp_vac * G0() == 0.0 then s1
    else
      var flow := s.F_vac / (s.I_sp_vac * G0());
      if flow == 0.0 then s1.(m_p_dot := flow)
      else s1.(m_p_dot := flow, t_burn := s.m_p / flow)
  }

  /** When calc succeeds, the burn time is the propellant mass times Isp times g0 over the thrust. */
  lemma {:induction false} BurnTime(s: StageState)
    requires !CalcRaises(s)
    ensures Calculated(s).t_burn == s.m_p * s.I_sp_vac * G0() / s.F_vac
  {
    var flow := s.F_vac / (s.I_sp_vac * G0());
    assert flow * (s.I_sp_vac * G0()) == s.F_vac;
    assert Calculated(s).t_burn == s.m_p / flow;
    assert s.m_p / flow == s.m_p * (s.I_sp_vac * G0()) / s.F_vac;
  }

  class Stage {
    var m_0: real
    var m_g: real
    var m_s: real
    var m_p: real
    var m_payload: real
    var F_vac: real
    var I_sp_vac: real
    var t_burn: real
    var csi: real
    var m_p_dot: real
    var gamma: real
    var Gamma: real
    var epsilon: real
    var p_c: real
    var D: real
    var S: real
    var C_D: real
    var C_L: real

    function Snapshot(): StageState
      reads this
    {
      StageState(m_0, m_g, m_s, m_p, m_payload, F_vac, I_sp_vac, t_burn, csi, m_p_dot,
        gamma, Gamma, epsilon, p_c, D, S, C_D, C_L)
    }

    /** A new stage: every parameter 0. */
    constructor ()
      ensures Snapshot() == Zero
    {
      m_0, m_g, m_s, m_p, m_payload := 0.0, 0.0, 0.0, 0.0, 0.0;
      F_vac, I_sp_vac, t_burn, csi, m_p_dot := 0.0, 0.0, 0.0, 0.0, 0.0;
      gamma, Gamma, epsilon, p_c := 0.0, 0.0, 0.0, 0.0;
      D, S, C_D, C_L := 0.0, 0.0, 0.0, 0.0;
    }

    /** mass: the structure, propellant and payload masses, and nothing else. */
    method Mass(m_s: real, m_p: real, m_payload: real)
      modifies this
      ensures Snapshot() == old(Snapshot()).(m_s := m_s, m_p := m_p, m_payload := m_payload)
    {
      this.m_s, this.m_p, this.m_payload := m_s, m_p, m_payload;
    }

    /** motor: the vacuum thrust, vacuum specific impulse and thrust angle, and nothing else. */
    method Motor(F_vac: real, I_sp_vac: real, csi: real)
      modifies this
      ensures Snapshot() == old(Snapshot()).(F_vac := F_vac, I_sp_vac := I_sp_vac, csi := csi)
    {
      this.F_vac, this.I_sp_vac, this.csi := F_vac, I_sp_vac, csi;
    }

    /**
     * nozzle: stores the three parameters and sets Gamma, which is 0 for gamma == 0 and
     * otherwise the value of the specific-heats formula, evaluated in floats: `quantity`
     * (not interpreted here) gives its value or the error it raises (an OverflowError when the
     * power is too large, as for gamma just above 1). The formula divides by gamma - 1, so at
     * gamma == 1 it raises ZeroDivisionError. A raise comes after the parameters are stored,
     * and Gamma keeps its value.
     */
    method Nozzle(gamma: real, epsilon: real, p_c: real, quantity: real -> Result<real>) returns (r: Result<()>)
      modifies this
      ensures r.Raise? <==> gamma == 1.0 || (gamma != 0.0 && quantity(gamma).Raise?)
      ensures gamma == 1.0 ==> r.Raise? && r.error == ZeroDivisionError
      ensures gamma != 0.0 && gamma != 1.0 && quantity(gamma).Raise? ==> r == Raise(quantity(gamma).error, quantity(gamma).message)
      ensures Snapshot() == old(Snapshot()).(gamma := gamma, epsilon := epsilon, p_c := p_c,
                                             Gamma := if gamma == 0.0 then 0.0
                                                      else if r.Raise? then old(Gamma)
                                                      else quantity(gamma).value)
    {
      this.gamma, this.epsilon, this.p_c := gamma, epsilon, p_c;
      if this.gamma == 0.0 {
        Gamma := 0.0;
      } else if this.gamma == 1.0 {
        return Raise(ZeroDivisionError, DivisionMessage);
      } else {
        var q := quantity(this.gamma);
        if q.Raise? {
          return Raise(q.error, q.message);
        }
        Gamma := q.value;
      }
      r := Ok(());
    }

    /** aerodynamics: the diameter, the reference surface of a disc of that diameter, and the two coefficients. */
    method Aerodynamics(D: real, C_D: real, C_L: real)
      modifies this
      ensures Snapshot() == old(Snapshot()).(D := D, S := Utility.Pi * D * D / 4.0, C_D := C_D, C_L := C_L)
    {
      this.D := D;
      S := Utility.Pi * D * D / 4.0;
      this.C_D, this.C_L := C_D, C_L;
    }

    /** calc: the fields written before a division by zero stay written. */
    method Calc() returns (r: Result<()>)
      modifies this
      ensures Snapshot() == Calculated(old(Snapshot()))
      ensures r == if CalcRaises(old(Snapshot())) then Raise(ZeroDivisionError, DivisionMessage) else Ok(())
    {
      m_g := m_s + m_p;
      m_0 := m_g + m_payload;
      if I_sp_vac * G0() == 0.0 {
        return Raise(ZeroDivisionError, DivisionMessage);
      }
      m_p_dot := F_vac / (I_sp_vac * G0());
      if m_p_dot == 0.0 {
        return Raise(ZeroDivisionError, DivisionMessage);
      }
      t_burn := m_p / m_p_dot;
      r := Ok(());
    }

    /**
     * thrust(z): the vacuum thrust scaled by the specific-impulse ratio at altitude z, where
     * `decay(z)` stands for exp(-z / 7.16). Without a chamber pressure, or with Gamma 0,
     * it is the vacuum thrust.
     */
    function Thrust(z: real, decay: real -> real): (F: real)
      reads this
      ensures p_c == 0.0 || Gamma == 0.0 ==> F == F_vac
    {
      var ratio := if p_c != 0.0 then 1.0 - Gamma * (epsilon * decay(z) / p_c) else 1.0;
      F_vac * ratio
    }
  }

  /** After a nozzle with gamma 0, the thrust is the vacuum thrust at every altitude. */
  method FrozenNozzleFullThrust(stage: Stage, epsilon: real, p_c: real, quantity: real -> Result<real>, z: real, decay: real -> real)
    returns (F: real)
    modifies stage
    ensures F == stage.F_vac == old(stage.F_vac)
  {
    var _ := stage.Nozzle(0.0, epsilon, p_c, quantity);
    F := stage.Thrust(z, decay);
  }
}
