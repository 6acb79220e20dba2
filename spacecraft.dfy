/**
 * Model of src/systems/spacecraft.py: the spacecraft's parameters and its mass bookkeeping.
 * The mass only goes down by consumption that the remaining mass can cover, and reset
 * puts it back to the initial mass. The class is decorated as a singleton.
 */
module Spacecraft {
  import Utility
  import opened Wrappers

  /** update_mass(c) on a mass m: c is taken off when m can cover it, otherwise nothing changes. */
  function MassAfter(mass: real, consumed: real): (m: real)
    ensures m == mass - consumed || m == mass
    ensures m == mass - consumed <== mass >= consumed
    ensures m != mass ==> mass >= consumed
    ensures 0.0 <= mass ==> 0.0 <= m
    ensures 0.0 <= consumed ==> m <= mass
  {
    if mass >= consumed then mass - consumed else mass
  }

  /** The mass after a series of update_mass calls, in order. */
  function MassAfterAll(mass: real, consumed: seq<real>): real
    decreases |consumed|
  {
    if |consumed| == 0 then mass else MassAfterAll(MassAfter(mass, consumed[0]), consumed[1..])
  }

  function Total(xs: seq<real>): real
    decreases |xs|
  {
    if |xs| == 0 then 0.0 else xs[0] + Total(xs[1..])
  }

  /**
   * However many non-negative consumptions are applied, the mass stays between zero and
   * where it started, and it never drops by more than was consumed in total.
   */
  lemma {:induction false} ConsumptionKeepsMassInRange(mass: real, consumed: seq<real>)
    requires 0.0 <= mass
    requires forall k :: 0 <= k < |consumed| ==> 0.0 <= consumed[k]
    ensures 0.0 <= MassAfterAll(mass, consumed) <= mass
    ensures mass - MassAfterAll(mass, consumed) <= Total(consumed)
    decreases |consumed|
  {
    if |consumed| > 0 {
      var next := MassAfter(mass, consumed[0]);
      assert forall k :: 0 <= k < |consumed[1..]| ==> consumed[1..][k] == consumed[k + 1];
      ConsumptionKeepsMassInRange(next, consumed[1..]);
    }
  }

  /** The stored fields of a spacecraft, as one value. */
  datatype SpacecraftState = SpacecraftState(
    initialMass: real, mass: real, specificImpulse: real, thrust: real,
    liftCoefficient: real, dragCoefficient: real, referenceSurface: real,
    radiationPressureCoefficient: real, absorbingSurface: real)

  const Initial := SpacecraftState(2000.0, 2000.0, 300.0, 10000.0, 0.0, 1.0, 1.0, 2.0, 10.0)

  class Spacecraft {
    var initialMass: real
    var mass: real
    var specificImpulse: real
    var thrust: real
    var liftCoefficient: real
    var dragCoefficient: real
    var referenceSurface: real
    var radiationPressureCoefficient: real
    var absorbingSurface: real

    function Snapshot(): SpacecraftState
      reads this
    {
      SpacecraftState(initialMass, mass, specificImpulse, thrust, liftCoefficient, dragCoefficient,
        referenceSurface, radiationPressureCoefficient, absorbingSurface)
    }

    /** A new spacecraft: 2000 kg, full, with the default engine and surfaces. */
    constructor ()
      ensures Snapshot() == Initial
    {
      initialMass, mass := 2000.0, 2000.0;
      specificImpulse, thrust := 300.0, 10000.0;
      liftCoefficient, dragCoefficient, referenceSurface := 0.0, 1.0, 1.0;
      radiationPressureCoefficient, absorbingSurface := 2.0, 10.0;
    }

    /** The mass and initial_mass getters, formatted to six decimals. */
    function Mass(): real reads this { Utility.Format(mass) }
    function InitialMass(): real reads this { Utility.Format(initialMass) }

    /** reset: the mass goes back to the initial mass; nothing else changes. */
    method Reset()
      modifies this
      ensures Snapshot() == old(Snapshot()).(mass := old(initialMass))
    {
      mass := initialMass;
    }

    /** update_mass(consumed) */
    method UpdateMass(consumed: real)
      modifies this
      ensures Snapshot() == old(Snapshot()).(mass := MassAfter(old(mass), consumed))
    {
      if mass >= consumed {
        mass := mass - consumed;
      }
    }
  }

  /** The @singleton decoration of Spacecraft: the first construction creates it, later ones return it. */
  class SpacecraftSingleton {
    var instance: Option<Spacecraft>

    constructor ()
      ensures instance == None
    {
      instance := None;
    }

    /** Spacecraft(engine) */
    method Construct() returns (s: Spacecraft)
      modifies this
      ensures old(instance).Some? ==> s == old(instance).value
      ensures old(instance).None? ==> fresh(s) && s.Snapshot() == Initial
      ensures instance == Some(s)
    {
      if instance.None? {
        var created := new Spacecraft();
        instance := Some(created);
      }
      s := instance.value;
    }
  }

  /** A burn the spacecraft cannot cover is ignored, and reset then refills it to 2000 kg. */
  method BurnThenReset(consumed: real) returns (during: real, after: real)
    ensures 0.0 <= consumed <= 2000.0 ==> during == 2000.0 - consumed
    ensures consumed > 2000.0 ==> during == 2000.0
    ensures after == 2000.0
  {
    var s := new Spacecraft();
    s.UpdateMass(consumed);
    during := s.mass;
    s.Reset();
    after := s.mass;
  }
}
