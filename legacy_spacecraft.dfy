/**
 * Model of src/Spacecraft.py: the older spacecraft, which carries capsule and parachute
 * parameters in place of the radiation pressure ones. Its reset and update_mass behave as
 * in the newer Spacecraft module, whose MassAfter states what update_mass leaves.
 */
module LegacySpacecraft {
  import opened Wrappers
  import Systems = Spacecraft

  datatype SpacecraftState = SpacecraftState(
    initialMass: real, mass: real, specificImpulse: real, thrust: real,
    liftCoefficient: real, dragCoefficient: real, referenceSurface: real,
    capsuleNoseRadius: real, parachuteDragCoefficient: real, parachuteReferenceSurface: real,
    capsuleMass: real, capsuleDragCoefficient: real, capsuleLiftCoefficient: real,
    capsuleReferenceSurface: real)

  const Initial := SpacecraftState(2000.0, 2000.0, 300.0, 10000.0, 0.0, 1.0, 1.0,
    0.3, 1.4, 70.0, 26.27, 1.096, 0.0, 0.341)

  class Spacecraft {
    var initialMass: real
    var mass: real
    var specificImpulse: real
    var thrust: real
    var liftCoefficient: real
    var dragCoefficient: real
    var referenceSurface: real
    var capsuleNoseRadius: real
    var parachuteDragCoefficient: real
    var parachuteReferenceSurface: real
    var capsuleMass: real
    var capsuleDragCoefficient: real
    var capsuleLiftCoefficient: real
    var capsuleReferenceSurface: real

    function Snapshot(): SpacecraftState
      reads this
    {
      SpacecraftState(initialMass, mass, specificImpulse, thrust, liftCoefficient, dragCoefficient,
        referenceSurface, capsuleNoseRadius, parachuteDragCoefficient, parachuteReferenceSurface,
        capsuleMass, capsuleDragCoefficient, capsuleLiftCoefficient, capsuleReferenceSurface)
    }

    /** A new spacecraft: 2000 kg, full, with the default engine, capsule and parachute. */
    constructor ()
      ensures Snapshot() == Initial
    {
      initialMass, mass := 2000.0, 2000.0;
      specificImpulse, thrust := 300.0, 10000.0;
      liftCoefficient, dragCoefficient, referenceSurface := 0.0, 1.0, 1.0;
      capsuleNoseRadius, parachuteDragCoefficient, parachuteReferenceSurface := 0.3, 1.4, 70.0;
      capsuleMass, capsuleDragCoefficient, capsuleLiftCoefficient, capsuleReferenceSurface := 26.27, 1.096, 0.0, 0.341;
    }

    /** reset */
    method Reset()
      modifies this
      ensures Snapshot() == old(Snapshot()).(mass := old(initialMass))
    {
      mass := initialMass;
    }

    /** update_mass(consumed) */
    method UpdateMass(consumed: real)
      modifies this
      ensures Snapshot() == old(Snapshot()).(mass := Systems.MassAfter(old(mass), consumed))
    {
      if mass >= consumed {
        mass := mass - consumed;
      }
    }
  }

  /** The @singleton decoration of the older Spacecraft. */
  class SpacecraftSingleton {
    var instance: Option<Spacecraft>

    constructor ()
      ensures instance == None
    {
      instance := None;
    }

    /** Spacecraft(engine) */
    method Construct() returns (s: Spacecraft)
      modifies this
      ensures old(instance).Some? ==> s == old(instance).value
      ensures old(instance).None? ==> fresh(s) && s.Snapshot() == Initial
      ensures instance == Some(s)
    {
      if instance.None? {
        var created := new Spacecraft();
        instance := Some(created);
      }
      s := instance.value;
    }
  }
}
