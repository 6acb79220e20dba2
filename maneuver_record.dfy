/**
 * Model of src/utility/maneuver.py: one orbital maneuver of the transfer mission, with its
 * type, the option chosen for it and the option's value, plus the delta velocity, time and
 * mass it costs. The three costs are shown truncated to 6, 4 and 3 decimals.
 */
module ManeuverRecord {
  import Utility

  /** ManeuverType */
  datatype ManeuverType = HOHMANN | BI_ELLIPTIC_HOHMANN | PLANE_CHANGE | APSE_LINE_ROTATION
  {
    /** The integer value of the enum member. */
    function Value(): (n: int)
      ensures 0 <= n <= 3
    {
      match this
      case HOHMANN => 0
      case BI_ELLIPTIC_HOHMANN => 1
      case PLANE_CHANGE => 2
      case APSE_LINE_ROTATION => 3
    }
  }

  /** The four maneuver types carry the values 0, 1, 2 and 3, one each. */
  lemma {:induction false} ManeuverTypeValues(a: ManeuverType, b: ManeuverType)
    ensures HOHMANN.Value() == 0 && BI_ELLIPTIC_HOHMANN.Value() == 1
    ensures PLANE_CHANGE.Value() == 2 && APSE_LINE_ROTATION.Value() == 3
    ensures a.Value() == b.Value() ==> a == b
  {
    match a {
      case HOHMANN =>
      case BI_ELLIPTIC_HOHMANN =>
      case PLANE_CHANGE =>
      case APSE_LINE_ROTATION =>
    }
  }

  /** The delta velocity as shown: truncated towards zero to 6 decimals (format's default '1.000000'). */
  function ShownDeltaVelocity(x: real): (r: real)
    ensures Utility.OnGrid(r, 6)
    ensures x >= 0.0 ==> 0.0 <= r <= x
    ensures x < 0.0 ==> x <= r <= 0.0
    ensures -0.000001 < x - r < 0.000001
  {
    Utility.Format(x, 6)
  }

  /** The delta time as shown: truncated towards zero to 4 decimals (format '1.0000'). */
  function ShownDeltaTime(x: real): (r: real)
    ensures Utility.OnGrid(r, 4)
    ensures x >= 0.0 ==> 0.0 <= r <= x
    ensures x < 0.0 ==> x <= r <= 0.0
    ensures -0.0001 < x - r < 0.0001
  {
    Utility.Format(x, 4)
  }

  /** The delta mass as shown: truncated towards zero to 3 decimals (format '1.000'). */
  function ShownDeltaMass(x: real): (r: real)
    ensures Utility.OnGrid(r, 3)
    ensures x >= 0.0 ==> 0.0 <= r <= x
    ensures x < 0.0 ==> x <= r <= 0.0
    ensures -0.001 < x - r < 0.001
  {
    Utility.Format(x, 3)
  }

  /** A shown cost shown again does not change. */
  lemma {:induction false} ShownCostsStable(x: real)
    ensures ShownDeltaVelocity(ShownDeltaVelocity(x)) == ShownDeltaVelocity(x)
    ensures ShownDeltaTime(ShownDeltaTime(x)) == ShownDeltaTime(x)
    ensures ShownDeltaMass(ShownDeltaMass(x)) == ShownDeltaMass(x)
  {
    Utility.FormatIdempotent(x, 6, false);
    Utility.FormatIdempotent(x, 4, false);
    Utility.FormatIdempotent(x, 3, false);
  }

  /** The stored fields of a maneuver, as one value. */
  datatype ManeuverState = ManeuverState(
    kind: int, option: int, optionValue: real,
    deltaVelocity: real, deltaTime: real, deltaMass: real)

  class Maneuver {
    var kind: int
    var option: int
    var optionValue: real
    var deltaVelocity: real
    var deltaTime: real
    var deltaMass: real

    function Snapshot(): ManeuverState
      reads this
    {
      ManeuverState(kind, option, optionValue, deltaVelocity, deltaTime, deltaMass)
    }

    /** Maneuver(type, option, option_value, delta_velocity = 0, delta_time = 0, delta_mass = 0) */
    constructor (kind: int, option: int, optionValue: real,
                 deltaVelocity: real := 0.0, deltaTime: real := 0.0, deltaMass: real := 0.0)
      ensures Snapshot() == ManeuverState(kind, option, optionValue, deltaVelocity, deltaTime, deltaMass)
    {
      this.kind := kind;
      this.option := option;
      this.optionValue := optionValue;
      this.deltaVelocity := deltaVelocity;
      this.deltaTime := deltaTime;
      this.deltaMass := deltaMass;
    }

    /** The type, option and option_value getters: the stored values, unformatted. */
    function Kind(): int reads this { kind }
    function Option(): int reads this { option }
    function OptionValue(): real reads this { optionValue }

    /** The formatted cost getters. */
    function DeltaVelocity(): real reads this { ShownDeltaVelocity(deltaVelocity) }
    function DeltaTime(): real reads this { ShownDeltaTime(deltaTime) }
    function DeltaMass(): real reads this { ShownDeltaMass(deltaMass) }

    method SetKind(val: int)
      modifies this
      ensures Snapshot() == old(Snapshot()).(kind := val)
    {
      kind := val;
    }

    method SetOption(val: int)
      modifies this
      ensures Snapshot() == old(Snapshot()).(option := val)
    {
      option := val;
    }

    method SetOptionValue(val: real)
      modifies this
      ensures Snapshot() == old(Snapshot()).(optionValue := val)
    {
      optionValue := val;
    }

    method SetDeltaVelocity(val: real)
      modifies this
      ensures Snapshot() == old(Snapshot()).(deltaVelocity := val)
    {
      deltaVelocity := val;
    }

    method SetDeltaTime(val: real)
      modifies this
      ensures Snapshot() == old(Snapshot()).(deltaTime := val)
    {
      deltaTime := val;
    }

    method SetDeltaMass(val: real)
      modifies this
      ensures Snapshot() == old(Snapshot()).(deltaMass := val)
    {
      deltaMass := val;
    }
  }

  /** A maneuver created with only its type, option and value reports zero costs. */
  method NewManeuverCostsNothing(kind: int, option: int, optionValue: real) returns (m: Maneuver)
    ensures m.Kind() == kind && m.Option() == option && m.OptionValue() == optionValue
    ensures m.DeltaVelocity() == 0.0 && m.DeltaTime() == 0.0 && m.DeltaMass() == 0.0
  {
    m := new Maneuver(kind, option, optionValue);
  }
}
