/**
 * Model of src/Maneuver.py: the older maneuver record, holding only the type, the option and
 * the option value, with plain getters and unformatted properties. Its ManeuverType enum has
 * the same four members and values as ManeuverRecord.ManeuverType.
 */
module LegacyManeuver {
  datatype ManeuverState = ManeuverState(kind: int, option: int, optionValue: real)

  class Maneuver {
    var kind: int
    var option: int
    var optionValue: real

    function Snapshot(): ManeuverState
      reads this
    {
      ManeuverState(kind, option, optionValue)
    }

    /** Maneuver(type, option, optionValue) */
    constructor (kind: int, option: int, optionValue: real)
      ensures Snapshot() == ManeuverState(kind, option, optionValue)
    {
      this.kind := kind;
      this.option := option;
      this.optionValue := optionValue;
    }

    /** getType, getOption, getOptionValue, and the properties' getters. */
    function GetType(): int reads this { kind }
    function GetOption(): int reads this { option }
    function GetOptionValue(): real reads this { optionValue }

    /** The type property setter. */
    method SetType(n: int)
      modifies this
      ensures Snapshot() == old(Snapshot()).(kind := n)
    {
      kind := n;
    }

    /** The option property setter. */
    method SetOption(n: int)
      modifies this
      ensures Snapshot() == old(Snapshot()).(option := n)
    {
      option := n;
    }

    /** The optionValue property setter. */
    method SetOptionValue(f: real)
      modifies this
      ensures Snapshot() == old(Snapshot()).(optionValue := f)
    {
      optionValue := f;
    }
  }

  /** Each property setter round-trips through its getter and leaves the other two alone. */
  method PropertiesRoundTrip(m: Maneuver, kind: int, option: int, optionValue: real)
    modifies m
    ensures m.GetType() == kind && m.GetOption() == option && m.GetOptionValue() == optionValue
  {
    m.SetType(kind);
    m.SetOption(option);
    m.SetOptionValue(optionValue);
  }
}
