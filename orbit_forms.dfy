/**
 * The orbit editors of the orbit transfer UI: the text fields of one orbit in its three
 * representations, what a save writes into an orbit record (only the group of the selected
 * representation) and what a restore shows (every field, the angles of the modified
 * Keplerian tab repeating those of the Keplerian tab).
 */
module OrbitForms {
  import Utility
  import OrbitRecord
  import LegacyOrbit
  import opened OrbitTypes

  /**
   * The editor of one orbit, as numbers: the selected representation, the Cartesian six, the
   * Keplerian six, the two radii and the `_2` copies of the four angles on the modified
   * Keplerian tab. Angles are in degrees.
   */
  datatype OrbitForm = OrbitForm(
    selected: int,
    x: real, y: real, z: real, vx: real, vy: real, vz: real,
    a: real, e: real, i: real, raan: real, argp: real, theta: real,
    rp: real, ra: real, i2: real, raan2: real, argp2: real, theta2: real)

  /** Each `_2` angle field shows the same value as its Keplerian twin. */
  predicate TwinsAgree(f: OrbitForm)
  {
    f.i2 == f.i && f.raan2 == f.raan && f.argp2 == f.argp && f.theta2 == f.theta
  }

  /** The change signals the newer record emits while a save in `mode` sets its properties one by one. */
  function WrittenSignals(mode: int): seq<OrbitRecord.Signal>
  {
    if mode == CARTESIAN then OrbitRecord.CartesianSignals
    else if mode == KEPLERIAN then OrbitRecord.KeplerianSignals
    else if mode == MODIFIED_KEPLERIAN then
      [OrbitRecord.Changed(OrbitRecord.PeriapsisRadius), OrbitRecord.Changed(OrbitRecord.ApoapsisRadius),
       OrbitRecord.Changed(OrbitRecord.Inclination), OrbitRecord.Changed(OrbitRecord.RightAscensionAscendingNode),
       OrbitRecord.Changed(OrbitRecord.PeriapsisAnomaly), OrbitRecord.Changed(OrbitRecord.TrueAnomaly)]
    else []
  }

  /**
   * The switch of a save, on the newer record: the six properties of the selected representation
   * are set from the form, angles converted to radians; in the modified Keplerian mode the angles
   * come from the `_2` fields; any other mode sets nothing. Body, state and h are never set.
   */
  function Written(s: OrbitRecord.OrbitState, f: OrbitForm, mode: int): (t: OrbitRecord.OrbitState)
    ensures t.body == s.body && t.state == s.state && t.h == s.h
    ensures mode == CARTESIAN ==> t == OrbitRecord.WithCartesian(s, Vec3(f.x, f.y, f.z), Vec3(f.vx, f.vy, f.vz))
    ensures mode == KEPLERIAN ==>
      t == s.(a := f.a, e := f.e, i := Utility.DegToRad(f.i), raan := Utility.DegToRad(f.raan),
              argp := Utility.DegToRad(f.argp), theta := Utility.DegToRad(f.theta))
    ensures mode == MODIFIED_KEPLERIAN ==>
      t == s.(rp := f.rp, ra := f.ra, i := Utility.DegToRad(f.i2), raan := Utility.DegToRad(f.raan2),
              argp := Utility.DegToRad(f.argp2), theta := Utility.DegToRad(f.theta2))
    ensures mode != CARTESIAN && mode != KEPLERIAN && mode != MODIFIED_KEPLERIAN ==> t == s
  {
    if mode == CARTESIAN then
      OrbitRecord.Assign(OrbitRecord.Assign(OrbitRecord.Assign(OrbitRecord.Assign(OrbitRecord.Assign(OrbitRecord.Assign(s,
        OrbitRecord.Rx, f.x), OrbitRecord.Ry, f.y), OrbitRecord.Rz, f.z), OrbitRecord.Vx, f.vx), OrbitRecord.Vy, f.vy), OrbitRecord.Vz, f.vz)
    else if mode == KEPLERIAN then
      OrbitRecord.Assign(OrbitRecord.Assign(OrbitRecord.Assign(OrbitRecord.Assign(OrbitRecord.Assign(OrbitRecord.Assign(s,
        OrbitRecord.SemiMajorAxis, f.a), OrbitRecord.Eccentricity, f.e), OrbitRecord.Inclination, f.i),
        OrbitRecord.RightAscensionAscendingNode, f.raan), OrbitRecord.PeriapsisAnomaly, f.argp), OrbitRecord.TrueAnomaly, f.theta)
    else if mode == MODIFIED_KEPLERIAN then
      OrbitRecord.Assign(OrbitRecord.Assign(OrbitRecord.Assign(OrbitRecord.Assign(OrbitRecord.Assign(OrbitRecord.Assign(s,
        OrbitRecord.PeriapsisRadius, f.rp), OrbitRecord.ApoapsisRadius, f.ra), OrbitRecord.Inclination, f.i2),
        OrbitRecord.RightAscensionAscendingNode, f.raan2), OrbitRecord.PeriapsisAnomaly, f.argp2), OrbitRecord.TrueAnomaly, f.theta2)
    else s
  }

  /** The restore functions on the newer record: every field from its getter, each `_2` angle from the same getter as its twin. */
  function Restored(s: OrbitRecord.OrbitState): (f: OrbitForm)
    ensures f.selected == s.state && TwinsAgree(f)
    ensures f.x == OrbitRecord.Read(s, OrbitRecord.Rx) && f.rp == OrbitRecord.Read(s, OrbitRecord.PeriapsisRadius)
  {
    var inclination := OrbitRecord.Read(s, OrbitRecord.Inclination);
    var raan := OrbitRecord.Read(s, OrbitRecord.RightAscensionAscendingNode);
    var argp := OrbitRecord.Read(s, OrbitRecord.PeriapsisAnomaly);
    var theta := OrbitRecord.Read(s, OrbitRecord.TrueAnomaly);
    OrbitForm(s.state,
      OrbitRecord.Read(s, OrbitRecord.Rx), OrbitRecord.Read(s, OrbitRecord.Ry), OrbitRecord.Read(s, OrbitRecord.Rz),
      OrbitRecord.Read(s, OrbitRecord.Vx), OrbitRecord.Read(s, OrbitRecord.Vy), OrbitRecord.Read(s, OrbitRecord.Vz),
      OrbitRecord.Read(s, OrbitRecord.SemiMajorAxis), OrbitRecord.Read(s, OrbitRecord.Eccentricity),
      inclination, raan, argp, theta,
      OrbitRecord.Read(s, OrbitRecord.PeriapsisRadius), OrbitRecord.Read(s, OrbitRecord.ApoapsisRadius),
      inclination, raan, argp, theta)
  }

  /** A shown value put back through its setter shows the same again. */
  lemma Reshown(x: real)
    ensures Utility.Format(Utility.Format(x, 6, false), 6, false) == Utility.Format(x, 6, false)
  {
    Utility.FormatIdempotent(x, 6, false);
  }

  /** A shown angle (degrees) put back through its setter (to radians) shows the same again. */
  lemma ReshownAngle(x: real)
    ensures Utility.Format(Utility.DegToRad(Utility.Format(x, 6, true)), 6, true) == Utility.Format(x, 6, true)
  {
    Utility.FormatDegreesOfStoredAngle(Utility.Format(x, 6, true), 6);
    Utility.FormatIdempotent(x, 6, true);
  }

  /** Modified Keplerian saves read the radii and the `_2` angles, never the Keplerian tab's fields. */
  lemma ModifiedModeReadsTwins(s: OrbitRecord.OrbitState, f: OrbitForm, g: OrbitForm)
    requires f.rp == g.rp && f.ra == g.ra
    requires f.i2 == g.i2 && f.raan2 == g.raan2 && f.argp2 == g.argp2 && f.theta2 == g.theta2
    ensures Written(s, f, MODIFIED_KEPLERIAN) == Written(s, g, MODIFIED_KEPLERIAN)
  {
  }

  /**
   * Restoring an editor from the newer record and saving it straight back in the record's own
   * representation changes nothing the editor shows: the values written are already truncated.
   */
  lemma {:induction false} RestoreThenSaveChangesNoDisplay(s: OrbitRecord.OrbitState)
    ensures Restored(Written(s, Restored(s), s.state)) == Restored(s)
  {
    if s.state == CARTESIAN {
      CartesianReshown(s);
    } else if s.state == KEPLERIAN {
      KeplerianReshown(s);
    } else if s.state == MODIFIED_KEPLERIAN {
      ModifiedReshown(s);
    }
  }

  lemma CartesianReshown(s: OrbitRecord.OrbitState)
    ensures Restored(Written(s, Restored(s), CARTESIAN)) == Restored(s)
  {
    Reshown(s.r.x); Reshown(s.r.y); Reshown(s.r.z);
    Reshown(s.v.x); Reshown(s.v.y); Reshown(s.v.z);
  }

  lemma KeplerianReshown(s: OrbitRecord.OrbitState)
    ensures Restored(Written(s, Restored(s), KEPLERIAN)) == Restored(s)
  {
    var t := Written(s, Restored(s), KEPLERIAN);
    KeplerianWritten(s, t);
    KeplerianKept(s, t);
    SameReads(s, t);
  }

  /** The group a KEPLERIAN save writes shows the same values again. */
  lemma KeplerianWritten(s: OrbitRecord.OrbitState, t: OrbitRecord.OrbitState)
    requires t == Written(s, Restored(s), KEPLERIAN)
    ensures OrbitRecord.Read(t, OrbitRecord.SemiMajorAxis) == OrbitRecord.Read(s, OrbitRecord.SemiMajorAxis)
    ensures OrbitRecord.Read(t, OrbitRecord.Eccentricity) == OrbitRecord.Read(s, OrbitRecord.Eccentricity)
    ensures OrbitRecord.Read(t, OrbitRecord.Inclination) == OrbitRecord.Read(s, OrbitRecord.Inclination)
    ensures OrbitRecord.Read(t, OrbitRecord.RightAscensionAscendingNode) == OrbitRecord.Read(s, OrbitRecord.RightAscensionAscendingNode)
    ensures OrbitRecord.Read(t, OrbitRecord.PeriapsisAnomaly) == OrbitRecord.Read(s, OrbitRecord.PeriapsisAnomaly)
    ensures OrbitRecord.Read(t, OrbitRecord.TrueAnomaly) == OrbitRecord.Read(s, OrbitRecord.TrueAnomaly)
  {
    Reshown(s.a);
    Reshown(s.e);
    AnglesReshown(s, t);
  }

  /** The groups a KEPLERIAN save leaves alone show what they showed. */
  lemma KeplerianKept(s: OrbitRecord.OrbitState, t: OrbitRecord.OrbitState)
    requires t == Written(s, Restored(s), KEPLERIAN)
    ensures OrbitRecord.Read(t, OrbitRecord.Rx) == OrbitRecord.Read(s, OrbitRecord.Rx)
    ensures OrbitRecord.Read(t, OrbitRecord.Ry) == OrbitRecord.Read(s, OrbitRecord.Ry)
    ensures OrbitRecord.Read(t, OrbitRecord.Rz) == OrbitRecord.Read(s, OrbitRecord.Rz)
    ensures OrbitRecord.Read(t, OrbitRecord.Vx) == OrbitRecord.Read(s, OrbitRecord.Vx)
    ensures OrbitRecord.Read(t, OrbitRecord.Vy) == OrbitRecord.Read(s, OrbitRecord.Vy)
    ensures OrbitRecord.Read(t, OrbitRecord.Vz) == OrbitRecord.Read(s, OrbitRecord.Vz)
    ensures OrbitRecord.Read(t, OrbitRecord.PeriapsisRadius) == OrbitRecord.Read(s, OrbitRecord.PeriapsisRadius)
    ensures OrbitRecord.Read(t, OrbitRecord.ApoapsisRadius) == OrbitRecord.Read(s, OrbitRecord.ApoapsisRadius)
  {
  }

  lemma ModifiedReshown(s: OrbitRecord.OrbitState)
    ensures Restored(Written(s, Restored(s), MODIFIED_KEPLERIAN)) == Restored(s)
  {
    var t := Written(s, Restored(s), MODIFIED_KEPLERIAN);
    ModifiedWritten(s, t);
    ModifiedKept(s, t);
    SameReads(s, t);
  }

  /** The group a MODIFIED_KEPLERIAN save writes shows the same values again. */
  lemma ModifiedWritten(s: OrbitRecord.OrbitState, t: OrbitRecord.OrbitState)
    requires t == Written(s, Restored(s), MODIFIED_KEPLERIAN)
    ensures OrbitRecord.Read(t, OrbitRecord.PeriapsisRadius) == OrbitRecord.Read(s, OrbitRecord.PeriapsisRadius)
    ensures OrbitRecord.Read(t, OrbitRecord.ApoapsisRadius) == OrbitRecord.Read(s, OrbitRecord.ApoapsisRadius)
    ensures OrbitRecord.Read(t, OrbitRecord.Inclination) == OrbitRecord.Read(s, OrbitRecord.Inclination)
    ensures OrbitRecord.Read(t, OrbitRecord.RightAscensionAscendingNode) == OrbitRecord.Read(s, OrbitRecord.RightAscensionAscendingNode)
    ensures OrbitRecord.Read(t, OrbitRecord.PeriapsisAnomaly) == OrbitRecord.Read(s, OrbitRecord.PeriapsisAnomaly)
    ensures OrbitRecord.Read(t, OrbitRecord.TrueAnomaly) == OrbitRecord.Read(s, OrbitRecord.TrueAnomaly)
  {
    Reshown(s.rp);
    Reshown(s.ra);
    AnglesReshown(s, t);
  }

  /** The groups a MODIFIED_KEPLERIAN save leaves alone show what they showed. */
  lemma ModifiedKept(s: OrbitRecord.OrbitState, t: OrbitRecord.OrbitState)
    requires t == Written(s, Restored(s), MODIFIED_KEPLERIAN)
    ensures OrbitRecord.Read(t, OrbitRecord.Rx) == OrbitRecord.Read(s, OrbitRecord.Rx)
    ensures OrbitRecord.Read(t, OrbitRecord.Ry) == OrbitRecord.Read(s, OrbitRecord.Ry)
    ensures OrbitRecord.Read(t, OrbitRecord.Rz) == OrbitRecord.Read(s, OrbitRecord.Rz)
    ensures OrbitRecord.Read(t, OrbitRecord.Vx) == OrbitRecord.Read(s, OrbitRecord.Vx)
    ensures OrbitRecord.Read(t, OrbitRecord.Vy) == OrbitRecord.Read(s, OrbitRecord.Vy)
    ensures OrbitRecord.Read(t, OrbitRecord.Vz) == OrbitRecord.Read(s, OrbitRecord.Vz)
    ensures OrbitRecord.Read(t, OrbitRecord.SemiMajorAxis) == OrbitRecord.Read(s, OrbitRecord.SemiMajorAxis)
    ensures OrbitRecord.Read(t, OrbitRecord.Eccentricity) == OrbitRecord.Read(s, OrbitRecord.Eccentricity)
  {
  }

  /** The four angles written back as shown read back the same. */
  lemma AnglesReshown(s: OrbitRecord.OrbitState, t: OrbitRecord.OrbitState)
    requires t.i == Utility.DegToRad(OrbitRecord.Read(s, OrbitRecord.Inclination))
    requires t.raan == Utility.DegToRad(OrbitRecord.Read(s, OrbitRecord.RightAscensionAscendingNode))
    requires t.argp == Utility.DegToRad(OrbitRecord.Read(s, OrbitRecord.PeriapsisAnomaly))
    requires t.theta == Utility.DegToRad(OrbitRecord.Read(s, OrbitRecord.TrueAnomaly))
    ensures OrbitRecord.Read(t, OrbitRecord.Inclination) == OrbitRecord.Read(s, OrbitRecord.Inclination)
    ensures OrbitRecord.Read(t, OrbitRecord.RightAscensionAscendingNode) == OrbitRecord.Read(s, OrbitRecord.RightAscensionAscendingNode)
    ensures OrbitRecord.Read(t, OrbitRecord.PeriapsisAnomaly) == OrbitRecord.Read(s, OrbitRecord.PeriapsisAnomaly)
    ensures OrbitRecord.Read(t, OrbitRecord.TrueAnomaly) == OrbitRecord.Read(s, OrbitRecord.TrueAnomaly)
  {
    ReshownAngle(s.i); ReshownAngle(s.raan); ReshownAngle(s.argp); ReshownAngle(s.theta);
  }

  /** Two records whose state and shown getters agree restore the same editor. */
  lemma SameReads(s: OrbitRecord.OrbitState, t: OrbitRecord.OrbitState)
    requires s.state == t.state
    requires OrbitRecord.Read(t, OrbitRecord.Rx) == OrbitRecord.Read(s, OrbitRecord.Rx)
    requires OrbitRecord.Read(t, OrbitRecord.Ry) == OrbitRecord.Read(s, OrbitRecord.Ry)
    requires OrbitRecord.Read(t, OrbitRecord.Rz) == OrbitRecord.Read(s, OrbitRecord.Rz)
    requires OrbitRecord.Read(t, OrbitRecord.Vx) == OrbitRecord.Read(s, OrbitRecord.Vx)
    requires OrbitRecord.Read(t, OrbitRecord.Vy) == OrbitRecord.Read(s, OrbitRecord.Vy)
    requires OrbitRecord.Read(t, OrbitRecord.Vz) == OrbitRecord.Read(s, OrbitRecord.Vz)
    requires OrbitRecord.Read(t, OrbitRecord.SemiMajorAxis) == OrbitRecord.Read(s, OrbitRecord.SemiMajorAxis)
    requires OrbitRecord.Read(t, OrbitRecord.Eccentricity) == OrbitRecord.Read(s, OrbitRecord.Eccentricity)
    requires OrbitRecord.Read(t, OrbitRecord.Inclination) == OrbitRecord.Read(s, OrbitRecord.Inclination)
    requires OrbitRecord.Read(t, OrbitRecord.RightAscensionAscendingNode) == OrbitRecord.Read(s, OrbitRecord.RightAscensionAscendingNode)
    requires OrbitRecord.Read(t, OrbitRecord.PeriapsisAnomaly) == OrbitRecord.Read(s, OrbitRecord.PeriapsisAnomaly)
    requires OrbitRecord.Read(t, OrbitRecord.TrueAnomaly) == OrbitRecord.Read(s, OrbitRecord.TrueAnomaly)
    requires OrbitRecord.Read(t, OrbitRecord.PeriapsisRadius) == OrbitRecord.Read(s, OrbitRecord.PeriapsisRadius)
    requires OrbitRecord.Read(t, OrbitRecord.ApoapsisRadius) == OrbitRecord.Read(s, OrbitRecord.ApoapsisRadius)
    ensures Restored(t) == Restored(s)
  {
  }

  /** The switch of a save on the newer record: one setter per property of the selected group. */
  method Write(o: OrbitRecord.Orbit, f: OrbitForm, mode: int)
    modifies o
    ensures o.Snapshot() == Written(old(o.Snapshot()), f, mode)
    ensures o.signals == old(o.signals) + WrittenSignals(mode)
  {
    if mode == CARTESIAN {
      WriteCartesian(o, f);
    } else if mode == KEPLERIAN {
      WriteKeplerian(o, f);
    } else if mode == MODIFIED_KEPLERIAN {
      WriteModified(o, f);
    }
  }

  method WriteCartesian(o: OrbitRecord.Orbit, f: OrbitForm)
    modifies o
    ensures o.Snapshot() == Written(old(o.Snapshot()), f, CARTESIAN)
    ensures o.signals == old(o.signals) + WrittenSignals(CARTESIAN)
  {
    o.Set(OrbitRecord.Rx, f.x);
    o.Set(OrbitRecord.Ry, f.y);
    o.Set(OrbitRecord.Rz, f.z);
    o.Set(OrbitRecord.Vx, f.vx);
    o.Set(OrbitRecord.Vy, f.vy);
    o.Set(OrbitRecord.Vz, f.vz);
  }

  method WriteKeplerian(o: OrbitRecord.Orbit, f: OrbitForm)
    modifies o
    ensures o.Snapshot() == Written(old(o.Snapshot()), f, KEPLERIAN)
    ensures o.signals == old(o.signals) + WrittenSignals(KEPLERIAN)
  {
    o.Set(OrbitRecord.SemiMajorAxis, f.a);
    o.Set(OrbitRecord.Eccentricity, f.e);
    o.Set(OrbitRecord.Inclination, f.i);
    o.Set(OrbitRecord.RightAscensionAscendingNode, f.raan);
    o.Set(OrbitRecord.PeriapsisAnomaly, f.argp);
    o.Set(OrbitRecord.TrueAnomaly, f.theta);
  }

  method WriteModified(o: OrbitRecord.Orbit, f: OrbitForm)
    modifies o
    ensures o.Snapshot() == Written(old(o.Snapshot()), f, MODIFIED_KEPLERIAN)
    ensures o.signals == old(o.signals) + WrittenSignals(MODIFIED_KEPLERIAN)
  {
    o.Set(OrbitRecord.PeriapsisRadius, f.rp);
    o.Set(OrbitRecord.ApoapsisRadius, f.ra);
    o.Set(OrbitRecord.Inclination, f.i2);
    o.Set(OrbitRecord.RightAscensionAscendingNode, f.raan2);
    o.Set(OrbitRecord.PeriapsisAnomaly, f.argp2);
    o.Set(OrbitRecord.TrueAnomaly, f.theta2);
  }

  /** The same switch on the older, shared record (whose setters emit nothing). */
  function LegacyWritten(s: LegacyOrbit.OrbitState, f: OrbitForm, mode: int): (t: LegacyOrbit.OrbitState)
    ensures t.body == s.body && t.state == s.state
    ensures mode == CARTESIAN ==> t == s.(r := Vec3(f.x, f.y, f.z), v := Vec3(f.vx, f.vy, f.vz))
    ensures mode == KEPLERIAN ==>
      t == s.(a := f.a, e := f.e, i := Utility.DegToRad(f.i), raan := Utility.DegToRad(f.raan),
              argp := Utility.DegToRad(f.argp), theta := Utility.DegToRad(f.theta))
    ensures mode == MODIFIED_KEPLERIAN ==>
      t == s.(rp := f.rp, ra := f.ra, i := Utility.DegToRad(f.i2), raan := Utility.DegToRad(f.raan2),
              argp := Utility.DegToRad(f.argp2), theta := Utility.DegToRad(f.theta2))
    ensures mode != CARTESIAN && mode != KEPLERIAN && mode != MODIFIED_KEPLERIAN ==> t == s
  {
    if mode == CARTESIAN then
      LegacyOrbit.Assign(LegacyOrbit.Assign(LegacyOrbit.Assign(LegacyOrbit.Assign(LegacyOrbit.Assign(LegacyOrbit.Assign(s,
        LegacyOrbit.Rx, f.x), LegacyOrbit.Ry, f.y), LegacyOrbit.Rz, f.z), LegacyOrbit.Vx, f.vx), LegacyOrbit.Vy, f.vy), LegacyOrbit.Vz, f.vz)
    else if mode == KEPLERIAN then
      LegacyOrbit.Assign(LegacyOrbit.Assign(LegacyOrbit.Assign(LegacyOrbit.Assign(LegacyOrbit.Assign(LegacyOrbit.Assign(s,
        LegacyOrbit.SemiMajorAxis, f.a), LegacyOrbit.Eccentricity, f.e), LegacyOrbit.Inclination, f.i),
        LegacyOrbit.RightAscensionAscendingNode, f.raan), LegacyOrbit.PeriapsisAnomaly, f.argp), LegacyOrbit.TrueAnomaly, f.theta)
    else if mode == MODIFIED_KEPLERIAN then
      LegacyOrbit.Assign(LegacyOrbit.Assign(LegacyOrbit.Assign(LegacyOrbit.Assign(LegacyOrbit.Assign(LegacyOrbit.Assign(s,
        LegacyOrbit.PeriapsisRadius, f.rp), LegacyOrbit.ApoapsisRadius, f.ra), LegacyOrbit.Inclination, f.i2),
        LegacyOrbit.RightAscensionAscendingNode, f.raan2), LegacyOrbit.PeriapsisAnomaly, f.argp2), LegacyOrbit.TrueAnomaly, f.theta2)
    else s
  }

  /** The restore functions on the older, shared record. */
  function LegacyRestored(s: LegacyOrbit.OrbitState): (f: OrbitForm)
    ensures f.selected == s.state && TwinsAgree(f)
    ensures f.x == LegacyOrbit.Read(s, LegacyOrbit.Rx) && f.rp == LegacyOrbit.Read(s, LegacyOrbit.PeriapsisRadius)
  {
    var inclination := LegacyOrbit.Read(s, LegacyOrbit.Inclination);
    var raan := LegacyOrbit.Read(s, LegacyOrbit.RightAscensionAscendingNode);
    var argp := LegacyOrbit.Read(s, LegacyOrbit.PeriapsisAnomaly);
    var theta := LegacyOrbit.Read(s, LegacyOrbit.TrueAnomaly);
    OrbitForm(s.state,
      LegacyOrbit.Read(s, LegacyOrbit.Rx), LegacyOrbit.Read(s, LegacyOrbit.Ry), LegacyOrbit.Read(s, LegacyOrbit.Rz),
      LegacyOrbit.Read(s, LegacyOrbit.Vx), LegacyOrbit.Read(s, LegacyOrbit.Vy), LegacyOrbit.Read(s, LegacyOrbit.Vz),
      LegacyOrbit.Read(s, LegacyOrbit.SemiMajorAxis), LegacyOrbit.Read(s, LegacyOrbit.Eccentricity),
      inclination, raan, argp, theta,
      LegacyOrbit.Read(s, LegacyOrbit.PeriapsisRadius), LegacyOrbit.Read(s, LegacyOrbit.ApoapsisRadius),
      inclination, raan, argp, theta)
  }

  /**
   * Two saves in the same representation into the one shared record: the second overwrites
   * every field the first wrote, so the departure editor's values are lost to an arrival save.
   */
  lemma LaterSaveOverwrites(s: LegacyOrbit.OrbitState, first: OrbitForm, second: OrbitForm, mode: int)
    ensures LegacyWritten(LegacyWritten(s, first, mode), second, mode) == LegacyWritten(s, second, mode)
  {
  }

  /** Restoring an editor from the shared record and saving it straight back changes nothing it shows. */
  lemma {:induction false} LegacyRestoreThenSaveChangesNoDisplay(s: LegacyOrbit.OrbitState)
    ensures LegacyRestored(LegacyWritten(s, LegacyRestored(s), s.state)) == LegacyRestored(s)
  {
    if s.state == CARTESIAN {
      Reshown(s.r.x); Reshown(s.r.y); Reshown(s.r.z);
      Reshown(s.v.x); Reshown(s.v.y); Reshown(s.v.z);
    } else if s.state == KEPLERIAN {
      Reshown(s.a); Reshown(s.e);
      ReshownAngle(s.i); ReshownAngle(s.raan); ReshownAngle(s.argp); ReshownAngle(s.theta);
    } else if s.state == MODIFIED_KEPLERIAN {
      Reshown(s.rp); Reshown(s.ra);
      ReshownAngle(s.i); ReshownAngle(s.raan); ReshownAngle(s.argp); ReshownAngle(s.theta);
    }
  }

  /** The switch of a save on the shared record. */
  method LegacyWrite(o: LegacyOrbit.Orbit, f: OrbitForm, mode: int)
    modifies o
    ensures o.Snapshot() == LegacyWritten(old(o.Snapshot()), f, mode)
    ensures o.signals == old(o.signals)
  {
    if mode == CARTESIAN {
      o.Set(LegacyOrbit.Rx, f.x);
      o.Set(LegacyOrbit.Ry, f.y);
      o.Set(LegacyOrbit.Rz, f.z);
      o.Set(LegacyOrbit.Vx, f.vx);
      o.Set(LegacyOrbit.Vy, f.vy);
      o.Set(LegacyOrbit.Vz, f.vz);
    } else if mode == KEPLERIAN {
      o.Set(LegacyOrbit.SemiMajorAxis, f.a);
      o.Set(LegacyOrbit.Eccentricity, f.e);
      o.Set(LegacyOrbit.Inclination, f.i);
      o.Set(LegacyOrbit.RightAscensionAscendingNode, f.raan);
      o.Set(LegacyOrbit.PeriapsisAnomaly, f.argp);
      o.Set(LegacyOrbit.TrueAnomaly, f.theta);
    } else if mode == MODIFIED_KEPLERIAN {
      o.Set(LegacyOrbit.PeriapsisRadius, f.rp);
      o.Set(LegacyOrbit.ApoapsisRadius, f.ra);
      o.Set(LegacyOrbit.Inclination, f.i2);
      o.Set(LegacyOrbit.RightAscensionAscendingNode, f.raan2);
      o.Set(LegacyOrbit.PeriapsisAnomaly, f.argp2);
      o.Set(LegacyOrbit.TrueAnomaly, f.theta2);
    }
  }
}
