/**
 * The value types the orbit records exchange with the orbit-element conversions of
 * tools/ThreeDimensionalOrbit.py and tools/TwoBodyProblem.py, and the state selector.
 * The conversions themselves are numerical and appear here only as uninterpreted functions.
 */
module OrbitTypes {
  /** A position [km] or velocity [km/s] vector. */
  datatype Vec3 = Vec3(x: real, y: real, z: real)

  /** OrbitalElements: h, e, i, Omega, omega, theta, a, in that order; angles in radians. */
  datatype OrbitalElements = OrbitalElements(h: real, e: real, i: real, raan: real, argp: real, theta: real, a: real)

  /** The part of OrbitalParameters the orbit records consume: the periapsis and apoapsis radii. */
  datatype OrbitalParameters = OrbitalParameters(rp: real, ra: real)

  /** StateType: which field group of an orbit record is authoritative. */
  const CARTESIAN: int := 0
  const KEPLERIAN: int := 1
  const MODIFIED_KEPLERIAN: int := 2

  /**
   * calculate_orbital_elements(r, v), calculate_orbital_parameters(r, v) and pf_2_gef(oe),
   * for the central body the conversions were last set to.
   */
  datatype Conversions = Conversions(
    elementsOf: (Vec3, Vec3) -> OrbitalElements,
    parametersOf: (Vec3, Vec3) -> OrbitalParameters,
    toCartesian: OrbitalElements -> (Vec3, Vec3))

  /**
   * pf_2_gef's semi-latus rectum p is a (1 - e^2) when h is 0 and h^2 / mu otherwise (mu > 0);
   * it then divides mu by p, so a zero p raises ZeroDivisionError before any result exists.
   */
  predicate PerifocalDividesByZero(oe: OrbitalElements)
  {
    oe.h == 0.0 && oe.a * (1.0 - oe.e * oe.e) == 0.0
  }

  /** With h at 0, pf_2_gef raises exactly for a zero semi-major axis or a parabolic eccentricity. */
  lemma PerifocalZeroCases(oe: OrbitalElements)
    requires oe.h == 0.0
    ensures PerifocalDividesByZero(oe) <==> oe.a == 0.0 || oe.e == 1.0 || oe.e == -1.0
  {
    var x := 1.0 - oe.e * oe.e;
    if oe.a != 0.0 && oe.a * x == 0.0 {
      assert x == (oe.a * x) / oe.a;
      assert (oe.e - 1.0) * (oe.e + 1.0) == 0.0;
      if oe.e != 1.0 {
        assert oe.e + 1.0 == ((oe.e - 1.0) * (oe.e + 1.0)) / (oe.e - 1.0);
      }
    }
  }
}
