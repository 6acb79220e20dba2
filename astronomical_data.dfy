/**
 * Model of tools/AstronomicalData.py: the CelestialBody and Planet enumerations, the
 * conversions between them and integer indices, and the constant lookup tables.
 *
 * Both enumerations are Python IntEnums, which compare equal to plain integers, so every
 * conversion and table takes the integer it matches on; an integer outside the enumeration
 * reaches the `case _` default.
 */
module AstronomicalData {
  import Utility

  datatype CelestialBody = SUN | MERCURY | VENUS | EARTH | MOON | MARS | JUPITER | SATURN | URANUS | NEPTUNE | PLUTO
  {
    /** The IntEnum value. */
    function Value(): (v: int)
      ensures 0 <= v <= 10
    {
      match this
      case SUN => 0 case MERCURY => 1 case VENUS => 2 case EARTH => 3 case MOON => 4 case MARS => 5
      case JUPITER => 6 case SATURN => 7 case URANUS => 8 case NEPTUNE => 9 case PLUTO => 10
    }
  }

  datatype Planet = MERCURY | VENUS | EARTH | MARS | JUPITER | SATURN | URANUS | NEPTUNE | PLUTO
  {
    /** The IntEnum value. */
    function Value(): (v: int)
      ensures 0 <= v <= 8
    {
      match this
      case MERCURY => 0 case VENUS => 1 case EARTH => 2 case MARS => 3 case JUPITER => 4
      case SATURN => 5 case URANUS => 6 case NEPTUNE => 7 case PLUTO => 8
    }
  }

  lemma {:induction false} BodyValuesDistinct(a: CelestialBody, b: CelestialBody)
    ensures a.Value() == b.Value() <==> a == b
  {}

  lemma {:induction false} PlanetValuesDistinct(a: Planet, b: Planet)
    ensures a.Value() == b.Value() <==> a == b
  {}

  /** celestialBodyFromPlanet: the body of the same name; anything that is not a planet gives EARTH. */
  function CelestialBodyFromPlanet(planet: int): (b: CelestialBody)
    ensures b != CelestialBody.SUN && b != CelestialBody.MOON
    ensures !(0 <= planet <= 8) ==> b == CelestialBody.EARTH
  {
    match planet
    case 0 => CelestialBody.MERCURY
    case 1 => CelestialBody.VENUS
    case 2 => CelestialBody.EARTH
    case 3 => CelestialBody.MARS
    case 4 => CelestialBody.JUPITER
    case 5 => CelestialBody.SATURN
    case 6 => CelestialBody.URANUS
    case 7 => CelestialBody.NEPTUNE
    case 8 => CelestialBody.PLUTO
    case _ => CelestialBody.EARTH
  }

  /** celestialBodyFromIndex: the body whose value is the index; any other index gives EARTH. */
  function CelestialBodyFromIndex(index: int): (b: CelestialBody)
    ensures 0 <= index <= 10 ==> b.Value() == index
    ensures !(0 <= index <= 10) ==> b == CelestialBody.EARTH
  {
    match index
    case 0 => CelestialBody.SUN
    case 1 => CelestialBody.MERCURY
    case 2 => CelestialBody.VENUS
    case 3 => CelestialBody.EARTH
    case 4 => CelestialBody.MOON
    case 5 => CelestialBody.MARS
    case 6 => CelestialBody.JUPITER
    case 7 => CelestialBody.SATURN
    case 8 => CelestialBody.URANUS
    case 9 => CelestialBody.NEPTUNE
    case 10 => CelestialBody.PLUTO
    case _ => CelestialBody.EARTH
  }

  /** indexFromCelestialBody: the body's value; anything that is not a body gives 3 (EARTH). */
  function IndexFromCelestialBody(body: int): (index: int)
    ensures 0 <= index <= 10
    ensures 0 <= body <= 10 ==> index == body
    ensures !(0 <= body <= 10) ==> index == CelestialBody.EARTH.Value()
  {
    match body
    case 0 => 0 case 1 => 1 case 2 => 2 case 3 => 3 case 4 => 4 case 5 => 5
    case 6 => 6 case 7 => 7 case 8 => 8 case 9 => 9 case 10 => 10
    case _ => 3
  }

  /** planetFromIndex: the planet whose value is the index; any other index gives EARTH. */
  function PlanetFromIndex(index: int): (p: Planet)
    ensures 0 <= index <= 8 ==> p.Value() == index
    ensures !(0 <= index <= 8) ==> p == Planet.EARTH
  {
    match index
    case 0 => Planet.MERCURY
    case 1 => Planet.VENUS
    case 2 => Planet.EARTH
    case 3 => Planet.MARS
    case 4 => Planet.JUPITER
    case 5 => Planet.SATURN
    case 6 => Planet.URANUS
    case 7 => Planet.NEPTUNE
    case 8 => Planet.PLUTO
    case _ => Planet.EARTH
  }

  /** indexFromPlanet: the planet's value; anything that is not a planet gives 2 (EARTH). */
  function IndexFromPlanet(planet: int): (index: int)
    ensures 0 <= index <= 8
    ensures 0 <= planet <= 8 ==> index == planet
    ensures !(0 <= planet <= 8) ==> index == Planet.EARTH.Value()
  {
    match planet
    case 0 => 0 case 1 => 1 case 2 => 2 case 3 => 3 case 4 => 4
    case 5 => 5 case 6 => 6 case 7 => 7 case 8 => 8
    case _ => 2
  }

  /** Index -> body -> index is the identity on 0..10 and collapses every other index onto EARTH's 3. */
  lemma {:induction false} BodyIndexRoundTrip(i: int)
    ensures IndexFromCelestialBody(CelestialBodyFromIndex(i).Value()) == (if 0 <= i <= 10 then i else 3)
  {}

  /** Body -> index -> body is the identity. */
  lemma {:induction false} IndexBodyRoundTrip(b: CelestialBody)
    ensures CelestialBodyFromIndex(IndexFromCelestialBody(b.Value())) == b
  {}

  /** Index -> planet -> index is the identity on 0..8 and collapses every other index onto EARTH's 2. */
  lemma {:induction false} PlanetIndexRoundTrip(i: int)
    ensures IndexFromPlanet(PlanetFromIndex(i).Value()) == (if 0 <= i <= 8 then i else 2)
  {}

  /** A planet's body has the planet's value shifted past SUN, and past MOON from MARS on. */
  lemma {:induction false} PlanetBodyAlignment(p: Planet)
    ensures CelestialBodyFromPlanet(p.Value()).Value() == if p.Value() <= 2 then p.Value() + 1 else p.Value() + 2
  {}

  // ----- Constant tables (the `case _` default is reachable with any other integer) -----

  /** EquatiorialRadius [km]. */
  function EquatorialRadius(body: int): real
  {
    match body
    case 0 => 696_300.0
    case 1 => 2_439.700
    case 2 => 6_051.800
    case 3 => 6_378.137
    case 4 => 1_738.100
    case 5 => 3_396.200
    case 6 => 71_492.0
    case 7 => 60_268.0
    case 8 => 25_559.0
    case 9 => 24_764.0
    case 10 => 1_188.300
    case _ => 0.0
  }

  function Flattening(body: int): real
  {
    match body
    case 0 => 0.000_050
    case 1 => 0.000_900
    case 2 => 0.000_000
    case 3 => 1.0 / 298.257_222_101
    case 4 => 0.001_200
    case 5 => 0.005_890
    case 6 => 0.064_870
    case 7 => 0.097_960
    case 8 => 0.022_900
    case 9 => 0.017_100
    case 10 => 0.010_000
    case _ => 0.0
  }

  function SecondZonalHarmonics(body: int): real
  {
    match body
    case 0 => 0.0
    case 1 => 60e-6
    case 2 => 4.458e-6
    case 3 => 1.08263e-3
    case 4 => 202.7e-6
    case 5 => 1.96045e-3
    case 6 => 14.736e-3
    case 7 => 16.298e-3
    case 8 => 3.34343e-3
    case 9 => 3.411e-3
    case 10 => 0.0
    case _ => 0.0
  }

  /** SiderealOrbitalPeriod [s]: days times 86400. */
  function SiderealOrbitalPeriod(body: int): real
  {
    match body
    case 0 => 0.0
    case 1 => 87.969_100_000 * 86400.0
    case 2 => 224.701_000_000 * 86400.0
    case 3 => 365.256_363_004 * 86400.0
    case 4 => 27.321_661_000 * 86400.0
    case 5 => 686.980_000_000 * 86400.0
    case 6 => 4_332.590_000_000 * 86400.0
    case 7 => 10_755.700_000_000 * 86400.0
    case 8 => 30_688.500_000_000 * 86400.0
    case 9 => 60_195.000_000_000 * 86400.0
    case 10 => 90_560.000_000_000 * 86400.0
    case _ => 0.0
  }

  /** AngularVelocity [rad/s]: one revolution per sidereal period; zero for SUN and unknown bodies. */
  function AngularVelocity(body: int): (w: real)
    ensures 1 <= body <= 10 ==> w * SiderealOrbitalPeriod(body) == 2.0 * Utility.Pi
    ensures !(1 <= body <= 10) ==> w == 0.0
  {
    if 1 <= body <= 10 then 2.0 * Utility.Pi / SiderealOrbitalPeriod(body) else 0.0
  }

  /** GroundTrackAngularVelocity [rad/s]: the orbital rate plus one turn per day. */
  function GroundTrackAngularVelocity(body: int): (w: real)
    ensures 1 <= body <= 10 ==> w == AngularVelocity(body) + 2.0 * Utility.Pi / 86400.0
    ensures !(1 <= body <= 10) ==> w == 0.0
  {
    if 1 <= body <= 10 then 2.0 * Utility.Pi / SiderealOrbitalPeriod(body) + 2.0 * Utility.Pi / 86400.0 else 0.0
  }

  /** Mass [kg]. */
  function Mass(body: int): real
  {
    match body
    case 0 => 1.9885e30
    case 1 => 3.3011e23
    case 2 => 4.8675e24
    case 3 => 5.972168e24
    case 4 => 7.342e22
    case 5 => 6.4171e23
    case 6 => 1.8982e27
    case 7 => 5.6834e26
    case 8 => 8.6810e25
    case 9 => 1.02409e26
    case 10 => 1.303e22
    case _ => 0.0
  }

  /** Gravity [m/s^2], or [km/s^2] when `km` is set. */
  function Gravity(body: int, km: bool := false): real
  {
    var conversion := if km then 1e-3 else 1.0;
    match body
    case 0 => 274.0 * conversion
    case 1 => 3.700 * conversion
    case 2 => 8.870 * conversion
    case 3 => 9.806_650 * conversion
    case 4 => 1.622 * conversion
    case 5 => 3.720_760 * conversion
    case 6 => 24.790 * conversion
    case 7 => 10.440 * conversion
    case 8 => 8.690 * conversion
    case 9 => 11.150 * conversion
    case 10 => 0.620 * conversion
    case _ => 0.0 * conversion
  }

  const AU: real := 149_597_870.707

  /** SemiMajorAxis [km]. */
  function SemiMajorAxis(body: int): real
  {
    match body
    case 0 => 0.0
    case 1 => 0.387_098 * AU
    case 2 => 0.723_332 * AU
    case 3 => 149_598_023.0
    case 4 => 0.002_570 * AU
    case 5 => 1.523_680_550 * AU
    case 6 => 5.203_800 * AU
    case 7 => 9.582_600 * AU
    case 8 => 19.191_260 * AU
    case 9 => 30.070 * AU
    case 10 => 39.482 * AU
    case _ => 0.0
  }

  function Eccentricity(body: int): real
  {
    match body
    case 0 => 0.0
    case 1 => 0.205_630
    case 2 => 0.006_772
    case 3 => 0.016_708_600
    case 4 => 0.054_900
    case 5 => 0.093_400
    case 6 => 0.048_900
    case 7 => 0.056_500
    case 8 => 0.047_170
    case 9 => 0.008_678
    case 10 => 0.2488
    case _ => 0.0
  }

  /** Inclination [rad]. */
  function Inclination(body: int): real
  {
    match body
    case 0 => 0.0
    case 1 => Utility.DegToRad(7.005)
    case 2 => Utility.DegToRad(3.394_58)
    case 3 => Utility.DegToRad(0.00)
    case 4 => Utility.DegToRad(5.145)
    case 5 => Utility.DegToRad(1.850)
    case 6 => Utility.DegToRad(1.303)
    case 7 => Utility.DegToRad(2.485)
    case 8 => Utility.DegToRad(0.773)
    case 9 => Utility.DegToRad(1.770)
    case 10 => Utility.DegToRad(17.16)
    case _ => 0.0
  }

  /** RightAscensionAscendingNode [rad]. */
  function RightAscensionAscendingNode(body: int): real
  {
    match body
    case 0 => 0.0
    case 1 => Utility.DegToRad(48.331)
    case 2 => Utility.DegToRad(76.680)
    case 3 => Utility.DegToRad(-11.260_640)
    case 4 => Utility.DegToRad(0.0)
    case 5 => Utility.DegToRad(49.578_540)
    case 6 => Utility.DegToRad(100.464)
    case 7 => Utility.DegToRad(113.665)
    case 8 => Utility.DegToRad(74.006)
    case 9 => Utility.DegToRad(131.783)
    case 10 => Utility.DegToRad(110.299)
    case _ => 0.0
  }

  /** ArgumentPerihelion [rad]. */
  function ArgumentPerihelion(body: int): real
  {
    match body
    case 0 => 0.0
    case 1 => Utility.DegToRad(29.124)
    case 2 => Utility.DegToRad(54.884)
    case 3 => Utility.DegToRad(114.207_830)
    case 4 => Utility.DegToRad(0.0)
    case 5 => Utility.DegToRad(286.500)
    case 6 => Utility.DegToRad(273.867)
    case 7 => Utility.DegToRad(339.392)
    case 8 => Utility.DegToRad(96.998_857)
    case 9 => Utility.DegToRad(273.187)
    case 10 => Utility.DegToRad(113.834)
    case _ => 0.0
  }

  /** GravitationalParameter [km^3/s^2]. */
  function GravitationalParameter(body: int): real
  {
    match body
    case 0 => 132_712_440_018.9
    case 1 => 22032.9
    case 2 => 324_859.9
    case 3 => 398_600.441_88
    case 4 => 4_904.869_59
    case 5 => 42_828.372
    case 6 => 126_686_534.9
    case 7 => 37_931_187.9
    case 8 => 5_793_939.9
    case 9 => 6_836_529.9
    case 10 => 871.9
    case _ => 0.0
  }

  /** Texture: the image file of the body; PLUTO has none of its own and shares Earth's. */
  function Texture(body: int): string
  {
    match body
    case 0 => "./tools/texture/Sun.png"
    case 1 => "./tools/texture/Mercury.jpg"
    case 2 => "./tools/texture/Venus.jpg"
    case 3 => "./tools/texture/Earth.jpg"
    case 4 => "./tools/texture/Moon.jpg"
    case 5 => "./tools/texture/Mars.jpg"
    case 6 => "./tools/texture/Jupiter.jpg"
    case 7 => "./tools/texture/Saturn.jpg"
    case 8 => "./tools/texture/Uranus.jpg"
    case 9 => "./tools/texture/Neptune.jpg"
    case 10 => "./tools/texture/Earth.jpg"
    case _ => "./tools/texture/Earth.jpg"
  }

  /** Every numeric table answers 0 for an integer that names no body. */
  lemma {:induction false} TablesDefaultToZero(body: int)
    requires !(0 <= body <= 10)
    ensures EquatorialRadius(body) == 0.0 && Flattening(body) == 0.0 && SecondZonalHarmonics(body) == 0.0
    ensures SiderealOrbitalPeriod(body) == 0.0 && AngularVelocity(body) == 0.0 && Mass(body) == 0.0
    ensures Gravity(body) == 0.0 && Gravity(body, true) == 0.0 && SemiMajorAxis(body) == 0.0
    ensures Eccentricity(body) == 0.0 && Inclination(body) == 0.0 && RightAscensionAscendingNode(body) == 0.0
    ensures ArgumentPerihelion(body) == 0.0 && GravitationalParameter(body) == 0.0
  {}

  /** Each real body has a positive radius, mass, surface gravity and gravitational parameter. */
  lemma {:induction false} PhysicalConstantsPositive(b: CelestialBody)
    ensures EquatorialRadius(b.Value()) > 0.0 && Mass(b.Value()) > 0.0
    ensures Gravity(b.Value()) > 0.0 && GravitationalParameter(b.Value()) > 0.0
  {}

  /** The km variant of Gravity is the m/s^2 value scaled by 1e-3, for every argument. */
  lemma {:induction false} GravityKilometres(body: int)
    ensures Gravity(body, true) == Gravity(body) * 1e-3
  {}

  /** PLUTO and every unknown body fall back to the Earth texture. */
  lemma {:induction false} TextureFallback(body: int)
    ensures body == CelestialBody.PLUTO.Value() || !(0 <= body <= 10) ==> Texture(body) == Texture(CelestialBody.EARTH.Value())
  {}

  /** Only the Sun's texture is a PNG; every other body's is a JPEG. */
  lemma {:induction false} TextureExtension(body: int)
    ensures Texture(body)[|Texture(body)| - 4..] == (if body == CelestialBody.SUN.Value() then ".png" else ".jpg")
  {
    match body
    case 0 => EndsWith("./tools/texture/Sun", ".png");
    case 1 => EndsWith("./tools/texture/Mercury", ".jpg");
    case 2 => EndsWith("./tools/texture/Venus", ".jpg");
    case 3 => EndsWith("./tools/texture/Earth", ".jpg");
    case 4 => EndsWith("./tools/texture/Moon", ".jpg");
    case 5 => EndsWith("./tools/texture/Mars", ".jpg");
    case 6 => EndsWith("./tools/texture/Jupiter", ".jpg");
    case 7 => EndsWith("./tools/texture/Saturn", ".jpg");
    case 8 => EndsWith("./tools/texture/Uranus", ".jpg");
    case 9 => EndsWith("./tools/texture/Neptune", ".jpg");
    case _ => EndsWith("./tools/texture/Earth", ".jpg");
  }

  /** A stem followed by a four-character extension ends in that extension. */
  lemma EndsWith(stem: string, ext: string)
    requires |ext| == 4
    ensures (stem + ext)[|stem + ext| - 4..] == ext
  {
    assert (stem + ext)[|stem|..] == ext;
  }
}
