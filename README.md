# Spacecraft Simulator — orbit transfer bookkeeping, in Dafny

This project models the deterministic core of Spacecraft Simulator, a PySide6/QML desktop
application for planning space missions. The model covers:

- **Maneuver lists.** The orbit transfer mission keeps a list of planned maneuvers. Three QML
  views keep a component array in step with that list: the left panel of the orbit transfer
  page, the orbit transfer section of the mission dialog, and the maneuvers dialog. A fourth
  view, the summary column of the orbit transfer page, shows one info card per maneuver.
  Clear, load, add, remove and save are classes over `seq`. Component creation is an oracle
  that may return a component, `null` or an error. Destroying or reading a `null` row throws
  a TypeError, which ends the running JavaScript function.
- **Orbit records.** An orbit record holds a Cartesian group, a Keplerian group and a
  modified-Keplerian group (the radii plus the shared angles), and a `state` selector. Two
  records exist: the newer `src/utility/orbit.py` and the older singleton `src/Orbit.py`.
  Each becomes a class with the same fields, its property setters, its `update_*` methods
  and the change signals they emit (as a log).
- **Orbit editors.** The editors write only the group of the selected representation and
  restore every field. Angles pass through degrees→radians on write and through a truncating
  `format` on read. The model proves the save→restore and restore→save round trips in its exact-decimal
  arithmetic (see the floating-point line under "Left out").
- **Both orbit transfer missions.** Their `update_*_orbit` dispatch re-derives the groups
  the user did not edit. The orbit conversions are uninterpreted functions, except that
  `pf_2_gef` raises ZeroDivisionError when its semi-latus rectum is zero. In the newer
  mission the KEPLERIAN and MODIFIED_KEPLERIAN branches raise (a missing argument, an
  undefined attribute, or that division), and the model carries those errors.
- **Smaller cores:**
  - the spacecraft mass bookkeeping;
  - launcher stages and how the orbit insertion mission chains their payloads;
  - the `format` truncation and the `singleton` cache;
  - the celestial-body and planet index conversions and the constant tables' fallbacks;
  - the date and angle helpers;
  - the Julian-day validation and the day-fraction split.

### How the views are wired

The UI files are modelled with the wiring their code implies:

- **The left panel, the maneuvers dialog and the summary column** talk to the newer mission
  (`src/missions/mission_orbit_transfer.py`).
- **The mission dialog's orbit transfer section** writes the one shared `__Orbit` record
  (`src/Orbit.py`), but its slot calls reach the newer mission. So:
  - its departure and arrival editors overwrite each other;
  - the selected body never reaches the mission.
- **The single-orbit dialog** (`ui/dialogs/DialogOrbit.js`) calls `saveDepartureOrbit`,
  `updateDepartureOrbit`, `saveArrivalOrbit` or `updateArrivalOrbit`. Neither mission class
  defines any of those four slots. So the call throws, and a save never closes the dialog.
  `DialogOrbit.SlotsMissingFromBothMissions` and `DialogOrbit.SaveNeverCloses` state this.

Floats are exact reals and π is the constant `3.141592653589793`.

## Model

| member | source | states |
|---|---|---|
| Wrappers.ListIndex | src/missions/mission_orbit_transfer.py:301-312 | Python list indexing: succeeds exactly for -len ≤ i < len, returns element i for a non-negative index, and raises IndexError otherwise |
| Wrappers.ListIndexFromEnd | src/missions/mission_orbit_transfer.py:301-312 | a negative index -len+k reaches the same element as k |
| Utility.DegRadRoundTrip | src/utility/orbit.py:144-182 | the degree→radian conversion of the angle setters and the radian→degree conversion of the getters are mutually inverse |
| Utility.Pow10 | src/Utility.py:11-25 | the power of ten behind a format string's number of decimals is at least 1 |
| Utility.Scale | src/Utility.py:11-25 | the decimal scale of a format string is at least 1 |
| Utility.Quantum | src/Utility.py:11-25 | the quantum of the format string lies in (0, 1] and is the inverse of the scale |
| Utility.TruncToInt | src/Utility.py:11-25 | ROUND_DOWN to an integer: moves toward zero by less than one |
| Utility.Format | src/Utility.py:11-25 | format(x) lies on the decimal grid, between 0 and x (truncation toward zero), within one quantum of x, after the radian→degree conversion when deg is set |
| Utility.FormatUnique | src/Utility.py:11-25 | any grid value between 0 and x and within a quantum of x is format(x): truncation is characterised by those properties |
| Utility.FormatIdempotent | src/Utility.py:11-25 | formatting an already formatted value changes nothing |
| Utility.FormatDegreesOfStoredAngle | src/utility/orbit.py:144-182 | an angle getter shows the degree value that its setter received, truncated |
| Utility.Singleton.constructor | src/Utility.py:27-44 | the cache of a decorated class starts empty |
| Utility.Singleton.Call | src/Utility.py:27-44 | the first call constructs with its arguments and caches the instance; every later call returns the cached instance and changes nothing |
| Utility.LaterCallsIgnoreArguments | src/Utility.py:36-44 | three calls with different arguments give one instance, built from the first arguments |
| Utility.EachClassOwnInstance | src/Utility.py:34-40 | two decorated classes each keep their own instance |
| AstronomicalData.CelestialBody.Value | tools/AstronomicalData.py:9-21 | the enum values of the eleven bodies lie in 0..10 |
| AstronomicalData.Planet.Value | tools/AstronomicalData.py:23-33 | the enum values of the nine planets lie in 0..8 |
| AstronomicalData.BodyValuesDistinct | tools/AstronomicalData.py:9-21 | two bodies have the same enum value iff they are the same body |
| AstronomicalData.PlanetValuesDistinct | tools/AstronomicalData.py:23-33 | two planets have the same enum value iff they are the same planet |
| AstronomicalData.CelestialBodyFromPlanet | tools/AstronomicalData.py:35-56 | never SUN or MOON; EARTH for anything that is not a planet |
| AstronomicalData.CelestialBodyFromIndex | tools/AstronomicalData.py:59-82 | 0..10 maps to the body with that value; any other index maps to EARTH |
| AstronomicalData.IndexFromCelestialBody | tools/AstronomicalData.py:84-107 | a body's index is its enum value; anything else gives EARTH's index 3 |
| AstronomicalData.PlanetFromIndex | tools/AstronomicalData.py:109-130 | 0..8 maps to the planet with that value; any other index maps to EARTH |
| AstronomicalData.IndexFromPlanet | tools/AstronomicalData.py:132-153 | a planet's index is its enum value; anything else gives EARTH's index 2 |
| AstronomicalData.BodyIndexRoundTrip | tools/AstronomicalData.py:59-107 | indexFromCelestialBody(celestialBodyFromIndex(i)) is i for 0 ≤ i ≤ 10 and 3 otherwise |
| AstronomicalData.IndexBodyRoundTrip | tools/AstronomicalData.py:59-107 | celestialBodyFromIndex(indexFromCelestialBody(b)) is b for every body |
| AstronomicalData.PlanetIndexRoundTrip | tools/AstronomicalData.py:109-153 | indexFromPlanet(planetFromIndex(i)) is i for 0 ≤ i ≤ 8 and 2 otherwise |
| AstronomicalData.PlanetBodyAlignment | tools/AstronomicalData.py:35-56 | celestialBodyFromPlanet adds one to the value up to EARTH and two from MARS on (SUN and MOON are skipped) |
| AstronomicalData.AngularVelocity | tools/AstronomicalData.py:275-299 | for a body other than the SUN, ω · sidereal period = 2π; otherwise 0 |
| AstronomicalData.GroundTrackAngularVelocity | tools/AstronomicalData.py:301-325 | the ground-track rate is the body's rate plus one turn per day; 0 for an unmatched body |
| AstronomicalData.TablesDefaultToZero | tools/AstronomicalData.py:171-561 | every numeric lookup table returns 0 for an index that matches no body |
| AstronomicalData.PhysicalConstantsPositive | tools/AstronomicalData.py:171-561 | radius, mass, gravity and gravitational parameter are positive for every body |
| AstronomicalData.GravityKilometres | tools/AstronomicalData.py:353-379 | Gravity with km=True is 1e-3 times the m/s² value, for every index |
| AstronomicalData.TextureFallback | tools/AstronomicalData.py:584-586 | PLUTO and unknown bodies get the Earth texture |
| AstronomicalData.TextureExtension | tools/AstronomicalData.py:575-586 | only the Sun's texture path ends in .png; every other body's, unknown ones included, ends in .jpg |
| Common.WrapTo360Deg | tools/Common.py:22-32 | the result lies in [0, 360) for x > 0 and in (−360, 0] for x ≤ 0, and differs from x by whole turns |
| Common.WrapTo2Pi | tools/Common.py:10-20 | the result lies in [0, 2π) for x > 0 and in (−2π, 0] for x ≤ 0, and differs from x by whole turns |
| Common.TwoPiIsTwicePi | tools/Common.py:10-20 | the modulus of wrap_to_2pi is 2π |
| Common.WrapTo360DegIdempotent | tools/Common.py:22-32 | wrapping a wrapped angle changes nothing |
| Common.NegativeAnglesStayNegative | tools/Common.py:22-32 | −90 stays −90 (the range is sign-dependent), while 450 becomes 90 |
| Common.DaysBetween | tools/Common.py:46 | (end − start).days is the floor of the elapsed time in days |
| Common.AddDays | tools/Common.py:48 | start + timedelta(k) lies exactly k days after start |
| Common.CeilDiv | tools/Common.py:62 | math.ceil(n / d) is the integer c with (c−1)·d < n ≤ c·d, for either sign of d |
| Common.Daterange | tools/Common.py:34-48 | range() with step 0 raises; otherwise a list of dates |
| Common.DaterangeLength | tools/Common.py:50-62 | step 0 raises (division by zero); otherwise ⌈(D+1)/step⌉ |
| Common.RangeFromLength | tools/Common.py:46 | range(0, n, step) has max(0, ⌈n/step⌉) elements |
| Common.RangeFromAt | tools/Common.py:46 | element k of range(cur, stop, step) is cur + k·step and lies before stop |
| Common.DaterangeDates | tools/Common.py:34-48 | the k-th date is start + k·step days, k·step ≤ D, and consecutive dates are step days apart |
| Common.DaterangeLengthCounts | tools/Common.py:46-62 | for D ≥ −1 and step ≥ 1, daterange_length equals the number of dates daterange yields |
| Common.DaterangeLengthNegative | tools/Common.py:46-62 | as written: once end lies a full step before start − 1 day, daterange is empty but daterange_length is negative |
| Common.DaterangeLengthCounterexample | tools/Common.py:46-62 | as written: two days back with step 1 gives no dates and a length of −1 |
| Common.DaterangeCount | tools/Common.py:50-62 | the intended length: raises for step 0, otherwise never negative and always the number of dates |
| Stdafx.CustomException.Str | tools/stdafx.py:32-36 | str(CustomException(m)) is ">>> " followed by m |
| Stdafx.StrInjective | tools/stdafx.py:32-36 | different messages give different strings |
| Stdafx.DaterangeLengthMatchesCount | tools/stdafx.py:74-102 | daterangeLength equals the count of daterange whenever end ≥ start − 1 day |
| Stdafx.DaterangeFromStartToEnd | tools/stdafx.py:74-88 | daterange yields start first, then dates step days apart, none after end |
| OrbitDetermination.InputError | tools/OrbitDetermination.py:271-281 | no error iff 1901 ≤ year ≤ 2099, 1 ≤ month ≤ 12, 1 ≤ day ≤ 31 and the time is in range; the first failing check names the message |
| OrbitDetermination.JulianDay | tools/OrbitDetermination.py:254-293 | raises with the validation message exactly when an input check fails; otherwise lies within the day starting at J0 |
| OrbitDetermination.JulianDayOfJ2000 | tools/OrbitDetermination.py:285-293 | 1 January 2000, 12:00 is Julian day 2451545 |
| OrbitDetermination.ThirtyFirstOfFebruaryAccepted | tools/OrbitDetermination.py:275 | the day check ignores the month: 31 February passes and equals 3 March |
| OrbitDetermination.JulianDayIncreasing | tools/OrbitDetermination.py:285-293 | for a fixed date the Julian day strictly increases with the time of day |
| OrbitDetermination.JulianDayNextDay | tools/OrbitDetermination.py:285-293 | the next day number gives exactly one more Julian day |
| OrbitDetermination.Fix | tools/OrbitDetermination.py:296-314 | np.fix is a whole number that truncates toward zero |
| OrbitDetermination.FracDay2Hms | tools/OrbitDetermination.py:296-314 | hours + minutes/60 + seconds/3600 = 24·fracDay; for a fraction in [0, 1): 0 ≤ h ≤ 23, 0 ≤ m ≤ 59, 0 ≤ s < 60 |
| OrbitDetermination.LocalSiderealTime | tools/OrbitDetermination.py:365-426 | the same six input checks and messages; otherwise the Greenwich angle advanced by the time of day and shifted by the longitude, wrapped by wrap_to360deg: it differs from that angle by whole turns, lies in (−360, 360), and in [0, 360) when the unwrapped angle is positive |
| OrbitRecord.Assign | src/utility/orbit.py:56-202 | a property setter stores only its own field, converting angles from degrees to radians |
| OrbitRecord.SetThenGet | src/utility/orbit.py:144-182 | set-then-get returns the value set, truncated by format |
| OrbitRecord.WithCartesian | src/utility/orbit.py:275-288 | update_cartesian_parameters stores the six components and leaves the elements and radii alone |
| OrbitRecord.WithKeplerian | src/utility/orbit.py:290-303 | update_keplerian_parameters stores h, a, e and the four angles and leaves the Cartesian group and the radii alone |
| OrbitRecord.FromRadii | src/utility/orbit.py:305-310 | a = (rp+ra)/2; when rp+ra ≠ 0, e is chosen so that rp = a(1−e) and ra = a(1+e); nothing else changes |
| OrbitRecord.RadiiFromElements | src/utility/orbit.py:305-310 | the a and e computed from the radii give the radii back |
| OrbitRecord.WithModifiedKeplerian | src/utility/orbit.py:312-328 | stores the Keplerian group and the two radii and leaves the Cartesian group alone |
| OrbitRecord.Orbit.constructor | src/utility/orbit.py:206-228 | body 0, state CARTESIAN, every numeric field 0 and no signal |
| OrbitRecord.Orbit.SetBody | src/utility/orbit.py:38-42 | the body setter stores the value and emits body_changed |
| OrbitRecord.Orbit.SetState | src/utility/orbit.py:48-52 | the state setter stores the value and emits state_changed |
| OrbitRecord.Orbit.Set | src/utility/orbit.py:56-202 | a field setter stores as Assign and emits that field's signal |
| OrbitRecord.Orbit.UpdateCentralBody | src/utility/orbit.py:257-264 | stores the body and emits body_changed |
| OrbitRecord.Orbit.UpdateState | src/utility/orbit.py:266-273 | stores the state and emits state_changed |
| OrbitRecord.Orbit.UpdateCartesianParameters | src/utility/orbit.py:275-288 | the record becomes WithCartesian, so get_cartesian_parameters returns exactly (r, v), with six change signals |
| OrbitRecord.Orbit.UpdateKeplerianParameters | src/utility/orbit.py:290-303 | the record becomes WithKeplerian, so get_keplerian_parameters returns the elements; h emits no signal |
| OrbitRecord.Orbit.UpdateKeplerianParametersFromRadii | src/utility/orbit.py:305-310 | the record becomes FromRadii; raises ZeroDivisionError exactly when rp+ra = 0, after a is already stored |
| OrbitRecord.Orbit.UpdateModifiedKeplerianParameters | src/utility/orbit.py:312-328 | the record becomes WithModifiedKeplerian, with the signals in the order the source emits them |
| LegacyOrbit.Assign | src/Orbit.py:37-173 | a property setter stores only its own field, converting angles from degrees to radians |
| LegacyOrbit.SetThenGet | src/Orbit.py:117-153 | set-then-get returns the value set, truncated by format |
| LegacyOrbit.KeplerianOf | src/Orbit.py:207-214 | getKeplerianParameters always reports h = 0 |
| OrbitTypes.PerifocalZeroCases | tools/ThreeDimensionalOrbit.py:260-268 | with h = 0, pf_2_gef divides by zero exactly when a = 0 or e = ±1 |
| LegacyOrbit.WithKeplerian | src/Orbit.py:260-279 | stores e, a and the four radians unconverted; the Cartesian group and the radii are unchanged |
| LegacyOrbit.FromRadii | src/Orbit.py:281-289 | a = (rp+ra)/2 and e = (ra−rp)/(ra+rp), which give the radii back |
| LegacyOrbit.RadiiFromElements | src/Orbit.py:281-289 | the a and e computed from the radii give the radii back |
| LegacyOrbit.WithModifiedKeplerian | src/Orbit.py:291-315 | stores the Keplerian group and additionally r_p and r_a |
| LegacyOrbit.Orbit.constructor | src/Orbit.py:177-205 | the initial record, with no signal |
| LegacyOrbit.Orbit.SetBody | src/Orbit.py:19-23 | the body setter stores the value and emits nothing |
| LegacyOrbit.Orbit.SetState | src/Orbit.py:29-33 | the state setter stores the value and emits nothing |
| LegacyOrbit.Orbit.Set | src/Orbit.py:37-173 | a field setter stores as Assign and emits nothing |
| LegacyOrbit.Orbit.UpdateCentralBody | src/Orbit.py:216-225 | stores the body and emits body_changed |
| LegacyOrbit.Orbit.UpdateState | src/Orbit.py:227-236 | stores the state and emits state_changed |
| LegacyOrbit.Orbit.UpdateCartesianParameters | src/Orbit.py:238-258 | stores the six components and emits six change signals |
| LegacyOrbit.Orbit.UpdateKeplerianParameters | src/Orbit.py:260-279 | the record becomes WithKeplerian, with six signals |
| LegacyOrbit.Orbit.UpdateKeplerianParametersFromRadii | src/Orbit.py:281-289 | the record becomes FromRadii; raises ZeroDivisionError exactly when rp+ra = 0, emitting nothing then |
| LegacyOrbit.Orbit.UpdateModifiedKeplerianParameters | src/Orbit.py:291-315 | the record becomes WithModifiedKeplerian, with eight signals |
| LegacyOrbit.OrbitSingleton.constructor | src/Orbit.py:8 | no instance yet |
| LegacyOrbit.OrbitSingleton.Construct | src/Orbit.py:8 | the first construction creates the initial record; later ones return that same instance |
| LegacyOrbit.ConstructionsShareOneRecord | src/Orbit.py:8 | three constructions give one and the same record |
| ManeuverRecord.ManeuverType.Value | src/utility/maneuver.py:15-21 | the four type values lie in 0..3 |
| ManeuverRecord.ManeuverTypeValues | src/utility/maneuver.py:15-21 | HOHMANN = 0, BI_ELLIPTIC_HOHMANN = 1, PLANE_CHANGE = 2, APSE_LINE_ROTATION = 3, all distinct |
| ManeuverRecord.ShownDeltaVelocity | src/utility/maneuver.py:56-60 | the delta-velocity getter truncates toward zero to 6 decimals |
| ManeuverRecord.ShownDeltaTime | src/utility/maneuver.py:64-68 | the delta-time getter truncates toward zero to 4 decimals |
| ManeuverRecord.ShownDeltaMass | src/utility/maneuver.py:72-76 | the delta-mass getter truncates toward zero to 3 decimals |
| ManeuverRecord.ShownCostsStable | src/utility/maneuver.py:56-76 | showing a shown cost again changes nothing |
| ManeuverRecord.Maneuver.constructor | src/utility/maneuver.py:80-107 | stores type, option and option value; the costs default to 0 |
| ManeuverRecord.Maneuver.SetKind | src/utility/maneuver.py:35-36 | changes only the type |
| ManeuverRecord.Maneuver.SetOption | src/utility/maneuver.py:43-44 | changes only the option |
| ManeuverRecord.Maneuver.SetOptionValue | src/utility/maneuver.py:51-52 | changes only the option value |
| ManeuverRecord.Maneuver.SetDeltaVelocity | src/utility/maneuver.py:59-60 | changes only the delta velocity |
| ManeuverRecord.Maneuver.SetDeltaTime | src/utility/maneuver.py:67-68 | changes only the delta time |
| ManeuverRecord.Maneuver.SetDeltaMass | src/utility/maneuver.py:75-76 | changes only the delta mass |
| ManeuverRecord.NewManeuverCostsNothing | src/utility/maneuver.py:32-107 | a new maneuver reads back its type, option and value unformatted, and costs of 0 |
| LegacyManeuver.Maneuver.constructor | src/Maneuver.py:30-44 | stores exactly the three given values |
| LegacyManeuver.Maneuver.SetType | src/Maneuver.py:56-60 | changes only the type |
| LegacyManeuver.Maneuver.SetOption | src/Maneuver.py:62-66 | changes only the option |
| LegacyManeuver.Maneuver.SetOptionValue | src/Maneuver.py:68-72 | changes only the option value |
| LegacyManeuver.PropertiesRoundTrip | src/Maneuver.py:48-72 | values set through the properties come back from getType, getOption and getOptionValue |
| Spacecraft.MassAfter | src/systems/spacecraft.py:119-128 | update_mass subtracts c iff mass ≥ c, otherwise keeps the mass; never negative and never more for c ≥ 0 |
| Spacecraft.ConsumptionKeepsMassInRange | src/systems/spacecraft.py:126-128 | after any run of non-negative consumptions the mass stays in [0, initial] and drops by at most their total |
| Spacecraft.Spacecraft.constructor | src/systems/spacecraft.py:92-111 | mass = initial mass = 2000 and the other parameters as set |
| Spacecraft.Spacecraft.Reset | src/systems/spacecraft.py:113-117 | the mass becomes the initial mass; nothing else changes |
| Spacecraft.Spacecraft.UpdateMass | src/systems/spacecraft.py:119-128 | only the mass changes, as MassAfter |
| Spacecraft.SpacecraftSingleton.constructor | src/systems/spacecraft.py:12 | no instance yet |
| Spacecraft.SpacecraftSingleton.Construct | src/systems/spacecraft.py:12 | the first construction creates the spacecraft; later ones return it |
| Spacecraft.BurnThenReset | src/systems/spacecraft.py:103-128 | from a new spacecraft, a burn leaves 2000 − c (or 2000 if c is too large) and a reset gives 2000 back |
| LegacySpacecraft.Spacecraft.constructor | src/Spacecraft.py:132-156 | mass = initial mass = 2000 and the capsule and parachute parameters as set |
| LegacySpacecraft.Spacecraft.Reset | src/Spacecraft.py:158-162 | the mass becomes the initial mass |
| LegacySpacecraft.Spacecraft.UpdateMass | src/Spacecraft.py:164-173 | subtracts c only when mass ≥ c (the same rule as the newer spacecraft) |
| LegacySpacecraft.SpacecraftSingleton.constructor | src/Spacecraft.py:12 | no instance yet |
| LegacySpacecraft.SpacecraftSingleton.Construct | src/Spacecraft.py:12 | the first construction creates the spacecraft; later ones return it |
| LaunchMechanics.G0 | tools/launch_mechanics.py:112-119 | calc's standard gravity is EARTH's 9.80665 m/s² |
| LaunchMechanics.Calculated | tools/launch_mechanics.py:112-119 | m_g = m_s + m_p, m_0 = m_g + m_payload, m_p_dot·I_sp_vac·g0 = F_vac and t_burn·m_p_dot = m_p; a zero divisor stops at the failing line |
| LaunchMechanics.BurnTime | tools/launch_mechanics.py:118-119 | t_burn = m_p·I_sp_vac·g0 / F_vac |
| LaunchMechanics.Stage.constructor | tools/launch_mechanics.py:24-47 | every parameter starts at 0 |
| LaunchMechanics.Stage.Mass | tools/launch_mechanics.py:50-61 | sets only m_s, m_p and m_payload |
| LaunchMechanics.Stage.Motor | tools/launch_mechanics.py:63-74 | sets only F_vac, I_sp_vac and csi |
| LaunchMechanics.Stage.Nozzle | tools/launch_mechanics.py:76-96 | stores gamma, epsilon and p_c; gamma = 0 gives Gamma = 0; it raises exactly at gamma = 1 (ZeroDivisionError) or when the float formula raises (OverflowError for gamma just above 1), after the three are stored and with Gamma unchanged; otherwise Gamma is the formula's value |
| LaunchMechanics.Stage.Aerodynamics | tools/launch_mechanics.py:98-110 | S = π·D²/4; stores C_D and C_L |
| LaunchMechanics.Stage.Calc | tools/launch_mechanics.py:112-122 | the stage becomes Calculated; ZeroDivisionError exactly when a divisor is zero |
| LaunchMechanics.Stage.Thrust | tools/launch_mechanics.py:124-140 | with p_c = 0 (or Gamma = 0) the thrust is exactly F_vac |
| LaunchMechanics.FrozenNozzleFullThrust | tools/launch_mechanics.py:76-140 | after nozzle with gamma = 0 (Gamma = 0) the thrust at every altitude is F_vac, whatever p_c |
| MissionOrbitInsertion.Connect | src/missions/mission_orbit_insertion.py:207-244 | stage 3 carries the payload; stage 2 carries stage 3's m_0 if used, else the payload; stage 1 carries stage 2's, else stage 3's, else the payload; recalculated 3→2→1, stopping at the first division error |
| MissionOrbitInsertion.LiftOffMass | src/missions/mission_orbit_insertion.py:213-243 | with every stage used, stage 1's m_0 is the sum of the three gross masses plus the payload |
| MissionOrbitInsertion.SkippedSecondStage | src/missions/mission_orbit_insertion.py:231-243 | without stage 2, stage 1 carries stage 3's m_0 or the payload |
| MissionOrbitInsertion.CalculateStaging | src/missions/mission_orbit_insertion.py:403-418 | a staging routine is called only for the flags (1,2,3), (1,2,¬3) or (1,¬2,¬3), and which one is fixed by them |
| MissionOrbitInsertion.MissionOrbitInsertion.ConnectStages | src/missions/mission_orbit_insertion.py:207-244 | the three stages become Connect of their previous values |
| MissionOrbitInsertion.MissionOrbitInsertion.constructor | src/missions/mission_orbit_insertion.py:123-189 | all stages used, payload 1558, and the construction ends connected: m_0 of 13558, 54035 and 209062 |
| MissionOrbitInsertion.NewStage | src/missions/mission_orbit_insertion.py:123-189 | a stage set up by mass and motor keeps those values |
| MissionOrbitInsertion.WholePayloadShown | src/missions/mission_orbit_insertion.py:116-119 | the payload getter shows 1558 unchanged |
| MissionOrbitTransfer.UpdateOutcome | src/missions/mission_orbit_transfer.py:170-201 | update_*_orbit raises in the KEPLERIAN state (ZeroDivisionError when pf_2_gef divides by zero on the stored elements, which it evaluates first, TypeError otherwise) and AttributeError in the MODIFIED_KEPLERIAN state, and returns in every other state |
| MissionOrbitTransfer.Rederived | src/missions/mission_orbit_transfer.py:170-201 | in the CARTESIAN state the Cartesian group is kept and the elements and radii are converted from it; any other state leaves the record unchanged |
| MissionOrbitTransfer.SameGroupsSameOrbit | src/utility/orbit.py:206-228 | two records that agree on body, state and the three groups are equal |
| MissionOrbitTransfer.RederiveIdempotent | src/missions/mission_orbit_transfer.py:170-201 | re-deriving twice is re-deriving once |
| MissionOrbitTransfer.PreparedIsStable | src/missions/mission_orbit_transfer.py:80-106 | the orbits as constructed are already consistent: update leaves them unchanged |
| MissionOrbitTransfer.RecordsOf | src/missions/mission_orbit_transfer.py:294-312 | the values of the maneuver objects, in list order |
| MissionOrbitTransfer.MissionOrbitTransfer.constructor | src/missions/mission_orbit_transfer.py:80-106 | both orbits on EARTH in the CARTESIAN state with their elements derived, central body EARTH, no maneuvers |
| MissionOrbitTransfer.MissionOrbitTransfer.UpdateCelestialBody | src/missions/mission_orbit_transfer.py:157-168 | the central body becomes the departure orbit's body; nothing else changes |
| MissionOrbitTransfer.MissionOrbitTransfer.UpdateDepartureOrbit | src/missions/mission_orbit_transfer.py:170-201 | the departure orbit becomes Rederived, with UpdateOutcome as result |
| MissionOrbitTransfer.MissionOrbitTransfer.UpdateArrivalOrbit | src/missions/mission_orbit_transfer.py:203-234 | the same dispatch on the arrival orbit |
| MissionOrbitTransfer.MissionOrbitTransfer.ManeuverCount | src/missions/mission_orbit_transfer.py:294-299 | the length of the maneuver list |
| MissionOrbitTransfer.MissionOrbitTransfer.Maneuver | src/missions/mission_orbit_transfer.py:301-312 | element i of the list; an out-of-range index raises IndexError |
| MissionOrbitTransfer.MissionOrbitTransfer.ClearManeuvers | src/missions/mission_orbit_transfer.py:314-319 | the list becomes empty; nothing else changes |
| MissionOrbitTransfer.MissionOrbitTransfer.AddManeuver | src/missions/mission_orbit_transfer.py:321-331 | one new record with the given type, option and value is appended; earlier records are unchanged |
| MissionOrbitTransfer.PreparedOrbit | src/missions/mission_orbit_transfer.py:80-106 | a new orbit set to r and v in the CARTESIAN state with the converted elements |
| MissionOrbitTransfer.UpdateOrbit | src/missions/mission_orbit_transfer.py:170-234 | the shared body of both update slots: the orbit becomes Rederived, with UpdateOutcome |
| LegacyMissionOrbitTransfer.Filled | src/MissionOrbitTransfer.py:136-156 | fill_*_orbit writes the body index, the state and all three groups into the shared record |
| LegacyMissionOrbitTransfer.Updated | src/MissionOrbitTransfer.py:158-210 | body and state are copied first; CARTESIAN reads the six Cartesian fields and pushes back the other groups; KEPLERIAN pushes back the Cartesian and modified groups but not the Keplerian one; MODIFIED_KEPLERIAN recomputes a and e from the radii and pushes back only the Cartesian group; ZeroDivisionError exactly when UpdateRaises holds (see UpdateRaisesCases), with the state reached before the raise |
| LegacyMissionOrbitTransfer.UpdateRaisesCases | src/MissionOrbitTransfer.py:189-204 | update_*_orbit raises exactly for a KEPLERIAN record with a = 0 or e = ±1 (h is read as 0, so pf_2_gef's p = a(1−e²) is zero) and for a MODIFIED_KEPLERIAN record with rp + ra = 0, rp = 0 or ra = 0 |
| LegacyMissionOrbitTransfer.RadiiPerifocalZero | src/Orbit.py:281-289 | the a and e recomputed from radii with a non-zero sum give p = 0 exactly when one radius is zero |
| LegacyMissionOrbitTransfer.FillThenUpdate | src/MissionOrbitTransfer.py:136-210 | filling a consistent CARTESIAN orbit and updating from it changes neither the side nor the record |
| LegacyMissionOrbitTransfer.RecordsOf | src/MissionOrbitTransfer.py:324-342 | the values of the maneuver objects, in list order |
| LegacyMissionOrbitTransfer.MissionOrbitTransfer.constructor | src/MissionOrbitTransfer.py:45-115 | both sides on EARTH in the CARTESIAN state with consistent elements, central body EARTH, no maneuvers |
| LegacyMissionOrbitTransfer.MissionOrbitTransfer.FillDepartureOrbit | src/MissionOrbitTransfer.py:136-145 | the shared record becomes Filled with the departure side |
| LegacyMissionOrbitTransfer.MissionOrbitTransfer.FillArrivalOrbit | src/MissionOrbitTransfer.py:147-156 | the shared record becomes Filled with the arrival side |
| LegacyMissionOrbitTransfer.MissionOrbitTransfer.UpdateDepartureOrbit | src/MissionOrbitTransfer.py:158-210 | the departure side and the shared record become Updated; the central body follows the departure body |
| LegacyMissionOrbitTransfer.MissionOrbitTransfer.UpdateArrivalOrbit | src/MissionOrbitTransfer.py:212-264 | the same on the arrival side |
| LegacyMissionOrbitTransfer.MissionOrbitTransfer.ManeuverCount | src/MissionOrbitTransfer.py:324-329 | the length of the maneuver list |
| LegacyMissionOrbitTransfer.MissionOrbitTransfer.Maneuver | src/MissionOrbitTransfer.py:331-342 | element i; an out-of-range index raises IndexError |
| LegacyMissionOrbitTransfer.MissionOrbitTransfer.ClearManeuvers | src/MissionOrbitTransfer.py:344-349 | the list becomes empty |
| LegacyMissionOrbitTransfer.MissionOrbitTransfer.AddManeuver | src/MissionOrbitTransfer.py:351-361 | one record appended; earlier records unchanged |
| LegacyMissionOrbitTransfer.Fill | src/MissionOrbitTransfer.py:136-156 | the shared body of both fill slots |
| LegacyMissionOrbitTransfer.UpdateSide | src/MissionOrbitTransfer.py:158-264 | the shared body of both update slots |
| ManeuverRows.Reverse | ui/pages/js/PageOrbitTransferLeft.js:157-165 | element k of the reversal is element len−1−k |
| ManeuverRows.ClearOf | ui/pages/js/PageOrbitTransferLeft.js:157-165 | the reverse destroy-and-pop loop empties the array iff it holds no null; a null stops it with the null last |
| ManeuverRows.ClearDestroysFromTheEnd | ui/pages/js/PageOrbitTransferLeft.js:157-165 | what is kept plus what was destroyed, reversed, is the old array; without nulls every row is destroyed, the last first |
| ManeuverRows.Kept | ui/pages/js/PageOrbitTransferLeft.js:168-214 | a failed creation adds nothing and the loop continues: the kept rows are a sub-list |
| ManeuverRows.AllCreatedKeepsAll | ui/pages/js/PageOrbitTransferLeft.js:168-214 | with no creation failure every backend record gets a row |
| ManeuverRows.Numbered | ui/pages/js/PageOrbitTransferLeft.js:168-214 | rows appended to a list of length b get ids b+1, b+2, … |
| ManeuverRows.NumberedSnoc | ui/pages/js/PageOrbitTransferLeft.js:168-214 | appending one more row gives it the next id |
| ManeuverRows.ShownRecord | ui/pages/js/PageOrbitTransferLeft.js:168-214 | a row copies the record's type, option and option value |
| ManeuverRows.ShownOf | ui/pages/js/PageOrbitTransferLeft.js:168-214 | one shown value per backend record, in backend order |
| ManeuverRows.Added | ui/pages/js/PageOrbitTransferLeft.js:217-240 | addManeuver appends one row (even a null one) and keeps the earlier rows |
| ManeuverRows.FirstStop | ui/pages/js/PageOrbitTransferLeft.js:243-256 | the remove loop stops at the first null or matching row |
| ManeuverRows.Removed | ui/pages/js/PageOrbitTransferLeft.js:243-256 | at most one row, the first with the id, is destroyed and spliced; no match changes nothing; a null before it throws |
| ManeuverRows.RemovesFirstMatch | ui/pages/js/PageOrbitTransferLeft.js:243-256 | the first matching row is removed and the others keep their order |
| ManeuverRows.FirstNull | ui/pages/js/PageOrbitTransferLeft.js:259-267 | the save loop stops at the first null row |
| ManeuverRows.Intent | ui/pages/js/PageOrbitTransferLeft.js:259-267 | add_maneuver receives the row's type, option and option value |
| ManeuverRows.Intents | ui/pages/js/PageOrbitTransferLeft.js:259-267 | one planned maneuver per row, in row order |
| ManeuverRows.Saved | ui/pages/js/PageOrbitTransferLeft.js:259-267 | the backend list becomes the rows up to the first null, in row order |
| ManeuverRows.SaveThenLoad | ui/pages/js/PageOrbitTransferLeft.js:168-267 | saving rows numbered 1..n and loading them back gives the same rows |
| ManeuverRows.LoadThenSave | ui/pages/js/PageOrbitTransferLeft.js:168-267 | loading and saving back keeps type, option and value of every record and resets its costs |
| ManeuverRows.RemoveThenAddDuplicatesId | ui/pages/js/PageOrbitTransferLeft.js:217-256 | removing id 1 from ids [1, 2] and adding gives ids [2, 2]: ids are not unique |
| ManeuverRows.NullRowBlocksClearAndSave | ui/pages/js/PageOrbitTransferLeft.js:157-267 | after an add that pushed null, clear throws before destroying anything and save drops the null and what follows |
| ManeuverRows.ManeuverList.constructor | ui/pages/js/PageOrbitTransferLeft.js:157-267 | an empty array |
| ManeuverRows.ManeuverList.Clear | ui/pages/js/PageOrbitTransferLeft.js:157-165 | the array and the destroyed log become ClearOf |
| ManeuverRows.ManeuverList.Append | ui/pages/js/PageOrbitTransferLeft.js:175-212 | the load loop appends Numbered(len, Kept(ShownOf(records))) |
| ManeuverRows.ManeuverList.Load | ui/pages/js/PageOrbitTransferLeft.js:168-214 | clear, then, unless that threw, the rows become Numbered(0, Kept(ShownOf(records))) |
| ManeuverRows.ManeuverList.Add | ui/pages/js/PageOrbitTransferLeft.js:217-240 | the rows become Added |
| ManeuverRows.ManeuverList.Remove | ui/pages/js/PageOrbitTransferLeft.js:243-256 | the rows and the destroyed log become Removed |
| ManeuverRows.ManeuverList.Save | ui/pages/js/PageOrbitTransferLeft.js:259-267 | clear_maneuvers, then add_maneuver per row: the backend list becomes Saved, and the save throws iff a row is null |
| OrbitForms.Written | ui/pages/js/PageOrbitTransferLeft.js:11-56 | a save writes only the six properties of the selected representation, angles to radians, and the modified tab's angles come from the `_2` fields; body, state and h are never written; an unknown mode writes nothing |
| OrbitForms.Restored | ui/pages/js/PageOrbitTransferLeft.js:107-129 | a restore fills every field from the record's getters, and each `_2` angle equals its Keplerian twin |
| OrbitForms.ModifiedModeReadsTwins | ui/pages/js/PageOrbitTransferLeft.js:39-48 | a modified-Keplerian save depends only on the radii and the `_2` angles, never on the Keplerian widgets |
| OrbitForms.RestoreThenSaveChangesNoDisplay | ui/pages/js/PageOrbitTransferLeft.js:11-129 | restoring and then saving in the record's own state leaves every shown value as it was |
| OrbitForms.CartesianReshown | ui/pages/js/PageOrbitTransferLeft.js:11-129 | the round trip in the Cartesian mode |
| OrbitForms.KeplerianReshown | ui/pages/js/PageOrbitTransferLeft.js:11-129 | the round trip in the Keplerian mode |
| OrbitForms.ModifiedReshown | ui/pages/js/PageOrbitTransferLeft.js:11-129 | the round trip in the modified Keplerian mode |
| OrbitForms.Write | ui/pages/js/PageOrbitTransferLeft.js:15-50 | the switch's property assignments, one by one, give Written and emit one signal per property |
| OrbitForms.WriteCartesian | ui/pages/js/PageOrbitTransferLeft.js:17-26 | the Cartesian branch |
| OrbitForms.WriteKeplerian | ui/pages/js/PageOrbitTransferLeft.js:28-37 | the Keplerian branch |
| OrbitForms.WriteModified | ui/pages/js/PageOrbitTransferLeft.js:39-48 | the modified Keplerian branch |
| OrbitForms.LegacyWritten | ui/dialogs/sections/js/SectionOrbitTransfer.js:10-55 | the same switch on the older record |
| OrbitForms.LegacyRestored | ui/dialogs/sections/js/SectionOrbitTransfer.js:106-128 | every field from the older record, `_2` angles equal to their twins |
| OrbitForms.LaterSaveOverwrites | ui/dialogs/sections/js/SectionOrbitTransfer.js:12-93 | two saves in the same mode leave only the second one's values |
| OrbitForms.LegacyRestoreThenSaveChangesNoDisplay | ui/dialogs/sections/js/SectionOrbitTransfer.js:10-128 | restore then save on the older record leaves every shown value as it was |
| OrbitForms.LegacyWrite | ui/dialogs/sections/js/SectionOrbitTransfer.js:14-53 | the switch on the older record gives LegacyWritten and emits nothing |
| PageOrbitTransferLeft.OrbitSaved | ui/pages/js/PageOrbitTransferLeft.js:11-56 | state first, then the selected group, then update_departure_orbit: a Cartesian save re-derives the elements from the form; the Keplerian and modified saves keep their writes and the old position; an unknown mode changes only the state |
| PageOrbitTransferLeft.SaveThenRestore | ui/pages/js/PageOrbitTransferLeft.js:11-129 | restoring after a save shows the selected mode and the saved values of that mode, truncated |
| PageOrbitTransferLeft.CartesianSaveThenRestore | ui/pages/js/PageOrbitTransferLeft.js:11-129 | the round trip for a Cartesian save |
| PageOrbitTransferLeft.KeplerianSaveThenRestore | ui/pages/js/PageOrbitTransferLeft.js:11-129 | the round trip for a Keplerian save |
| PageOrbitTransferLeft.ModifiedSaveThenRestore | ui/pages/js/PageOrbitTransferLeft.js:11-129 | the round trip for a modified Keplerian save |
| PageOrbitTransferLeft.KeplerianSaveKeepsPosition | ui/pages/js/PageOrbitTransferLeft.js:28-56 | since update_departure_orbit raises for a Keplerian orbit, whatever elements are saved the position and velocity stay those of before |
| PageOrbitTransferLeft.PageOrbitTransferLeft.constructor | ui/pages/js/PageOrbitTransferLeft.js:2-8 | the panel with its mission, rows and editors |
| PageOrbitTransferLeft.PageOrbitTransferLeft.SaveCelestialBody | ui/pages/js/PageOrbitTransferLeft.js:2-8 | the same body into both orbits, then one update_celestial_body: the central body is the selected body |
| PageOrbitTransferLeft.PageOrbitTransferLeft.SaveDepartureParameters | ui/pages/js/PageOrbitTransferLeft.js:11-56 | the departure orbit becomes OrbitSaved, with the state signal, the group's signals and the update's outcome |
| PageOrbitTransferLeft.PageOrbitTransferLeft.SaveArrivalParameters | ui/pages/js/PageOrbitTransferLeft.js:59-104 | the same on the arrival orbit |
| PageOrbitTransferLeft.PageOrbitTransferLeft.RestoreDepartureParameters | ui/pages/js/PageOrbitTransferLeft.js:107-129 | the selected body and every departure field come from the departure orbit |
| PageOrbitTransferLeft.PageOrbitTransferLeft.RestoreArrivalParameters | ui/pages/js/PageOrbitTransferLeft.js:132-154 | the same from the arrival orbit |
| PageOrbitTransferLeft.PageOrbitTransferLeft.LoadManeuvers | ui/pages/js/PageOrbitTransferLeft.js:168-214 | clear, then ids 1..n copying type, option and value, skipping failed creations |
| PageOrbitTransferLeft.PageOrbitTransferLeft.SaveManeuvers | ui/pages/js/PageOrbitTransferLeft.js:259-267 | the backend list becomes the rows in order |
| SectionOrbitTransfer.SectionSaved | ui/dialogs/sections/js/SectionOrbitTransfer.js:10-55 | the shared record takes the selected state and only that group |
| SectionOrbitTransfer.ArrivalSaveOverwritesDeparture | ui/dialogs/sections/js/SectionOrbitTransfer.js:12-93 | saving departure then arrival in one mode equals saving arrival alone, and a restore then shows the arrival values in both editors |
| SectionOrbitTransfer.SectionOrbitTransfer.constructor | ui/dialogs/sections/js/SectionOrbitTransfer.js:2-7 | the section with its record, mission, rows and editors |
| SectionOrbitTransfer.SectionOrbitTransfer.SaveCelestialBody | ui/dialogs/sections/js/SectionOrbitTransfer.js:2-7 | `__Orbit.body` is written, then update_celestial_body sets the mission's central body from its own departure orbit |
| SectionOrbitTransfer.SectionOrbitTransfer.SaveDepartureParameters | ui/dialogs/sections/js/SectionOrbitTransfer.js:10-55 | the shared record becomes SectionSaved; the mission's departure orbit is only re-derived |
| SectionOrbitTransfer.SectionOrbitTransfer.SaveArrivalParameters | ui/dialogs/sections/js/SectionOrbitTransfer.js:58-103 | the same shared record, then update_arrival_orbit |
| SectionOrbitTransfer.SectionOrbitTransfer.RestoreDepartureParameters | ui/dialogs/sections/js/SectionOrbitTransfer.js:106-128 | every departure field from the shared record |
| SectionOrbitTransfer.SectionOrbitTransfer.RestoreArrivalParameters | ui/dialogs/sections/js/SectionOrbitTransfer.js:131-153 | every arrival field from the same shared record |
| SectionOrbitTransfer.SectionOrbitTransfer.ClearManeuvers | ui/dialogs/sections/js/SectionOrbitTransfer.js:156-164 | `r_Maneuvers` emptied in reverse order, as ClearOf |
| SectionOrbitTransfer.SectionOrbitTransfer.LoadManeuvers | ui/dialogs/sections/js/SectionOrbitTransfer.js:167-213 | dense ids 1..n, failed creations skipped |
| SectionOrbitTransfer.SectionOrbitTransfer.AddManeuver | ui/dialogs/sections/js/SectionOrbitTransfer.js:216-239 | pushes the created object even if null |
| SectionOrbitTransfer.SectionOrbitTransfer.RemoveManeuver | ui/dialogs/sections/js/SectionOrbitTransfer.js:242-255 | removes at most the first matching row |
| SectionOrbitTransfer.SectionOrbitTransfer.SaveManeuvers | ui/dialogs/sections/js/SectionOrbitTransfer.js:258-266 | the backend list becomes the rows in order |
| DialogManeuvers.DialogManeuvers.constructor | ui/dialogs/DialogManeuvers.js:2-127 | the dialog with its mission, rows and height, open |
| DialogManeuvers.DialogManeuvers.ClearManeuvers | ui/dialogs/DialogManeuvers.js:2-12 | the array emptied in reverse order, then contentHeight = 0 = 116 · length |
| DialogManeuvers.DialogManeuvers.LoadManeuvers | ui/dialogs/DialogManeuvers.js:15-66 | clear, then ids 1..n with type, option, value and the three shown costs, and contentHeight = 116 · length |
| DialogManeuvers.DialogManeuvers.AddManeuver | ui/dialogs/DialogManeuvers.js:69-94 | pushes even a null object; a pushed row sets contentHeight = 116 · length from any earlier height, and a component error leaves the height as it was |
| DialogManeuvers.DialogManeuvers.RemoveManeuver | ui/dialogs/DialogManeuvers.js:97-112 | removes only the first matching row; a removal sets contentHeight = 116 · length from any earlier height, and no removal (no match, or a null row first) leaves the height as it was |
| DialogManeuvers.StaleHeightAfterNullRow | ui/dialogs/DialogManeuvers.js:2-12 | after a null row and a component are added, clear throws before the resize and leaves a two-row height over one row; the next add brings the height back to 116 · length |
| DialogManeuvers.DialogManeuvers.SaveManeuvers | ui/dialogs/DialogManeuvers.js:115-127 | the backend list becomes the rows' type, option and value in order, then the dialog closes unless a null row threw |
| PageOrbitTransfer.InfoOf | ui/pages/js/PageOrbitTransfer.js:29-41 | an info card carries the record's type and its three costs as the getters show them, each within the last shown decimal of the cost |
| PageOrbitTransfer.InfosOf | ui/pages/js/PageOrbitTransfer.js:29-41 | one card per record, in backend index order |
| PageOrbitTransfer.ReloadShowsTwice | ui/pages/js/PageOrbitTransfer.js:13-59 | two loads with n records and no failure give 2n cards, every record twice |
| PageOrbitTransfer.PageOrbitTransfer.constructor | ui/pages/js/PageOrbitTransfer.js:2-59 | no cards |
| PageOrbitTransfer.PageOrbitTransfer.ClearManeuvers | ui/pages/js/PageOrbitTransfer.js:2-10 | every card destroyed, the last first, and `gr_ManeuverInfos` empty |
| PageOrbitTransfer.PageOrbitTransfer.LoadManeuvers | ui/pages/js/PageOrbitTransfer.js:13-59 | appends without clearing: one card per record whose creation succeeded, in order |
| DialogOrbit.SlotFor | ui/dialogs/DialogOrbit.js:46-53 | `p_Departure` and `save` pick exactly one of the four slot names |
| DialogOrbit.SlotsMissingFromBothMissions | ui/dialogs/DialogOrbit.js:46-53 | neither orbit transfer mission defines the slot that is picked |
| DialogOrbit.DialogOrbit.constructor | ui/dialogs/DialogOrbit.js:2-56 | the dialog with its record, the mission's slots and the form, open |
| DialogOrbit.DialogOrbit.UpdateParameters | ui/dialogs/DialogOrbit.js:2-56 | the body is written, then only the selected group; the state is never written; one slot is called; the dialog closes iff save and the slot exists |
| DialogOrbit.SaveNeverCloses | ui/dialogs/DialogOrbit.js:46-56 | with either mission, a save throws at the call: the record is written, nothing is called and the dialog stays open |

## Left out

- Orbital-mechanics numerics: `calculate_orbital_elements`, `calculate_orbital_parameters`, `pf_2_gef` and friends are uninterpreted functions (the `Conversions` parameter), assumed to return. The one raise modelled is pf_2_gef's ZeroDivisionError when its semi-latus rectum is zero (tools/ThreeDimensionalOrbit.py:260-268), for MissionOrbitTransfer.UpdateOutcome, LegacyMissionOrbitTransfer.Updated, LegacyMissionOrbitTransfer.UpdateSide and both missions' UpdateDepartureOrbit and UpdateArrivalOrbit; it is modelled as Python float division, while numpy float64 operands would give an infinity instead. simulate, evaluate_*, the plotting and canvas code, attach_canvas and detach_canvas are not modelled.
- Floating point: floats are exact reals. `Decimal` quantize is exact decimal truncation, and its precision limit for very large values is not modelled. The program's `format` (src/Utility.py:25) goes through `Decimal.from_float`, which sees the binary double: a typed 0.3 shows as 0.299999 and a 30° angle as 29.999999, and formatting a shown value again can drop one more quantum (0.000013 shows as 0.000012). So with binary doubles `format` is not idempotent and the round trips can move shown values. Utility.FormatIdempotent, ManeuverRecord.ShownCostsStable, OrbitForms.RestoreThenSaveChangesNoDisplay, OrbitForms.LegacyRestoreThenSaveChangesNoDisplay, the OrbitForms *Reshown lemmas and the PageOrbitTransferLeft *SaveThenRestore lemmas hold only in the exact-decimal arithmetic.
- The spacecraft accessors other than the masses are stored values only. The orbit insertion mission's parking-orbit velocity (an `np.sqrt`) is not modelled.
- LaunchMechanics.Stage.Nozzle: the power-law formula for Gamma when gamma is neither 0 nor 1 is a parameter (`quantity`) that gives a value or the error the float power raises, such as the OverflowError for gamma just above 1 (gamma = 1.005 gives about 10^522). Which gammas overflow is not computed. A power of a negative base (gamma between 0 and 1) is a complex number in Python, which the real-valued model does not represent.
- LaunchMechanics.Stage.Thrust: the exponential atmosphere factor is a parameter (`decay`). Only the p_c = 0 branch is stated.
- Qt signals are a log of signal names. Connections and QML bindings are not modelled.
- Component creation is an oracle: a component, null, an error or a component still loading. The component's default values (`Maneuver.qml`) are a parameter. `destroy()` is a log of destroyed rows.
- Console logging of failed creations and QML property conversions between text and numbers are not modelled. Widgets hold numbers.
- DialogManeuvers.DialogManeuvers: the intermediate contentHeight values inside a load loop are not stated, only the value after each operation.
- Which object the QML context exposes as `__MissionOrbitTransfer` is decided in main.py, which is not part of this model. The views are modelled against the newer mission, and DialogOrbit against the slot names of either.
- The class-level `set_celestial_body` globals of the tools are a `centralBody` field of the missions.
- Cross-file calls by snake_case names are resolved to the camelCase definitions, although as written these imports and lookups fail: `celestial_body_from_index` and `index_from_celestial_body` (imported at src/missions/mission_orbit_transfer.py:19 and src/MissionOrbitTransfer.py:23) are `celestialBodyFromIndex` and `indexFromCelestialBody` at tools/AstronomicalData.py:59 and :84; `AstronomicalData.gravity` (tools/launch_mechanics.py:118, on which LaunchMechanics.G0 and LaunchMechanics.Stage.Calc rely) is `Gravity` at tools/AstronomicalData.py:353; `update_cartesian_parameters` on the older record is src/Orbit.py's camelCase method. src/Orbit.py:6 imports `ORBITAL_ELEMENTS` and `ORBITAL_PARAMETERS` from tools/ThreeDimensionalOrbit.py, which defines only `OrbitalElements` (:27; `OrbitalParameters` is at tools/TwoBodyProblem.py:29), so as written the whole module fails to import; the LegacyOrbit module models it as if it imported, and LegacyOrbit.KeplerianOf builds the `ORBITAL_ELEMENTS(0, …)` of src/Orbit.py:214 as an `OrbitalElements`.
- Utility.Format and Utility.Singleton stand for the `format` and `singleton` that src/utility/orbit.py:12 and src/systems/spacecraft.py:10 import from `src.common`, and src/utility/maneuver.py:11 and src/missions/mission_orbit_insertion.py:12 from `common`. That module is not part of this model; it is taken to be identical to src/Utility.py:11-44, since the calls have the same shape. This covers OrbitRecord.SetThenGet, the ManeuverRecord.ShownDelta* functions, the Spacecraft.Spacecraft and Spacecraft.SpacecraftSingleton members and MissionOrbitInsertion.WholePayloadShown.
- SphereOfInfluence and PlanetaryOrbitalElementsAndRates of tools/AstronomicalData.py are not modelled, and neither are the remaining tables' numeric values beyond their fallbacks and signs.
- The wrap and daterange helpers of tools/stdafx.py repeat those of tools/Common.py expression for expression. They are modelled once, in Common, and Stdafx states its properties about them.
- OrbitDetermination.JulianDay: only the Julian day's bracket (within the day starting at J0), its monotonicity and its day step are stated, not the closed formula as a postcondition.
- PageOrbitTransferLeft's clearManeuvers, addManeuver and removeManeuver are ManeuverRows.ManeuverList.Clear, Add and Remove directly. The section's and the dialog's wrappers delegate to the same methods.

## Findings

| source | as written | input that shows it | evidently intended | confidence | as-written member | corrected member |
|---|---|---|---|---|---|---|
| tools/Common.py:46-62 | `daterange_length` returns ⌈((end−start).days + 1)/step⌉, which is negative when end is more than one day before start, while `daterange` then yields nothing | start two days after end, step 1: `daterange` is empty and `daterange_length` is −1 | the length is the number of dates yielded, never negative | not executed | Common.DaterangeLengthNegative, Common.DaterangeLengthCounterexample | Common.DaterangeCount |
