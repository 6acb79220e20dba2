/** Model of src/Utility.py: the decimal truncation `format` and the `singleton` decorator. */
module Utility {
  /** numpy's pi, the double nearest to the circle constant. */
  const Pi: real := 3.141592653589793

  /** np.rad2deg */
  function RadToDeg(x: real): real { x * 180.0 / Pi }

  /** np.deg2rad */
  function DegToRad(x: real): real { x * Pi / 180.0 }

  lemma DegRadRoundTrip(x: real)
    ensures RadToDeg(DegToRad(x)) == x && DegToRad(RadToDeg(x)) == x
  {}

  /** 10^places: a format string '1.' followed by `places` zeros has quantum 1/Pow10(places). */
  function Pow10(places: nat): (p: nat)
    ensures p >= 1
  {
    if places == 0 then 1 else 10 * Pow10(places - 1)
  }

  /** The number of quanta per unit of a format with `places` decimals. */
  function Scale(places: nat): (s: real)
    ensures s >= 1.0
  {
    Pow10(places) as real
  }

  function Quantum(places: nat): (q: real)
    ensures 0.0 < q <= 1.0
    ensures q * Scale(places) == 1.0
  {
    1.0 / Scale(places)
  }

  /** Rounding mode ROUND_DOWN: towards zero, to an integer. */
  function TruncToInt(x: real): (n: int)
    ensures x >= 0.0 ==> 0.0 <= n as real <= x < n as real + 1.0
    ensures x < 0.0 ==> n as real - 1.0 < x <= n as real <= 0.0
  {
    if x >= 0.0 then x.Floor else -((-x).Floor)
  }

  predicate IsWhole(x: real)
  {
    x.Floor as real == x
  }

  lemma WholeFloor(x: real)
    requires IsWhole(x)
    ensures x.Floor as real == x
  {}

  /** `r` is a whole number of quanta of a format with `places` decimals. */
  predicate OnGrid(r: real, places: nat)
  {
    IsWhole(r * Scale(places))
  }

  /** The value being formatted: degrees when `deg` is set, the argument otherwise. */
  function Converted(x: real, deg: bool): real
  {
    if deg then RadToDeg(x) else x
  }

  /**
   * format(x, '1.' + places zeros, deg): the value (in degrees when `deg`) truncated
   * towards zero onto the grid of the format's quantum.
   * The result lies between zero and the value, within one quantum of the value.
   */
  function Format(x: real, places: nat := 6, deg: bool := false): (r: real)
    ensures OnGrid(r, places)
    ensures Converted(x, deg) >= 0.0 ==> 0.0 <= r <= Converted(x, deg)
    ensures Converted(x, deg) < 0.0 ==> Converted(x, deg) <= r <= 0.0
    ensures -Quantum(places) < Converted(x, deg) - r < Quantum(places)
  {
    var n := TruncToInt(Converted(x, deg) * Scale(places));
    ScaleBack(Converted(x, deg), places, n);
    n as real / Scale(places)
  }

  /** Dividing the truncated scaled value by the scale keeps the truncation bounds. */
  lemma ScaleBack(y: real, places: nat, n: int)
    requires y * Scale(places) >= 0.0 ==> 0.0 <= n as real <= y * Scale(places) < n as real + 1.0
    requires y * Scale(places) < 0.0 ==> n as real - 1.0 < y * Scale(places) <= n as real <= 0.0
    ensures OnGrid(n as real / Scale(places), places)
    ensures y >= 0.0 ==> 0.0 <= n as real / Scale(places) <= y
    ensures y < 0.0 ==> y <= n as real / Scale(places) <= 0.0
    ensures -Quantum(places) < y - n as real / Scale(places) < Quantum(places)
  {
    var q := Scale(places);
    assert n as real / q * q == n as real;
    assert IsWhole(n as real);
    if y >= 0.0 {
      MulSign(y, q);
    } else {
      MulSign(y, q);
    }
    DivBounds(n as real, y * q, q);
    assert y * q / q == y;
  }

  lemma MulSign(y: real, q: real)
    requires q > 0.0
    ensures y >= 0.0 ==> y * q >= 0.0
    ensures y < 0.0 ==> y * q < 0.0
  {}

  /** Dividing a pair of scaled values by the (positive) scale keeps their order and closeness. */
  lemma DivBounds(a: real, b: real, q: real)
    requires q > 0.0
    ensures a <= b ==> a / q <= b / q
    ensures b <= a ==> b / q <= a / q
    ensures -1.0 < b - a < 1.0 ==> -(1.0 / q) < b / q - a / q < 1.0 / q
    ensures 0.0 <= a ==> 0.0 <= a / q
    ensures a <= 0.0 ==> a / q <= 0.0
  {
    assert b / q - a / q == (b - a) / q;
  }

  /** Multiplying by a positive scale keeps strict order. */
  lemma MulBounds(a: real, b: real, q: real)
    requires q > 0.0 && a < b
    ensures a * q < b * q
  {
    assert b * q - a * q == (b - a) * q;
  }

  /** Truncation is the only grid point that lies between zero and the value within one quantum. */
  lemma {:induction false} FormatUnique(y: real, places: nat, m: real)
    requires OnGrid(m, places)
    requires y >= 0.0 ==> 0.0 <= m <= y
    requires y < 0.0 ==> y <= m <= 0.0
    requires -Quantum(places) < y - m < Quantum(places)
    ensures m == Format(y, places)
  {
    GridPointsAgree(y, places, m, Format(y, places));
  }

  lemma GridPointsAgree(y: real, places: nat, m: real, r: real)
    requires OnGrid(m, places) && OnGrid(r, places)
    requires y >= 0.0 ==> 0.0 <= m <= y && 0.0 <= r <= y
    requires y < 0.0 ==> y <= m <= 0.0 && y <= r <= 0.0
    requires -Quantum(places) < y - m < Quantum(places)
    requires -Quantum(places) < y - r < Quantum(places)
    ensures m == r
  {
    ScaledPointsAgree(y, m, r, Scale(places), Quantum(places));
  }

  /** The scaled form of GridPointsAgree, for a scale `q` and its quantum `u`. */
  lemma ScaledPointsAgree(y: real, m: real, r: real, q: real, u: real)
    requires q > 0.0 && u * q == 1.0
    requires IsWhole(m * q) && IsWhole(r * q)
    requires y >= 0.0 ==> 0.0 <= m <= y && 0.0 <= r <= y
    requires y < 0.0 ==> y <= m <= 0.0 && y <= r <= 0.0
    requires -u < y - m < u
    requires -u < y - r < u
    ensures m == r
  {
    GridClose(y, m, q, u);
    GridClose(y, r, q, u);
    WholeNeighbours(m * q, r * q, y * q, y >= 0.0);
    if m < r { MulBounds(m, r, q); } else if r < m { MulBounds(r, m, q); }
  }

  /** Two whole numbers on the same side of `z` and within one unit of it are the same. */
  lemma WholeNeighbours(a: real, b: real, z: real, below: bool)
    requires IsWhole(a) && IsWhole(b)
    requires Near(a, z, below) && Near(b, z, below)
    ensures a == b
  {
    WholeFloor(a);
    WholeFloor(b);
    if below { SameFloor(a.Floor, b.Floor, z); } else { SameCeiling(a.Floor, b.Floor, z); }
  }

  /** `a` is the whole part of `z` towards zero, when `below` is whether `z` is non-negative. */
  predicate Near(a: real, z: real, below: bool)
  {
    (below ==> a <= z < a + 1.0) && (!below ==> a - 1.0 < z <= a)
  }

  lemma SameFloor(k: int, j: int, z: real)
    requires k as real <= z < k as real + 1.0
    requires j as real <= z < j as real + 1.0
    ensures k == j
  {}

  lemma SameCeiling(k: int, j: int, z: real)
    requires k as real - 1.0 < z <= k as real
    requires j as real - 1.0 < z <= j as real
    ensures k == j
  {}

  /** A point between zero and `y` within one quantum `u` of it, scaled by `q = 1/u`, is within one unit of the scaled `y`. */
  lemma GridClose(y: real, m: real, q: real, u: real)
    requires q > 0.0 && u * q == 1.0
    requires y >= 0.0 ==> 0.0 <= m <= y
    requires y < 0.0 ==> y <= m <= 0.0
    requires -u < y - m < u
    ensures Near(m * q, y * q, y >= 0.0)
  {
    if y >= 0.0 {
      MulBounds(y - m, u, q);
      assert (y - m) * q == y * q - m * q;
      if m < y { MulBounds(m, y, q); }
      MulSign(m, q);
    } else {
      MulBounds(m - y, u, q);
      assert (m - y) * q == m * q - y * q;
      if y < m { MulBounds(y, m, q); }
      if m < 0.0 { MulSign(m, q); }
    }
  }

  /** Formatting a formatted value changes nothing. */
  lemma {:induction false} FormatIdempotent(x: real, places: nat, deg: bool)
    ensures Format(Format(x, places, deg), places) == Format(x, places, deg)
  {
    var r := Format(x, places, deg);
    FormatUnique(r, places, r);
  }

  /** An angle stored as deg2rad(v) and read back through format(., deg=True) gives v truncated. */
  lemma FormatDegreesOfStoredAngle(v: real, places: nat)
    ensures Format(DegToRad(v), places, true) == Format(v, places)
  {
    DegRadRoundTrip(v);
    assert Converted(DegToRad(v), true) == v;
    FormatUnique(v, places, Format(DegToRad(v), places, true));
  }

  /**
   * The `singleton` decorator applied to one class. `construct` stands for calling the class;
   * `instances` is the dictionary this decoration created, keyed by the decorated class `cls`.
   */
  class Singleton<A, T> {
    const cls: int
    const construct: A -> T
    var instances: map<int, T>

    ghost predicate Valid()
      reads this
    {
      instances.Keys <= {cls}
    }

    /** Decorating a class: a fresh, empty cache. */
    constructor (cls: int, construct: A -> T)
      ensures Valid()
      ensures this.cls == cls && this.construct == construct && instances == map[]
    {
      this.cls := cls;
      this.construct := construct;
      instances := map[];
    }

    /** Calling the decorated class: construct on the first call, afterwards return the cached instance. */
    method Call(args: A) returns (r: T)
      requires Valid()
      modifies this
      ensures Valid()
      ensures cls in instances && r == instances[cls]
      ensures old(cls in instances) ==> instances == old(instances)
      ensures old(cls !in instances) ==> r == construct(args) && instances == map[cls := r]
    {
      if cls !in instances {
        instances := instances[cls := construct(args)];
      }
      r := instances[cls];
    }
  }

  /** Only the first call's arguments are used; every later call returns that first instance. */
  method LaterCallsIgnoreArguments<A, T>(construct: A -> T, first: A, second: A, third: A)
    returns (r1: T, r2: T, r3: T)
    ensures r1 == construct(first)
    ensures r2 == r1 && r3 == r1
  {
    var decorated := new Singleton(0, construct);
    r1 := decorated.Call(first);
    r2 := decorated.Call(second);
    r3 := decorated.Call(third);
  }

  /** Two decorated classes keep separate caches, so calling one never yields the other's instance. */
  method EachClassOwnInstance<A, T>(constructOne: A -> T, constructTwo: A -> T, a: A, b: A)
    returns (one: T, two: T, oneAgain: T)
    ensures one == constructOne(a) && two == constructTwo(b) && oneAgain == one
  {
    var first := new Singleton(1, constructOne);
    var second := new Singleton(2, constructTwo);
    one := first.Call(a);
    two := second.Call(b);
    oneAgain := first.Call(b);
  }
}
