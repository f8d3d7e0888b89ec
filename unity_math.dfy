/** Optional values: a C# reference that may be null. */
module Wrappers {
  datatype Option<+T> = None | Some(value: T)
}

/**
 * The slice of the Unity engine's vector library the model needs, over exact reals.
 * C# `float` is modelled as `real`; square root, natural logarithm and
 * `Mathf.Approximately` are not interpreted and are supplied as a `MathLib` value.
 */
module UnityMath {

  datatype Vec2 = Vec2(x: real, y: real)
  datatype Vec3 = Vec3(x: real, y: real, z: real)

  /** An orientation. Its value is produced by host code the model does not interpret. */
  datatype Quat = Quat(x: real, y: real, z: real, w: real)

  /** Host numeric routines: `Mathf.Sqrt`, `Mathf.Log` and `Mathf.Approximately`. */
  datatype MathLib = MathLib(sqrt: real -> real, log: real -> real, approximately: (real, real) -> bool)

  /**
   * What the model assumes of the host square root, where it assumes anything. The facts are
   * stated on `RootOf` so that only a proof that asks for them (through `RootFacts`) sees them.
   */
  ghost predicate SqrtSound(sqrt: real -> real) {
    forall s :: 0.0 <= s ==> 0.0 <= RootOf(sqrt, s) && RootOf(sqrt, s) * RootOf(sqrt, s) == s
  }

  ghost function RootOf(sqrt: real -> real, s: real): real { sqrt(s) }

  /** A sound square root of a non-negative number is non-negative and squares back to it. */
  lemma RootFacts(sqrt: real -> real, s: real)
    requires SqrtSound(sqrt) && 0.0 <= s
    ensures 0.0 <= sqrt(s) && sqrt(s) * sqrt(s) == s
  {
    assert RootOf(sqrt, s) == sqrt(s);
  }

  /** `Vector2.kEpsilon` and `Vector3.kEpsilon`. */
  const Epsilon: real := 0.00001

  const Zero3: Vec3 := Vec3(0.0, 0.0, 0.0)

  function Abs(a: real): real { if a < 0.0 then -a else a }

  function Sub3(a: Vec3, b: Vec3): Vec3 { Vec3(a.x - b.x, a.y - b.y, a.z - b.z) }
  function Add3(a: Vec3, b: Vec3): Vec3 { Vec3(a.x + b.x, a.y + b.y, a.z + b.z) }
  function Scale3(a: Vec3, k: real): Vec3 { Vec3(a.x * k, a.y * k, a.z * k) }
  function Dot3(a: Vec3, b: Vec3): real { a.x * b.x + a.y * b.y + a.z * b.z }
  function SqrMagnitude3(a: Vec3): real { a.x * a.x + a.y * a.y + a.z * a.z }
  function SqrMagnitude2(a: Vec2): real { a.x * a.x + a.y * a.y }

  lemma SubIsZero(a: Vec3, b: Vec3)
    ensures Sub3(a, b) == Zero3 <==> a == b
  {
    if Sub3(a, b) == Zero3 {
      assert a.x == b.x && a.y == b.y && a.z == b.z;
    }
  }

  lemma SqrMagnitudeZero(a: Vec3)
    ensures 0.0 <= SqrMagnitude3(a)
    ensures SqrMagnitude3(a) == 0.0 <==> a == Zero3
  {
    SquareNonNegative(a.x);
    SquareNonNegative(a.y);
    SquareNonNegative(a.z);
    if a.x != 0.0 {
      SquareLess(0.0, Abs(a.x));
      assert Abs(a.x) * Abs(a.x) == a.x * a.x;
    }
    if a.y != 0.0 {
      SquareLess(0.0, Abs(a.y));
      assert Abs(a.y) * Abs(a.y) == a.y * a.y;
    }
    if a.z != 0.0 {
      SquareLess(0.0, Abs(a.z));
      assert Abs(a.z) * Abs(a.z) == a.z * a.z;
    }
  }

  /** `Vector2.magnitude`. */
  function Magnitude2(lib: MathLib, a: Vec2): real { lib.sqrt(SqrMagnitude2(a)) }

  /** `Vector3.magnitude`. */
  function Magnitude3(lib: MathLib, a: Vec3): real { lib.sqrt(SqrMagnitude3(a)) }

  /** `Vector2.Distance`. */
  function Distance2(lib: MathLib, a: Vec2, b: Vec2): real {
    Magnitude2(lib, Vec2(a.x - b.x, a.y - b.y))
  }

  /** `Vector3.Distance`. */
  function Distance3(lib: MathLib, a: Vec3, b: Vec3): real { lib.sqrt(SqrMagnitude3(Sub3(a, b))) }

  /** `Vector3.normalized`: the zero vector when the magnitude is at most `kEpsilon`. */
  function Normalized3(lib: MathLib, a: Vec3): Vec3 {
    var m := Magnitude3(lib, a);
    if m > Epsilon then Vec3(a.x / m, a.y / m, a.z / m) else Zero3
  }

  /** Unity's `Vector2 ==`: the squared distance is below `kEpsilon` squared. */
  predicate Same2(a: Vec2, b: Vec2) {
    (a.x - b.x) * (a.x - b.x) + (a.y - b.y) * (a.y - b.y) < Epsilon * Epsilon
  }

  /** Unity's `Vector3 ==`: the squared distance is below `kEpsilon` squared. */
  predicate Same3(a: Vec3, b: Vec3) {
    SqrMagnitude3(Sub3(a, b)) < Epsilon * Epsilon
  }

  /** `Mathf.Clamp(float, float, float)`, in Unity's order of tests. */
  function Clamp(value: real, min: real, max: real): real {
    if value < min then min else if value > max then max else value
  }

  /** `Mathf.Clamp(int, int, int)`, in Unity's order of tests. */
  function ClampInt(value: int, min: int, max: int): int {
    if value < min then min else if value > max then max else value
  }

  /** `Mathf.Clamp01`. */
  function Clamp01(value: real): (r: real)
    ensures 0.0 <= r <= 1.0
  {
    if value < 0.0 then 0.0 else if value > 1.0 then 1.0 else value
  }

  /** `Mathf.Min(float, float)`. */
  function Min(a: real, b: real): real { if a < b then a else b }

  /** `Mathf.LerpUnclamped(float, float, float)`. */
  function LerpUnclamped(a: real, b: real, t: real): real { a + (b - a) * t }

  /** `Vector3.Lerp`: the parameter is clamped to [0, 1] first. */
  function Lerp3(a: Vec3, b: Vec3, t: real): Vec3 {
    var c := Clamp01(t);
    Vec3(a.x + (b.x - a.x) * c, a.y + (b.y - a.y) * c, a.z + (b.z - a.z) * c)
  }

  /** `Mathf.FloorToInt`. */
  function FloorToInt(x: real): int { x.Floor }

  /** `Mathf.CeilToInt`. */
  function CeilToInt(x: real): int { -((-x).Floor) }

  /** C#'s `x % 1` on a float: the remainder takes the sign of `x`. */
  function FloatMod1(x: real): real {
    if x >= 0.0 then x - x.Floor as real else x + (-x).Floor as real
  }

  // Arithmetic facts the solver needs spelled out.

  lemma SquareLess(r: real, m: real)
    requires 0.0 <= r < m
    ensures r * r < m * m
  {
    var d := m - r;
    assert m * m == r * r + 2.0 * r * d + d * d;
    assert d * d > 0.0;
  }

  lemma SquareNonNegative(a: real)
    ensures 0.0 <= a * a
  {
  }

  // Consequences of SqrtSound.

  lemma SqrtOfZero(sqrt: real -> real)
    requires SqrtSound(sqrt)
    ensures sqrt(0.0) == 0.0
  {
    var r := sqrt(0.0);
    RootFacts(sqrt, 0.0);
    if r > 0.0 {
      SquareLess(0.0, r);
    }
  }

  lemma RootZero(sqrt: real -> real, s: real)
    requires SqrtSound(sqrt) && 0.0 <= s
    ensures 0.0 <= sqrt(s)
    ensures sqrt(s) == 0.0 <==> s == 0.0
  {
    RootFacts(sqrt, s);
    SqrtOfZero(sqrt);
  }

  lemma SqrtOfPositive(sqrt: real -> real, s: real)
    requires SqrtSound(sqrt) && 0.0 < s
    ensures 0.0 < sqrt(s)
  {
    RootFacts(sqrt, s);
  }

  lemma SqrtOfOne(sqrt: real -> real)
    requires SqrtSound(sqrt)
    ensures sqrt(1.0) == 1.0
  {
    var r := sqrt(1.0);
    RootFacts(sqrt, 1.0);
    if r < 1.0 {
      SquareLess(r, 1.0);
    } else if r > 1.0 {
      SquareLess(1.0, r);
    }
  }

  /** A sound square root preserves order on non-negative numbers, in both directions. */
  lemma SqrtMonotone(sqrt: real -> real, x: real, y: real)
    requires SqrtSound(sqrt) && 0.0 <= x && 0.0 <= y
    ensures x <= y <==> sqrt(x) <= sqrt(y)
  {
    RootFacts(sqrt, x);
    RootFacts(sqrt, y);
    if sqrt(y) < sqrt(x) {
      SquareLess(sqrt(y), sqrt(x));
    } else if sqrt(x) < sqrt(y) {
      SquareLess(sqrt(x), sqrt(y));
    }
  }

  /** The host magnitude of a 2D vector is at least the absolute value of its x. */
  lemma SqrtAtLeast(sqrt: real -> real, a: real, b: real)
    requires SqrtSound(sqrt)
    ensures Abs(a) <= sqrt(SqrMagnitude2(Vec2(a, b)))
  {
    var s := SqrMagnitude2(Vec2(a, b));
    var r := sqrt(s);
    SquareNonNegative(a);
    SquareNonNegative(b);
    RootFacts(sqrt, s);
    var m := Abs(a);
    assert m * m == a * a;
    SquareNonNegative(b);
    if r < m {
      SquareLess(r, m);
    }
  }
}
