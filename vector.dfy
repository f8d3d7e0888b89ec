/**
 * The extension methods of `HooahComponents.Utility.Vector`: squared distance between
 * two points and a range test, in exact real arithmetic.
 */
module Vector {
  import opened UnityMath

  /** `from.SqrDistance(to)`: `(from - to).sqrMagnitude`. */
  function SqrDistance(from: Vec3, to: Vec3): (d: real)
    ensures 0.0 <= d
    ensures d == 0.0 <==> from == to
  {
    var diff := Sub3(from, to);
    SqrMagnitudeZero(diff);
    SubIsZero(from, to);
    SqrMagnitude3(diff)
  }

  /**
   * `from.IsInRange(to, distance)`: compares the SQUARED distance with `distance` itself, so a
   * negative `distance` admits nothing and a non-negative one admits at least the point itself.
   */
  predicate IsInRange(from: Vec3, to: Vec3, distance: real): (r: bool)
    ensures r ==> 0.0 <= distance
    ensures from == to && 0.0 <= distance ==> r
  {
    SqrDistance(from, to) <= distance
  }

  lemma SqrDistanceSymmetric(a: Vec3, b: Vec3)
    ensures SqrDistance(a, b) == SqrDistance(b, a)
  {
  }

  lemma SqrDistanceToSelf(p: Vec3)
    ensures SqrDistance(p, p) == 0.0
  {
  }

  /** `distance` acts as a squared radius: the test holds exactly when the distance is at most its root. */
  lemma InRangeByDistance(lib: MathLib, a: Vec3, b: Vec3, d: real)
    requires SqrtSound(lib.sqrt) && 0.0 <= d
    ensures IsInRange(a, b, d) <==> Distance3(lib, a, b) <= lib.sqrt(d)
  {
    SqrtMonotone(lib.sqrt, SqrDistance(a, b), d);
  }

  lemma InRangeMonotone(a: Vec3, b: Vec3, d: real, e: real)
    requires d <= e && IsInRange(a, b, d)
    ensures IsInRange(a, b, e)
  {
  }

  lemma InRangeSymmetric(a: Vec3, b: Vec3, d: real)
    ensures IsInRange(a, b, d) <==> IsInRange(b, a, d)
  {
  }
}
