/**
 * `FalseChainCreator`: a chain or rope hung between two anchors. Every frame it checks its
 * guards, normalises the anchor offset into a rope target, and only when that target or the
 * rope settings changed does it re-solve the quadratic rope and re-place the link joints
 * along the curve at equal arc-length spacing. Also the frustum test of its visibility helper.
 */
module ChainCreator {
  import opened Wrappers
  import opened UnityMath
  import opened QuadRopeSolver

  // ---------------------------------------------------------------------------
  // The anchor offset

  /**
   * The end anchor nudged by 0.00001 along x and along z wherever it shares that coordinate with
   * the start anchor, so the horizontal offset is never zero along either axis.
   */
  function NudgedEnd(s: Vec3, e: Vec3): (r: Vec3)
    ensures r.x != s.x && r.z != s.z && r.y == e.y
    ensures e.x != s.x ==> r.x == e.x
    ensures e.z != s.z ==> r.z == e.z
  {
    Vec3(if e.x == s.x then e.x + 0.00001 else e.x, e.y, if e.z == s.z then e.z + 0.00001 else e.z)
  }

  /** The offset from start to (nudged) end, divided component-wise by the object's lossy scale. */
  function ScaledOffset(s: Vec3, e: Vec3, lossyScale: Vec3): Vec3
    requires lossyScale.x != 0.0 && lossyScale.y != 0.0 && lossyScale.z != 0.0
  {
    var fromTo := Sub3(NudgedEnd(s, e), s);
    Vec3(fromTo.x / lossyScale.x, fromTo.y / lossyScale.y, fromTo.z / lossyScale.z)
  }

  /** The chain's full length in world units: `numberOfLinks * linkSize`. */
  function ChainScale(numberOfLinks: int, linkSize: real): real {
    numberOfLinks as real * linkSize
  }

  /** The rope target: horizontal distance and height of the scaled offset, in units of the rope's length. */
  function RopeTarget(lib: MathLib, offset: Vec3, scale: real): Vec2
    requires scale != 0.0
  {
    Vec2(Magnitude2(lib, Vec2(offset.x, offset.z)) / scale, offset.y / scale)
  }

  /** The rope target of any two anchors lies strictly ahead of the start: its x is positive. */
  lemma RopeTargetAhead(lib: MathLib, s: Vec3, e: Vec3, lossyScale: Vec3, scale: real)
    requires SqrtSound(lib.sqrt) && 0.0 < scale
    requires lossyScale.x != 0.0 && lossyScale.y != 0.0 && lossyScale.z != 0.0
    ensures 0.0 < RopeTarget(lib, ScaledOffset(s, e, lossyScale), scale).x
  {
    var o := ScaledOffset(s, e, lossyScale);
    var fx := NudgedEnd(s, e).x - s.x;
    assert fx != 0.0;
    assert o.x * lossyScale.x == fx;
    assert o.x != 0.0;
    var sx := o.x * o.x;
    SquarePositive(o.x, sx);
    SquareNonNegative(o.z);
    SqrtOfPositive(lib.sqrt, sx + o.z * o.z);
    assert SqrMagnitude2(Vec2(o.x, o.z)) == sx + o.z * o.z;
    var m := Magnitude2(lib, Vec2(o.x, o.z));
    assert 0.0 < m;
    DivPositive(m, scale);
  }

  lemma DivPositive(a: real, b: real)
    requires 0.0 < a && 0.0 < b
    ensures 0.0 < a / b
  {
    if a / b <= 0.0 {
      MulLe(a / b, 0.0, b);
    }
  }

  // ---------------------------------------------------------------------------
  // Arc-length walk helpers

  /** How many more whole steps of size `delta` fit in the distance still to cover. */
  function StepsLeft(remaining: real, delta: real): nat
    requires 0.0 < delta
  {
    if remaining <= 0.0 then 0 else (remaining / delta).Floor
  }

  /** Covering at least one step of the remaining distance, without reaching it, uses up a step. */
  lemma StepsDecrease(remaining: real, next: real, delta: real)
    requires 0.0 < delta && 0.0 < next && next + delta <= remaining
    ensures StepsLeft(next, delta) < StepsLeft(remaining, delta)
  {
    var a := remaining / delta;
    var b := next / delta;
    assert a * delta == remaining && b * delta == next;
    if a < b + 1.0 {
      MulLt(a, b + 1.0, delta);
      assert (b + 1.0) * delta == next + delta;
    }
    assert b < b.Floor as real + 1.0;
  }

  /** Moving from x to x + dx along the curve moves the point at least |dx| |g| (under a sound square root). */
  lemma SegmentAtLeast(lib: MathLib, x: real, v: Vec2, vNew: Vec2, dx: real, g: real)
    requires SqrtSound(lib.sqrt) && dx != 0.0
    requires v.x == x * g && vNew.x == (x + dx) * g
    ensures Abs(dx) * Abs(g) <= Distance2(lib, vNew, v)
  {
    var a := vNew.x - v.x;
    assert a == dx * g;
    var b := vNew.y - v.y;
    SqrtAtLeast(lib.sqrt, a, b);
    AbsOfScaled(dx, g, a);
  }

  lemma AbsOfScaled(dx: real, g: real, a: real)
    requires dx != 0.0 && a == dx * g
    ensures Abs(a) == Abs(dx) * Abs(g)
  {
    if 0.0 < dx {
      if g < 0.0 {
        MulLt(g, 0.0, dx);
      } else {
        MulLe(0.0, g, dx);
      }
    } else {
      var e := -dx;
      assert a == -(e * g);
      if g < 0.0 {
        MulLt(g, 0.0, e);
      } else {
        MulLe(0.0, g, e);
      }
    }
  }

  /** Interpolating x and the point by the same fraction keeps the point's x on the line x * g. */
  lemma LerpKeepsX(x: real, xNew: real, vx: real, vNewX: real, g: real, lerp: real)
    requires vx == x * g && vNewX == xNew * g
    ensures vx + (vNewX - vx) * lerp == (x + (xNew - x) * lerp) * g
  {
  }

  lemma MulPositive(a: real, b: real)
    requires 0.0 < a && 0.0 < b
    ensures 0.0 < a * b
  {
    MulLt(0.0, a, b);
  }

  /** The walk's state between two passes: the curve parameter, the point reached, the arc walked since the last joint. */
  datatype WalkState = WalkState(x: real, v: Vec2, checkedDistance: real)

  /** The joint `lerp` of the way from (x, v) to (xNew, vNew), x and the point interpolated alike, with the count restarted. */
  function Cut(x: real, v: Vec2, xNew: real, vNew: Vec2, g: real, lerp: real): (t: WalkState)
    requires v.x == x * g && vNew.x == xNew * g
    ensures t.v.x == t.x * g && t.checkedDistance == 0.0
  {
    LerpKeepsX(x, xNew, v.x, vNew.x, g, lerp);
    WalkState(x + (xNew - x) * lerp, Vec2(v.x + (vNew.x - v.x) * lerp, v.y + (vNew.y - v.y) * lerp), 0.0)
  }

  /**
   * One pass of the loop of `SetLocalLinkPositions`: sample the curve `xOffset` further on. If that
   * chord keeps the walked arc below `linkDistance`, move to the sample; otherwise report a joint at
   * the point that far along the chord (x and the point interpolated alike) and restart the count.
   * The point stays on the line x * target.x, and a pass that places nothing uses up one of the
   * `delta`-sized steps left before `linkDistance`. The step may be negative (a `quality` below 1).
   */
  method WalkStep(lib: MathLib, target: Vec2, distanceYAxis: real, xOffset: real, linkDistance: real,
                  ghost delta: real, s: WalkState)
    returns (placed: bool, t: WalkState)
    requires target.x != 0.0 && SqrtSound(lib.sqrt) && xOffset != 0.0
    requires delta == Abs(xOffset) * Abs(target.x) && 0.0 < delta
    requires s.v.x == s.x * target.x
    ensures t.v.x == t.x * target.x
    ensures placed ==> t.checkedDistance == 0.0
    ensures !placed ==>
              StepsLeft(linkDistance - t.checkedDistance, delta) < StepsLeft(linkDistance - s.checkedDistance, delta)
  {
    var x, v, checkedDistance := s.x, s.v, s.checkedDistance;
    var g := target.x;
    var xNew := x + xOffset;
    var vNew := CurvePoint(xNew, target, distanceYAxis);
    var distanciaSegmento := Distance2(lib, vNew, v);
    SegmentAtLeast(lib, x, v, vNew, xOffset, g);
    if checkedDistance + distanciaSegmento < linkDistance {
      StepsDecrease(linkDistance - checkedDistance, linkDistance - (checkedDistance + distanciaSegmento), delta);
      return false, WalkState(xNew, vNew, checkedDistance + distanciaSegmento);
    } else {
      var lerp := (linkDistance - checkedDistance) / distanciaSegmento;
      return true, Cut(x, v, xNew, vNew, g, lerp);
    }
  }

  /**
   * The loop of `SetLocalLinkPositions`, from the curve's origin with nothing walked: fills
   * joints 1 to Length - 2 and leaves the first and last entries alone. It always ends, because
   * every chord is at least `|xOffset| |target.x|` long.
   */
  method WalkCurve(positions: array<Vec2>, lib: MathLib, target: Vec2, distanceYAxis: real,
                   xOffset: real, linkDistance: real)
    requires 2 <= positions.Length && target.x != 0.0 && SqrtSound(lib.sqrt) && xOffset != 0.0
    modifies positions
    ensures positions[0] == old(positions[0])
    ensures positions[positions.Length - 1] == old(positions[positions.Length - 1])
  {
    var link := 1;
    var state := WalkState(0.0, CurvePoint(0.0, target, distanceYAxis), 0.0);
    ghost var delta := Abs(xOffset) * Abs(target.x);
    MulPositive(Abs(xOffset), Abs(target.x));

    while link < positions.Length - 1
      invariant 1 <= link <= positions.Length - 1
      invariant positions[0] == old(positions[0])
      invariant positions[positions.Length - 1] == old(positions[positions.Length - 1])
      invariant state.v.x == state.x * target.x
      decreases positions.Length - 1 - link, StepsLeft(linkDistance - state.checkedDistance, delta)
    {
      var placed;
      placed, state := WalkStep(lib, target, distanceYAxis, xOffset, linkDistance, delta, state);
      if placed {
        positions[link] := state.v;
        link := link + 1;
      }
    }
  }

  // ---------------------------------------------------------------------------
  // The frustum test

  /** A frustum plane as `PlaneSWR` stores it: unit normal, its component-wise absolute value, offset. */
  datatype Plane = Plane(normal: Vec3, normalAbs: Vec3, distance: real)

  /** An axis-aligned box by centre and half-size. */
  datatype Bounds = Bounds(center: Vec3, extents: Vec3)

  /** The box lies wholly behind the plane: its centre is further behind than its projected radius. */
  predicate BehindPlane(p: Plane, b: Bounds) {
    Dot3(p.normal, b.center) + p.distance < -Dot3(p.normalAbs, b.extents)
  }

  /**
   * `CheckFrustumVisibility(frustumPlanes, bounds)`: the box counts as visible exactly when it lies
   * behind none of the planes; the scan stops at the first plane it lies behind.
   */
  method CheckFrustumVisibility(frustumPlanes: array<Plane>, bounds: Bounds) returns (visible: bool)
    ensures visible <==> forall i :: 0 <= i < frustumPlanes.Length ==> !BehindPlane(frustumPlanes[i], bounds)
  {
    var boundsCenter := bounds.center;
    var boundExtents := bounds.extents;
    var i := 0;
    while i < frustumPlanes.Length
      invariant 0 <= i <= frustumPlanes.Length
      invariant forall j :: 0 <= j < i ==> !BehindPlane(frustumPlanes[j], bounds)
    {
      var normal := frustumPlanes[i].normal;
      var normalAbs := frustumPlanes[i].normalAbs;
      var r := normalAbs.x * boundExtents.x + normalAbs.y * boundExtents.y + normalAbs.z * boundExtents.z;
      var distance := normal.x * boundsCenter.x + normal.y * boundsCenter.y + normal.z * boundsCenter.z
                      + frustumPlanes[i].distance;
      if distance < -r {
        return false;
      }
      i := i + 1;
    }
    return true;
  }

  /**
   * `PlaneSWR.Set(a, b, c, d)`: normalise (a, b, c) by the host magnitude and keep its absolute value.
   * Scaling the stored normal and offset back by that magnitude gives the arguments again.
   */
  function PlaneSet(lib: MathLib, a: real, b: real, c: real, d: real): (p: Plane)
    requires Magnitude3(lib, Vec3(a, b, c)) != 0.0
    ensures var m := Magnitude3(lib, Vec3(a, b, c));
            p.normal.x * m == a && p.normal.y * m == b && p.normal.z * m == c && p.distance * m == d
    ensures p.normalAbs == Vec3(Abs(p.normal.x), Abs(p.normal.y), Abs(p.normal.z))
    ensures 0.0 <= p.normalAbs.x && 0.0 <= p.normalAbs.y && 0.0 <= p.normalAbs.z
  {
    var inverseMagnitude := 1.0 / Magnitude3(lib, Vec3(a, b, c));
    var n := Vec3(a * inverseMagnitude, b * inverseMagnitude, c * inverseMagnitude);
    Plane(n, Vec3(if n.x > 0.0 then n.x else -n.x, if n.y > 0.0 then n.y else -n.y, if n.z > 0.0 then n.z else -n.z),
          d * inverseMagnitude)
  }

  /** With a sound square root, the normal `PlaneSet` stores has length 1. */
  lemma PlaneSetUnit(lib: MathLib, a: real, b: real, c: real, d: real)
    requires SqrtSound(lib.sqrt) && Vec3(a, b, c) != Zero3
    ensures Magnitude3(lib, Vec3(a, b, c)) != 0.0
    ensures SqrMagnitude3(PlaneSet(lib, a, b, c, d).normal) == 1.0
  {
    var v := Vec3(a, b, c);
    var s := SqrMagnitude3(v);
    SqrMagnitudeZero(v);
    RootFacts(lib.sqrt, s);
    var m := Magnitude3(lib, v);
    assert m != 0.0;
    var n := PlaneSet(lib, a, b, c, d).normal;
    calc {
      SqrMagnitude3(n) * (m * m);
      (n.x * m) * (n.x * m) + (n.y * m) * (n.y * m) + (n.z * m) * (n.z * m);
      s;
      1.0 * (m * m);
    }
  }

  /**
   * Culling is conservative for planes built by `PlaneSet`: a box with non-negative extents whose
   * centre is on or in front of a plane is never behind it.
   */
  lemma FrontBoxNotCulled(lib: MathLib, a: real, b: real, c: real, d: real, box: Bounds)
    requires Magnitude3(lib, Vec3(a, b, c)) != 0.0
    requires 0.0 <= box.extents.x && 0.0 <= box.extents.y && 0.0 <= box.extents.z
    requires var p := PlaneSet(lib, a, b, c, d); 0.0 <= Dot3(p.normal, box.center) + p.distance
    ensures !BehindPlane(PlaneSet(lib, a, b, c, d), box)
  {
    var p := PlaneSet(lib, a, b, c, d);
    MulLe(0.0, p.normalAbs.x, box.extents.x);
    MulLe(0.0, p.normalAbs.y, box.extents.y);
    MulLe(0.0, p.normalAbs.z, box.extents.z);
  }

  // ---------------------------------------------------------------------------
  // The component

  /** How a `LateUpdate` ended. */
  datatype Tick = TooFewLinks | MissingAnchor | MissingPrefab | Offscreen | Unchanged | Rebuilt
  {
    /** The frame got past the three guards. */
    predicate PassedGuards() {
      Offscreen? || Unchanged? || Rebuilt?
    }
  }

  /**
   * The rope side of the component as one frame found it: the cached target, mode and widths, the
   * rope's target and sag depth, the rope length, the joint buffer and its contents, and the shared table.
   */
  datatype RopeCache = RopeCache(lastTarget: Vec2, wasRope: bool, lastStartWidth: real, lastEndWidth: real,
                                 ropeTarget: Vec2, sag: real, ropeLength: real,
                                 joints: array?<Vec2>, jointPositions: seq<Vec2>, lutSide: int, lutCells: array?<real>)

  /** The rope side together with the cached aim and the object's rotation. */
  datatype Cache = Cache(rope: RopeCache, lastTrgRot: Vec3, rotation: Quat)

  class FalseChainCreator {
    const qr: QuadRope
    const tluPrecision: int
    var allowStretching: bool
    var isRope: bool
    var lastStartWidth: real
    var lastEndWidth: real
    var lastTarget: Vec2
    var lastTrgRot: Vec3
    var linkJoints: int
    var linkPositions: array?<Vec2>
    var linkSize: real
    var numberOfLinks: int
    var quality: int
    var ropeLength: real
    var scale: real
    var startWidth: real
    var endWidth: real
    var tluResolution: int
    var updateWhenOffscreen: bool
    var wasRope: bool
    /** `transform.position` and `transform.rotation` of the component's object. */
    var position: Vec3
    var rotation: Quat

    /** The field initialisers together with `Start`, which sets the rope length to 1. */
    constructor (qr: QuadRope)
      ensures this.qr == qr && tluPrecision == 16
      ensures numberOfLinks == 15 && quality == 30 && tluResolution == 128 && linkSize == 1.0
      ensures startWidth == 0.1 && endWidth == 0.1 && ropeLength == 1.0
      ensures !allowStretching && !isRope && !wasRope && !updateWhenOffscreen
      ensures linkPositions == null
    {
      this.qr := qr;
      tluPrecision := 16;
      allowStretching := false;
      isRope := false;
      lastStartWidth := 0.0;
      lastEndWidth := 0.0;
      lastTarget := Vec2(0.0, 0.0);
      lastTrgRot := Zero3;
      linkJoints := 0;
      linkPositions := null;
      linkSize := 1.0;
      numberOfLinks := 15;
      quality := 30;
      ropeLength := 1.0;
      scale := 0.0;
      startWidth := 0.1;
      endWidth := 0.1;
      tluResolution := 128;
      updateWhenOffscreen := false;
      wasRope := false;
      position := Zero3;
      rotation := Quat(0.0, 0.0, 0.0, 1.0);
    }

    /** Whether the rope must be re-solved for `target`: it moved (by Unity's approximate `!=`) or a setting changed. */
    predicate NeedsRebuild(target: Vec2)
      reads this`lastTarget, this`isRope, this`wasRope, this`startWidth, this`lastStartWidth
      reads this`endWidth, this`lastEndWidth
    {
      !Same2(target, lastTarget) || isRope != wasRope || startWidth != lastStartWidth || endWidth != lastEndWidth
    }

    /** Whether a frame with rope target `target` re-solves the rope: something changed and the chain is visible or updates off screen. */
    predicate WouldRebuild(target: Vec2, visible: bool)
      reads this`lastTarget, this`isRope, this`wasRope, this`startWidth, this`lastStartWidth
      reads this`endWidth, this`lastEndWidth, this`updateWhenOffscreen
    {
      NeedsRebuild(target) && (updateWhenOffscreen || visible)
    }

    /** Whether a frame with rope target `target` can be carried out: it either leaves the rope alone or has the settings a rebuild needs. */
    predicate Solvable(target: Vec2, visible: bool)
      reads this`lastTarget, this`isRope, this`wasRope, this`startWidth, this`lastStartWidth
      reads this`endWidth, this`lastEndWidth, this`updateWhenOffscreen, this`quality, this`tluResolution, qr.lut
    {
      WouldRebuild(target, visible) ==> RebuildSupported()
    }

    /**
     * The settings a rebuild needs: a sample count other than 1 (for which the walk's step is 1/0),
     * and a table already built or a positive table resolution to build one.
     */
    predicate RebuildSupported()
      reads this`quality, this`tluResolution, qr.lut
    {
      quality != 1 && (qr.lut.cells != null || 1 <= tluResolution)
    }

    /** Whether a frame gets past the three guards of `LateUpdate`. */
    predicate PassesGuards(start: Option<Vec3>, end: Option<Vec3>, hasLinkPrefab: bool)
      reads this`numberOfLinks, this`isRope
    {
      2 <= numberOfLinks + 1 && start.Some? && end.Some? && (hasLinkPrefab || isRope)
    }

    /**
     * `SetLocalLinkPositions()`: walk the curve in `quality - 1` equal x steps, dropping a joint each
     * time the walked arc length reaches 1/numberOfLinks of the rope's length (interpolating inside
     * the last step); the first joint is the curve's origin and the last is snapped to the target.
     * The buffer is reused when it already has `linkJoints` entries. A `quality` of 0 or less walks
     * with a negative step.
     */
    method SetLocalLinkPositions()
      requires qr.Ready() && SqrtSound(qr.lib.sqrt)
      requires linkJoints == numberOfLinks + 1 && 2 <= linkJoints && quality != 1
      modifies this`linkPositions, this`ropeLength, linkPositions
      ensures linkPositions != null && linkPositions.Length == linkJoints
      ensures old(linkPositions) != null && old(linkPositions).Length == linkJoints ==> linkPositions == old(linkPositions)
      ensures linkPositions[0] == qr.At(0.0) && linkPositions[0] == Vec2(0.0, 0.0)
      ensures linkPositions[linkJoints - 1] == qr.GetTarget()
      ensures ropeLength == qr.CurveLength()
    {
      if linkPositions == null || linkPositions.Length != linkJoints {
        linkPositions := new Vec2[linkJoints];
      }
      var positions := linkPositions;
      positions[0] := qr.At(0.0);

      ropeLength := qr.CurveLength();

      var xOffset := 1.0 / (quality - 1) as real;
      var linkDistance := 1.0 / numberOfLinks as real * ropeLength;
      WalkCurve(positions, qr.lib, qr.target, qr.distanceYAxis, xOffset, linkDistance);

      positions[positions.Length - 1] := qr.GetTarget();
    }

    /**
     * The change branch of `LateUpdate` once the chain is known to be visible: cache the target and
     * widths, re-solve the rope, re-place the joints, and switch between rope and link rendering.
     */
    method Rebuild(target: Vec2)
      requires SqrtSound(qr.lib.sqrt) && qr.lut.Valid() && 0.0 < target.x
      requires RebuildSupported() && linkJoints == numberOfLinks + 1 && 2 <= linkJoints
      modifies this`lastTarget, this`lastStartWidth, this`lastEndWidth, this`wasRope
      modifies this`linkPositions, this`ropeLength, qr, qr.lut, linkPositions
      ensures qr.lut.Valid() && old(qr.lut.side) <= qr.lut.side
      ensures RebuiltFor(target)
    {
      Retarget(target);
      SetLocalLinkPositions();
      Remember(target);
    }

    /**
     * Cache the target, the widths and the rendering mode the chain was rebuilt with (the rope or
     * link renderers are rebuilt here too; only the mode switch is modelled).
     */
    method Remember(target: Vec2)
      modifies this`lastTarget, this`lastStartWidth, this`lastEndWidth, this`wasRope
      ensures lastTarget == target && lastStartWidth == startWidth && lastEndWidth == endWidth && wasRope == isRope
      ensures !NeedsRebuild(target)
    {
      lastTarget := target;
      lastStartWidth := startWidth;
      lastEndWidth := endWidth;
      wasRope := isRope;
    }

    /** Re-solve the rope for `target` with the configured table resolution, precision and stretching. */
    method Retarget(target: Vec2)
      requires SqrtSound(qr.lib.sqrt) && qr.lut.Valid() && 0.0 < target.x
      requires qr.lut.cells != null || 1 <= tluResolution
      modifies qr, qr.lut
      ensures qr.lut.Valid() && old(qr.lut.side) <= qr.lut.side && qr.Ready()
      ensures qr.SolvedFor(target, allowStretching)
    {
      qr.SetTarget(target, tluResolution, tluPrecision, allowStretching);
    }

    /** The rope side of the component now. */
    function RopeSnapshot(): RopeCache
      reads this`lastTarget, this`wasRope, this`lastStartWidth, this`lastEndWidth, this`ropeLength
      reads this`linkPositions, linkPositions, qr, qr.lut
    {
      RopeCache(lastTarget, wasRope, lastStartWidth, lastEndWidth, qr.target, qr.distanceYAxis, ropeLength,
                linkPositions, if linkPositions == null then [] else linkPositions[..], qr.lut.side, qr.lut.cells)
    }

    /** What a frame compares against and may overwrite: the rope side, the cached aim and the rotation. */
    function Snapshot(): Cache
      reads this`lastTarget, this`wasRope, this`lastStartWidth, this`lastEndWidth, this`ropeLength
      reads this`linkPositions, linkPositions, qr, qr.lut, this`lastTrgRot, this`rotation
    {
      Cache(RopeSnapshot(), lastTrgRot, rotation)
    }

    /** `NeedsRebuild` against the cache `c` taken at the start of the frame. */
    predicate Stale(c: Cache, target: Vec2)
      reads this`isRope, this`startWidth, this`endWidth
    {
      || !Same2(target, c.rope.lastTarget) || isRope != c.rope.wasRope
      || startWidth != c.rope.lastStartWidth || endWidth != c.rope.lastEndWidth
    }

    /**
     * What the change detection did, against the cache `c` it started from: nothing when the target
     * and the settings matched, a skip for an invisible chain that does not update off screen, and
     * otherwise a rebuild for `target`; the whole rope side is left as it was unless it is rebuilt.
     */
    ghost predicate ResolvedFrom(c: Cache, target: Vec2, visible: bool, tick: Tick)
      reads this`lastTarget, this`isRope, this`wasRope, this`startWidth, this`lastStartWidth
      reads this`endWidth, this`lastEndWidth, this`allowStretching, this`linkPositions
      reads this`linkJoints, this`ropeLength, this`updateWhenOffscreen, qr, qr.lut, qr.lut.cells, linkPositions
    {
      && tick.PassedGuards()
      && (tick == Unchanged <==> !Stale(c, target))
      && (tick == Offscreen <==> Stale(c, target) && !updateWhenOffscreen && !visible)
      && (tick == Rebuilt ==> RebuiltFor(target))
      && (tick != Rebuilt ==> RopeSnapshot() == c.rope)
    }

    /** Unless the frame skipped, the object was turned to `trgRot` whenever that moved away from the cached aim in `c`. */
    predicate AimedFrom(c: Cache, trgRot: Vec3, tick: Tick, fromToRotation: Vec3 -> Quat)
      reads this`lastTrgRot, this`rotation
    {
      && (tick == Offscreen ==> lastTrgRot == c.lastTrgRot && rotation == c.rotation)
      && (tick != Offscreen ==>
            && lastTrgRot == (if Same3(trgRot, c.lastTrgRot) then c.lastTrgRot else trgRot)
            && rotation == (if Same3(trgRot, c.lastTrgRot) then c.rotation else fromToRotation(trgRot)))
    }

    /**
     * What a frame that got past the guards did, from the anchors it read and the cache `c` it
     * started from: it set the scale and moved the object to the start anchor; the rope target's
     * change against the cache decided between doing nothing more to the rope, skipping an
     * invisible chain, and rebuilding; and unless it skipped, it re-aimed the object at the anchor
     * offset whenever that moved.
     */
    ghost predicate FollowedAnchors(c: Cache, sPos: Vec3, ePos: Vec3, lossyScale: Vec3, visible: bool,
                                    fromToRotation: Vec3 -> Quat, tick: Tick)
      requires lossyScale.x != 0.0 && lossyScale.y != 0.0 && lossyScale.z != 0.0
      reads this`scale, this`position, this`numberOfLinks, this`linkSize, this`lastTrgRot, this`rotation
      reads this`lastTarget, this`isRope, this`wasRope, this`startWidth, this`lastStartWidth
      reads this`endWidth, this`lastEndWidth, this`allowStretching, this`linkPositions
      reads this`linkJoints, this`ropeLength, this`updateWhenOffscreen, qr, qr.lut, qr.lut.cells, linkPositions
    {
      // Bound to a name, so that callers prove it as one fact rather than conjunct by conjunct.
      var offset := ScaledOffset(sPos, ePos, lossyScale);
      var followed :=
        && scale == ChainScale(numberOfLinks, linkSize) && 0.0 < scale
        && position == sPos
        && ResolvedFrom(c, RopeTarget(qr.lib, offset, scale), visible, tick)
        && AimedFrom(c, Vec3(offset.x, 0.0, offset.z), tick, fromToRotation);
      followed
    }

    /**
     * The change detection of `LateUpdate`: nothing happens when the rope target and the settings
     * match the cache, an invisible chain is skipped unless it updates while off screen, and
     * otherwise the rope is rebuilt for `target`.
     */
    method Resolve(target: Vec2, visible: bool) returns (tick: Tick)
      requires SqrtSound(qr.lib.sqrt) && qr.lut.Valid() && 0.0 < target.x
      requires linkJoints == numberOfLinks + 1 && 2 <= linkJoints
      requires Solvable(target, visible)
      modifies this`lastTarget, this`lastStartWidth, this`lastEndWidth, this`wasRope
      modifies this`linkPositions, this`ropeLength, qr, qr.lut, linkPositions
      ensures qr.lut.Valid() && old(qr.lut.side) <= qr.lut.side
      ensures tick.PassedGuards()
      ensures ResolvedFrom(old(Snapshot()), target, visible, tick)
    {
      if !NeedsRebuild(target) {
        return Unchanged;
      }
      if !updateWhenOffscreen && !visible {
        return Offscreen;
      }
      Rebuild(target);
      tick := Rebuilt;
    }

    /** The state a rebuild for `target` leaves behind. */
    ghost predicate RebuiltFor(target: Vec2)
      reads this`lastTarget, this`isRope, this`wasRope, this`startWidth, this`lastStartWidth
      reads this`endWidth, this`lastEndWidth, this`allowStretching, this`linkPositions
      reads this`linkJoints, this`ropeLength, qr, qr.lut, qr.lut.cells, linkPositions
    {
      && lastTarget == target && wasRope == isRope
      && lastStartWidth == startWidth && lastEndWidth == endWidth
      && !NeedsRebuild(target)
      && qr.SolvedFor(target, allowStretching)
      && linkPositions != null && linkPositions.Length == linkJoints && 2 <= linkJoints
      && linkPositions[0] == Vec2(0.0, 0.0)
      && linkPositions[linkJoints - 1] == qr.target
      && qr.Ready() && ropeLength == qr.CurveLength()
    }

    /** The part of `LateUpdate` after its guards, with both anchors present. */
    method FollowAnchors(sPos: Vec3, ePos: Vec3, lossyScale: Vec3, visible: bool, fromToRotation: Vec3 -> Quat)
      returns (tick: Tick)
      requires SqrtSound(qr.lib.sqrt) && qr.lut.Valid()
      requires linkJoints == numberOfLinks + 1 && 2 <= linkJoints && 0.0 < linkSize
      requires lossyScale.x != 0.0 && lossyScale.y != 0.0 && lossyScale.z != 0.0
      requires var scale := ChainScale(numberOfLinks, linkSize);
               scale != 0.0 ==> Solvable(RopeTarget(qr.lib, ScaledOffset(sPos, ePos, lossyScale), scale), visible)
      modifies this`lastTarget, this`lastStartWidth, this`lastEndWidth, this`wasRope
      modifies this`linkPositions, this`ropeLength, qr, qr.lut, linkPositions
      modifies this`scale, this`position, this`lastTrgRot, this`rotation
      ensures qr.lut.Valid() && old(qr.lut.side) <= qr.lut.side
      ensures tick.PassedGuards()
      ensures FollowedAnchors(old(Snapshot()), sPos, ePos, lossyScale, visible, fromToRotation, tick)
    {
      var target := Place(sPos, ePos, lossyScale);
      var fromToScaled := ScaledOffset(sPos, ePos, lossyScale);
      tick := ResolveAndAim(target, Vec3(fromToScaled.x, 0.0, fromToScaled.z), visible, fromToRotation);
    }

    /** The change detection for `target` followed, unless the chain was skipped off screen, by the re-aim at `trgRot`. */
    method ResolveAndAim(target: Vec2, trgRot: Vec3, visible: bool, fromToRotation: Vec3 -> Quat) returns (tick: Tick)
      requires SqrtSound(qr.lib.sqrt) && qr.lut.Valid() && 0.0 < target.x
      requires linkJoints == numberOfLinks + 1 && 2 <= linkJoints && Solvable(target, visible)
      modifies this`lastTarget, this`lastStartWidth, this`lastEndWidth, this`wasRope
      modifies this`linkPositions, this`ropeLength, qr, qr.lut, linkPositions, this`lastTrgRot, this`rotation
      ensures qr.lut.Valid() && old(qr.lut.side) <= qr.lut.side
      ensures tick.PassedGuards()
      ensures ResolvedFrom(old(Snapshot()), target, visible, tick)
      ensures AimedFrom(old(Snapshot()), trgRot, tick, fromToRotation)
    {
      ghost var c := Snapshot();
      tick := Resolve(target, visible);
      if tick == Offscreen {
        return;
      }
      Reaim(trgRot, fromToRotation, c, target, visible, tick);
    }

    /**
     * Size the chain, move the object to the start anchor, and compute the rope target from the
     * anchor offset measured in the object's own scale.
     */
    method Place(sPos: Vec3, ePos: Vec3, lossyScale: Vec3) returns (target: Vec2)
      requires SqrtSound(qr.lib.sqrt) && 1 <= numberOfLinks && 0.0 < linkSize
      requires lossyScale.x != 0.0 && lossyScale.y != 0.0 && lossyScale.z != 0.0
      modifies this`scale, this`position
      ensures scale == ChainScale(numberOfLinks, linkSize) && 0.0 < scale && position == sPos
      ensures target == RopeTarget(qr.lib, ScaledOffset(sPos, ePos, lossyScale), scale) && 0.0 < target.x
    {
      scale := ChainScale(numberOfLinks, linkSize);
      MulPositive(numberOfLinks as real, linkSize);
      position := sPos;
      target := RopeTarget(qr.lib, ScaledOffset(sPos, ePos, lossyScale), scale);
      RopeTargetAhead(qr.lib, sPos, ePos, lossyScale, scale);
    }

    /**
     * Turn the object to face `trgRot` when it differs (by Unity's approximate `!=`) from the cached
     * direction. Re-aiming leaves the outcome of the change detection (`ResolvedFrom`) as it was.
     */
    method Reaim(trgRot: Vec3, fromToRotation: Vec3 -> Quat, ghost c: Cache, ghost target: Vec2, ghost visible: bool, ghost tick: Tick)
      modifies this`lastTrgRot, this`rotation
      ensures lastTrgRot == (if Same3(trgRot, old(lastTrgRot)) then old(lastTrgRot) else trgRot)
      ensures rotation == (if Same3(trgRot, old(lastTrgRot)) then old(rotation) else fromToRotation(trgRot))
      ensures old(ResolvedFrom(c, target, visible, tick)) ==> ResolvedFrom(c, target, visible, tick)
    {
      if !Same3(trgRot, lastTrgRot) {
        lastTrgRot := trgRot;
        rotation := fromToRotation(trgRot);
      }
    }

    /**
     * `LateUpdate()` with the scene read supplied: the two anchors (None for a missing transform),
     * whether a link prefab is set, the object's lossy scale, whether the camera helper reports the
     * chain's bounds visible, and the host's `Quaternion.FromToRotation(Vector3.right, _)`.
     */
    method LateUpdate(start: Option<Vec3>, end: Option<Vec3>, hasLinkPrefab: bool, lossyScale: Vec3,
                      visible: bool, fromToRotation: Vec3 -> Quat)
      returns (tick: Tick)
      requires SqrtSound(qr.lib.sqrt) && qr.lut.Valid()
      requires PassesGuards(start, end, hasLinkPrefab) ==>
                 && lossyScale.x != 0.0 && lossyScale.y != 0.0 && lossyScale.z != 0.0
                 && var scale := ChainScale(numberOfLinks, if linkSize <= 0.0 then 0.001 else linkSize);
                    scale != 0.0 ==> Solvable(RopeTarget(qr.lib, ScaledOffset(start.value, end.value, lossyScale), scale), visible)
      modifies this`lastTarget, this`lastStartWidth, this`lastEndWidth, this`wasRope
      modifies this`linkPositions, this`ropeLength, qr, qr.lut, linkPositions
      modifies this`scale, this`position, this`lastTrgRot, this`rotation, this`linkJoints, this`linkSize
      ensures qr.lut.Valid() && old(qr.lut.side) <= qr.lut.side
      ensures linkJoints == numberOfLinks + 1
      // The guards, in order.
      ensures tick == TooFewLinks <==> numberOfLinks + 1 < 2
      ensures tick == TooFewLinks ==> linkSize == old(linkSize)
      ensures tick != TooFewLinks ==> linkSize == (if old(linkSize) <= 0.0 then 0.001 else old(linkSize))
      ensures tick == MissingAnchor <==> 2 <= numberOfLinks + 1 && (start.None? || end.None?)
      ensures tick == MissingPrefab <==>
                2 <= numberOfLinks + 1 && start.Some? && end.Some? && !hasLinkPrefab && !isRope
      // Nothing but the guards' own writes happens before the guards pass.
      ensures !tick.PassedGuards() ==> Snapshot() == old(Snapshot()) && scale == old(scale) && position == old(position)
      ensures tick.PassedGuards() ==> old(PassesGuards(start, end, hasLinkPrefab))
      ensures tick.PassedGuards() ==>
                start.Some? && end.Some? && FollowedAnchors(old(Snapshot()), start.value, end.value, lossyScale, visible, fromToRotation, tick)
    {
      var stop := CheckGuards(start, end, hasLinkPrefab);
      if stop.Some? {
        return stop.value;
      }
      tick := FollowAnchors(start.value, end.value, lossyScale, visible, fromToRotation);
    }

    /** The guards of `LateUpdate` with their writes: the joint count, then a non-positive link size raised to 0.001. */
    method CheckGuards(start: Option<Vec3>, end: Option<Vec3>, hasLinkPrefab: bool) returns (stop: Option<Tick>)
      modifies this`linkJoints, this`linkSize
      ensures linkJoints == numberOfLinks + 1
      ensures stop == Some(TooFewLinks) <==> numberOfLinks + 1 < 2
      ensures stop != Some(TooFewLinks) ==> linkSize == (if old(linkSize) <= 0.0 then 0.001 else old(linkSize))
      ensures stop == Some(TooFewLinks) ==> linkSize == old(linkSize)
      ensures stop == Some(MissingAnchor) <==> 2 <= numberOfLinks + 1 && (start.None? || end.None?)
      ensures stop == Some(MissingPrefab) <==>
                2 <= numberOfLinks + 1 && start.Some? && end.Some? && !hasLinkPrefab && !isRope
      ensures stop.None? <==> PassesGuards(start, end, hasLinkPrefab)
      ensures stop.Some? ==> !stop.value.PassedGuards()
    {
      linkJoints := numberOfLinks + 1;
      if linkJoints < 2 {
        return Some(TooFewLinks);
      }
      if linkSize <= 0.0 {
        linkSize := 0.001;
      }
      if start.None? || end.None? {
        return Some(MissingAnchor);
      }
      if !hasLinkPrefab && !isRope {
        return Some(MissingPrefab);
      }
      stop := None;
    }
  }
}
