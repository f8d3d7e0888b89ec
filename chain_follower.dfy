/**
 * `DickController`: a chain of transforms laid along a two-leg path from a start anchor through
 * a middle anchor to an end anchor. Each frame it pulls the middle and end anchors towards a
 * navigator, measures a pull factor against a proxy, drives three blend shapes from that factor
 * and places every chain link on the path, turning the previous link towards the next.
 */
module ChainFollower {
  import opened Wrappers
  import opened UnityMath

  // ---------------------------------------------------------------------------
  // The path

  /**
   * `Linear(p0, p1, p2, mp, t)`: the point at parameter `t` of the path p0 -> p1 -> p2 whose
   * bend sits at parameter `mp`. Each leg is a clamped `Vector3.Lerp`, so the path starts at p0
   * (for every `t` at or below 0), passes through p1 at the bend and ends at p2 (for every `t`
   * at or above 1 past the bend). A bend at 1 (a second leg of length zero) makes the C# divide a
   * positive number by 0 for every `t` past it; the `+Infinity` it gets is clamped to 1 by the `Lerp`.
   */
  function Linear(p0: Vec3, p1: Vec3, p2: Vec3, mp: real, t: real): (p: Vec3)
    requires 0.0 < mp <= 1.0
    ensures t <= 0.0 ==> p == p0
    ensures t == mp ==> p == p1
    ensures mp < t && 1.0 <= t ==> p == p2
  {
    LegParameters(mp, t);
    if t <= mp then Lerp3(p0, p1, t * (1.0 / mp))
    else if mp == 1.0 then Lerp3(p1, p2, 1.0)  // (t - 1) / 0 is +Infinity
    else Lerp3(p1, p2, (t - mp * 1.0) / (1.0 - mp))
  }

  /** Where the two legs' interpolation parameters fall at the start, the bend and the end. */
  lemma LegParameters(mp: real, t: real)
    requires 0.0 < mp <= 1.0
    ensures t <= 0.0 ==> t * (1.0 / mp) <= 0.0
    ensures mp * (1.0 / mp) == 1.0
    ensures mp < 1.0 <= t ==> 1.0 <= (t - mp * 1.0) / (1.0 - mp)
  {
    if t <= 0.0 {
      MulNonPositive(t, 1.0 / mp);
    }
    if mp < 1.0 <= t {
      DivAtLeastOne(t - mp, 1.0 - mp);
    }
  }

  lemma MulNonPositive(a: real, b: real)
    requires a <= 0.0 && 0.0 < b
    ensures a * b <= 0.0
  {
  }

  lemma DivAtLeastOne(a: real, b: real)
    requires 0.0 < b <= a
    ensures 1.0 <= a / b
  {
  }

  // ---------------------------------------------------------------------------
  // Update: the navigator blend and the pull factor

  /**
   * The navigator weight of `Update`: 1 while the navigator is within the docking distance
   * (`distFactor` at most 1), falling linearly to 0 at twice that distance.
   */
  function NavigatorLerpFactor(distFactor: real): (f: real)
    ensures 0.0 <= f <= 1.0
    ensures distFactor <= 1.0 ==> f == 1.0
    ensures 2.0 <= distFactor ==> f == 0.0
    ensures 1.0 < distFactor < 2.0 ==> 0.0 < f < 1.0
  {
    1.0 - Clamp(distFactor - 1.0, 0.0, 1.0)
  }

  /**
   * The navigator's distance from the start anchor in units of the scaled docking distance: with a
   * positive unit, at most 1 exactly within one unit and at least 2 exactly from two units on.
   */
  function DistFactor(dist: real, dockDistance: real, benisScale: real): (f: real)
    requires dockDistance * 1.25 * benisScale != 0.0
    ensures f * (dockDistance * 1.25 * benisScale) == dist
    ensures var unit := dockDistance * 1.25 * benisScale;
            0.0 < unit ==> (f <= 1.0 <==> dist <= unit) && (2.0 <= f <==> 2.0 * unit <= dist)
  {
    var unit := dockDistance * 1.25 * benisScale;
    var f := dist / unit;
    assert f * unit == dist;
    UnitsCompare(f, unit, dist);
    f
  }

  /** A count `f` of positive units `unit` is at most 1 (at least 2) exactly when `f * unit` is at most one (at least two) units. */
  lemma UnitsCompare(f: real, unit: real, dist: real)
    requires f * unit == dist
    ensures 0.0 < unit ==> (f <= 1.0 <==> dist <= unit) && (2.0 <= f <==> 2.0 * unit <= dist)
  {
    MulCompare(f, 1.0, unit);
    assert 1.0 * unit == unit;
    MulCompare(2.0, f, unit);
    assert f * unit == dist;
  }

  /** Multiplying by a positive number keeps the order of two numbers, in both directions. */
  lemma MulCompare(a: real, b: real, k: real)
    ensures 0.0 < k ==> (a <= b <==> a * k <= b * k)
  {
    if k <= 0.0 {
    } else if a <= b {
      assert (b - a) * k >= 0.0;
    } else {
      assert (a - b) * k > 0.0;
    }
  }

  /**
   * Where a blended anchor goes: from its rest point above the start towards the navigator's point.
   * A docked navigator carries the anchor with it; one at least twice the docking distance away
   * leaves it at rest.
   */
  function Blended(rest: Vec3, navigatorPoint: Vec3, distFactor: real): (p: Vec3)
    ensures distFactor <= 1.0 ==> p == navigatorPoint
    ensures 2.0 <= distFactor ==> p == rest
  {
    Lerp3(rest, navigatorPoint, NavigatorLerpFactor(distFactor))
  }

  /**
   * The pull factor of `Update`: the pull root's height above the proxy, measured along the root's
   * up axis (the distance times the cosine between `root - proxy` and up), over `pullLength`, times
   * the object's scale, clamped to [-1, 1].
   */
  function PullFactor(distance: real, crossDot: real, pullLength: real, benisScale: real): (f: real)
    requires pullLength != 0.0
    ensures -1.0 <= f <= 1.0
  {
    Clamp(distance * crossDot / pullLength * benisScale, -1.0, 1.0)
  }

  /**
   * With a positive distance, pull length and scale, the pull factor has the sign of the cosine
   * between `root - proxy` and the root's up axis: a proxy below the root (against up) pulls, one
   * above it (along up) pushes, one level with the root does neither.
   */
  lemma PullFactorSign(distance: real, crossDot: real, pullLength: real, benisScale: real)
    requires 0.0 < distance && 0.0 < pullLength && 0.0 < benisScale
    ensures 0.0 < PullFactor(distance, crossDot, pullLength, benisScale) <==> 0.0 < crossDot
    ensures PullFactor(distance, crossDot, pullLength, benisScale) < 0.0 <==> crossDot < 0.0
  {
    var raw := distance * crossDot / pullLength * benisScale;
    var k := distance / pullLength * benisScale;
    assert 0.0 < k by {
      assert 0.0 < distance / pullLength;
    }
    assert raw == crossDot * k;
    SignOfProduct(crossDot, k);
  }

  lemma SignOfProduct(a: real, k: real)
    requires 0.0 < k
    ensures 0.0 < a * k <==> 0.0 < a
    ensures a * k < 0.0 <==> a < 0.0
  {
    if a > 0.0 {
      assert 0.0 < a * k;
    } else if a < 0.0 {
      assert a * k < 0.0;
    }
  }

  // ---------------------------------------------------------------------------
  // LateUpdate: the blend-shape weights

  /** The three blend shapes, in the order of `DickShapes`: their position in the shape-key table. */
  const Pull: int := 0
  const Push: int := 1
  const PushForwardSkin: int := 2

  /** The weights `LateUpdate` gives the pull, push and push-forward-skin shapes. */
  datatype Weights = Weights(pull: real, push: real, pushForwardSkin: real)

  /**
   * A non-negative pull factor drives only the pull shape, by 100 times its size and capped at 50;
   * a negative one drives both push shapes equally by 100 times its size and zeroes the pull shape.
   * So pulling and pushing never both carry weight, each is active exactly on its side of 0, and a
   * clamped factor keeps every weight within [0, 100].
   */
  function BlendWeights(pullFactor: real): (w: Weights)
    ensures 0.0 <= w.pull <= 50.0 && 0.0 <= w.push && w.push == w.pushForwardSkin
    ensures w.pull == 0.0 || w.push == 0.0
    ensures 0.0 < w.pull <==> 0.0 < pullFactor
    ensures 0.0 < w.push <==> pullFactor < 0.0
    ensures 0.0 <= pullFactor ==> w.pull == Min(50.0, 100.0 * Abs(pullFactor))
    ensures pullFactor < 0.0 ==> w.push == 100.0 * Abs(pullFactor)
    ensures -1.0 <= pullFactor ==> w.push <= 100.0
  {
    if pullFactor >= 0.0 then Weights(Min(50.0, pullFactor * 100.0), 0.0, 0.0)
    else
      var f := pullFactor * -1.0;
      Weights(0.0, f * 100.0, f * 100.0)
  }

  // ---------------------------------------------------------------------------
  // Start: the shape-key table

  /** `BlendshapeDictionary`: the position in the table for a recognised blend shape name. */
  function ShapeSlot(name: string): Option<int> {
    if name == "pull" then Some(Pull)
    else if name == "push" then Some(Push)
    else if name == "pushfskin" then Some(PushForwardSkin)
    else None
  }

  /** The dictionary's three names are told apart by their characters. */
  lemma SlotsOfNames()
    ensures ShapeSlot("pull") == Some(Pull) && ShapeSlot("push") == Some(Push)
    ensures ShapeSlot("pushfskin") == Some(PushForwardSkin) && ShapeSlot("base") == None
    ensures forall name :: name != "pull" && name != "push" && name != "pushfskin" ==> ShapeSlot(name) == None
  {
    assert "push"[2] != "pull"[2];
    assert "pushfskin"[2] != "pull"[2] && |"pushfskin"| != |"push"|;
    assert "base"[0] != "pull"[0] && "base"[0] != "push"[0] && "base"[0] != "pushfskin"[0];
  }

  /** The number of entries in `BlendshapeDictionary`. */
  const ShapeCount: int := 3

  /** `List<int>.Insert(p, v)`: defined for 0 <= p <= |l|, shifting the tail up by one. */
  function InsertAt(l: seq<int>, p: int, v: int): (r: seq<int>)
    requires 0 <= p <= |l|
    ensures |r| == |l| + 1 && r[p] == v
    ensures r[..p] == l[..p] && r[p + 1..] == l[p..]
  {
    l[..p] + [v] + l[p..]
  }

  /**
   * The table after `Start` has looked at blend shapes 0 .. i-1 whose names are `names`, inserting
   * each recognised shape's index at its slot; None once an insert lies past the end of the list
   * (where `List.Insert` throws and `Start` stops).
   */
  function ShapeTable(list: seq<int>, names: seq<string>, i: nat): Option<seq<int>>
    requires i <= |names|
  {
    if i == 0 then Some(list)
    else
      match ShapeTable(list, names, i - 1)
      case None => None
      case Some(l) =>
        match ShapeSlot(names[i - 1])
        case None => Some(l)
        case Some(p) => if p > |l| then None else Some(InsertAt(l, p, i - 1))
  }

  /** Once an insert has failed, `Start` has stopped: the table stays failed. */
  lemma {:induction false} NoneStaysNone(list: seq<int>, names: seq<string>, i: nat, j: nat)
    requires i <= j <= |names| && ShapeTable(list, names, i).None?
    ensures ShapeTable(list, names, j).None?
    decreases j - i
  {
    if i < j {
      NoneStep(list, names, i);
      NoneStaysNone(list, names, i + 1, j);
    }
  }

  lemma NoneStep(list: seq<int>, names: seq<string>, i: nat)
    requires i < |names| && ShapeTable(list, names, i).None?
    ensures ShapeTable(list, names, i + 1).None?
  {
  }

  /** How many of the names are recognised blend shapes. */
  function Recognised(names: seq<string>): nat {
    if names == [] then 0 else Recognised(names[..|names| - 1]) + (if ShapeSlot(names[|names| - 1]).Some? then 1 else 0)
  }

  /** A table that was built without an insert failing gained one entry per recognised name. */
  lemma {:induction false} ShapeTableLength(list: seq<int>, names: seq<string>, i: nat)
    requires i <= |names| && ShapeTable(list, names, i).Some?
    ensures |ShapeTable(list, names, i).value| == |list| + Recognised(names[..i])
  {
    if i > 0 {
      assert names[..i][..i - 1] == names[..i - 1];
      ShapeTableLength(list, names, i - 1);
    }
  }

  /** Every entry of a table built from an empty list is the index of a blend shape looked at. */
  lemma {:induction false} ShapeTableIndices(names: seq<string>, i: nat)
    requires i <= |names| && ShapeTable([], names, i).Some?
    ensures forall k :: 0 <= k < |ShapeTable([], names, i).value| ==> 0 <= ShapeTable([], names, i).value[k] < i
  {
    if i > 0 {
      ShapeTableIndices(names, i - 1);
      var l := ShapeTable([], names, i - 1).value;
      if ShapeSlot(names[i - 1]).Some? {
        var p := ShapeSlot(names[i - 1]).value;
        var r := InsertAt(l, p, i - 1);
        forall k | 0 <= k < |r|
          ensures 0 <= r[k] < i
        {
          if k < p {
            assert r[k] == r[..p][k] == l[..p][k] == l[k];
          } else if p < k {
            assert r[k] == r[p + 1..][k - p - 1] == l[p..][k - p - 1] == l[k - 1];
          }
        }
      }
    }
  }

  /** Blend shapes named in the enum's order fill the table in that order. */
  lemma InOrderFillsTable()
    ensures ShapeTable([], ["pull", "push", "pushfskin"], 3) == Some([0, 1, 2])
  {
    SlotsOfNames();
    var names := ["pull", "push", "pushfskin"];
    assert names[0] == "pull" && names[1] == "push" && names[2] == "pushfskin";
    assert ShapeTable([], names, 0) == Some([]);
    assert InsertAt([], 0, 0) == [0];
    assert ShapeTable([], names, 1) == Some([0]);
    assert InsertAt([0], 1, 1) == [0, 1];
    assert ShapeTable([], names, 2) == Some([0, 1]);
    assert InsertAt([0, 1], 2, 2) == [0, 1, 2];
  }

  /** Any other order makes an insert land past the end of the list: "push" first is inserted at 1 into an empty list. */
  lemma OutOfOrderFails()
    ensures ShapeTable([], ["push", "pull", "pushfskin"], 3) == None
  {
    SlotsOfNames();
    var names := ["push", "pull", "pushfskin"];
    assert names[0] == "push";
    assert ShapeTable([], names, 0) == Some([]);
    assert ShapeTable([], names, 1) == None;
    NoneStaysNone([], names, 1, 3);
  }

  /** Unrecognised blend shapes are skipped but keep their index: the table holds mesh indices. */
  lemma SkipsOtherShapes()
    ensures ShapeTable([], ["base", "pull", "push", "pushfskin"], 4) == Some([1, 2, 3])
  {
    SlotsOfNames();
    var names := ["base", "pull", "push", "pushfskin"];
    assert names[0] == "base" && names[1] == "pull" && names[2] == "push" && names[3] == "pushfskin";
    assert ShapeTable([], names, 1) == Some([]);
    assert InsertAt([], 0, 1) == [1];
    assert ShapeTable([], names, 2) == Some([1]);
    assert InsertAt([1], 1, 2) == [1, 2];
    assert ShapeTable([], names, 3) == Some([1, 2]);
    assert InsertAt([1, 2], 2, 3) == [1, 2, 3];
  }

  // ---------------------------------------------------------------------------
  // The controller

  /** The link-placement parameter of link `index`: 0 for the first, `index * chainLength * benisScale` after. */
  function LinkParameter(index: int, chainLength: real, benisScale: real): (t: real)
    ensures t == index as real * chainLength * benisScale
  {
    if index != 0 then index as real * chainLength * benisScale else 0.0
  }

  /**
   * The last of n links sits at parameter s * s * firstDistance / benisLength, where s is the scale
   * and firstDistance the path length recorded at `Start` (before scaling): on the end anchor once
   * the scaled recorded length reaches the current one, so in particular for an unchanged path at
   * unit scale (with a bend at 1, the second leg has length zero and its two ends coincide). The
   * links are spread evenly in parameter.
   */
  lemma {:induction false} LastLinkAtEnd(p0: Vec3, p1: Vec3, p2: Vec3, mp: real, n: int, firstDistance: real,
                                        benisLength: real, s: real)
    requires 0.0 < mp <= 1.0 && (mp == 1.0 ==> p1 == p2) && 2 <= n && 0.0 < benisLength
    ensures LinkParameter(n - 1, firstDistance * s / benisLength / (n - 1) as real, s) == s * s * firstDistance / benisLength
    ensures benisLength <= s * s * firstDistance ==>
              Linear(p0, p1, p2, mp, LinkParameter(n - 1, firstDistance * s / benisLength / (n - 1) as real, s)) == p2
  {
    var m := (n - 1) as real;
    var q := firstDistance * s / benisLength;
    assert m * (q / m) == q;
    assert LinkParameter(n - 1, q / m, s) == q * s;
    assert q * s == s * s * firstDistance / benisLength;
    if benisLength <= s * s * firstDistance {
      DivAtLeastOne(s * s * firstDistance, benisLength);
    }
  }

  /** The direction from one link to the next, with Unity's `normalized` (zero for a tiny offset). */
  function LinkDirection(lib: MathLib, from: Vec3, to: Vec3): Vec3 {
    Normalized3(lib, Sub3(to, from))
  }

  /**
   * The rotation link `i` ends with after one pass of the placement loop over `pos`: the loop turns
   * link i towards link i + 1 unless that direction is (approximately) zero; the last link keeps
   * its rotation.
   */
  function TurnedRotation(lib: MathLib, pos: seq<Vec3>, old_: Quat, i: int, lookRotation: Vec3 -> Quat): (r: Quat)
    requires 0 <= i < |pos|
    ensures i == |pos| - 1 ==> r == old_
    ensures i + 1 < |pos| && Same3(LinkDirection(lib, pos[i], pos[i + 1]), Zero3) ==> r == old_
    ensures i + 1 < |pos| && !Same3(LinkDirection(lib, pos[i], pos[i + 1]), Zero3) ==>
              r == lookRotation(LinkDirection(lib, pos[i], pos[i + 1]))
  {
    if i + 1 < |pos| && !Same3(LinkDirection(lib, pos[i], pos[i + 1]), Zero3)
    then lookRotation(LinkDirection(lib, pos[i], pos[i + 1]))
    else old_
  }

  /** One leg of the path has a non-negative length, zero exactly when its ends coincide. */
  lemma LegZero(lib: MathLib, a: Vec3, b: Vec3)
    requires SqrtSound(lib.sqrt)
    ensures 0.0 <= Distance3(lib, a, b)
    ensures Distance3(lib, a, b) == 0.0 <==> a == b
  {
    var offset := Sub3(a, b);
    SqrMagnitudeZero(offset);
    SubIsZero(a, b);
    RootZero(lib.sqrt, SqrMagnitude3(offset));
  }

  class DickController {
    const lib: MathLib
    /** The chain links' positions and rotations (`_dickTransforms`), one entry per link. */
    const links: array<Vec3>
    const rotations: array<Quat>

    var startPos: Vec3
    var midPos: Vec3
    var endPos: Vec3
    /** `transform.localScale.z`. */
    var benisScale: real
    var dockDistance: real
    var pullLength: real

    var shapeKeyIndex: seq<int>
    var canMorph: bool
    var firstDistance: real
    var pullFactor: real
    /** The mesh's blend-shape weights by blend-shape index, as far as this object writes them. */
    var weights: map<int, real>

    /** The stored pull factor stays clamped, and a morphing controller has a full shape-key table. */
    ghost predicate Valid()
      reads this
    {
      && links.Length == rotations.Length
      && -1.0 <= pullFactor <= 1.0
      && (canMorph ==> |shapeKeyIndex| == ShapeCount)
    }

    constructor (lib: MathLib, n: nat, startPos: Vec3, midPos: Vec3, endPos: Vec3, benisScale: real)
      ensures Valid() && fresh(links) && fresh(rotations) && links.Length == n
      ensures this.lib == lib && this.startPos == startPos && this.midPos == midPos && this.endPos == endPos
      ensures this.benisScale == benisScale && dockDistance == 2.1 && pullLength == 1.0
      ensures shapeKeyIndex == [] && !canMorph && pullFactor == 0.0 && weights == map[]
    {
      this.lib := lib;
      links := new Vec3[n](_ => Zero3);
      rotations := new Quat[n](_ => Quat(0.0, 0.0, 0.0, 1.0));
      this.startPos := startPos;
      this.midPos := midPos;
      this.endPos := endPos;
      this.benisScale := benisScale;
      dockDistance := 2.1;
      pullLength := 1.0;
      shapeKeyIndex := [];
      canMorph := false;
      firstDistance := 0.0;
      pullFactor := 0.0;
      weights := map[];
    }

    /** `BenisLength`: the path's length through the middle anchor. */
    function BenisLength(): real
      reads this
    {
      Distance3(lib, startPos, midPos) + Distance3(lib, midPos, endPos)
    }

    /**
     * With a sound square root the path length is never negative, and it is zero exactly when the
     * three anchors coincide, the only case where `ChainLength` and `BendParameter` have nothing to divide by.
     */
    lemma {:induction false} BenisLengthZero()
      requires SqrtSound(lib.sqrt)
      ensures 0.0 <= BenisLength()
      ensures BenisLength() == 0.0 <==> startPos == midPos && midPos == endPos
    {
      LegZero(lib, startPos, midPos);
      LegZero(lib, midPos, endPos);
    }

    /**
     * `benisMiddlePoint`: where the bend sits along the path, as a fraction of its length; at 1
     * exactly when the second leg has length zero.
     */
    function BendParameter(): (mp: real)
      reads this
      requires SqrtSound(lib.sqrt) && 0.0 < Distance3(lib, startPos, midPos)
      ensures 0.0 < mp <= 1.0
      ensures mp == 1.0 <==> midPos == endPos
    {
      LegZero(lib, midPos, endPos);
      MiddleInside(Distance3(lib, startPos, midPos), Distance3(lib, midPos, endPos));
      Distance3(lib, startPos, midPos) / BenisLength()
    }

    /**
     * `Start()` over the mesh's blend shape names: build the shape-key table, then decide whether the
     * mesh can morph and record the path's length. An insert past the end of the list throws
     * (`thrown`), and `Start` then stops with the table as far as it got.
     */
    method Start(names: seq<string>) returns (thrown: bool)
      requires Valid() && !canMorph
      modifies this`shapeKeyIndex, this`canMorph, this`firstDistance
      ensures Valid()
      ensures thrown <==> ShapeTable(old(shapeKeyIndex), names, |names|).None?
      ensures !thrown ==> shapeKeyIndex == ShapeTable(old(shapeKeyIndex), names, |names|).value
      ensures !thrown ==> (canMorph <==> |shapeKeyIndex| == ShapeCount) && firstDistance == BenisLength()
      ensures thrown ==> canMorph == old(canMorph) && firstDistance == old(firstDistance)
    {
      var i := 0;
      while i < |names|
        invariant 0 <= i <= |names|
        invariant ShapeTable(old(shapeKeyIndex), names, i) == Some(shapeKeyIndex)
        invariant Valid() && canMorph == old(canMorph) && firstDistance == old(firstDistance)
      {
        var slot := ShapeSlot(names[i]);
        if slot.Some? {
          if slot.value > |shapeKeyIndex| {
            NoneStaysNone(old(shapeKeyIndex), names, i + 1, |names|);
            return true;
          }
          shapeKeyIndex := InsertAt(shapeKeyIndex, slot.value, i);
        }
        i := i + 1;
      }
      canMorph := |shapeKeyIndex| == ShapeCount;
      firstDistance := BenisLength();
      thrown := false;
    }

    /**
     * The navigator half of `Update()`: with a navigator, move the middle and end anchors from their
     * rest points one and two scaled units up from the start towards the navigator's mid and end
     * points, by the navigator weight of its distance.
     */
    method FollowNavigator(navigatorMid: Vec3, navigatorEnd: Vec3, up: Vec3)
      requires dockDistance * 1.25 * benisScale != 0.0
      modifies this`midPos, this`endPos
      ensures var df := DistFactor(Distance3(lib, navigatorMid, startPos), dockDistance, benisScale);
              && midPos == Blended(Add3(startPos, Scale3(up, 1.0 * benisScale)), navigatorMid, df)
              && endPos == Blended(Add3(startPos, Scale3(up, 2.0 * benisScale)), navigatorEnd, df)
    {
      var dist := Distance3(lib, navigatorMid, startPos);
      var distFactor := DistFactor(dist, dockDistance, benisScale);
      midPos := Blended(Add3(startPos, Scale3(up, 1.0 * benisScale)), navigatorMid, distFactor);
      endPos := Blended(Add3(startPos, Scale3(up, 2.0 * benisScale)), navigatorEnd, distFactor);
    }

    /**
     * `Update()` with the scene read supplied: the navigator's mid and end points (None without a
     * navigator), the start anchor's up axis, and the pull root's position and up axis with the
     * pull transform's position (None when there is no pull transform).
     */
    method Update(navigator: Option<(Vec3, Vec3)>, up: Vec3, pull: Option<(Vec3, Vec3, Vec3)>)
      requires Valid()
      requires navigator.Some? ==> dockDistance * 1.25 * benisScale != 0.0
      requires pull.Some? ==> pullLength != 0.0
      modifies this`midPos, this`endPos, this`pullFactor
      ensures Valid()
      ensures navigator.None? ==> midPos == old(midPos) && endPos == old(endPos)
      ensures navigator.Some? ==>
                var df := DistFactor(Distance3(lib, navigator.value.0, startPos), dockDistance, benisScale);
                && midPos == Blended(Add3(startPos, Scale3(up, 1.0 * benisScale)), navigator.value.0, df)
                && endPos == Blended(Add3(startPos, Scale3(up, 2.0 * benisScale)), navigator.value.1, df)
      ensures pull.None? ==> pullFactor == old(pullFactor)
      ensures pull.Some? ==>
                var (root, rootUp, proxy) := pull.value;
                pullFactor == PullFactor(Distance3(lib, root, proxy), Dot3(Normalized3(lib, Sub3(root, proxy)), rootUp),
                                         pullLength, benisScale)
    {
      if navigator.Some? {
        FollowNavigator(navigator.value.0, navigator.value.1, up);
      }
      if pull.None? {
        return;
      }
      var (position, rootUp, position1) := pull.value;
      var distance := Distance3(lib, position, position1);
      var crossDot := Dot3(Normalized3(lib, Sub3(position, position1)), rootUp);
      pullFactor := PullFactor(distance, crossDot, pullLength, benisScale);
    }

    /**
     * The blend-shape half of `LateUpdate()`: when the mesh can morph, write the three weights at
     * their shapes' mesh indices in the source's order (push, push-forward-skin, pull); a negative
     * pull factor is stored negated.
     */
    method ApplyBlendWeights()
      requires Valid()
      modifies this`pullFactor, this`weights
      ensures Valid()
      ensures !(canMorph && |shapeKeyIndex| > 0) ==> pullFactor == old(pullFactor) && weights == old(weights)
      ensures canMorph && |shapeKeyIndex| > 0 ==>
                var w := BlendWeights(old(pullFactor));
                && pullFactor == Abs(old(pullFactor))
                && weights == old(weights)[shapeKeyIndex[Push] := w.push]
                                          [shapeKeyIndex[PushForwardSkin] := w.pushForwardSkin]
                                          [shapeKeyIndex[Pull] := w.pull]
    {
      if canMorph && |shapeKeyIndex| > 0 {
        var w := BlendWeights(pullFactor);
        if pullFactor < 0.0 {
          pullFactor := pullFactor * -1.0;
        }
        weights := weights[shapeKeyIndex[Push] := w.push];
        weights := weights[shapeKeyIndex[PushForwardSkin] := w.pushForwardSkin];
        weights := weights[shapeKeyIndex[Pull] := w.pull];
      }
    }

    /**
     * The link-placement loop of `LateUpdate()`: link `index` goes to the path point at its link
     * parameter, and from the second link on, the previous link is turned towards it unless the
     * direction between them is zero. `lookRotation` is the host's turn towards a direction.
     */
    method PlaceLinks(lookRotation: Vec3 -> Quat)
      requires Valid() && SqrtSound(lib.sqrt) && 0.0 < Distance3(lib, startPos, midPos)
      modifies links, rotations
      ensures forall i :: 0 <= i < links.Length ==>
                links[i] == Linear(startPos, midPos, endPos, BendParameter(), LinkParameter(i, ChainLength(), benisScale))
      ensures forall i :: 0 <= i < rotations.Length ==>
                rotations[i] == TurnedRotation(lib, links[..], old(rotations[i]), i, lookRotation)
    {
      var chainLength := ChainLength();
      var benisMiddlePoint := BendParameter();

      var index := 0;
      while index < links.Length
        invariant 0 <= index <= links.Length
        invariant forall i :: 0 <= i < index ==>
                    links[i] == Linear(startPos, midPos, endPos, benisMiddlePoint, LinkParameter(i, chainLength, benisScale))
        invariant forall i :: 0 <= i < index - 1 ==>
                    rotations[i] == TurnedRotation(lib, links[..index], old(rotations[i]), i, lookRotation)
        invariant forall i :: index - 1 <= i < rotations.Length && 0 <= i ==> rotations[i] == old(rotations[i])
      {
        PlaceLink(index, benisMiddlePoint, chainLength, lookRotation);
        index := index + 1;
      }
      assert links[..index] == links[..];
    }

    /**
     * `LateUpdate()`: set the blend-shape weights from the pull factor, then place the links. The
     * start and middle anchors must not coincide; the end anchor may sit on the middle one.
     */
    method LateUpdate(lookRotation: Vec3 -> Quat)
      requires Valid() && SqrtSound(lib.sqrt) && 0.0 < Distance3(lib, startPos, midPos)
      modifies this`pullFactor, this`weights, links, rotations
      ensures Valid()
      ensures !(canMorph && |shapeKeyIndex| > 0) ==> pullFactor == old(pullFactor) && weights == old(weights)
      ensures canMorph && |shapeKeyIndex| > 0 ==>
                var w := BlendWeights(old(pullFactor));
                && pullFactor == Abs(old(pullFactor))
                && weights == old(weights)[shapeKeyIndex[Push] := w.push]
                                          [shapeKeyIndex[PushForwardSkin] := w.pushForwardSkin]
                                          [shapeKeyIndex[Pull] := w.pull]
      ensures forall i :: 0 <= i < links.Length ==>
                links[i] == Linear(startPos, midPos, endPos, BendParameter(), LinkParameter(i, ChainLength(), benisScale))
      ensures forall i :: 0 <= i < rotations.Length ==>
                rotations[i] == TurnedRotation(lib, links[..], old(rotations[i]), i, lookRotation)
    {
      ApplyBlendWeights();
      PlaceLinks(lookRotation);
    }

    /** `FirstDistance / BenisLength / ChainsLength`; with a single link it is never used. */
    function ChainLength(): (chainLength: real)
      reads this
      ensures 2 <= links.Length && BenisLength() != 0.0 ==>
                chainLength * (links.Length - 1) as real * BenisLength() == firstDistance * benisScale
    {
      var chainsLength := links.Length - 1;
      if chainsLength == 0 || BenisLength() == 0.0 then 0.0  // C# divides by zero here; the value is unused
      else
        var perPath := firstDistance * benisScale / BenisLength();
        assert perPath / chainsLength as real * chainsLength as real == perPath;
        perPath / chainsLength as real
    }

    /** One pass of the placement loop. */
    method PlaceLink(index: int, benisMiddlePoint: real, chainLength: real, lookRotation: Vec3 -> Quat)
      requires Valid() && 0 <= index < links.Length && 0.0 < benisMiddlePoint <= 1.0
      modifies links, rotations
      ensures links[..] == old(links[..])[index := Linear(startPos, midPos, endPos, benisMiddlePoint,
                                                         LinkParameter(index, chainLength, benisScale))]
      ensures index == 0 ==> rotations[..] == old(rotations[..])
      ensures index != 0 ==>
                rotations[..] == old(rotations[..])[index - 1 := TurnedRotation(lib, links[..index + 1],
                                                                                 old(rotations[index - 1]), index - 1, lookRotation)]
    {
      var notFirst := index != 0;
      links[index] := Linear(startPos, midPos, endPos, benisMiddlePoint, LinkParameter(index, chainLength, benisScale));
      if notFirst {
        var dir := LinkDirection(lib, links[index - 1], links[index]);
        if !Same3(dir, Zero3) {
          rotations[index - 1] := lookRotation(dir);
        }
      }
    }
  }

  /** The bend parameter of a path whose first leg has positive length lies in (0, 1], at 1 exactly when the second leg is empty. */
  lemma MiddleInside(a: real, b: real)
    requires 0.0 < a && 0.0 <= b
    ensures 0.0 < a / (a + b) <= 1.0
    ensures a / (a + b) == 1.0 <==> b == 0.0
  {
    if a / (a + b) == 1.0 {
      assert a == a + b;
    }
  }
}
