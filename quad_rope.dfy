/**
 * The quadratic rope of `FalseChainCreator` (its nested class `QuadRope`): a sag curve
 * from the origin to a normalised target, the bisection that picks the sag depth for which
 * the curve is about one unit long, and the square look-up table (LUT) of sag depths that
 * all ropes share and that is sampled bilinearly.
 */
module QuadRopeSolver {
  import opened UnityMath

  /** 0.5 raised to the power k. */
  function Half(k: nat): (r: real)
    ensures 0.0 < r <= 1.0
  {
    if k == 0 then 1.0 else 0.5 * Half(k - 1)
  }

  lemma ScaleDown(a: real, h: real)
    requires 0.0 < a && 0.0 < h <= 1.0
    ensures a * h <= a
  {
    MulLe(h, 1.0, a);
  }

  lemma SquarePositive(g: real, g2: real)
    requires g != 0.0 && g2 == g * g
    ensures 0.0 < g2
  {
    SquareLess(0.0, Abs(g));
    assert Abs(g) * Abs(g) == g * g;
  }

  lemma MulLe(a: real, b: real, c: real)
    requires a <= b && 0.0 <= c
    ensures a * c <= b * c
  {
  }

  lemma MulLt(a: real, b: real, c: real)
    requires a < b && 0.0 < c
    ensures a * c < b * c
  {
  }

  // ---------------------------------------------------------------------------
  // The curve

  /**
   * `QuadRope.At(i01, target, distanceYAxis)`: the point at parameter `i01` of the parabola
   * through the origin and `target` that sags `distanceYAxis` below their chord.
   * A zero `target.x` is not a valid target (it divides by zero).
   */
  function CurvePoint(i01: real, target: Vec2, distanceYAxis: real): (p: Vec2)
    requires target.x != 0.0
    ensures p.x == i01 * target.x
    ensures i01 == 0.0 ==> p == Vec2(0.0, 0.0)
    ensures i01 == 1.0 ==> p == target
  {
    var g := target.x;
    var h := -distanceYAxis;
    var j := target.y;
    var x := i01 * g;
    var xg21 := x / g * 2.0 - 1.0;
    Vec2(x, xg21 * xg21 * -h + j * x / g + h)
  }

  /**
   * `QuadRope.Integrate`: the closed-form antiderivative of the curve's arc length at `x`,
   * over the host square root and logarithm. A logarithm argument below 1e-8 counts as 0.
   */
  function Integrate(lib: MathLib, x: real, target: Vec2, distanceYAxis: real): real
    requires target.x != 0.0 && distanceYAxis != 0.0
  {
    var g := target.x;
    var h := -distanceYAxis;
    var j := target.y;
    var g2 := g * g;
    var hx := h * x;
    var jAdd4h := 4.0 * h + j;
    var sqrt1 := lib.sqrt(64.0 * h * hx * x - 16.0 * g * hx * jAdd4h + g2 * g2 + g2 * jAdd4h * jAdd4h);
    var hx8GjAdd4h := hx * 8.0 - g * jAdd4h;
    var h16 := 16.0 * h;
    var log := if sqrt1 + hx8GjAdd4h < 0.00000001 then 0.0 else lib.log(sqrt1 + hx8GjAdd4h) * g2;
    SquarePositive(g, g2);
    (log + sqrt1 * hx8GjAdd4h / g2) / h16
  }

  /** `QuadRope.GetCurveRectified(target, distanceYAxis)`: the curve's arc length from 0 to `target.x`. */
  function CurveRectified(lib: MathLib, target: Vec2, distanceYAxis: real): real
    requires target.x != 0.0 && distanceYAxis != 0.0
  {
    Integrate(lib, target.x, target, distanceYAxis) - Integrate(lib, 0.0, target, distanceYAxis)
  }

  // ---------------------------------------------------------------------------
  // Bisection of the sag depth

  /** The number of bisection steps `precision` asks for (a for loop runs no step when it is negative). */
  function Iterations(precision: int): nat {
    if precision < 0 then 0 else precision
  }

  lemma {:induction false} HalfMonotone(a: nat, b: nat)
    requires a <= b
    ensures Half(b) <= Half(a)
    decreases b - a
  {
    if a < b {
      HalfMonotone(a, b - 1);
    }
  }

  /**
   * The bisection of `CalculateDistanceYAxis(target, precision)` at step `i` of `n`, where the step
   * size is 0.5^(i+2): stop when the host judges the length approximately 1, otherwise move `y` down
   * when the curve is too long and up when it is too short. Whatever the host's length says, the
   * result stays at least 0.5^(n+1) away from both 0 and 1.
   */
  function Bisect(lib: MathLib, target: Vec2, y: real, i: nat, n: nat): (r: real)
    requires target.x != 0.0 && i <= n
    requires Half(i + 1) <= y <= 1.0 - Half(i + 1)
    ensures Half(n + 1) <= r <= 1.0 - Half(n + 1)
    decreases n - i
  {
    HalfMonotone(i + 1, n + 1);
    if i == n then y
    else
      var step := Half(i + 2);
      var l := CurveRectified(lib, target, y);
      if lib.approximately(l, 1.0) then y
      else
        var next := if l > 1.0 then y - step else y + step;
        Bisect(lib, target, next, i + 1, n)
  }

  // ---------------------------------------------------------------------------
  // The shared look-up table

  /** The target whose sag depth cell (col, row) of a side x side table holds; column 0 repeats column 1's x. */
  function LutTarget(side: int, col: int, row: int): (t: Vec2)
    requires 1 <= side && 0 <= col && 0 <= row
    ensures 0.0 < t.x
  {
    var invSide := 1.0 / side as real;
    if col == 0 then Vec2(invSide, row as real * invSide)
    else
      MulLt(0.0, col as real, invSide);
      Vec2(col as real * invSide, row as real * invSide)
  }

  /** The value `GenerateLUT(side, precision)` stores in cell (col, row). */
  function LutCell(lib: MathLib, side: int, precision: int, col: int, row: int): (v: real)
    requires 1 <= side && 0 <= col && 0 <= row
    ensures 0.0 < v < 1.0
  {
    Bisect(lib, LutTarget(side, col, row), 0.5, 0, Iterations(precision))
  }

  /** Column 0 of the table repeats column 1: the curve is not defined for a zero x. */
  lemma FirstColumnRepeatsSecond(lib: MathLib, side: int, precision: int, row: int)
    requires 2 <= side && 0 <= row
    ensures LutCell(lib, side, precision, 0, row) == LutCell(lib, side, precision, 1, row)
  {
    assert LutTarget(side, 0, row) == LutTarget(side, 1, row);
  }

  predicate InTable(side: int, k: int) {
    0 <= k < side * side
  }

  /** Cell (col, row) of a side x side table stored row by row sits at index col + row * side, inside the table. */
  function CellIndex(side: int, col: int, row: int): (k: int)
    requires 0 <= col < side && 0 <= row < side
    ensures InTable(side, k)
    ensures k % side == col && k / side == row
  {
    var k := col + row * side;
    assert row * side <= (side - 1) * side by {
      MulLeInt(row, side - 1, side);
    }
    assert (side - 1) * side == side * side - side;
    DivModUnique(k, side, col, row);
    k
  }

  lemma MulLeInt(a: int, b: int, c: int)
    requires a <= b && 0 <= c
    ensures a * c <= b * c
  {
  }

  lemma DivModUnique(k: int, side: int, col: int, row: int)
    requires 0 <= col < side && k == col + row * side
    ensures k % side == col && k / side == row
  {
    var q := k / side;
    var m := k % side;
    assert k == q * side + m && 0 <= m < side;
    assert (q - row) * side == col - m;
    if q > row {
      MulLeInt(1, q - row, side);
    } else if q < row {
      MulLeInt(1, row - q, side);
    }
  }

  /** Every cell index of a side x side table decomposes into a column and a row below side. */
  lemma CellOf(side: int, k: int)
    requires 1 <= side && InTable(side, k)
    ensures 0 <= k % side < side && 0 <= k / side < side
    ensures k == k % side + (k / side) * side
  {
    var q := k / side;
    assert k == q * side + k % side;
    if q >= side {
      MulLeInt(side, q, side);
    }
  }

  /** The four cells a bilinear lookup reads: columns x0, x1, row offsets y0, y1 (row times side), and the fractions. */
  datatype LutTaps = LutTaps(x0: int, x1: int, y0: int, y1: int, xx: real, yy: real)

  /**
   * The index arithmetic of `FilteredLUT(x, y)`: scale by the side, clamp floor and ceiling into
   * [0, side - 1], and keep the fractional part (C#'s `% 1`). Every cell it reads lies in the table,
   * and whenever the two taps differ the fraction between them is strictly inside (0, 1).
   */
  function LutTapsAt(side: int, x: real, y: real): (t: LutTaps)
    requires 1 <= side
    ensures InTable(side, t.x0 + t.y0) && InTable(side, t.x1 + t.y0)
    ensures InTable(side, t.x0 + t.y1) && InTable(side, t.x1 + t.y1)
    ensures t.x0 != t.x1 ==> 0.0 < t.xx < 1.0
    ensures t.y0 != t.y1 ==> 0.0 < t.yy < 1.0
  {
    var sx := x * side as real;
    var sy := y * side as real;
    var x0 := ClampInt(FloorToInt(sx), 0, side - 1);
    var x1 := ClampInt(CeilToInt(sx), 0, side - 1);
    var r0 := ClampInt(FloorToInt(sy), 0, side - 1);
    var r1 := ClampInt(CeilToInt(sy), 0, side - 1);
    assert x0 + r0 * side == CellIndex(side, x0, r0);
    assert x1 + r0 * side == CellIndex(side, x1, r0);
    assert x0 + r1 * side == CellIndex(side, x0, r1);
    assert x1 + r1 * side == CellIndex(side, x1, r1);
    TapFraction(side, sx);
    TapFraction(side, sy);
    LutTaps(x0, x1, r0 * side, r1 * side, FloatMod1(sx), FloatMod1(sy))
  }

  /** Clamped floor and ceiling differ only for a positive non-integer, whose `% 1` is inside (0, 1). */
  lemma TapFraction(side: int, v: real)
    requires 1 <= side
    ensures ClampInt(FloorToInt(v), 0, side - 1) != ClampInt(CeilToInt(v), 0, side - 1)
      ==> 0.0 < FloatMod1(v) < 1.0
  {
    var f := v.Floor;
    assert f as real <= v < f as real + 1.0;
    var c := -((-v).Floor);
    if v == f as real {
      assert (-v).Floor == -f;
    } else {
      assert (-v).Floor == -f - 1;
      assert c == f + 1;
    }
  }

  /** `Mathf.LerpUnclamped` between two values in (0, 1) stays in (0, 1) when they agree or t is in (0, 1). */
  lemma LerpInside(a: real, b: real, t: real)
    requires 0.0 < a < 1.0 && 0.0 < b < 1.0
    requires a == b || 0.0 < t < 1.0
    ensures 0.0 < LerpUnclamped(a, b, t) < 1.0
  {
    if a != b {
      if a < b {
        MulLe(0.0, t, b - a);
        MulLe(t, 1.0, b - a);
      } else {
        MulLe(0.0, t, a - b);
        MulLe(t, 1.0, a - b);
      }
    }
  }

  /** The storage behind the static fields `lut_side` and `lut` that every QuadRope shares. */
  class LookUpTable {
    var side: int
    var cells: array?<real>

    /** Once built, the table is side x side and every sag depth is strictly inside (0, 1). */
    ghost predicate Valid()
      reads this, cells
    {
      && (cells == null ==> side == 0)
      && (cells != null ==>
            && 1 <= side
            && cells.Length == side * side
            && forall k :: 0 <= k < cells.Length ==> 0.0 < cells[k] < 1.0)
    }

    ghost predicate Holds(lib: MathLib, precision: int)
      reads this, cells
    {
      && cells != null && 1 <= side && cells.Length == side * side
      && forall col, row :: 0 <= col < side && 0 <= row < side ==>
           cells[CellIndex(side, col, row)] == LutCell(lib, side, precision, col, row)
    }

    constructor ()
      ensures Valid() && side == 0 && cells == null
    {
      side := 0;
      cells := null;
    }
  }

  class QuadRope {
    const lib: MathLib
    const lut: LookUpTable
    var distanceYAxis: real
    var target: Vec2

    constructor (lib: MathLib, lut: LookUpTable)
      ensures this.lib == lib && this.lut == lut
      ensures target == Vec2(0.0, 0.0) && distanceYAxis == 0.0
    {
      this.lib := lib;
      this.lut := lut;
      distanceYAxis := 0.0;
      target := Vec2(0.0, 0.0);
    }

    /** A target has been set: its x is not zero and the sag depth is in (0, 1). */
    ghost predicate Ready()
      reads this
    {
      target.x != 0.0 && 0.0 < distanceYAxis < 1.0
    }

    /** `At(i01)`: the curve point for the stored target and sag depth. */
    function At(i01: real): (p: Vec2)
      reads this
      requires target.x != 0.0
      ensures p.x == i01 * target.x
      ensures i01 == 0.0 ==> p == Vec2(0.0, 0.0)
      ensures i01 == 1.0 ==> p == target
    {
      CurvePoint(i01, target, distanceYAxis)
    }

    /** `GetTarget()`: the stored target, which is where the curve ends. */
    function GetTarget(): (t: Vec2)
      reads this
      ensures target.x != 0.0 ==> t == At(1.0)
    {
      target
    }

    /** `GetCurveRectified()`: the stored curve's arc length. */
    function CurveLength(): real
      reads this
      requires Ready()
    {
      CurveRectified(lib, target, distanceYAxis)
    }

    /** `CalculateDistanceYAxis(target, precision)`: bisect the sag depth. */
    method CalculateDistanceYAxis(target: Vec2, precision: int) returns (y: real)
      requires target.x != 0.0
      ensures y == Bisect(lib, target, 0.5, 0, Iterations(precision))
    {
      ghost var n := Iterations(precision);
      assert Half(2) == 0.25 by {
        assert Half(1) == 0.5;
      }
      y := 0.5;
      var step := y * 0.5;
      var i := 0;
      while i < precision
        invariant 0 <= i <= n
        invariant step == Half(i + 2)
        invariant Half(i + 1) <= y <= 1.0 - Half(i + 1)
        invariant Bisect(lib, target, y, i, n) == Bisect(lib, target, 0.5, 0, n)
      {
        var l := CurveRectified(lib, target, y);
        if lib.approximately(l, 1.0) {
          return;
        }
        if l > 1.0 {
          y := y - step;
        } else {
          y := y + step;
        }
        step := step * 0.5;
        i := i + 1;
      }
    }

    /**
     * `GenerateLUT(side, precision)`: a fresh side x side table, filled column by column, cell
     * (col, row) holding the bisected sag depth of `LutTarget(side, col, row)`.
     */
    method GenerateLUT(side: int, precision: int)
      requires 1 <= side
      modifies lut
      ensures lut.side == side && lut.cells != null && fresh(lut.cells)
      ensures lut.cells.Length == side * side
      ensures forall col, row :: 0 <= col < side && 0 <= row < side ==>
                lut.cells[CellIndex(side, col, row)] == LutCell(lib, side, precision, col, row)
      ensures lut.Valid()
    {
      lut.side := side;
      var cells := new real[side * side];
      lut.cells := cells;
      var invSide := 1.0 / side as real;
      NothingFilled(cells[..], lib, side, precision);
      var y := 0;
      while y < side
        invariant 0 <= y <= side
        invariant lut.side == side && lut.cells == cells
        invariant FilledUpTo(cells[..], lib, side, precision, 0, y)
      {
        var v := CalculateDistanceYAxis(Vec2(invSide, y as real * invSide), precision);
        assert Vec2(invSide, y as real * invSide) == LutTarget(side, 0, y);
        ghost var before := cells[..];
        StoreCell(before, lib, side, precision, 0, y);
        cells[CellIndex(side, 0, y)] := v;
        assert cells[..] == before[CellIndex(side, 0, y) := v];
        y := y + 1;
      }
      NextColumn(cells[..], lib, side, precision, 0);
      var x := 1;
      while x < side
        invariant 1 <= x <= side
        invariant lut.side == side && lut.cells == cells
        invariant FilledUpTo(cells[..], lib, side, precision, x, 0)
      {
        var x2 := x as real * invSide;
        y := 0;
        while y < side
          invariant 0 <= y <= side
          invariant lut.side == side && lut.cells == cells
          invariant FilledUpTo(cells[..], lib, side, precision, x, y)
        {
          var v := CalculateDistanceYAxis(Vec2(x2, y as real * invSide), precision);
          assert Vec2(x2, y as real * invSide) == LutTarget(side, x, y);
          ghost var before := cells[..];
          StoreCell(before, lib, side, precision, x, y);
          cells[CellIndex(side, x, y)] := v;
          assert cells[..] == before[CellIndex(side, x, y) := v];
          y := y + 1;
        }
        NextColumn(cells[..], lib, side, precision, x);
        x := x + 1;
      }
      WholeTable(cells[..], lib, side, precision);
    }

    /**
     * `FilteredLUT(x, y)`: bilinear interpolation of the table at (x, y) in table units of 1/side.
     * Reads only cells inside the table, and the sag depth it returns is strictly inside (0, 1).
     */
    function FilteredLUT(x: real, y: real): (r: real)
      reads this, lut, lut.cells
      requires lut.Valid() && lut.cells != null
      ensures 0.0 < r < 1.0
    {
      var t := LutTapsAt(lut.side, x, y);
      var c := lut.cells;
      var top := LerpUnclamped(c[t.x0 + t.y0], c[t.x1 + t.y0], t.xx);
      var bottom := LerpUnclamped(c[t.x0 + t.y1], c[t.x1 + t.y1], t.xx);
      LerpInside(c[t.x0 + t.y0], c[t.x1 + t.y0], t.xx);
      LerpInside(c[t.x0 + t.y1], c[t.x1 + t.y1], t.xx);
      LerpInside(top, bottom, t.yy);
      LerpUnclamped(top, bottom, t.yy)
    }

    /**
     * The rope as `SetTarget` leaves it for `targetOffset`: a target longer than the rope is kept
     * taut (sag 0.00001) and scaled back to unit length unless stretching is allowed; any other
     * target is kept, with the table's sag depth at (x, |y|).
     */
    ghost predicate SolvedFor(targetOffset: Vec2, allowStretching: bool)
      reads this, lut, lut.cells
    {
      && lut.Valid() && lut.cells != null
      && var m := Magnitude2(lib, targetOffset);
         if m > 1.0 then
           && distanceYAxis == 0.00001
           && target == (if allowStretching then targetOffset else Vec2(targetOffset.x / m, targetOffset.y / m))
         else
           target == targetOffset && distanceYAxis == FilteredLUT(targetOffset.x, Abs(targetOffset.y))
    }

    /** The table is rebuilt only when there is none yet or it is coarser than `resolutionLookUp`. */
    method RefreshLUT(resolutionLookUp: int, precision: int)
      requires lut.Valid() && (lut.cells != null || 1 <= resolutionLookUp)
      modifies lut
      ensures lut.Valid() && lut.cells != null
      ensures old(lut.side) <= lut.side
      ensures old(lut.cells == null || lut.side < resolutionLookUp) ==>
                && lut.side == resolutionLookUp && fresh(lut.cells)
                && lut.Holds(lib, precision)
      ensures !old(lut.cells == null || lut.side < resolutionLookUp) ==>
                lut.side == old(lut.side) && lut.cells == old(lut.cells)
    {
      if lut.cells == null || lut.side < resolutionLookUp {
        GenerateLUT(resolutionLookUp, precision);
      }
    }

    /**
     * `SetTarget(targetOffset, resolutionLookUp, precision, allowStretching)`: refresh the shared
     * table, then solve the rope for the target. A resolution of 0 or less is ignored once a table exists.
     */
    method SetTarget(targetOffset: Vec2, resolutionLookUp: int, precision: int, allowStretching: bool)
      requires targetOffset.x != 0.0
      requires lut.Valid() && (lut.cells != null || 1 <= resolutionLookUp)
      modifies this, lut
      ensures lut.Valid() && lut.cells != null && Ready()
      ensures old(lut.side) <= lut.side
      ensures old(lut.cells == null || lut.side < resolutionLookUp) ==>
                && lut.side == resolutionLookUp && fresh(lut.cells)
                && lut.Holds(lib, precision)
      ensures !old(lut.cells == null || lut.side < resolutionLookUp) ==>
                lut.side == old(lut.side) && lut.cells == old(lut.cells)
      ensures SolvedFor(targetOffset, allowStretching)
    {
      RefreshLUT(resolutionLookUp, precision);
      target := targetOffset;
      var magnitude := Magnitude2(lib, target);
      if magnitude > 1.0 {
        if !allowStretching {
          target := Vec2(target.x / magnitude, target.y / magnitude);
          assert target.x != 0.0 by {
            if targetOffset.x > 0.0 { MulLt(0.0, target.x, magnitude); } else { MulLt(target.x, 0.0, magnitude); }
          }
        }
        distanceYAxis := 0.00001;
      } else {
        distanceYAxis := FilteredLUT(target.x, Abs(target.y));
      }
    }
  }

  /** Which cells the column-major fill of `GenerateLUT` has written before cell (x, y). */
  predicate Filled(side: int, k: int, x: int, y: int)
    requires 1 <= side
  {
    k % side < x || (k % side == x && k / side < y)
  }

  /** The sag depth of the cell stored at index k. */
  function LutCellAt(lib: MathLib, side: int, precision: int, k: int): real
    requires 1 <= side && 0 <= k
  {
    LutCell(lib, side, precision, k % side, k / side)
  }

  /** A table's contents once the fill has reached cell (x, y): every earlier cell holds its sag depth. */
  ghost predicate FilledUpTo(s: seq<real>, lib: MathLib, side: int, precision: int, x: int, y: int)
    requires 1 <= side
  {
    && |s| == side * side
    && forall k :: 0 <= k < |s| && Filled(side, k, x, y) ==> s[k] == LutCellAt(lib, side, precision, k)
  }

  lemma NothingFilled(s: seq<real>, lib: MathLib, side: int, precision: int)
    requires 1 <= side && |s| == side * side
    ensures FilledUpTo(s, lib, side, precision, 0, 0)
  {
  }

  /** Storing the sag depth of cell (x, y) moves the fill one row down. */
  lemma StoreCell(s: seq<real>, lib: MathLib, side: int, precision: int, x: int, y: int)
    requires 0 <= x < side && 0 <= y < side
    requires FilledUpTo(s, lib, side, precision, x, y)
    ensures FilledUpTo(s[CellIndex(side, x, y) := LutCell(lib, side, precision, x, y)], lib, side, precision, x, y + 1)
  {
    var t := s[CellIndex(side, x, y) := LutCell(lib, side, precision, x, y)];
    forall k | 0 <= k < |t| && Filled(side, k, x, y + 1)
      ensures t[k] == LutCellAt(lib, side, precision, k)
    {
      CellOf(side, k);
    }
  }

  /** A finished column moves the fill to the top of the next one. */
  lemma NextColumn(s: seq<real>, lib: MathLib, side: int, precision: int, x: int)
    requires 0 <= x < side
    requires FilledUpTo(s, lib, side, precision, x, side)
    ensures FilledUpTo(s, lib, side, precision, x + 1, 0)
  {
    forall k | 0 <= k < |s| && Filled(side, k, x + 1, 0)
      ensures s[k] == LutCellAt(lib, side, precision, k)
    {
      CellOf(side, k);
    }
  }

  /** A completed fill holds every cell's sag depth, each strictly inside (0, 1). */
  lemma WholeTable(s: seq<real>, lib: MathLib, side: int, precision: int)
    requires 1 <= side
    requires FilledUpTo(s, lib, side, precision, side, 0)
    ensures forall col, row :: 0 <= col < side && 0 <= row < side ==>
              s[CellIndex(side, col, row)] == LutCell(lib, side, precision, col, row)
    ensures forall k :: 0 <= k < |s| ==> 0.0 < s[k] < 1.0
  {
    forall col, row | 0 <= col < side && 0 <= row < side
      ensures s[CellIndex(side, col, row)] == LutCell(lib, side, precision, col, row)
    {
      assert Filled(side, CellIndex(side, col, row), side, 0);
    }
    forall k | 0 <= k < |s|
      ensures 0.0 < s[k] < 1.0
    {
      CellOf(side, k);
    }
  }

  /** Scaling a target longer than 1 by its host magnitude gives a unit-length target. */
  lemma RescaledTargetIsUnit(lib: MathLib, t: Vec2)
    requires SqrtSound(lib.sqrt) && Magnitude2(lib, t) > 1.0
    ensures var m := Magnitude2(lib, t);
      SqrMagnitude2(Vec2(t.x / m, t.y / m)) == 1.0
  {
    var m := Magnitude2(lib, t);
    var sum := t.x * t.x + t.y * t.y;
    SquareNonNegative(t.x);
    SquareNonNegative(t.y);
    assert SqrMagnitude2(t) == sum;
    assert m == lib.sqrt(sum);
    RootFacts(lib.sqrt, sum);
    var c := m * m;
    assert c == sum;
    var u := Vec2(t.x / m, t.y / m);
    ScaledSquare(u.x, m, c, t.x);
    ScaledSquare(u.y, m, c, t.y);
    var a := u.x * u.x + u.y * u.y;
    Distribute(u.x * u.x, u.y * u.y, c);
    assert a * c == sum;
    SquareLess(1.0, m);
    CancelFactor(a, c, sum);
  }

  lemma CancelFactor(a: real, c: real, s: real)
    requires a * c == s && c == s && 0.0 < c
    ensures a == 1.0
  {
    if a < 1.0 {
      MulLt(a, 1.0, c);
    } else if a > 1.0 {
      MulLt(1.0, a, c);
    }
  }

  lemma ScaledSquare(u: real, m: real, c: real, t: real)
    requires m != 0.0 && u == t / m && c == m * m
    ensures u * u * c == t * t
  {
    assert u * m == t;
    assert u * u * (m * m) == (u * m) * (u * m);
  }

  lemma Distribute(a: real, b: real, c: real)
    ensures (a + b) * c == a * c + b * c
  {
  }
}
