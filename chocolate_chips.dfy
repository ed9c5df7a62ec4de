/** The chocolate-chip scatterer: for a selected cookie it works out a
    representative size, scales a copy of the cookie by 0.4, 0.5 and 0.4
    times the cookie's x, y and z diameters to bound the chips, and builds num_of_chips chips, each a jittered cube that is then
    moved, rotated and scaled at random inside the copy's bounds. */
module ChocolateChips {
  import opened Wrappers
  import opened Geometry

  /** A bounding box in the host's order [xmin, ymin, zmin, xmax, ymax,
      zmax], that is bounds[0] .. bounds[5]. */
  datatype Bounds = Bounds(xmin: real, ymin: real, zmin: real, xmax: real, ymax: real, zmax: real)

  /** Where Chip.change puts a chip: the move, the rotation (in degrees) and
      the scale it applies. */
  datatype Placement = Placement(position: Vector3, rotation: Vector3, scale: Vector3)

  /** Chip.change divides by the x offset of the chip from the centre. */
  datatype PlaceError = ZeroDivision

  /** The translate vector handed to each of the cube's eight vertices, and
      the scale applied to the chip, by Chip.__init__. */
  datatype ChipShape = ChipShape(scaled: real, translate: seq<Vector3>, scaling: real, scalingZ: real)

  /** One chip of the loop: its counter, its shape and its placement. */
  datatype ChipRecord = ChipRecord(count: int, shape: ChipShape, placement: Placement)

  /** What applyCallback leaves behind. NoSelection is the ValueError raised
      when nothing is selected; PlacementFailed is a ZeroDivisionError out of
      Chip.change, after the chips before it were made and after the failing
      chip itself was built (failedShape) but before it was placed. */
  datatype ApplyOutcome =
    | NoSelection
    | Done(cookie: string, size: real, constrScale: Option<Vector3>, chips: seq<ChipRecord>)
    | PlacementFailed(cookie: string, size: real, constrScale: Option<Vector3>,
                      chips: seq<ChipRecord>, failedCount: int, failedShape: ChipShape)

  /** A cube has eight vertices. */
  const CubeVertices: nat := 8

  /** Draws consumed by Chip.__init__: three per vertex, then the two
      scalings. */
  const InitDraws: nat := 26

  /** Draws consumed by a successful Chip.change: x, y, z, the three
      rotations, the scale factor. */
  const ChangeDraws: nat := 7

  /** Draws consumed per chip of the loop. */
  const DrawsPerChip: nat := 33

  // ---------------------------------------------------------------------
  // Chip.change

  /** Chip.change, given its seven draws and the host's tangent. x, y and z
      are uniform within the bounds; the chip's offsets from the centre on x
      and z then bend z by offset_x * tan(offset_z / offset_x), which fails
      when offset_x is zero. */
  function Change(b: Bounds, r: seq<real>, tan: real -> real): (res: Result<Placement, PlaceError>)
    requires |r| >= ChangeDraws
    ensures res.Ok? ==> UniformDraw(b.xmin, b.xmax, r[0]) != (b.xmax + b.xmin) / 2.0
  {
    var x := UniformDraw(b.xmin, b.xmax, r[0]);
    var y := UniformDraw(b.ymin, b.ymax, r[1]);
    var z := UniformDraw(b.zmin, b.zmax, r[2]);
    var offsetZ := z - (b.zmax + b.zmin) / 2.0;
    var offsetX := x - (b.xmax + b.xmin) / 2.0;
    if offsetX == 0.0 then
      Err(ZeroDivision)
    else
      var z' := z + offsetX * tan(offsetZ / offsetX);
      var xRot := UniformDraw(100.0, 160.0, r[3]);
      var yRot := UniformDraw(80.0, 130.0, r[4]);
      var zRot := UniformDraw(130.0, 180.0, r[5]);
      var scalingFactor := UniformDraw(0.9, 1.2, r[6]);
      Ok(Placement(Vector3(x, y, z'), Vector3(xRot, yRot, zRot), Uniform3(scalingFactor)))
  }

  /** A uniform value on a span d != 0 hits the middle of its bounds only
      for the middle draw. Stated over the span so that the solver only
      multiplies plain variables. */
  lemma UniformOffMiddle(a: real, d: real, r: real)
    requires d != 0.0 && r != 0.5
    ensures UniformDraw(a, a + d, r) != (a + d + a) / 2.0
  {
    if d > 0.0 {
      if r > 0.5 { assert d * (r - 0.5) > 0.0; } else { assert d * (0.5 - r) > 0.0; }
    } else {
      if r > 0.5 { assert (-d) * (r - 0.5) > 0.0; } else { assert (-d) * (0.5 - r) > 0.0; }
    }
  }

  /** uniform(a, b) lands on the midpoint (a + b) / 2 exactly when the
      bounds coincide or the draw is the middle one. */
  lemma UniformAtMiddleIff(a: real, b: real, r: real)
    ensures UniformDraw(a, b, r) - (b + a) / 2.0 == 0.0 <==> (a == b || r == 0.5)
  {
    if a != b && r != 0.5 {
      UniformOffMiddle(a, b - a, r);
      assert a + (b - a) == b;
    } else if a == b {
      assert b - a == 0.0;
      assert (b - a) * r == 0.0 * r;
    } else {
      assert (b - a) * r == (b - a) * 0.5;
    }
  }

  /** Chip.change raises ZeroDivisionError exactly when the bounds are flat
      on x (every x is the centre) or the x draw is the middle one. */
  lemma ChangeFailsIff(b: Bounds, r: seq<real>, tan: real -> real)
    requires |r| >= ChangeDraws
    ensures Change(b, r, tan).Err? <==> (b.xmin == b.xmax || r[0] == 0.5)
  {
    UniformAtMiddleIff(b.xmin, b.xmax, r[0]);
  }

  /** A cookie copy that is flat on x makes every placement fail, whatever
      the draws. */
  lemma FlatBoundsAlwaysFail(b: Bounds, r: seq<real>, tan: real -> real)
    requires |r| >= ChangeDraws && b.xmin == b.xmax
    ensures Change(b, r, tan) == Err(ZeroDivision)
  {
    ChangeFailsIff(b, r, tan);
  }

  /** A successful placement: x and y are their draws, used unchanged, and
      lie within the bounds; z is a value
      within the z bounds bent by offset_x * tan(offset_z / offset_x), the
      rotations lie in [100, 160), [80, 130) and [130, 180) degrees, and the
      chip is scaled by one factor in [0.9, 1.2) on all three axes. */
  lemma ChangePlacement(b: Bounds, r: seq<real>, tan: real -> real)
    requires |r| >= ChangeDraws && ValidDraws(r)
    requires Change(b, r, tan).Ok?
    ensures var p := Change(b, r, tan).value;
      var offsetX := p.position.x - (b.xmax + b.xmin) / 2.0;
      var z := UniformDraw(b.zmin, b.zmax, r[2]);
      && offsetX != 0.0
      && p.position.x == UniformDraw(b.xmin, b.xmax, r[0])
      && p.position.y == UniformDraw(b.ymin, b.ymax, r[1])
      && Between(p.position.x, b.xmin, b.xmax)
      && Between(p.position.y, b.ymin, b.ymax)
      && Between(z, b.zmin, b.zmax)
      && p.position.z == z + offsetX * tan((z - (b.zmax + b.zmin) / 2.0) / offsetX)
      && 100.0 <= p.rotation.x < 160.0
      && 80.0 <= p.rotation.y < 130.0
      && 130.0 <= p.rotation.z < 180.0
      && p.scale.x == p.scale.y == p.scale.z
      && 0.9 <= p.scale.x < 1.2
  {
    assert IsDraw(r[0]) && IsDraw(r[1]) && IsDraw(r[2]) && IsDraw(r[3]);
    assert IsDraw(r[4]) && IsDraw(r[5]) && IsDraw(r[6]);
    UniformBetween(b.xmin, b.xmax, r[0]);
    UniformBetween(b.ymin, b.ymax, r[1]);
    UniformBetween(b.zmin, b.zmax, r[2]);
    UniformBetween(100.0, 160.0, r[3]);
    UniformBetween(80.0, 130.0, r[4]);
    UniformBetween(130.0, 180.0, r[5]);
    UniformBetween(0.9, 1.2, r[6]);
  }

  /** Where the chip sits at the centre of the z bounds and the tangent
      vanishes at zero, the bend leaves z alone and the whole position lies
      within the bounds. */
  lemma CentredZStaysInBounds(b: Bounds, r: seq<real>, tan: real -> real)
    requires |r| >= ChangeDraws && ValidDraws(r)
    requires Change(b, r, tan).Ok?
    requires UniformDraw(b.zmin, b.zmax, r[2]) == (b.zmax + b.zmin) / 2.0
    requires tan(0.0) == 0.0
    ensures var p := Change(b, r, tan).value;
      && Between(p.position.x, b.xmin, b.xmax)
      && Between(p.position.y, b.ymin, b.ymax)
      && Between(p.position.z, b.zmin, b.zmax)
  {
    ChangePlacement(b, r, tan);
    var offsetX := UniformDraw(b.xmin, b.xmax, r[0]) - (b.xmax + b.xmin) / 2.0;
    assert 0.0 / offsetX == 0.0;
    assert offsetX * 0.0 == 0.0;
  }

  // ---------------------------------------------------------------------
  // Chip.__init__

  /** The bound of the random nudge of one coordinate of one vertex: a
      quarter of the chip's size, but an eighth for vertex 0's y. */
  function JitterBound(scaled: real, v: nat, axis: nat): real {
    if v == 0 && axis == 1 then scaled / 8.0 else scaled / 4.0
  }

  /** The nudge of vertex v, from draws 3v, 3v + 1 and 3v + 2. */
  function Jitter(scaled: real, r: seq<real>, v: nat): Vector3
    requires 3 * v + 2 < |r|
  {
    Vector3(UniformDraw(0.0, JitterBound(scaled, v, 0), r[3 * v]),
            UniformDraw(0.0, JitterBound(scaled, v, 1), r[3 * v + 1]),
            UniformDraw(0.0, JitterBound(scaled, v, 2), r[3 * v + 2]))
  }

  /** Chip.__init__: the chip's size is the cookie's representative size
      times the chip size; each vertex of the cube is handed its position
      plus a nudge, and the chip gets one scaling on x and y and another on
      z. corners are the positions of the cube's vertices 0 .. 7. */
  function NewChip(cookie: real, size: real, corners: seq<Vector3>, r: seq<real>): (c: ChipShape)
    requires |corners| == CubeVertices && |r| >= InitDraws
    ensures |c.translate| == CubeVertices
  {
    var scaled := cookie * size;
    ChipShape(scaled,
              seq(CubeVertices, v requires 0 <= v < CubeVertices => Add(corners[v], Jitter(scaled, r, v))),
              UniformDraw(1.5, 2.0, r[24]),
              UniformDraw(1.0, 1.5, r[25]))
  }

  /** Each vertex is nudged by at most a quarter of the chip's size on each
      axis (an eighth on vertex 0's y), towards positive coordinates when
      that size is positive; the chip is scaled by a factor in [1.5, 2.0) on
      x and y and by one in [1.0, 1.5) on z. */
  lemma NewChipRanges(cookie: real, size: real, corners: seq<Vector3>, r: seq<real>, v: int)
    requires |corners| == CubeVertices && |r| >= InitDraws && ValidDraws(r)
    requires 0 <= v < CubeVertices
    ensures var c := NewChip(cookie, size, corners, r);
      var d := Sub(c.translate[v], corners[v]);
      && c.scaled == cookie * size
      && Between(d.x, 0.0, c.scaled / 4.0)
      && Between(d.y, 0.0, if v == 0 then c.scaled / 8.0 else c.scaled / 4.0)
      && Between(d.z, 0.0, c.scaled / 4.0)
      && 1.5 <= c.scaling < 2.0
      && 1.0 <= c.scalingZ < 1.5
  {
    var scaled := cookie * size;
    assert IsDraw(r[3 * v]) && IsDraw(r[3 * v + 1]) && IsDraw(r[3 * v + 2]);
    assert IsDraw(r[24]) && IsDraw(r[25]);
    UniformBetween(0.0, JitterBound(scaled, v, 0), r[3 * v]);
    UniformBetween(0.0, JitterBound(scaled, v, 1), r[3 * v + 1]);
    UniformBetween(0.0, JitterBound(scaled, v, 2), r[3 * v + 2]);
    UniformBetween(1.5, 2.0, r[24]);
    UniformBetween(1.0, 1.5, r[25]);
  }

  // ---------------------------------------------------------------------
  // applyCallback

  function Abs(u: real): real {
    if u < 0.0 then -u else u
  }

  /** The cookie's diameter along x, y and z: the absolute extents of its
      bounding box. */
  function Diameters(b: Bounds): (d: Vector3)
    ensures d.x >= 0.0 && d.y >= 0.0 && d.z >= 0.0
  {
    Vector3(Abs(b.xmax - b.xmin), Abs(b.ymax - b.ymin), Abs(b.zmax - b.zmin))
  }

  /** The representative size of the cookie: the mean of its three
      diameters. It is never negative, at least a third of each diameter,
      and zero only for a box flat on every axis. */
  function CookieSize(b: Bounds): (size: real)
    ensures size >= 0.0
    ensures var d := Diameters(b); d.x <= 3.0 * size && d.y <= 3.0 * size && d.z <= 3.0 * size
    ensures size == 0.0 <==> (b.xmin == b.xmax && b.ymin == b.ymax && b.zmin == b.zmax)
  {
    var d := Diameters(b);
    (d.x + d.y + d.z) / 3.0
  }

  /** The scale given to the cookie's copy that bounds the chips: 0.4
      times the cookie's x and z diameters and 0.5 times its y diameter.
      It is never negative, and it is zero on exactly the axes on which the
      cookie is flat. */
  function ConstrScale(b: Bounds): (s: Vector3)
    ensures s.x >= 0.0 && s.y >= 0.0 && s.z >= 0.0
    ensures s.x == 0.0 <==> b.xmin == b.xmax
    ensures s.y == 0.0 <==> b.ymin == b.ymax
    ensures s.z == 0.0 <==> b.zmin == b.zmax
  {
    var d := Diameters(b);
    Vector3(d.x * 0.4, d.y * 0.5, d.z * 0.4)
  }

  /** The shape of chip k of the loop (counting from 0), built from the
      first 26 of its 33 draws. */
  function ChipShapeAt(k: nat, size: real, chipSize: real, corners: seq<Vector3>,
                       draws: seq<real>): ChipShape
    requires |corners| == CubeVertices
    requires DrawsPerChip * k + DrawsPerChip <= |draws|
  {
    var start := DrawsPerChip * k;
    NewChip(size, chipSize, corners, draws[start .. start + InitDraws])
  }

  /** Chip k of the loop (counting from 0): built from the first 26 of its
      33 draws, placed with the remaining 7, and numbered k + 1. */
  function ChipAt(k: nat, size: real, chipSize: real, bounds: Bounds, corners: seq<Vector3>,
                  draws: seq<real>, tan: real -> real): Result<ChipRecord, PlaceError>
    requires |corners| == CubeVertices
    requires DrawsPerChip * k + DrawsPerChip <= |draws|
  {
    var start := DrawsPerChip * k;
    var shape := ChipShapeAt(k, size, chipSize, corners, draws);
    match Change(bounds, draws[start + InitDraws .. start + DrawsPerChip], tan)
    case Ok(p) => Ok(ChipRecord(k + 1, shape, p))
    case Err(e) => Err(e)
  }

  /** applyCallback. An empty selection raises. Otherwise the first selected
      object is the cookie: its size is the mean diameter of its bounding
      box, a copy scaled by ConstrScale is made unless it already exists,
      and for i in range(numOfChips) a chip numbered count = i + 1 is built
      and placed within constrBounds (the copy's bounding box). The loop
      stops at the first placement that divides by zero, leaving that chip
      built but unplaced. */
  method ApplyCallback(selection: seq<string>, numOfChips: int, chipSize: real,
                       cookieBounds: Bounds, constrExists: bool, constrBounds: Bounds,
                       corners: seq<Vector3>, draws: seq<real>, tan: real -> real)
    returns (out: ApplyOutcome)
    requires |corners| == CubeVertices
    requires DrawsPerChip * RangeLength(numOfChips) <= |draws|
    ensures out.NoSelection? <==> |selection| == 0
    ensures !out.NoSelection? ==>
      && out.cookie == selection[0]
      && out.size == CookieSize(cookieBounds)
      && out.constrScale == (if constrExists then None else Some(ConstrScale(cookieBounds)))
      && |out.chips| <= RangeLength(numOfChips)
      && forall j :: 0 <= j < |out.chips| ==>
           && ChipAt(j, out.size, chipSize, constrBounds, corners, draws, tan) == Ok(out.chips[j])
           && out.chips[j].count == j + 1
    ensures out.Done? ==> |out.chips| == RangeLength(numOfChips)
    ensures out.PlacementFailed? ==>
      && |out.chips| < RangeLength(numOfChips)
      && out.failedCount == |out.chips| + 1
      && out.failedShape == ChipShapeAt(|out.chips|, out.size, chipSize, corners, draws)
      && ChipAt(|out.chips|, out.size, chipSize, constrBounds, corners, draws, tan).Err?
  {
    if |selection| < 1 {
      return NoSelection;
    }
    var cookie := selection[0];
    var count := 1;
    var diameters := Diameters(cookieBounds);
    var size := (diameters.x + diameters.y + diameters.z) / 3.0;
    var constrScale := None;
    if !constrExists {
      constrScale := Some(Vector3(diameters.x * 0.4, diameters.y * 0.5, diameters.z * 0.4));
    }
    var chips := [];
    for i := 0 to RangeLength(numOfChips)
      invariant count == i + 1
      invariant |chips| == i
      invariant forall j :: 0 <= j < i ==>
        ChipAt(j, size, chipSize, constrBounds, corners, draws, tan) == Ok(chips[j])
        && chips[j].count == j + 1
    {
      var start := DrawsPerChip * i;
      var shape := NewChip(size, chipSize, corners, draws[start .. start + InitDraws]);
      var placed := Change(constrBounds, draws[start + InitDraws .. start + DrawsPerChip], tan);
      if placed.Err? {
        return PlacementFailed(cookie, size, constrScale, chips, count, shape);
      }
      chips := chips + [ChipRecord(count, shape, placed.value)];
      count := count + 1;
    }
    return Done(cookie, size, constrScale, chips);
  }

  /** Whether the loop runs to the end is decided by the copy's bounds and
      the x draws alone: with a copy flat on x and at least one chip asked
      for, no chip is ever placed. */
  lemma FlatCopyPlacesNoChip(selection: seq<string>, numOfChips: int, chipSize: real,
                             cookieBounds: Bounds, constrExists: bool, constrBounds: Bounds,
                             corners: seq<Vector3>, draws: seq<real>, tan: real -> real,
                             out: ApplyOutcome)
    requires |corners| == CubeVertices
    requires DrawsPerChip * RangeLength(numOfChips) <= |draws|
    requires |selection| > 0 && numOfChips > 0 && constrBounds.xmin == constrBounds.xmax
    requires !out.NoSelection? && |out.chips| <= RangeLength(numOfChips)
    requires forall j :: 0 <= j < |out.chips| ==>
               ChipAt(j, out.size, chipSize, constrBounds, corners, draws, tan) == Ok(out.chips[j])
    requires out.Done? ==> |out.chips| == RangeLength(numOfChips)
    ensures out.PlacementFailed? && out.chips == []
  {
    FlatBoundsAlwaysFail(constrBounds, draws[InitDraws .. DrawsPerChip], tan);
    assert ChipAt(0, out.size, chipSize, constrBounds, corners, draws, tan).Err?;
  }
}
