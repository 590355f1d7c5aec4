/**
 * Overlay geometry: the quads of the five overlay shapes, built from boxes
 * given in model units (16 per block), and the quarter-turn rotation about
 * the block's vertical centre line used to orient the double-chest overlay.
 *
 * Coordinates are exact reals; the host stores them as 32-bit floats.
 */
module QuadFactory {
  import opened Types

  datatype Vec3 = Vec3(x: real, y: real, z: real)

  /** A texture sample as a fraction of the sprite: (0|1, 0|1). */
  datatype UV = UV(u: real, v: real)

  /** A baked quad: four corners in block units, their texture samples, the
      tint channel, the direction used for face culling, the sprite, shading
      and light emission. */
  datatype Quad = Quad(
    p0: Vec3, p1: Vec3, p2: Vec3, p3: Vec3,
    uv0: UV, uv1: UV, uv2: UV, uv3: UV,
    tintIndex: int,
    direction: Direction,
    sprite: Sprite,
    shade: bool,
    lightEmission: int)

  function Corners(q: Quad): seq<Vec3> { [q.p0, q.p1, q.p2, q.p3] }

  function Sub(a: Vec3, b: Vec3): Vec3 { Vec3(a.x - b.x, a.y - b.y, a.z - b.z) }

  function Cross(a: Vec3, b: Vec3): Vec3
  {
    Vec3(a.y * b.z - a.z * b.y, a.z * b.x - a.x * b.z, a.x * b.y - a.y * b.x)
  }

  /** The normal given by the winding p0 -> p1 -> p2 (right-hand rule). */
  function Normal(q: Quad): Vec3 { Cross(Sub(q.p1, q.p0), Sub(q.p2, q.p0)) }

  /** n points exactly along direction d (a positive multiple of its unit vector). */
  predicate PointsAlong(n: Vec3, d: Direction)
  {
    && n.x * (StepX(d) as real) + n.y * (StepY(d) as real) + n.z * (StepZ(d) as real) > 0.0
    && (StepX(d) == 0 ==> n.x == 0.0)
    && (StepY(d) == 0 ==> n.y == 0.0)
    && (StepZ(d) == 0 ==> n.z == 0.0)
  }

  /** The four corners share the coordinate that is constant on a face of d's axis. */
  predicate Flat(q: Quad, d: Direction)
  {
    if StepY(d) != 0 then q.p0.y == q.p1.y == q.p2.y == q.p3.y
    else if StepZ(d) != 0 then q.p0.z == q.p1.z == q.p2.z == q.p3.z
    else q.p0.x == q.p1.x == q.p2.x == q.p3.x
  }

  /** The whole sprite, corner by corner: (0,0), (0,1), (1,1), (1,0). */
  predicate FullSprite(q: Quad)
  {
    q.uv0 == UV(0.0, 0.0) && q.uv1 == UV(0.0, 1.0) && q.uv2 == UV(1.0, 1.0) && q.uv3 == UV(1.0, 0.0)
  }

  /** Which bound of a box a face lies on. */
  predicate OnFacePlane(c: Vec3, face: Direction, bx0: real, by0: real, bz0: real, bx1: real, by1: real, bz1: real)
  {
    match face
    case Up => c.y == by1
    case Down => c.y == by0
    case North => c.z == bz0
    case South => c.z == bz1
    case West => c.x == bx0
    case East => c.x == bx1
  }

  /** One face of the box (x0,y0,z0)-(x1,y1,z1), given in model units, as a
      quad in block units: its corners are corners of the box on that face,
      wound counter-clockwise seen from outside, and it shows the whole
      sprite. Its direction is the cull face when there is one, else the face. */
  function CreateQuad(sprite: Sprite, tintIndex: int, face: Direction, cullface: Option<Direction>,
                      x0: real, y0: real, z0: real, x1: real, y1: real, z1: real): (r: Quad)
    ensures r.direction == (if cullface.Some? then cullface.value else face)
    ensures FullSprite(r) && r.tintIndex == tintIndex && r.sprite == sprite
    ensures !r.shade && r.lightEmission == 0
  {
    var bx0, by0, bz0 := x0 / 16.0, y0 / 16.0, z0 / 16.0;
    var bx1, by1, bz1 := x1 / 16.0, y1 / 16.0, z1 / 16.0;
    var uv00, uv01, uv10, uv11 := UV(0.0, 0.0), UV(0.0, 1.0), UV(1.0, 0.0), UV(1.0, 1.0);
    var quadDir := if cullface.Some? then cullface.value else face;
    match face
    case Up =>
      Quad(Vec3(bx0, by1, bz0), Vec3(bx0, by1, bz1), Vec3(bx1, by1, bz1), Vec3(bx1, by1, bz0),
           uv00, uv01, uv11, uv10, tintIndex, quadDir, sprite, false, 0)
    case Down =>
      Quad(Vec3(bx0, by0, bz1), Vec3(bx0, by0, bz0), Vec3(bx1, by0, bz0), Vec3(bx1, by0, bz1),
           uv00, uv01, uv11, uv10, tintIndex, quadDir, sprite, false, 0)
    case North =>
      Quad(Vec3(bx1, by1, bz0), Vec3(bx1, by0, bz0), Vec3(bx0, by0, bz0), Vec3(bx0, by1, bz0),
           uv00, uv01, uv11, uv10, tintIndex, quadDir, sprite, false, 0)
    case South =>
      Quad(Vec3(bx0, by1, bz1), Vec3(bx0, by0, bz1), Vec3(bx1, by0, bz1), Vec3(bx1, by1, bz1),
           uv00, uv01, uv11, uv10, tintIndex, quadDir, sprite, false, 0)
    case West =>
      Quad(Vec3(bx0, by1, bz0), Vec3(bx0, by0, bz0), Vec3(bx0, by0, bz1), Vec3(bx0, by1, bz1),
           uv00, uv01, uv11, uv10, tintIndex, quadDir, sprite, false, 0)
    case East =>
      Quad(Vec3(bx1, by1, bz1), Vec3(bx1, by0, bz1), Vec3(bx1, by0, bz0), Vec3(bx1, by1, bz0),
           uv00, uv01, uv11, uv10, tintIndex, quadDir, sprite, false, 0)
  }

  /** Corner c is a corner of the box (x0,y0,z0)-(x1,y1,z1) lying on the face. */
  predicate BoxCorner(c: Vec3, face: Direction, x0: real, y0: real, z0: real, x1: real, y1: real, z1: real)
  {
    && OnFacePlane(c, face, x0, y0, z0, x1, y1, z1)
    && (c.x == x0 || c.x == x1) && (c.y == y0 || c.y == y1) && (c.z == z0 || c.z == z1)
  }

  lemma PositiveProduct(a: real, b: real)
    requires a > 0.0 && b > 0.0
    ensures a * b > 0.0
  {
  }

  /** The geometry of a created quad: its corners are the box's corners on the
      face (scaled to block units), it is flat, and for a box of positive
      extent its winding faces outwards along the face. */
  lemma CreateQuadGeometry(sprite: Sprite, tintIndex: int, face: Direction, cullface: Option<Direction>,
                           x0: real, y0: real, z0: real, x1: real, y1: real, z1: real)
    ensures var r := CreateQuad(sprite, tintIndex, face, cullface, x0, y0, z0, x1, y1, z1);
            && (forall c :: c in Corners(r) ==>
                  BoxCorner(c, face, x0 / 16.0, y0 / 16.0, z0 / 16.0, x1 / 16.0, y1 / 16.0, z1 / 16.0))
            && Flat(r, face)
            && (x0 < x1 && y0 < y1 && z0 < z1 ==> PointsAlong(Normal(r), face))
  {
    var r := CreateQuad(sprite, tintIndex, face, cullface, x0, y0, z0, x1, y1, z1);
    var dx, dy, dz := x1 / 16.0 - x0 / 16.0, y1 / 16.0 - y0 / 16.0, z1 / 16.0 - z0 / 16.0;
    var n := Normal(r);
    match face
    case Up => assert n == Vec3(0.0, dz * dx, 0.0);
    case Down => assert n == Vec3(0.0, -(dz * dx), 0.0);
    case North => assert n == Vec3(0.0, 0.0, -(dy * dx));
    case South => assert n == Vec3(0.0, 0.0, dy * dx);
    case West => assert n == Vec3(-(dy * dz), 0.0, 0.0);
    case East => assert n == Vec3(dy * dz, 0.0, 0.0);
    if x0 < x1 && y0 < y1 && z0 < z1 {
      PositiveProduct(dz, dx);
      PositiveProduct(dy, dx);
      PositiveProduct(dy, dz);
    }
  }

  // ---- The five overlay shapes ----

  /** One createQuad call of a builder: the face and the box in model units. */
  datatype Box = Box(face: Direction, x0: real, y0: real, z0: real, x1: real, y1: real, z1: real)

  /** A builder's quads, one per box in order; a culled shape passes each
      face as its own cull face, an unculled one passes none. */
  function FromBoxes(sprite: Sprite, tintIndex: int, boxes: seq<Box>, culled: bool): (r: seq<Quad>)
    ensures |r| == |boxes|
    ensures forall i :: 0 <= i < |r| ==>
              && r[i].direction == boxes[i].face
              && FullSprite(r[i]) && r[i].tintIndex == tintIndex && r[i].sprite == sprite
              && !r[i].shade && r[i].lightEmission == 0
  {
    seq(|boxes|, i requires 0 <= i < |boxes| =>
      var b := boxes[i];
      CreateQuad(sprite, tintIndex, b.face, if culled then Some(b.face) else None,
                 b.x0, b.y0, b.z0, b.x1, b.y1, b.z1))
  }

  /** The face order every builder uses: four cap strips, then one side
      strip each to the north, south, west and east. */
  function ShapeFaces(cap: Direction): seq<Direction>
  {
    [cap, cap, cap, cap, North, South, West, East]
  }

  /** Top overlay of a full cube: a frame one unit wide just above the top
      face and a one-unit band just outside each side at the top. */
  const StandardBoxes: seq<Box> := [
    Box(Up, 0.0, 16.01, 0.0, 16.0, 16.02, 1.0),
    Box(Up, 0.0, 16.01, 15.0, 16.0, 16.02, 16.0),
    Box(Up, 0.0, 16.01, 1.0, 1.0, 16.02, 15.0),
    Box(Up, 15.0, 16.01, 1.0, 16.0, 16.02, 15.0),
    Box(North, 0.0, 15.0, -0.01, 16.0, 16.0, -0.001),
    Box(South, 0.0, 15.0, 16.001, 16.0, 16.0, 16.01),
    Box(West, -0.01, 15.0, 0.0, -0.001, 16.0, 16.0),
    Box(East, 16.001, 15.0, 0.0, 16.01, 16.0, 16.0)]

  /** Bottom overlay of a full cube: the frame just below the bottom face
      and a one-unit band just outside each side at the bottom. */
  const BottomBoxes: seq<Box> := [
    Box(Down, 0.0, -0.02, 0.0, 16.0, -0.01, 1.0),
    Box(Down, 0.0, -0.02, 15.0, 16.0, -0.01, 16.0),
    Box(Down, 0.0, -0.02, 1.0, 1.0, -0.01, 15.0),
    Box(Down, 15.0, -0.02, 1.0, 16.0, -0.01, 15.0),
    Box(North, 0.0, 0.0, -0.01, 16.0, 1.0, -0.001),
    Box(South, 0.0, 0.0, 16.001, 16.0, 1.0, 16.01),
    Box(West, -0.01, 0.0, 0.0, -0.001, 1.0, 16.0),
    Box(East, 16.001, 0.0, 0.0, 16.01, 1.0, 16.0)]

  /** Decorated pot overlay: the top frame and side bands inset by one unit. */
  const PotBoxes: seq<Box> := [
    Box(Up, 1.0, 16.01, 1.0, 15.0, 16.02, 2.0),
    Box(Up, 1.0, 16.01, 14.0, 15.0, 16.02, 15.0),
    Box(Up, 1.0, 16.01, 2.0, 2.0, 16.02, 14.0),
    Box(Up, 14.0, 16.01, 2.0, 15.0, 16.02, 14.0),
    Box(North, 1.0, 15.0, 0.99, 15.0, 16.0, 0.999),
    Box(South, 1.0, 15.0, 15.001, 15.0, 16.0, 15.01),
    Box(West, 0.99, 15.0, 1.0, 0.999, 16.0, 15.0),
    Box(East, 15.001, 15.0, 1.0, 15.01, 16.0, 15.0)]

  /** Single chest overlay: the frame on the lid seam at height 9 and the
      bands below it, inset by one unit like the chest body. */
  const ChestBoxes: seq<Box> := [
    Box(Up, 1.0, 9.01, 1.0, 15.0, 9.02, 2.0),
    Box(Up, 1.0, 9.01, 14.0, 15.0, 9.02, 15.0),
    Box(Up, 1.0, 9.01, 2.0, 2.0, 9.02, 14.0),
    Box(Up, 14.0, 9.01, 2.0, 15.0, 9.02, 14.0),
    Box(North, 1.0, 8.0, 0.99, 15.0, 9.0, 0.999),
    Box(South, 1.0, 8.0, 15.001, 15.0, 9.0, 15.01),
    Box(West, 0.99, 8.0, 1.0, 0.999, 9.0, 15.0),
    Box(East, 15.001, 8.0, 1.0, 15.01, 9.0, 15.0)]

  /** Double chest overlay, seen from the left half facing north: the chest
      frame stretched to two blocks along +x, into the right half. */
  const DoubleChestBoxes: seq<Box> := [
    Box(Up, 1.0, 9.01, 1.0, 31.0, 9.02, 2.0),
    Box(Up, 1.0, 9.01, 14.0, 31.0, 9.02, 15.0),
    Box(Up, 1.0, 9.01, 2.0, 2.0, 9.02, 14.0),
    Box(Up, 30.0, 9.01, 2.0, 31.0, 9.02, 14.0),
    Box(North, 1.0, 8.0, 0.99, 31.0, 9.0, 0.999),
    Box(South, 1.0, 8.0, 15.001, 31.0, 9.0, 15.01),
    Box(West, 0.99, 8.0, 1.0, 0.999, 9.0, 15.0),
    Box(East, 31.001, 8.0, 1.0, 31.01, 9.0, 15.0)]

  /** Every builder's layout: eight quads, the given tint and sprite, each
      showing the whole sprite, unshaded and unlit, facing in the shared
      order with the given cap direction. */
  predicate ShapeOf(qs: seq<Quad>, cap: Direction, tintIndex: int, sprite: Sprite)
  {
    && |qs| == 8
    && forall i :: 0 <= i < 8 ==>
         && qs[i].direction == ShapeFaces(cap)[i]
         && FullSprite(qs[i]) && qs[i].tintIndex == tintIndex && qs[i].sprite == sprite
         && !qs[i].shade && qs[i].lightEmission == 0
  }

  function StandardOverlay(sprite: Sprite, tintIndex: int): (r: seq<Quad>)
    ensures ShapeOf(r, Up, tintIndex, sprite)
  {
    FromBoxes(sprite, tintIndex, StandardBoxes, true)
  }

  function BottomOverlay(sprite: Sprite, tintIndex: int): (r: seq<Quad>)
    ensures ShapeOf(r, Down, tintIndex, sprite)
  {
    FromBoxes(sprite, tintIndex, BottomBoxes, true)
  }

  function PotOverlay(sprite: Sprite, tintIndex: int): (r: seq<Quad>)
    ensures ShapeOf(r, Up, tintIndex, sprite)
  {
    FromBoxes(sprite, tintIndex, PotBoxes, false)
  }

  function ChestOverlay(sprite: Sprite, tintIndex: int): (r: seq<Quad>)
    ensures ShapeOf(r, Up, tintIndex, sprite)
  {
    FromBoxes(sprite, tintIndex, ChestBoxes, false)
  }

  function DoubleChestOverlay(sprite: Sprite, tintIndex: int): (r: seq<Quad>)
    ensures ShapeOf(r, Up, tintIndex, sprite)
  {
    FromBoxes(sprite, tintIndex, DoubleChestBoxes, false)
  }

  /** A box has positive extent on every axis. */
  predicate Proper(b: Box) { b.x0 < b.x1 && b.y0 < b.y1 && b.z0 < b.z1 }

  /** Every quad of a shape built from proper boxes is flat and wound to face
      outwards along its direction, so back-face culling keeps the visible side. */
  lemma FromBoxesFaceOutwards(sprite: Sprite, tintIndex: int, boxes: seq<Box>, culled: bool)
    requires forall i :: 0 <= i < |boxes| ==> Proper(boxes[i])
    ensures var r := FromBoxes(sprite, tintIndex, boxes, culled);
            forall i :: 0 <= i < |r| ==> Flat(r[i], r[i].direction) && PointsAlong(Normal(r[i]), r[i].direction)
  {
    forall i | 0 <= i < |boxes|
      ensures var b := boxes[i];
              var q := CreateQuad(sprite, tintIndex, b.face, if culled then Some(b.face) else None,
                                  b.x0, b.y0, b.z0, b.x1, b.y1, b.z1);
              Flat(q, b.face) && PointsAlong(Normal(q), b.face)
    {
      var b := boxes[i];
      CreateQuadGeometry(sprite, tintIndex, b.face, if culled then Some(b.face) else None,
                         b.x0, b.y0, b.z0, b.x1, b.y1, b.z1);
    }
  }

  lemma AllShapesAreProper()
    ensures forall i :: 0 <= i < 8 ==> Proper(StandardBoxes[i]) && Proper(BottomBoxes[i])
    ensures forall i :: 0 <= i < 8 ==> Proper(PotBoxes[i]) && Proper(ChestBoxes[i]) && Proper(DoubleChestBoxes[i])
  {
  }

  /** Every corner of a built shape is a corner of its box, in block units. */
  lemma FromBoxesCorners(sprite: Sprite, tintIndex: int, boxes: seq<Box>, culled: bool, i: int, c: Vec3)
    requires 0 <= i < |boxes|
    requires c in Corners(FromBoxes(sprite, tintIndex, boxes, culled)[i])
    ensures var b := boxes[i];
            BoxCorner(c, b.face, b.x0 / 16.0, b.y0 / 16.0, b.z0 / 16.0, b.x1 / 16.0, b.y1 / 16.0, b.z1 / 16.0)
  {
    var b := boxes[i];
    CreateQuadGeometry(sprite, tintIndex, b.face, if culled then Some(b.face) else None,
                       b.x0, b.y0, b.z0, b.x1, b.y1, b.z1);
  }

  /** A point lies in the axis-aligned region lo..hi. */
  predicate Within(c: Vec3, lo: Vec3, hi: Vec3)
  {
    lo.x <= c.x <= hi.x && lo.y <= c.y <= hi.y && lo.z <= c.z <= hi.z
  }

  /** The double-chest overlay, before rotation, spans the left half's cell
      and the cell to its east (+x) and nothing else, at lid height. */
  lemma DoubleChestSpansTwoCells(sprite: Sprite, tintIndex: int, i: int, c: Vec3)
    requires 0 <= i < 8
    requires c in Corners(DoubleChestOverlay(sprite, tintIndex)[i])
    ensures Within(c, Vec3(0.0, 0.5, 0.0), Vec3(2.0, 0.6, 1.0))
  {
    FromBoxesCorners(sprite, tintIndex, DoubleChestBoxes, false, i, c);
  }

  /** The full-cube overlays lie outside the unit cell, so they never
      coincide with the block's own faces: cap strips above the top (or below
      the bottom), side strips beyond their side. */
  predicate OutsideCell(q: Quad)
  {
    || (forall c :: c in Corners(q) ==> c.y > 1.0)
    || (forall c :: c in Corners(q) ==> c.y < 0.0)
    || (forall c :: c in Corners(q) ==> c.z < 0.0)
    || (forall c :: c in Corners(q) ==> c.z > 1.0)
    || (forall c :: c in Corners(q) ==> c.x < 0.0)
    || (forall c :: c in Corners(q) ==> c.x > 1.0)
  }

  lemma CubeOverlaysOutsideCell(sprite: Sprite, tintIndex: int, i: int)
    requires 0 <= i < 8
    ensures OutsideCell(StandardOverlay(sprite, tintIndex)[i])
    ensures OutsideCell(BottomOverlay(sprite, tintIndex)[i])
  {
    var b := StandardBoxes[i];
    CreateQuadGeometry(sprite, tintIndex, b.face, Some(b.face), b.x0, b.y0, b.z0, b.x1, b.y1, b.z1);
    var b' := BottomBoxes[i];
    CreateQuadGeometry(sprite, tintIndex, b'.face, Some(b'.face), b'.x0, b'.y0, b'.z0, b'.x1, b'.y1, b'.z1);
  }

  // ---- Quarter turns about the block's vertical centre line ----

  /** A point turned `steps` quarter turns clockwise (seen from above) about
      x = z = 0.5; any step count other than 1, 2 or 3 leaves it in place. */
  function RotatePointY(p: Vec3, steps: int): (r: Vec3)
    ensures r.y == p.y
  {
    var cx, cz := p.x - 0.5, p.z - 0.5;
    if steps == 1 then Vec3(-cz + 0.5, p.y, cx + 0.5)
    else if steps == 2 then Vec3(-cx + 0.5, p.y, -cz + 0.5)
    else if steps == 3 then Vec3(cz + 0.5, p.y, -cx + 0.5)
    else p
  }

  /** Turning by k and then by the rest of a full turn gives the point back exactly. */
  lemma RotatePointInverse(p: Vec3, k: int)
    requires 0 <= k <= 4
    ensures RotatePointY(RotatePointY(p, k), 4 - k) == p
  {
  }

  /** Quarter turns compose by adding step counts modulo 4. */
  lemma RotatePointCompose(p: Vec3, a: int, b: int)
    requires 0 <= a < 4 && 0 <= b < 4
    ensures RotatePointY(RotatePointY(p, a), b) == RotatePointY(p, (a + b) % 4)
  {
  }

  /** Position of a horizontal direction in clockwise order from north. */
  function TurnIndex(d: Direction): (r: int)
    requires d.IsHorizontal()
    ensures 0 <= r < 4
  {
    match d
    case North => 0
    case East => 1
    case South => 2
    case West => 3
  }

  function FromTurnIndex(i: int): (r: Direction)
    requires 0 <= i < 4
    ensures r.IsHorizontal() && TurnIndex(r) == i
  {
    if i == 0 then North else if i == 1 then East else if i == 2 then South else West
  }

  /** The direction reached after `steps` clockwise quarter turns: vertical
      directions and non-positive step counts stay put. */
  function TurnedBy(d: Direction, steps: int): (r: Direction)
    ensures r.IsHorizontal() == d.IsHorizontal()
    ensures !d.IsHorizontal() || steps <= 0 ==> r == d
  {
    if !d.IsHorizontal() || steps <= 0 then d
    else FromTurnIndex((TurnIndex(d) + steps) % 4)
  }

  /** One more quarter turn is one more clockwise step. */
  lemma TurnOneMore(d: Direction, i: nat)
    requires d.IsHorizontal()
    ensures TurnedBy(d, i + 1) == ClockWise(TurnedBy(d, i))
  {
    var t := TurnIndex(d);
    assert (t + i + 1) % 4 == ((t + i) % 4 + 1) % 4;
  }

  /** Four quarter turns are the identity, and a turn by k is undone by 4 - k more. */
  lemma TurnInverse(d: Direction, k: int)
    requires 0 <= k <= 4
    ensures TurnedBy(d, 4) == d
    ensures TurnedBy(TurnedBy(d, k), 4 - k) == d
  {
  }

  /** The direction of a quad turned `steps` times: the loop applies getClockWise once per step. */
  method RotateDirection(dir: Direction, steps: int) returns (result: Direction)
    ensures result == TurnedBy(dir, steps)
  {
    if !dir.IsHorizontal() {
      return dir;
    }
    result := dir;
    var i := 0;
    while i < steps
      invariant 0 <= i <= (if steps >= 0 then steps else 0)
      invariant result == TurnedBy(dir, i)
    {
      TurnOneMore(dir, i);
      result := ClockWise(result);
      i := i + 1;
    }
  }

  /** A whole quad turned: corners turned, direction remapped, every other
      attribute (texture samples, tint, sprite, shading, light) kept. */
  function RotateQuadY(q: Quad, steps: int): (r: Quad)
    ensures r.p0.y == q.p0.y && r.p1.y == q.p1.y && r.p2.y == q.p2.y && r.p3.y == q.p3.y
    ensures r.uv0 == q.uv0 && r.uv1 == q.uv1 && r.uv2 == q.uv2 && r.uv3 == q.uv3
    ensures r.tintIndex == q.tintIndex && r.sprite == q.sprite
    ensures r.shade == q.shade && r.lightEmission == q.lightEmission
  {
    q.(p0 := RotatePointY(q.p0, steps), p1 := RotatePointY(q.p1, steps),
       p2 := RotatePointY(q.p2, steps), p3 := RotatePointY(q.p3, steps),
       direction := TurnedBy(q.direction, steps))
  }

  /** Java's `%` on int: the remainder takes the sign of the dividend and
      agrees with the floored remainder on non-negative dividends. */
  function JavaRem(a: int, b: int): (r: int)
    requires b > 0
    ensures -b < r < b
    ensures a >= 0 ==> r == a % b
    ensures a <= 0 ==> r <= 0
  {
    if a >= 0 then a % b else -((-a) % b)
  }

  /** The step count rotateQuadsY derives from an angle in degrees. */
  function StepsOf(degrees: int): int
  {
    (JavaRem(degrees, 360) + 360) % 360 / 90
  }

  /** The normalisation agrees with the floored remainder: the angle reduced
      into [0, 360), in whole quarter turns rounded down. */
  lemma StepsOfIsQuarterTurns(degrees: int)
    ensures StepsOf(degrees) == (degrees % 360) / 90
    ensures 0 <= StepsOf(degrees) < 4
  {
    if degrees < 0 {
      var m := -degrees;
      var q, rm := m / 360, m % 360;
      RemainderUnique(m, q, rm);
      if rm == 0 {
        RemainderUnique(degrees, -q, 0);
      } else {
        RemainderUnique(degrees, -q - 1, 360 - rm);
        RemainderUnique(-rm + 360, 0, 360 - rm);
      }
    }
  }

  /** Division by 360 with a remainder in [0, 360) is unique. */
  lemma RemainderUnique(x: int, k: int, r: int)
    requires x == 360 * k + r && 0 <= r < 360
    ensures x % 360 == r
  {
  }

  /** All quads turned by an angle in degrees. An angle of 0, or one that
      comes to zero whole quarter turns, gives the list back unchanged. */
  function RotatedQuads(qs: seq<Quad>, degrees: int): (r: seq<Quad>)
    ensures |r| == |qs|
  {
    if degrees == 0 then qs
    else
      var steps := StepsOf(degrees);
      if steps == 0 then qs
      else seq(|qs|, i requires 0 <= i < |qs| => RotateQuadY(qs[i], steps))
  }

  /** The list rotation, built one quad at a time in order. */
  method RotateQuadsY(quads: seq<Quad>, degrees: int) returns (rotated: seq<Quad>)
    ensures rotated == RotatedQuads(quads, degrees)
  {
    if degrees == 0 {
      return quads;
    }
    var steps := (JavaRem(degrees, 360) + 360) % 360 / 90;
    if steps == 0 {
      return quads;
    }
    rotated := [];
    var i := 0;
    while i < |quads|
      invariant 0 <= i <= |quads|
      invariant rotated == seq(i, k requires 0 <= k < i => RotateQuadY(quads[k], steps))
    {
      rotated := rotated + [RotateQuadY(quads[i], steps)];
      i := i + 1;
    }
  }

  /** Zero degrees, a full turn and angles short of a quarter turn leave the list as it is. */
  lemma RotationIdentities(qs: seq<Quad>, degrees: int)
    requires degrees == 0 || degrees % 360 < 90
    ensures RotatedQuads(qs, degrees) == qs
  {
    StepsOfIsQuarterTurns(degrees);
  }

  /** Rotation keeps order and, quad by quad, the heights, texture samples,
      tint, sprite, shading and light. */
  lemma RotationKeepsAttributes(qs: seq<Quad>, degrees: int, i: int)
    requires 0 <= i < |qs|
    ensures var r := RotatedQuads(qs, degrees)[i];
            && r.p0.y == qs[i].p0.y && r.p1.y == qs[i].p1.y && r.p2.y == qs[i].p2.y && r.p3.y == qs[i].p3.y
            && r.uv0 == qs[i].uv0 && r.uv1 == qs[i].uv1 && r.uv2 == qs[i].uv2 && r.uv3 == qs[i].uv3
            && r.tintIndex == qs[i].tintIndex && r.sprite == qs[i].sprite
            && r.shade == qs[i].shade && r.lightEmission == qs[i].lightEmission
  {
  }

  /** A quad turned by k and then by 4 - k quarter turns is the original quad. */
  lemma RotateQuadInverse(q: Quad, k: int)
    requires 0 <= k <= 4
    ensures RotateQuadY(RotateQuadY(q, k), 4 - k) == q
  {
    RotatePointInverse(q.p0, k);
    RotatePointInverse(q.p1, k);
    RotatePointInverse(q.p2, k);
    RotatePointInverse(q.p3, k);
    TurnInverse(q.direction, k);
  }

  /** Turning by 90k degrees and then by the remaining 360 - 90k degrees
      gives back the original list (for instance 90 then 270). */
  lemma RotationRoundTrip(qs: seq<Quad>, k: int)
    requires 1 <= k <= 3
    ensures RotatedQuads(RotatedQuads(qs, 90 * k), 360 - 90 * k) == qs
  {
    StepsOfIsQuarterTurns(90 * k);
    StepsOfIsQuarterTurns(360 - 90 * k);
    assert StepsOf(90 * k) == k && StepsOf(360 - 90 * k) == 4 - k;
    var once := RotatedQuads(qs, 90 * k);
    forall i | 0 <= i < |qs|
      ensures RotatedQuads(once, 360 - 90 * k)[i] == qs[i]
    {
      RotateQuadInverse(qs[i], k);
    }
  }

  /** A vector turned with the points (translation cancels in differences). */
  function RotateVecY(v: Vec3, steps: int): Vec3
  {
    if steps == 1 then Vec3(-v.z, v.y, v.x)
    else if steps == 2 then Vec3(-v.x, v.y, -v.z)
    else if steps == 3 then Vec3(v.z, v.y, -v.x)
    else v
  }

  lemma RotateDifference(a: Vec3, b: Vec3, steps: int)
    ensures Sub(RotatePointY(a, steps), RotatePointY(b, steps)) == RotateVecY(Sub(a, b), steps)
  {
  }

  lemma RotateCross(a: Vec3, b: Vec3, steps: int)
    ensures Cross(RotateVecY(a, steps), RotateVecY(b, steps)) == RotateVecY(Cross(a, b), steps)
  {
  }

  lemma RotateAlong(n: Vec3, d: Direction, steps: int)
    requires 0 <= steps < 4
    requires PointsAlong(n, d)
    ensures PointsAlong(RotateVecY(n, steps), TurnedBy(d, steps))
  {
  }

  /** Turning a quad keeps it flat and keeps its winding facing along its
      (turned) direction, so culling and lighting treat the rotated overlay
      as they treat the original. */
  lemma RotationKeepsFacing(q: Quad, steps: int)
    requires 0 <= steps < 4
    requires Flat(q, q.direction) && PointsAlong(Normal(q), q.direction)
    ensures var r := RotateQuadY(q, steps);
            Flat(r, r.direction) && PointsAlong(Normal(r), r.direction)
  {
    var r := RotateQuadY(q, steps);
    RotationKeepsFlat(q, steps);
    RotateDifference(q.p1, q.p0, steps);
    RotateDifference(q.p2, q.p0, steps);
    RotateCross(Sub(q.p1, q.p0), Sub(q.p2, q.p0), steps);
    assert Normal(r) == RotateVecY(Normal(q), steps);
    RotateAlong(Normal(q), q.direction, steps);
  }

  lemma RotationKeepsFlat(q: Quad, steps: int)
    requires 0 <= steps < 4
    requires Flat(q, q.direction)
    ensures var r := RotateQuadY(q, steps);
            Flat(r, r.direction)
  {
    var d := TurnedBy(q.direction, steps);
    if d.IsHorizontal() {
      assert StepY(d) == 0;
    }
  }
}
