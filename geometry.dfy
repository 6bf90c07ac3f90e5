/** utils/geometry.ts: the particle counts and the point samplers for the
    two basins (the tree cone and the nebula ring) and the ribbon spiral. */
module Geometry {
  import opened JsMath

  const PARTICLE_COUNT: nat := 5000
  const RIBBON_COUNT: nat := 2000
  const TOTAL_PARTICLE_COUNT: nat := PARTICLE_COUNT + RIBBON_COUNT
  const INTERNAL_SPHERE_COUNT: nat := 40

  const TREE_HEIGHT: real := 15.0
  const TREE_RADIUS: real := 6.0

  /** A `THREE.Vector3`. */
  datatype Vec3 = Vec3(x: real, y: real, z: real)

  /** Squared distance from the vertical axis of the tree. */
  function HorizontalSq(p: Vec3): real {
    Sq(p.x) + Sq(p.z)
  }

  /** Body particles take the indices below PARTICLE_COUNT, ribbon
      particles the RIBBON_COUNT indices after them. */
  predicate IsRibbon(i: int) {
    PARTICLE_COUNT <= i
  }

  lemma ParticleIndexRanges(i: int)
    requires 0 <= i < TOTAL_PARTICLE_COUNT
    ensures TOTAL_PARTICLE_COUNT == 7000
    ensures IsRibbon(i) <==> 5000 <= i < 7000
    ensures !IsRibbon(i) <==> 0 <= i < 5000
  {
  }

  // ---------------------------------------------------------------- tree cone

  /** The three `Math.random()` draws of `getTreePosition`, in call order:
      the height, the angle, and the argument of `Math.sqrt` for the radius. */
  datatype TreeDraw = TreeDraw(height: Draw, angle: Draw, radius: Draw)

  /** `Math.random() * TREE_HEIGHT - TREE_HEIGHT / 2`. */
  function TreeHeight(u: Draw): (y: real)
    ensures -7.5 <= y < 7.5
  {
    u * TREE_HEIGHT - TREE_HEIGHT / 2.0
  }

  /** `relativeY`: 0 at the bottom of the tree, towards 1 at the top. */
  function RelativeY(y: real): (ry: real)
    ensures -7.5 <= y < 7.5 ==> 0.0 <= ry < 1.0
    ensures y == -7.5 ==> ry == 0.0
  {
    (y + TREE_HEIGHT / 2.0) / TREE_HEIGHT
  }

  /** `radiusAtHeight`: the cone's radius at height `y`. */
  function RadiusAtHeight(y: real): (r: real)
    ensures -7.5 <= y < 7.5 ==> 0.0 < r <= TREE_RADIUS
    ensures y == -7.5 ==> r == TREE_RADIUS
  {
    TREE_RADIUS * (1.0 - RelativeY(y))
  }

  /** The cone narrows going up. */
  lemma RadiusShrinksUpward(y1: real, y2: real)
    requires y1 <= y2
    ensures RadiusAtHeight(y2) <= RadiusAtHeight(y1)
    ensures y1 < y2 ==> RadiusAtHeight(y2) < RadiusAtHeight(y1)
  {
  }

  /** `getTreePosition`: a point of the solid cone, height drawn uniformly,
      radius `sqrt(u) * radiusAtHeight` at a uniform angle. */
  function TreePosition(m: MathFns, d: TreeDraw): (p: Vec3)
    requires Valid(m)
    ensures -7.5 <= p.y < 7.5
    ensures HorizontalSq(p) <= Sq(RadiusAtHeight(p.y))
  {
    var y := TreeHeight(d.height);
    var radiusAtHeight := RadiusAtHeight(y);
    var angle := d.angle * PI * 2.0;
    var r := m.sqrt(d.radius) * radiusAtHeight;
    SqrtOfDraw(m, d.radius);
    InDisk(m, angle, m.sqrt(d.radius), radiusAtHeight, y);
    Vec3(m.cos(angle) * r, y, m.sin(angle) * r)
  }

  /** A point at a fraction `s` in [0, 1) of `radius` from the axis lies in
      the disk of that radius. */
  lemma InDisk(m: MathFns, angle: real, s: real, radius: real, y: real)
    requires Valid(m) && 0.0 <= s < 1.0 && 0.0 < radius
    ensures var r := s * radius;
      HorizontalSq(Vec3(m.cos(angle) * r, y, m.sin(angle) * r)) <= Sq(radius)
  {
    var r := s * radius;
    ScaledRadius(s, radius);
    OnCircle(m, angle, r);
  }

  /** `(y + 7.5) / 15`, the normalised height the colour gradient uses, is
      in [0, 1) for every tree point. */
  lemma NormalizedHeightInRange(m: MathFns, d: TreeDraw)
    requires Valid(m)
    ensures 0.0 <= (TreePosition(m, d).y + 7.5) / 15.0 < 1.0
  {
    var y := TreePosition(m, d).y;
    assert RelativeY(y) == (y + 7.5) / 15.0;
  }

  /** The square root of a draw is itself in [0, 1). */
  lemma SqrtOfDraw(m: MathFns, u: Draw)
    requires Valid(m)
    ensures 0.0 <= m.sqrt(u) < 1.0
  {
    var s := m.sqrt(u);
    if 1.0 <= s {
      SquareLe(1.0, s);
      assert false;
    }
  }

  /** A radius scaled by a factor in [0, 1) stays within the unscaled one. */
  lemma ScaledRadius(s: real, radius: real)
    requires 0.0 <= s < 1.0 && 0.0 < radius
    ensures 0.0 <= s * radius <= radius
    ensures Sq(s * radius) <= Sq(radius)
  {
    ProductBounds(s, radius);
    SquareLe(s * radius, radius);
  }

  /** A point written as `(cos(angle) * r, sin(angle) * r)` lies on the circle of radius |r|. */
  lemma OnCircle(m: MathFns, angle: real, r: real)
    requires Valid(m)
    ensures Sq(m.cos(angle) * r) + Sq(m.sin(angle) * r) == Sq(r)
  {
    var c, s := m.cos(angle), m.sin(angle);
    SquareOfProduct(c, r);
    SquareOfProduct(s, r);
    assert Sq(c) * Sq(r) + Sq(s) * Sq(r) == (Sq(c) + Sq(s)) * Sq(r);
  }

  // ---------------------------------------------------------------- ribbon spiral

  /** `t = i / RIBBON_COUNT`, the spiral parameter of ribbon index `i`. */
  function RibbonParam(i: int): real {
    i as real / RIBBON_COUNT as real
  }

  /** `radius = TREE_RADIUS * t + 1`. */
  function RibbonRadius(i: int): real {
    TREE_RADIUS * RibbonParam(i) + 1.0
  }

  /** `getRibbonPosition`: the static reference spiral, twelve half-turns
      from the top of the tree down. */
  function RibbonPosition(m: MathFns, i: int): (p: Vec3)
    requires Valid(m)
    ensures HorizontalSq(p) == Sq(RibbonRadius(i))
  {
    var t := RibbonParam(i);
    var y := TREE_HEIGHT / 2.0 - t * TREE_HEIGHT;
    var radius := RibbonRadius(i);
    var angle := t * PI * 12.0;
    OnCircle(m, angle, radius);
    Vec3(m.cos(angle) * radius, y, m.sin(angle) * radius)
  }

  /** The spiral starts at the top of the tree on the circle of radius 1. */
  lemma RibbonStartsAtTop(m: MathFns)
    requires Valid(m)
    ensures RibbonPosition(m, 0).y == 7.5
    ensures HorizontalSq(RibbonPosition(m, 0)) == 1.0
  {
  }

  /** Along the ribbon, height strictly decreases and radius strictly grows. */
  lemma RibbonDescendsAndWidens(m: MathFns, i: int, j: int)
    requires Valid(m) && i < j
    ensures RibbonPosition(m, j).y < RibbonPosition(m, i).y
    ensures RibbonRadius(i) < RibbonRadius(j)
  {
  }

  /** Over the ribbon's own indices the spiral stays in the band
      y in (-7.5, 7.5], radius in [1, 7). */
  lemma RibbonBand(m: MathFns, i: int)
    requires Valid(m) && 0 <= i < RIBBON_COUNT
    ensures -7.5 < RibbonPosition(m, i).y <= 7.5
    ensures 1.0 <= RibbonRadius(i) < 7.0
  {
  }

  // ---------------------------------------------------------------- nebula ring

  /** The three draws of `getNebulaPosition`, in call order. */
  datatype NebulaDraw = NebulaDraw(angle: Draw, ring: Draw, height: Draw)

  /** `ringRadius = 15 + Math.random() * 5`. */
  function RingRadius(u: Draw): (r: real)
    ensures 15.0 <= r < 20.0
  {
    15.0 + u * 5.0
  }

  /** `getNebulaPosition`: a point of a flat ring around the tree. Its index
      argument is unused in the source, so it is not a parameter here. */
  function NebulaPosition(m: MathFns, d: NebulaDraw): (p: Vec3)
    requires Valid(m)
    ensures -2.0 <= p.y < 2.0
    ensures HorizontalSq(p) == Sq(RingRadius(d.ring))
    ensures 225.0 <= HorizontalSq(p) < 400.0
  {
    var angle := d.angle * PI * 2.0;
    var ringRadius := RingRadius(d.ring);
    var ringHeightSpread := 4.0;
    OnCircle(m, angle, ringRadius);
    SquareLe(15.0, ringRadius);
    SquareLe(ringRadius, 20.0);
    Vec3(m.cos(angle) * ringRadius, (d.height - 0.5) * ringHeightSpread, m.sin(angle) * ringRadius)
  }

  // ---------------------------------------------------------------- ornament colours

  /** `ORNAMENT_COLORS`, as the hex strings `THREE.Color` is built from. */
  const ORNAMENT_COLORS: seq<string> := ["#C0C0C0", "#E0FFFF", "#4682B4", "#FFFFFF"]

  /** `Math.floor(Math.random() * ORNAMENT_COLORS.length)`. */
  function OrnamentIndex(u: Draw): (k: int)
    ensures 0 <= k < |ORNAMENT_COLORS|
  {
    (u * |ORNAMENT_COLORS| as real).Floor
  }

  /** `getRandomOrnamentColor`: always one of the four palette entries. */
  function RandomOrnamentColor(u: Draw): (c: string)
    ensures c in ORNAMENT_COLORS
  {
    ORNAMENT_COLORS[OrnamentIndex(u)]
  }
}
