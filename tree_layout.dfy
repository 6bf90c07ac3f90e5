/** components/ChristmasTree.tsx, the layout around the particles: the
    ornaments and internal glowing spheres with their tween targets, the
    star outline on top, and the photo gallery ring. */
module TreeLayout {
  import opened Types
  import opened JsMath
  import opened Geometry

  // ---------------------------------------------------------------- decorations

  const DECORATION_COUNT: nat := 30
  /** Ornaments sit slightly outside the cone they are sampled from. */
  const DECORATION_FACTOR: real := 1.1

  datatype Decoration = Decoration(pos: Vec3, color: string)

  /** The `decorations` memo: one cone sample per ornament (draws in call
      order), pushed out horizontally by 1.1, coloured round-robin. */
  method Decorations(m: MathFns, draws: seq<TreeDraw>) returns (items: seq<Decoration>)
    requires Valid(m) && |draws| == DECORATION_COUNT
    ensures |items| == DECORATION_COUNT
    ensures forall i :: 0 <= i < |items| ==> items[i].color == ORNAMENT_COLORS[i % |ORNAMENT_COLORS|]
    ensures forall i :: 0 <= i < |items| ==>
              var p := TreePosition(m, draws[i]);
              items[i].pos == Vec3(p.x * DECORATION_FACTOR, p.y, p.z * DECORATION_FACTOR)
  {
    items := [];
    for i := 0 to DECORATION_COUNT
      invariant |items| == i
      invariant forall j :: 0 <= j < i ==> items[j].color == ORNAMENT_COLORS[j % |ORNAMENT_COLORS|]
      invariant forall j :: 0 <= j < i ==>
                  var p := TreePosition(m, draws[j]);
                  items[j].pos == Vec3(p.x * DECORATION_FACTOR, p.y, p.z * DECORATION_FACTOR)
    {
      var pos := TreePosition(m, draws[i]);
      var factor := 1.1;
      items := items + [Decoration(Vec3(pos.x * factor, pos.y, pos.z * factor), ORNAMENT_COLORS[i % |ORNAMENT_COLORS|])];
    }
  }

  /** Every ornament lies within the cone widened by the factor 1.1, at a
      height of the tree, and has a palette colour. */
  lemma DecorationInWidenedCone(m: MathFns, d: TreeDraw, i: nat)
    requires Valid(m)
    ensures var p := TreePosition(m, d);
      var q := Vec3(p.x * DECORATION_FACTOR, p.y, p.z * DECORATION_FACTOR);
      && -7.5 <= q.y < 7.5
      && HorizontalSq(q) <= Sq(DECORATION_FACTOR * RadiusAtHeight(q.y))
    ensures ORNAMENT_COLORS[i % |ORNAMENT_COLORS|] in ORNAMENT_COLORS
  {
    var p := TreePosition(m, d);
    SquareOfProduct(p.x, DECORATION_FACTOR);
    SquareOfProduct(p.z, DECORATION_FACTOR);
    SquareOfProduct(DECORATION_FACTOR, RadiusAtHeight(p.y));
    assert Sq(p.x) * Sq(DECORATION_FACTOR) + Sq(p.z) * Sq(DECORATION_FACTOR)
        == HorizontalSq(p) * Sq(DECORATION_FACTOR);
  }

  // ---------------------------------------------------------------- internal spheres

  datatype GlowingSphere = GlowingSphere(pos: Vec3, scale: real)

  /** One entry of `internalSpheres`: a cone sample and the scale
      `0.35 + Math.random() * 0.15`. */
  function InternalSphere(m: MathFns, d: TreeDraw, u: Draw): (s: GlowingSphere)
    requires Valid(m)
    ensures 0.35 <= s.scale < 0.5
    ensures -7.5 <= s.pos.y < 7.5 && HorizontalSq(s.pos) <= Sq(RadiusAtHeight(s.pos.y))
  {
    GlowingSphere(TreePosition(m, d), 0.35 + u * 0.15)
  }

  /** The `internalSpheres` memo: INTERNAL_SPHERE_COUNT spheres, sphere `i`
      built from the `i`-th cone sample and scale draw. */
  function InternalSpheres(m: MathFns, draws: seq<TreeDraw>, scales: seq<Draw>): (spheres: seq<GlowingSphere>)
    requires Valid(m) && |draws| == INTERNAL_SPHERE_COUNT && |scales| == INTERNAL_SPHERE_COUNT
    ensures |spheres| == INTERNAL_SPHERE_COUNT
    ensures forall i :: 0 <= i < |spheres| ==> spheres[i].pos == TreePosition(m, draws[i])
    ensures forall i :: 0 <= i < |spheres| ==>
              && 0.35 <= spheres[i].scale < 0.5
              && -7.5 <= spheres[i].pos.y < 7.5
              && HorizontalSq(spheres[i].pos) <= Sq(RadiusAtHeight(spheres[i].pos.y))
  {
    seq(INTERNAL_SPHERE_COUNT, i requires 0 <= i < INTERNAL_SPHERE_COUNT => InternalSphere(m, draws[i], scales[i]))
  }

  // ---------------------------------------------------------------- mesh tweens

  /** Where the `DecorationMesh` / `GlowingSphere` effect tweens the mesh
      for a phase: out to its own nebula point on blooming, back to its
      initial position on collapsing, nowhere otherwise. */
  function MeshTweenTarget(phase: Phase, initial: Vec3, nebulaPos: Vec3): Option<Vec3> {
    match phase
    case Blooming => Some(nebulaPos)
    case Collapsing => Some(initial)
    case _ => None
  }

  /** The mesh position once the tween started for `phase` has completed. */
  function AfterMeshTween(pos: Vec3, phase: Phase, initial: Vec3, nebulaPos: Vec3): (r: Vec3)
    ensures phase == Tree || phase == Nebula ==> r == pos
  {
    match MeshTweenTarget(phase, initial, nebulaPos)
    case Some(target) => target
    case None => pos
  }

  /** Through one cycle tree -> blooming -> nebula -> collapsing -> tree a
      mesh goes out to the nebula ring and comes back exactly to where it
      started, whatever position it was tweened from. */
  lemma MeshCycleReturns(m: MathFns, pos: Vec3, initial: Vec3, d: NebulaDraw)
    requires Valid(m)
    ensures var nebulaPos := NebulaPosition(m, d);
      var out := AfterMeshTween(AfterMeshTween(pos, Tree, initial, nebulaPos), Blooming, initial, nebulaPos);
      var back := AfterMeshTween(AfterMeshTween(out, Nebula, initial, nebulaPos), Collapsing, initial, nebulaPos);
      && out == nebulaPos
      && 225.0 <= HorizontalSq(out) < 400.0
      && back == initial
  {
  }

  // ---------------------------------------------------------------- star

  const STAR_POINTS: nat := 5
  const STAR_OUTER_RADIUS: real := 1.2
  const STAR_INNER_RADIUS: real := 0.5

  /** A `THREE.Shape` path command. */
  datatype PathCmd = MoveTo(x: real, y: real) | LineTo(x: real, y: real) | ClosePath

  /** The radius of star vertex `i`: outer at even `i`, inner at odd `i`. */
  function StarRadius(i: int): real {
    if i % 2 == 0 then STAR_OUTER_RADIUS else STAR_INNER_RADIUS
  }

  function StarAngle(i: int): real {
    (i as real * PI) / STAR_POINTS as real - PI / 2.0
  }

  /** The `starShape` memo: ten vertices, the first a `moveTo`, the others
      `lineTo`s, then `closePath`; vertex `i` is at distance 1.2 (even `i`)
      or 0.5 (odd `i`) from the centre. */
  method StarOutline(m: MathFns) returns (path: seq<PathCmd>)
    requires Valid(m)
    ensures |path| == 2 * STAR_POINTS + 1
    ensures path[0].MoveTo? && path[2 * STAR_POINTS] == ClosePath
    ensures forall i :: 0 < i < 2 * STAR_POINTS ==> path[i].LineTo?
    ensures forall i :: 0 <= i < 2 * STAR_POINTS ==>
              !path[i].ClosePath? && Sq(path[i].x) + Sq(path[i].y) == Sq(StarRadius(i))
    ensures forall i :: 0 <= i < 2 * STAR_POINTS ==>
              path[i].x == m.cos(StarAngle(i)) * StarRadius(i) && path[i].y == m.sin(StarAngle(i)) * StarRadius(i)
  {
    var points := 5;
    var outerRadius := 1.2;
    var innerRadius := 0.5;
    path := [];
    for i := 0 to points * 2
      invariant |path| == i
      invariant 0 < i ==> path[0].MoveTo?
      invariant forall j :: 0 < j < i ==> path[j].LineTo?
      invariant forall j :: 0 <= j < i ==>
                  !path[j].ClosePath? && Sq(path[j].x) + Sq(path[j].y) == Sq(StarRadius(j))
      invariant forall j :: 0 <= j < i ==>
                  path[j].x == m.cos(StarAngle(j)) * StarRadius(j) && path[j].y == m.sin(StarAngle(j)) * StarRadius(j)
    {
      var angle := (i as real * PI) / points as real - PI / 2.0;
      var radius := if i % 2 == 0 then outerRadius else innerRadius;
      var x := m.cos(angle) * radius;
      var y := m.sin(angle) * radius;
      OnCircle(m, angle, radius);
      if i == 0 {
        path := path + [MoveTo(x, y)];
      } else {
        path := path + [LineTo(x, y)];
      }
    }
    path := path + [ClosePath];
  }

  /** The star is drawn at full size only in the tree phase. */
  function StarScale(phase: Phase): real {
    if phase == Tree then 1.0 else 0.0
  }

  // ---------------------------------------------------------------- gallery

  const PHOTO_COUNT: nat := 12
  const PHOTO_RADIUS: real := 12.0

  /** One entry of `photos` (its URL left aside). */
  datatype Photo = Photo(angle: real, radius: real)

  /** The `photos` memo: photo `i` at angle `i / 12 * 2 pi`, radius 12. */
  function Photos(): (ps: seq<Photo>)
    ensures |ps| == PHOTO_COUNT
    ensures forall i :: 0 <= i < |ps| ==> ps[i].radius == PHOTO_RADIUS && 0.0 <= ps[i].angle < 2.0 * PI
    ensures forall i :: 0 < i < |ps| ==> ps[i].angle - ps[i - 1].angle == PI / 6.0
  {
    seq(PHOTO_COUNT, i => Photo((i as real / PHOTO_COUNT as real) * PI * 2.0, PHOTO_RADIUS))
  }

  /** The gallery mesh's `visible` flag. */
  function PhotoVisible(phase: Phase): bool {
    phase == Nebula || phase == Blooming
  }

  /** The gallery mesh's `scale`. */
  function PhotoScale(phase: Phase): real {
    if phase == Tree then 0.0 else 1.5
  }

  /** Photos are shown exactly while blooming and in the nebula, at scale
      1.5; the star is shown exactly in the tree phase; the two are never
      shown together, and while collapsing neither is. */
  lemma GalleryAndStarByPhase(phase: Phase)
    ensures PhotoScale(phase) == 0.0 <==> phase == Tree
    ensures PhotoVisible(phase) ==> PhotoScale(phase) == 1.5
    ensures StarScale(phase) == 1.0 <==> phase == Tree
    ensures StarScale(phase) == 0.0 <==> phase != Tree
    ensures !(PhotoVisible(phase) && StarScale(phase) > 0.0)
    ensures phase == Collapsing ==> !PhotoVisible(phase) && StarScale(phase) == 0.0
  {
  }

  /** The gallery's per-frame `useFrame`: only in the nebula does its
      y-rotation move 5% of the way towards the store's rotation. */
  function GalleryRotationStep(phase: Phase, rotation: real, target: real): (r: real)
    ensures phase != Nebula ==> r == rotation
    ensures phase == Nebula ==> target - r == 0.95 * (target - rotation)
  {
    if phase == Nebula then Lerp(rotation, target, 0.05) else rotation
  }

  /** The gallery rotation after `n` nebula frames with a fixed target. */
  function GalleryAfter(n: nat, rotation: real, target: real): real {
    if n == 0 then rotation else GalleryRotationStep(Nebula, GalleryAfter(n - 1, rotation, target), target)
  }

  function Pow(b: real, n: nat): real {
    if n == 0 then 1.0 else b * Pow(b, n - 1)
  }

  /** After `n` nebula frames the remaining gap to the target is
      0.95^n of the initial gap, so the gallery never overshoots and
      converges to the store's rotation. */
  lemma {:induction false} GalleryConverges(n: nat, rotation: real, target: real)
    ensures target - GalleryAfter(n, rotation, target) == Pow(0.95, n) * (target - rotation)
    ensures 0.0 < Pow(0.95, n) <= 1.0
  {
    if n > 0 {
      GalleryConverges(n - 1, rotation, target);
      var p := Pow(0.95, n - 1);
      assert target - GalleryAfter(n, rotation, target)
          == 0.95 * (target - GalleryAfter(n - 1, rotation, target));
      assert 0.95 * (p * (target - rotation)) == (0.95 * p) * (target - rotation);
    }
  }
}
