/** components/ChristmasTree.tsx, the `useFrame` callback: every frame, each
    particle index gets one transform and one colour, computed from the
    precomputed buffers, the elapsed time and the tween's progress. */
module ParticleFrame {
  import opened JsMath
  import opened Geometry
  import opened ParticleBuffers

  /** What `setMatrixAt(i, ...)` receives through the shared `tempObject`:
      a position and a uniform scale (matrix composition is left to three.js). */
  datatype Transform = Transform(position: Vec3, scale: real)

  /** What `setColorAt(i, ...)` receives through the shared `tempColor`: the
      base colour, and for a ribbon particle the lightness offset that
      `offsetHSL(0, 0, boost)` applies to it. */
  datatype Shade = Plain(base: Rgb) | Shimmer(base: Rgb, boost: real)

  function LerpVec(a: Vec3, b: Vec3, t: real): Vec3 {
    Vec3(Lerp(a.x, b.x, t), Lerp(a.y, b.y, t), Lerp(a.z, b.z, t))
  }

  /** A colour triple read back from the colour buffer. */
  function AsRgb(v: Vec3): Rgb {
    Rgb(v.x, v.y, v.z)
  }

  /** The flowing spiral parameter of ribbon particle `i`:
      `(ribbonIdx / RIBBON_COUNT + time * 0.1) % 1`. */
  function FlowParam(time: real, i: int): real {
    RemOne((i - PARTICLE_COUNT) as real / RIBBON_COUNT as real + time * 0.1)
  }

  /** The ribbon's point on the rotating spiral, without the flutter. */
  function SpiralPoint(m: MathFns, time: real, i: int): Vec3 {
    var t := FlowParam(time, i);
    var radius := 6.0 * t + 1.0;
    var angle := t * PI * 12.0 + time * 0.2;
    Vec3(m.cos(angle) * radius, 7.5 - t * 15.0, m.sin(angle) * radius)
  }

  /** The flutter added to x and z while the ribbon flows. */
  function Flutter(m: MathFns, time: real, i: int): real {
    m.sin(FlowParam(time, i) * 50.0 + time * 5.0) * 0.1
  }

  /** The reference definition of where particle `i` is drawn and at what
      scale: a body particle interpolates between its two basin points, bobbing
      while progress is below 0.1; a ribbon particle flows on the spiral,
      and once progress is positive is drawn between the (flutter-free)
      spiral point and its nebula point. */
  function ParticleSpec(m: MathFns, time: real, progress: real, i: nat, treePoint: Vec3, nebulaPoint: Vec3): Transform {
    if IsRibbon(i) then
      var spiral := SpiralPoint(m, time, i);
      var flutter := Flutter(m, time, i);
      Transform(
        if progress > 0.0 then LerpVec(spiral, nebulaPoint, progress)
        else Vec3(spiral.x + flutter, spiral.y, spiral.z + flutter),
        if progress < 0.1 then 0.12 + m.sin(time * 10.0 + i as real) * 0.05 else 0.1)
    else
      var basin := LerpVec(treePoint, nebulaPoint, progress);
      var bob := if progress < 0.1 then m.sin(time * 2.0 + i as real) * 0.05 else 0.0;
      Transform(Vec3(basin.x, basin.y + bob, basin.z), 0.06 + m.sin(time * 3.0 + i as real) * 0.03)
  }

  /** The colour particle `i` is given: ribbon particles shimmer. */
  function ShadeSpec(m: MathFns, time: real, i: nat, base: Rgb): Shade {
    if IsRibbon(i) then Shimmer(base, 0.2 + m.sin(time * 8.0 + i as real) * 0.2) else Plain(base)
  }

  /** The spiral computation the loop body performs (twice) for a ribbon
      index: the flow parameter `t` and the flutter-free spiral point. */
  method FlowingSpiral(m: MathFns, time: real, i: nat) returns (t: real, px: real, py: real, pz: real)
    ensures t == FlowParam(time, i)
    ensures Vec3(px, py, pz) == SpiralPoint(m, time, i)
  {
    var ribbonIdx := i - PARTICLE_COUNT;
    var baseT := ribbonIdx as real / RIBBON_COUNT as real;
    var flowSpeed := 0.1;
    t := RemOne(baseT + time * flowSpeed);
    var height := 15.0;
    var radiusBase := 6.0;
    py := height / 2.0 - t * height;
    var radius := radiusBase * t + 1.0;
    var angle := t * PI * 12.0 + time * 0.2;
    px := m.cos(angle) * radius;
    pz := m.sin(angle) * radius;
  }

  /** The ribbon branch of the loop body, in the source's order: the
      nebula-phase assignment is made and then overwritten by the
      transition block whenever progress is at least 0.1. */
  method RibbonAt(m: MathFns, time: real, progress: real, i: nat, nebula: array<real>)
    returns (r: Transform)
    requires PARTICLE_COUNT <= i < TOTAL_PARTICLE_COUNT
    requires nebula.Length == 3 * TOTAL_PARTICLE_COUNT
    ensures r == ParticleSpec(m, time, progress, i, Vec3(0.0, 0.0, 0.0), VecIn(nebula, i))
  {
    var x, y, z, scale;
    if progress < 0.1 {
      var t, px, py, pz := FlowingSpiral(m, time, i);
      var flutter := m.sin(t * 50.0 + time * 5.0) * 0.1;
      x, y, z := px + flutter, py, pz + flutter;
      scale := 0.12 + m.sin(time * 10.0 + i as real) * 0.05;
    } else {
      x, y, z := nebula[i * 3], nebula[i * 3 + 1], nebula[i * 3 + 2];
      scale := 0.1;
    }
    if progress > 0.0 {
      var t, px, py, pz := FlowingSpiral(m, time, i);
      x := Lerp(px, nebula[i * 3], progress);
      y := Lerp(py, nebula[i * 3 + 1], progress);
      z := Lerp(pz, nebula[i * 3 + 2], progress);
    }
    r := Transform(Vec3(x, y, z), scale);
  }

  /** The body branch of the loop body. */
  method BodyAt(m: MathFns, time: real, progress: real, i: nat, tree: array<real>, nebula: array<real>)
    returns (r: Transform)
    requires i < PARTICLE_COUNT
    requires tree.Length == nebula.Length == 3 * TOTAL_PARTICLE_COUNT
    ensures r == ParticleSpec(m, time, progress, i, VecIn(tree, i), VecIn(nebula, i))
  {
    var x := Lerp(tree[i * 3], nebula[i * 3], progress);
    var y := Lerp(tree[i * 3 + 1], nebula[i * 3 + 1], progress);
    var z := Lerp(tree[i * 3 + 2], nebula[i * 3 + 2], progress);
    if progress < 0.1 {
      y := y + m.sin(time * 2.0 + i as real) * 0.05;
    }
    var scale := 0.06 + m.sin(time * 3.0 + i as real) * 0.03;
    r := Transform(Vec3(x, y, z), scale);
  }

  /** The transform the loop body gives index `i`. */
  method ParticleAt(m: MathFns, time: real, progress: real, i: nat, tree: array<real>, nebula: array<real>)
    returns (r: Transform)
    requires i < TOTAL_PARTICLE_COUNT
    requires tree.Length == nebula.Length == 3 * TOTAL_PARTICLE_COUNT
    ensures r == ParticleSpec(m, time, progress, i, VecIn(tree, i), VecIn(nebula, i))
  {
    if i >= PARTICLE_COUNT {
      r := RibbonAt(m, time, progress, i, nebula);
    } else {
      r := BodyAt(m, time, progress, i, tree, nebula);
    }
  }

  /** One frame: exactly one transform and one colour for every index, with
      `progress` read once for the whole frame. */
  method UpdateFrame(m: MathFns, time: real, progress: real,
                     tree: array<real>, nebula: array<real>, baseColors: array<real>,
                     matrices: array<Transform>, colors: array<Shade>)
    requires tree.Length == nebula.Length == baseColors.Length == 3 * TOTAL_PARTICLE_COUNT
    requires matrices.Length == colors.Length == TOTAL_PARTICLE_COUNT
    modifies matrices, colors
    ensures forall i :: 0 <= i < TOTAL_PARTICLE_COUNT ==>
              matrices[i] == ParticleSpec(m, time, progress, i, VecIn(tree, i), VecIn(nebula, i))
    ensures forall i :: 0 <= i < TOTAL_PARTICLE_COUNT ==>
              colors[i] == ShadeSpec(m, time, i, AsRgb(VecIn(baseColors, i)))
  {
    for i := 0 to TOTAL_PARTICLE_COUNT
      invariant forall j :: 0 <= j < i ==>
                  matrices[j] == ParticleSpec(m, time, progress, j, VecIn(tree, j), VecIn(nebula, j))
      invariant forall j :: 0 <= j < i ==>
                  colors[j] == ShadeSpec(m, time, j, AsRgb(VecIn(baseColors, j)))
    {
      var t := ParticleAt(m, time, progress, i, tree, nebula);
      matrices[i] := t;
      var color := Rgb(baseColors[i * 3], baseColors[i * 3 + 1], baseColors[i * 3 + 2]);
      if i >= PARTICLE_COUNT {
        var boost := 0.2 + m.sin(time * 8.0 + i as real) * 0.2;
        colors[i] := Shimmer(color, boost);
      } else {
        colors[i] := Plain(color);
      }
    }
  }

  // ---------------------------------------------------------------- properties

  /** A body particle at progress 1 sits exactly on its nebula point; at
      progress 0 it sits on its tree point up to a bob of at most 0.05. */
  lemma BodyEndpoints(m: MathFns, time: real, i: nat, treePoint: Vec3, nebulaPoint: Vec3)
    requires Valid(m) && i < PARTICLE_COUNT
    ensures ParticleSpec(m, time, 1.0, i, treePoint, nebulaPoint).position == nebulaPoint
    ensures var p := ParticleSpec(m, time, 0.0, i, treePoint, nebulaPoint).position;
      p.x == treePoint.x && p.z == treePoint.z && -0.05 <= p.y - treePoint.y <= 0.05
  {
  }

  /** While the tween runs, each coordinate of a body particle stays
      between its two basin coordinates once progress is 0.1 or more. */
  lemma BodyBetweenBasins(m: MathFns, time: real, progress: real, i: nat, treePoint: Vec3, nebulaPoint: Vec3)
    requires i < PARTICLE_COUNT && 0.1 <= progress <= 1.0
    ensures var p := ParticleSpec(m, time, progress, i, treePoint, nebulaPoint).position;
      && Between(p.x, treePoint.x, nebulaPoint.x)
      && Between(p.y, treePoint.y, nebulaPoint.y)
      && Between(p.z, treePoint.z, nebulaPoint.z)
  {
    LerpBetween(treePoint.x, nebulaPoint.x, progress);
    LerpBetween(treePoint.y, nebulaPoint.y, progress);
    LerpBetween(treePoint.z, nebulaPoint.z, progress);
  }

  predicate Between(v: real, a: real, b: real) {
    (a <= v <= b) || (b <= v <= a)
  }

  /** A ribbon particle at progress 1 sits exactly on its nebula point. */
  lemma RibbonAtNebula(m: MathFns, time: real, i: nat, treePoint: Vec3, nebulaPoint: Vec3)
    requires PARTICLE_COUNT <= i
    ensures ParticleSpec(m, time, 1.0, i, treePoint, nebulaPoint) == Transform(nebulaPoint, 0.1)
  {
  }

  /** For a ribbon index and a non-negative clock the flow parameter is in
      [0, 1), so the spiral point is at a height in (-7.5, 7.5] on a circle
      whose radius is in [1, 7). */
  lemma SpiralBand(m: MathFns, time: real, i: nat)
    requires Valid(m) && PARTICLE_COUNT <= i && 0.0 <= time
    ensures 0.0 <= FlowParam(time, i) < 1.0
    ensures -7.5 < SpiralPoint(m, time, i).y <= 7.5
    ensures HorizontalSq(SpiralPoint(m, time, i)) == Sq(6.0 * FlowParam(time, i) + 1.0)
    ensures 1.0 <= 6.0 * FlowParam(time, i) + 1.0 < 7.0
  {
    var t := FlowParam(time, i);
    assert 0.0 <= (i - PARTICLE_COUNT) as real / RIBBON_COUNT as real;
    var angle := t * PI * 12.0 + time * 0.2;
    OnCircle(m, angle, 6.0 * t + 1.0);
  }

  /** At flow parameter 0 the ribbon particle is at the top of the tree on
      the circle of radius 1. */
  lemma SpiralStartsAtTop(m: MathFns, time: real, i: nat)
    requires Valid(m) && FlowParam(time, i) == 0.0
    ensures SpiralPoint(m, time, i).y == 7.5
    ensures HorizontalSq(SpiralPoint(m, time, i)) == 1.0
  {
    OnCircle(m, time * 0.2, 1.0);
  }

  /** Scales: a ribbon particle is 0.12 +- 0.05 below progress 0.1 and
      exactly 0.1 from there on; a body particle is always 0.06 +- 0.03. */
  lemma ScaleBounds(m: MathFns, time: real, progress: real, i: nat, treePoint: Vec3, nebulaPoint: Vec3)
    requires Valid(m)
    ensures var s := ParticleSpec(m, time, progress, i, treePoint, nebulaPoint).scale;
      && (IsRibbon(i) && progress < 0.1 ==> 0.07 <= s <= 0.17)
      && (IsRibbon(i) && 0.1 <= progress ==> s == 0.1)
      && (!IsRibbon(i) ==> 0.03 <= s <= 0.09)
  {
  }

  /** Only ribbon particles shimmer, by a lightness offset in [0, 0.4], and
      every particle keeps its base colour. */
  lemma ShadeBounds(m: MathFns, time: real, i: nat, base: Rgb)
    requires Valid(m)
    ensures ShadeSpec(m, time, i, base).base == base
    ensures ShadeSpec(m, time, i, base).Shimmer? <==> IsRibbon(i)
    ensures ShadeSpec(m, time, i, base).Shimmer? ==> 0.0 <= ShadeSpec(m, time, i, base).boost <= 0.4
  {
  }
}
