/** components/ChristmasTree.tsx, the `useMemo` precompute: three flat
    buffers of TOTAL_PARTICLE_COUNT * 3 numbers (stride 3) holding each
    particle's tree-basin position, nebula-basin position and base colour.
    They are filled once and only read afterwards. */
module ParticleBuffers {
  import opened JsMath
  import opened Geometry

  /** A `THREE.Color`'s r, g, b components. */
  datatype Rgb = Rgb(r: real, g: real, b: real)

  /** `new THREE.Color('#rrggbb')`, each component the hex byte over 255. */
  function HexColor(r: nat, g: nat, b: nat): Rgb
    requires r < 256 && g < 256 && b < 256
  {
    Rgb(r as real / 255.0, g as real / 255.0, b as real / 255.0)
  }

  /** Deep sapphire at the bottom of the tree, icy cyan at the top, light blue ribbon. */
  const COLOR_BOTTOM: Rgb := HexColor(0x00, 0x10, 0x40)
  const COLOR_TOP: Rgb := HexColor(0xE0, 0xFF, 0xFF)
  const COLOR_RIBBON: Rgb := HexColor(0x88, 0xCC, 0xFF)

  /** `Color.lerpColors(a, b, alpha)`, componentwise. */
  function LerpColors(a: Rgb, b: Rgb, alpha: real): Rgb {
    Rgb(a.r + (b.r - a.r) * alpha, a.g + (b.g - a.g) * alpha, a.b + (b.b - a.b) * alpha)
  }

  /** `Color.offsetHSL(h, s, l)` applied to a colour. Its HSL conversion is
      three.js colour maths outside this model, so a caller supplies it. */
  type OffsetHsl = (Rgb, real, real, real) -> Rgb

  /** The draws one body particle consumes, in call order: `getTreePosition`,
      `getNebulaPosition`, then the saturation and lightness jitter. */
  datatype BodyDraw = BodyDraw(tree: TreeDraw, nebula: NebulaDraw, saturation: Draw, lightness: Draw)

  /** The blue gradient by normalised height, before the jitter. */
  function Gradient(y: real): Rgb {
    LerpColors(COLOR_BOTTOM, COLOR_TOP, (y + 7.5) / 15.0)
  }

  /** A body particle's base colour. */
  function BodyColor(offsetHsl: OffsetHsl, y: real, d: BodyDraw): Rgb {
    offsetHsl(Gradient(y), 0.0, (d.saturation - 0.5) * 0.1, (d.lightness - 0.5) * 0.1)
  }

  /** For every tree-basin point the gradient lies between the bottom and
      top colours, component by component. */
  lemma GradientBetweenEnds(m: MathFns, d: TreeDraw)
    requires Valid(m)
    ensures var c := Gradient(TreePosition(m, d).y);
      && COLOR_BOTTOM.r <= c.r <= COLOR_TOP.r
      && COLOR_BOTTOM.g <= c.g <= COLOR_TOP.g
      && COLOR_BOTTOM.b <= c.b <= COLOR_TOP.b
  {
    var h := (TreePosition(m, d).y + 7.5) / 15.0;
    NormalizedHeightInRange(m, d);
    ProductBounds(h, COLOR_TOP.r - COLOR_BOTTOM.r);
    ProductBounds(h, COLOR_TOP.g - COLOR_BOTTOM.g);
    ProductBounds(h, COLOR_TOP.b - COLOR_BOTTOM.b);
  }

  /** What the tree buffer holds for particle `i`: its cone point for a
      body particle, zeros (the fresh buffer's value) for a ribbon particle. */
  function TreeBasin(m: MathFns, body: seq<BodyDraw>, i: nat): Vec3
    requires Valid(m) && |body| == PARTICLE_COUNT
  {
    if i < PARTICLE_COUNT then TreePosition(m, body[i].tree) else Vec3(0.0, 0.0, 0.0)
  }

  /** What the nebula buffer holds for particle `i`. */
  function NebulaBasin(m: MathFns, body: seq<BodyDraw>, ribbon: seq<NebulaDraw>, i: nat): Vec3
    requires Valid(m) && |body| == PARTICLE_COUNT && |ribbon| == RIBBON_COUNT
    requires i < TOTAL_PARTICLE_COUNT
  {
    if i < PARTICLE_COUNT then NebulaPosition(m, body[i].nebula)
    else NebulaPosition(m, ribbon[i - PARTICLE_COUNT])
  }

  /** What the colour buffer holds for particle `i`. */
  function BaseColor(m: MathFns, offsetHsl: OffsetHsl, body: seq<BodyDraw>, i: nat): Rgb
    requires Valid(m) && |body| == PARTICLE_COUNT
  {
    if i < PARTICLE_COUNT then BodyColor(offsetHsl, TreePosition(m, body[i].tree).y, body[i])
    else COLOR_RIBBON
  }

  /** Every basin point is in its shape: body tree points inside the cone,
      ribbon tree slots zero, every nebula point in the ring band, every
      ribbon colour the ribbon colour. */
  lemma BasinShapes(m: MathFns, offsetHsl: OffsetHsl, body: seq<BodyDraw>, ribbon: seq<NebulaDraw>, i: nat)
    requires Valid(m) && |body| == PARTICLE_COUNT && |ribbon| == RIBBON_COUNT
    requires i < TOTAL_PARTICLE_COUNT
    ensures i < PARTICLE_COUNT ==>
              var p := TreeBasin(m, body, i);
              -7.5 <= p.y < 7.5 && HorizontalSq(p) <= Sq(RadiusAtHeight(p.y))
    ensures PARTICLE_COUNT <= i ==> TreeBasin(m, body, i) == Vec3(0.0, 0.0, 0.0)
    ensures PARTICLE_COUNT <= i ==> BaseColor(m, offsetHsl, body, i) == COLOR_RIBBON
    ensures -2.0 <= NebulaBasin(m, body, ribbon, i).y < 2.0
    ensures 225.0 <= HorizontalSq(NebulaBasin(m, body, ribbon, i)) < 400.0
  {
  }

  /** A body particle's colour is the gradient at the height stored in its
      tree triple, jittered in saturation and lightness by less than 0.05. */
  lemma BodyColorJitter(m: MathFns, offsetHsl: OffsetHsl, body: seq<BodyDraw>, i: nat)
    requires Valid(m) && |body| == PARTICLE_COUNT && i < PARTICLE_COUNT
    ensures var ds, dl := (body[i].saturation - 0.5) * 0.1, (body[i].lightness - 0.5) * 0.1;
      && BaseColor(m, offsetHsl, body, i) == offsetHsl(Gradient(TreeBasin(m, body, i).y), 0.0, ds, dl)
      && -0.05 <= ds < 0.05 && -0.05 <= dl < 0.05
  {
  }

  /** The triple at stride position `i` of a flat buffer. */
  function VecIn(a: array<real>, i: nat): Vec3
    reads a
    requires 3 * i + 2 < a.Length
  {
    Vec3(a[3 * i], a[3 * i + 1], a[3 * i + 2])
  }

  /** Writes slots `3i`, `3i+1`, `3i+2` and no other. */
  method WriteTriple(a: array<real>, i: nat, v: Vec3)
    requires 3 * i + 2 < a.Length
    modifies a
    ensures VecIn(a, i) == v
    ensures forall j :: 0 <= j && 3 * j + 2 < a.Length && j != i ==> VecIn(a, j) == old(VecIn(a, j))
  {
    a[3 * i] := v.x;
    a[3 * i + 1] := v.y;
    a[3 * i + 2] := v.z;
  }

  /** The colour as a triple, for writing into the colour buffer. */
  function RgbTriple(c: Rgb): Vec3 {
    Vec3(c.r, c.g, c.b)
  }

  /** The precompute: body particles write all three buffers, ribbon
      particles only the nebula and colour buffers. */
  method Precompute(m: MathFns, offsetHsl: OffsetHsl, body: seq<BodyDraw>, ribbon: seq<NebulaDraw>)
    returns (tree: array<real>, nebula: array<real>, cols: array<real>)
    requires Valid(m) && |body| == PARTICLE_COUNT && |ribbon| == RIBBON_COUNT
    ensures fresh(tree) && fresh(nebula) && fresh(cols)
    ensures tree.Length == 3 * TOTAL_PARTICLE_COUNT
    ensures nebula.Length == 3 * TOTAL_PARTICLE_COUNT
    ensures cols.Length == 3 * TOTAL_PARTICLE_COUNT
    ensures forall i :: 0 <= i < TOTAL_PARTICLE_COUNT ==> VecIn(tree, i) == TreeBasin(m, body, i)
    ensures forall i :: 0 <= i < TOTAL_PARTICLE_COUNT ==> VecIn(nebula, i) == NebulaBasin(m, body, ribbon, i)
    ensures forall i :: 0 <= i < TOTAL_PARTICLE_COUNT ==> VecIn(cols, i) == RgbTriple(BaseColor(m, offsetHsl, body, i))
  {
    var total := TOTAL_PARTICLE_COUNT;
    tree := new real[total * 3](_ => 0.0);
    nebula := new real[total * 3](_ => 0.0);
    cols := new real[total * 3](_ => 0.0);
    assert forall i :: 0 <= i < TOTAL_PARTICLE_COUNT ==> VecIn(tree, i) == Vec3(0.0, 0.0, 0.0);
    FillBody(m, offsetHsl, body, ribbon, tree, nebula, cols);
    FillRibbon(m, offsetHsl, body, ribbon, nebula, cols);
  }

  /** Loop 1, the tree body: particle `i` writes slots `3i .. 3i+2` of all
      three buffers; the tree slots above the body stay as they were. */
  method FillBody(m: MathFns, offsetHsl: OffsetHsl, body: seq<BodyDraw>, ribbon: seq<NebulaDraw>,
                  tree: array<real>, nebula: array<real>, cols: array<real>)
    requires Valid(m) && |body| == PARTICLE_COUNT && |ribbon| == RIBBON_COUNT
    requires tree.Length == nebula.Length == cols.Length == 3 * TOTAL_PARTICLE_COUNT
    requires tree != nebula && tree != cols && nebula != cols
    requires forall i :: 0 <= i < TOTAL_PARTICLE_COUNT ==> VecIn(tree, i) == Vec3(0.0, 0.0, 0.0)
    modifies tree, nebula, cols
    ensures forall i :: 0 <= i < TOTAL_PARTICLE_COUNT ==> VecIn(tree, i) == TreeBasin(m, body, i)
    ensures forall i :: 0 <= i < PARTICLE_COUNT ==> VecIn(nebula, i) == NebulaBasin(m, body, ribbon, i)
    ensures forall i :: 0 <= i < PARTICLE_COUNT ==> VecIn(cols, i) == RgbTriple(BaseColor(m, offsetHsl, body, i))
  {
    var i := 0;
    while i < PARTICLE_COUNT
      invariant 0 <= i <= PARTICLE_COUNT
      invariant forall j :: 0 <= j < i ==> VecIn(tree, j) == TreeBasin(m, body, j)
      invariant forall j :: 0 <= j < i ==> VecIn(nebula, j) == NebulaBasin(m, body, ribbon, j)
      invariant forall j :: 0 <= j < i ==> VecIn(cols, j) == RgbTriple(BaseColor(m, offsetHsl, body, j))
      invariant forall j :: i <= j < TOTAL_PARTICLE_COUNT ==> VecIn(tree, j) == Vec3(0.0, 0.0, 0.0)
    {
      var tPos := TreePosition(m, body[i].tree);
      WriteTriple(tree, i, tPos);
      var nPos := NebulaPosition(m, body[i].nebula);
      WriteTriple(nebula, i, nPos);
      var color := BodyColor(offsetHsl, tPos.y, body[i]);
      WriteTriple(cols, i, RgbTriple(color));
      i := i + 1;
    }
  }

  /** Loop 2, the ribbon: particle `PARTICLE_COUNT + i` writes only the
      nebula and colour buffers. */
  method FillRibbon(m: MathFns, offsetHsl: OffsetHsl, body: seq<BodyDraw>, ribbon: seq<NebulaDraw>,
                    nebula: array<real>, cols: array<real>)
    requires Valid(m) && |body| == PARTICLE_COUNT && |ribbon| == RIBBON_COUNT
    requires nebula.Length == cols.Length == 3 * TOTAL_PARTICLE_COUNT
    requires nebula != cols
    requires forall i :: 0 <= i < PARTICLE_COUNT ==> VecIn(nebula, i) == NebulaBasin(m, body, ribbon, i)
    requires forall i :: 0 <= i < PARTICLE_COUNT ==> VecIn(cols, i) == RgbTriple(BaseColor(m, offsetHsl, body, i))
    modifies nebula, cols
    ensures forall i :: 0 <= i < TOTAL_PARTICLE_COUNT ==> VecIn(nebula, i) == NebulaBasin(m, body, ribbon, i)
    ensures forall i :: 0 <= i < TOTAL_PARTICLE_COUNT ==> VecIn(cols, i) == RgbTriple(BaseColor(m, offsetHsl, body, i))
  {
    var i := 0;
    while i < RIBBON_COUNT
      invariant 0 <= i <= RIBBON_COUNT
      invariant forall j :: 0 <= j < PARTICLE_COUNT + i ==> VecIn(nebula, j) == NebulaBasin(m, body, ribbon, j)
      invariant forall j :: 0 <= j < PARTICLE_COUNT + i ==> VecIn(cols, j) == RgbTriple(BaseColor(m, offsetHsl, body, j))
    {
      var idx := PARTICLE_COUNT + i;
      var nPos := NebulaPosition(m, ribbon[i]);
      WriteTriple(nebula, idx, nPos);
      WriteTriple(cols, idx, RgbTriple(COLOR_RIBBON));
      i := i + 1;
    }
  }
}
