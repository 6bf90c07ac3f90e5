/** components/HandTracker.tsx, inside `renderLoop`: the finger count, the
    gesture label, the phase and rotation policy, and the skipping of video
    frames already processed. Landmark detection itself is external: a frame
    arrives as the list of detected hands, each a list of landmarks in
    MediaPipe's hand numbering (0 the wrist, 4/8/12/16/20 the fingertips,
    1/5/9/13/17 the knuckles). */
module HandTracker {
  import opened Types
  import opened JsMath
  import opened Store

  /** A normalised landmark; `z` is carried but never read. */
  datatype Landmark = Landmark(x: real, y: real, z: real)

  const WRIST: nat := 0
  /** `tips` and `mcp`: thumb, index, middle, ring and pinky, in that order. */
  const TIPS: seq<nat> := [4, 8, 12, 16, 20]
  const MCPS: seq<nat> := [1, 5, 9, 13, 17]

  /** A detected hand has all 21 landmarks. */
  predicate IsHand(lm: seq<Landmark>) {
    |lm| >= 21
  }

  /** Squared distance in the image plane; `z` is ignored. */
  function PlanarSq(p: Landmark, q: Landmark): (d: real)
    ensures 0.0 <= d
  {
    SquareNonNegative(p.x - q.x);
    SquareNonNegative(p.y - q.y);
    Sq(p.x - q.x) + Sq(p.y - q.y)
  }

  /** `Math.hypot(p.x - q.x, p.y - q.y)`. */
  function Hypot(m: MathFns, p: Landmark, q: Landmark): real {
    m.sqrt(PlanarSq(p, q))
  }

  /** Finger `f` is extended when its tip is more than 1.5 times as far from
      the wrist as its knuckle. */
  predicate FingerExtended(m: MathFns, lm: seq<Landmark>, f: nat)
    requires IsHand(lm) && f < 5
  {
    Hypot(m, lm[TIPS[f]], lm[WRIST]) > Hypot(m, lm[MCPS[f]], lm[WRIST]) * 1.5
  }

  /** The comparison of square roots is the comparison of squared
      distances with the ratio squared, 2.25. */
  lemma ExtendedIffSquared(m: MathFns, lm: seq<Landmark>, f: nat)
    requires Valid(m) && IsHand(lm) && f < 5
    ensures FingerExtended(m, lm, f) <==>
            PlanarSq(lm[TIPS[f]], lm[WRIST]) > 2.25 * PlanarSq(lm[MCPS[f]], lm[WRIST])
  {
    var tipSq, mcpSq := PlanarSq(lm[TIPS[f]], lm[WRIST]), PlanarSq(lm[MCPS[f]], lm[WRIST]);
    var a, b := m.sqrt(tipSq), m.sqrt(mcpSq);
    SquareMonotone(b * 1.5, a);
    SquareOfProduct(b, 1.5);
  }

  /** How many of the fingers `lo .. hi-1` are extended. */
  function ExtendedAmong(m: MathFns, lm: seq<Landmark>, lo: nat, hi: nat): (n: nat)
    requires IsHand(lm) && lo <= hi <= 5
    ensures n <= hi - lo
    decreases hi - lo
  {
    if hi == lo then 0
    else ExtendedAmong(m, lm, lo, hi - 1) + (if FingerExtended(m, lm, hi - 1) then 1 else 0)
  }

  /** The count `renderLoop` computes: fingers 1 to 4, the thumb skipped. */
  function ExtendedCount(m: MathFns, lm: seq<Landmark>): nat
    requires IsHand(lm)
  {
    ExtendedAmong(m, lm, 1, 5)
  }

  /** The counting loop over `i = 1 .. 4`. */
  method CountExtendedFingers(m: MathFns, lm: seq<Landmark>) returns (extendedFingers: nat)
    requires IsHand(lm)
    ensures extendedFingers == ExtendedCount(m, lm)
    ensures extendedFingers <= 4
  {
    extendedFingers := 0;
    var i := 1;
    while i < 5
      invariant 1 <= i <= 5
      invariant extendedFingers == ExtendedAmong(m, lm, 1, i)
    {
      var distTip := Hypot(m, lm[TIPS[i]], lm[WRIST]);
      var distMcp := Hypot(m, lm[MCPS[i]], lm[WRIST]);
      if distTip > distMcp * 1.5 {
        extendedFingers := extendedFingers + 1;
      }
      i := i + 1;
    }
  }

  /** The count is the full range exactly when every finger in it is
      extended, and zero exactly when none is. */
  lemma {:induction false} ExtendedAmongExtremes(m: MathFns, lm: seq<Landmark>, lo: nat, hi: nat)
    requires IsHand(lm) && lo <= hi <= 5
    ensures ExtendedAmong(m, lm, lo, hi) == hi - lo <==> forall f :: lo <= f < hi ==> FingerExtended(m, lm, f)
    ensures ExtendedAmong(m, lm, lo, hi) == 0 <==> forall f :: lo <= f < hi ==> !FingerExtended(m, lm, f)
    decreases hi - lo
  {
    if hi > lo {
      ExtendedAmongExtremes(m, lm, lo, hi - 1);
    }
  }

  /** Two hands whose wrist and non-thumb fingertips and knuckles agree in
      x and y have the same count: the thumb and every `z` are ignored. */
  lemma {:induction false} CountIgnoresThumbAndDepth(m: MathFns, lm: seq<Landmark>, lm': seq<Landmark>, hi: nat)
    requires IsHand(lm) && IsHand(lm') && 1 <= hi <= 5
    requires SamePlanar(lm[WRIST], lm'[WRIST])
    requires forall f :: 1 <= f < 5 ==> SamePlanar(lm[TIPS[f]], lm'[TIPS[f]]) && SamePlanar(lm[MCPS[f]], lm'[MCPS[f]])
    ensures ExtendedAmong(m, lm, 1, hi) == ExtendedAmong(m, lm', 1, hi)
    decreases hi
  {
    if hi > 1 {
      CountIgnoresThumbAndDepth(m, lm, lm', hi - 1);
      var f := hi - 1;
      PlanarSqIgnoresDepth(lm[TIPS[f]], lm'[TIPS[f]], lm[WRIST], lm'[WRIST]);
      PlanarSqIgnoresDepth(lm[MCPS[f]], lm'[MCPS[f]], lm[WRIST], lm'[WRIST]);
    }
  }

  lemma PlanarSqIgnoresDepth(p: Landmark, p': Landmark, q: Landmark, q': Landmark)
    requires SamePlanar(p, p') && SamePlanar(q, q')
    ensures PlanarSq(p, q) == PlanarSq(p', q')
  {
    assert p' == p.(z := p'.z) && q' == q.(z := q'.z);
  }

  predicate SamePlanar(p: Landmark, q: Landmark) {
    p.x == q.x && p.y == q.y
  }

  /** The label for a finger count. */
  function Classify(extendedFingers: int): Gesture {
    if extendedFingers >= 4 then OpenPalm
    else if extendedFingers == 0 then ClosedFist
    else NoGesture
  }

  /** The gesture of a detected hand: an open palm exactly when all four
      fingers are extended, a fist exactly when none is, never `Pointing_Up`. */
  lemma GestureOfHand(m: MathFns, lm: seq<Landmark>)
    requires IsHand(lm)
    ensures Classify(ExtendedCount(m, lm)) != PointingUp
    ensures Classify(ExtendedCount(m, lm)) == OpenPalm <==> forall f :: 1 <= f < 5 ==> FingerExtended(m, lm, f)
    ensures Classify(ExtendedCount(m, lm)) == ClosedFist <==> forall f :: 1 <= f < 5 ==> !FingerExtended(m, lm, f)
    ensures Classify(ExtendedCount(m, lm)) == NoGesture <==> 1 <= ExtendedCount(m, lm) <= 3
  {
    ExtendedAmongExtremes(m, lm, 1, 5);
  }

  /** The phase change a gesture asks for in a phase, if any. */
  function PhaseRequest(g: Gesture, phase: Phase): Option<Phase> {
    if g == OpenPalm && phase == Tree then Some(Blooming)
    else if g == ClosedFist && phase == Nebula then Some(Collapsing)
    else None
  }

  /** The rotation delta a gesture emits in a phase, if any. */
  function RotationDelta(g: Gesture, phase: Phase, wrist: Landmark): Option<real> {
    if phase == Nebula && g == OpenPalm then Some((0.5 - wrist.x) * 0.1) else None
  }

  /** Only an open palm in `tree` and a fist in `nebula` request a phase, and
      what they request is the next phase of the cycle. */
  lemma PhaseRequestFollowsCycle(g: Gesture, phase: Phase)
    ensures PhaseRequest(g, phase).Some? <==> (g == OpenPalm && phase == Tree) || (g == ClosedFist && phase == Nebula)
    ensures PhaseRequest(g, phase).Some? ==> PhaseRequest(g, phase).value == Next(phase)
  {
  }

  /** A delta is emitted only for an open palm in `nebula`; it turns the
      gallery one way left of centre and the other way right of it. */
  lemma RotationDeltaSign(g: Gesture, phase: Phase, wrist: Landmark)
    ensures RotationDelta(g, phase, wrist).Some? <==> phase == Nebula && g == OpenPalm
    ensures RotationDelta(g, phase, wrist).Some? ==>
              (RotationDelta(g, phase, wrist).value > 0.0 <==> wrist.x < 0.5) &&
              (RotationDelta(g, phase, wrist).value == 0.0 <==> wrist.x == 0.5)
  {
  }

  /** What one processed video frame does to the store when the loop's
      closure captured the phase `seen`: `renderLoop` decides on the phase of
      the render that created it, not on the store's. */
  function LoopEffect(m: MathFns, s: AppState, seen: Phase, hands: seq<seq<Landmark>>): AppState
    requires |hands| > 0 ==> IsHand(hands[0])
  {
    if |hands| == 0 then WithGesture(s, NoGesture)
    else
      var g := Classify(ExtendedCount(m, hands[0]));
      var labelled := WithGesture(s, g);
      var phased := match PhaseRequest(g, seen)
        case Some(q) => WithPhase(labelled, q)
        case None => labelled;
      match RotationDelta(g, seen, hands[0][WRIST])
      case Some(d) => Rotated(phased, d)
      case None => phased
  }

  /** A frame processed by the loop of the current effect, whose closure
      holds the store's current phase. */
  function FrameEffect(m: MathFns, s: AppState, hands: seq<seq<Landmark>>): AppState
    requires |hands| > 0 ==> IsHand(hands[0])
  {
    LoopEffect(m, s, s.phase, hands)
  }

  /** A frame with no hand only resets the gesture; a frame moves the phase
      at most one step along the cycle, and only out of `tree` or `nebula`;
      the rotation moves only in `nebula` under an open palm; the camera flag
      and focused photo are never touched; `Pointing_Up` is never set. */
  lemma FrameEffectProperties(m: MathFns, s: AppState, hands: seq<seq<Landmark>>)
    requires |hands| > 0 ==> IsHand(hands[0])
    ensures |hands| == 0 ==> FrameEffect(m, s, hands) == s.(gesture := NoGesture)
    ensures FrameEffect(m, s, hands).phase == s.phase ||
            (FrameEffect(m, s, hands).phase == Next(s.phase) && (s.phase == Tree || s.phase == Nebula))
    ensures FrameEffect(m, s, hands).nebulaRotation != s.nebulaRotation ==>
            s.phase == Nebula && FrameEffect(m, s, hands).gesture == OpenPalm && FrameEffect(m, s, hands).phase == Nebula
    ensures FrameEffect(m, s, hands).cameraEnabled == s.cameraEnabled
    ensures FrameEffect(m, s, hands).focusedPhotoIndex == s.focusedPhotoIndex
    ensures FrameEffect(m, s, hands).gesture != PointingUp
  {
    if |hands| > 0 {
      GestureOfHand(m, hands[0]);
    }
  }

  /** A hand whose four fingers stand at twice their knuckles' distance from
      the wrist: every landmark on the y axis, the wrist at 0, the fingertips
      (4, 8, 12, 16, 20) at 2 and every other landmark at 1. */
  function OpenHand(): (lm: seq<Landmark>)
    ensures IsHand(lm)
  {
    var w, k, t := Landmark(0.0, 0.0, 0.0), Landmark(0.0, 1.0, 0.0), Landmark(0.0, 2.0, 0.0);
    [w, k, k, k, t, k, k, k, t, k, k, k, t, k, k, k, t, k, k, k, t]
  }

  lemma OpenHandIsOpenPalm(m: MathFns)
    requires Valid(m)
    ensures Classify(ExtendedCount(m, OpenHand())) == OpenPalm
  {
    var lm := OpenHand();
    assert lm[WRIST] == Landmark(0.0, 0.0, 0.0);
    assert lm[5] == lm[9] == lm[13] == lm[17] == Landmark(0.0, 1.0, 0.0);
    assert lm[8] == lm[12] == lm[16] == lm[20] == Landmark(0.0, 2.0, 0.0);
    ExtendedIffSquared(m, lm, 1);
    ExtendedIffSquared(m, lm, 2);
    ExtendedIffSquared(m, lm, 3);
    ExtendedIffSquared(m, lm, 4);
    GestureOfHand(m, lm);
  }

  /** A loop left over from an earlier effect still acts on its own stale
      phase. One created in `tree` that sees an open palm while the store is
      in `nebula` sets `blooming`, which is neither the current phase nor
      its successor: the phase leaves the cycle. */
  lemma StaleLoopLeavesCycle(m: MathFns, s: AppState)
    requires Valid(m) && s.phase == Nebula
    ensures var after := LoopEffect(m, s, Tree, [OpenHand()]);
      && after.phase == Blooming
      && after.phase != s.phase && after.phase != Next(s.phase)
  {
    OpenHandIsOpenPalm(m);
  }

  /** One processed frame, issuing the store's setters as `renderLoop` does,
      with `phase` the value its closure captured. */
  method ProcessFrame(m: MathFns, store: AppStore, phase: Phase, hands: seq<seq<Landmark>>)
    requires |hands| > 0 ==> IsHand(hands[0])
    modifies store
    ensures store.State() == LoopEffect(m, old(store.State()), phase, hands)
  {
    if |hands| > 0 {
      var landmarks := hands[0];
      var wrist := landmarks[WRIST];
      var extendedFingers := CountExtendedFingers(m, landmarks);
      var currentGesture := Classify(extendedFingers);
      store.SetGesture(currentGesture);
      if currentGesture == OpenPalm && phase == Tree {
        store.SetPhase(Blooming);
      } else if currentGesture == ClosedFist && phase == Nebula {
        store.SetPhase(Collapsing);
      }
      if phase == Nebula && currentGesture == OpenPalm {
        var delta := (0.5 - wrist.x) * 0.1;
        store.SetNebulaRotation(delta);
      }
    } else {
      store.SetGesture(NoGesture);
    }
  }

  /** One tracking loop: the phase its effect captured, and its memory of
      the last video time it processed. */
  class VideoLoop {
    const phase: Phase
    var lastVideoTime: real

    constructor (phase: Phase)
      ensures this.phase == phase && lastVideoTime == -1.0
    {
      this.phase := phase;
      lastVideoTime := -1.0;
    }

    /** One `renderLoop` call: a frame whose video time equals the last one
        processed is skipped and changes nothing. */
    method RenderLoop(m: MathFns, store: AppStore, currentTime: real, hands: seq<seq<Landmark>>)
      requires |hands| > 0 ==> IsHand(hands[0])
      modifies this, store
      ensures lastVideoTime == currentTime
      ensures currentTime == old(lastVideoTime) ==> store.State() == old(store.State())
      ensures currentTime != old(lastVideoTime) ==> store.State() == LoopEffect(m, old(store.State()), phase, hands)
    {
      if currentTime != lastVideoTime {
        lastVideoTime := currentTime;
        ProcessFrame(m, store, phase, hands);
      }
    }
  }
}
