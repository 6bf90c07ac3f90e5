# Christmas tree particle engine — a Dafny model

This project models the logic layer of a hand-gesture-driven 3D Christmas
tree. A cloud of 7000 particles forms a cone-shaped tree (5000 body
particles) wrapped by a flowing spiral ribbon (2000 ribbon particles). An
open palm in front of the camera makes the tree "bloom" into a ring-shaped
nebula, where a photo gallery shows and the hand steers its rotation. A
closed fist collapses the nebula back into the tree. Four phases make up the
cycle: tree, blooming, nebula and collapsing.

The model is split into modules that follow the program:

- `Types`: the phase and gesture enumerations.
- `JsMath`: the numeric primitives the code relies on.
  - `cos`, `sin` and `sqrt` are an uninterpreted record `MathFns`. Its
    `Valid` predicate states the bounds, `cos² + sin² = 1`, and that
    `sqrt` is the non-negative square root.
  - `Math.random()` results are parameters of the subset type `Draw`, the
    interval [0, 1).
  - `Lerp` is `THREE.MathUtils.lerp`.
  - `RemOne` is JavaScript's `x % 1`, which truncates toward zero.
- `Geometry` (utils/geometry.ts): the particle counts and the samplers for
  the tree cone, the reference ribbon spiral and the nebula ring, plus the
  ornament palette.
- `Store` (store/useStore.ts):
  - the zustand store as the class `AppStore`, whose setters update its
    fields in place;
  - each setter is specified by a pure reducer on the `AppState` value.
- `HandTracker` (components/HandTracker.tsx, inside `renderLoop`):
  - the extended-finger counting loop, proved against a recursive count;
  - the gesture label;
  - the phase and rotation policy, applied to the store with the phase
    the loop's closure captured;
  - the `lastVideoTime` dedupe.
- `ParticleBuffers` (components/ChristmasTree.tsx, the `useMemo` precompute):
  - it fills the tree, nebula and colour `Float32Array`s at stride 3;
  - it is proved to write every triple with its basin point or colour;
  - the ribbon triples of the tree buffer stay zero.
- `ParticleFrame` (components/ChristmasTree.tsx, the `useFrame` loop):
  - the per-index branch logic, written in the source's order of
    overwrites;
  - it is proved equal to a reference definition `ParticleSpec` / `ShadeSpec`;
  - the frame loop writes one transform and one colour for every index.
- `TreeLayout` (components/ChristmasTree.tsx):
  - the decorations and internal glowing spheres;
  - the tween targets of `DecorationMesh` / `GlowingSphere`;
  - the star outline;
  - the gallery layout, visibility and rotation smoothing.
- `PhaseCycle` (components/ChristmasTree.tsx, the progress tween effect):
  - composes the store, the hand policy, the tween and the camera button
    into one event-driven state machine;
  - proves that the phases only ever follow the cycle tree → blooming →
    nebula → collapsing → tree;
  - proves that progress is pinned to 0 in the tree and to 1 in the nebula.
  - The store alone accepts any phase; only the composite is constrained.

In the ribbon branch of the frame loop, the direct nebula assignment at
components/ChristmasTree.tsx:292-294 is always overwritten. It runs only
when progress is at least 0.1, and the transition block then also runs,
because progress is positive. `ParticleAt` is proved equal to `ParticleSpec`,
which leaves that assignment out. `RibbonAtNebula` shows the resulting
position at progress 1.

## Model

| member | source | states |
|---|---|---|
| Geometry.ParticleIndexRanges | utils/geometry.ts:3-5 | The total is 7000. Body indices are [0, 5000) and ribbon indices are [5000, 7000). |
| Geometry.TreeHeight | utils/geometry.ts:13 | The sampled height lies in [-7.5, 7.5). |
| Geometry.RelativeY | utils/geometry.ts:14 | The relative height is in [0, 1) on the tree, and 0 at its bottom. |
| Geometry.RadiusAtHeight | utils/geometry.ts:17 | The cone radius is in (0, 6] on the tree, and 6 at the bottom. |
| Geometry.RadiusShrinksUpward | utils/geometry.ts:17 | The cone radius is non-increasing in y, and strictly decreasing. |
| Geometry.TreePosition | utils/geometry.ts:12-26 | Every cone sample has y in [-7.5, 7.5) and x² + z² ≤ radiusAtHeight². It never leaves the cone envelope. |
| Geometry.SqrtOfDraw | utils/geometry.ts:20 | The square root of a draw is itself in [0, 1). |
| Geometry.OnCircle | utils/geometry.ts:22-23 | (cos a · r, sin a · r) lies on the circle of radius \|r\|. |
| Geometry.NormalizedHeightInRange | components/ChristmasTree.tsx:207 | The gradient parameter (y + 7.5) / 15 of every tree point is in [0, 1). |
| Geometry.RibbonPosition | utils/geometry.ts:30-42 | The spiral point's squared horizontal radius is (6t + 1)². |
| Geometry.RibbonStartsAtTop | utils/geometry.ts:31-35 | At index 0 the spiral is at y = 7.5 on the unit circle. |
| Geometry.RibbonDescendsAndWidens | utils/geometry.ts:31-35 | A larger index gives a strictly lower point and a strictly larger radius. |
| Geometry.RibbonBand | utils/geometry.ts:31-35 | Over the ribbon indices, y is in (-7.5, 7.5] and the radius is in [1, 7). |
| Geometry.RingRadius | utils/geometry.ts:47 | The ring radius is in [15, 20). |
| Geometry.NebulaPosition | utils/geometry.ts:45-55 | A nebula sample has y in [-2, 2) and horizontal radius² in [225, 400). It depends only on the draws, not the index. |
| Geometry.OrnamentIndex | utils/geometry.ts:66 | floor(u · 4) is a valid palette index. |
| Geometry.RandomOrnamentColor | utils/geometry.ts:65-67 | The chosen colour is always one of the palette entries. |
| Store.WithPhase | store/useStore.ts:25 | setPhase sets the phase to any value and changes no other field. |
| Store.WithGesture | store/useStore.ts:26 | setGesture sets the gesture and changes no other field. |
| Store.ToggledCamera | store/useStore.ts:27 | toggleCamera negates cameraEnabled and changes no other field. |
| Store.ToggleTwiceRestores | store/useStore.ts:27 | Toggling twice restores the state. |
| Store.Rotated | store/useStore.ts:28 | setNebulaRotation adds exactly delta to the accumulator and changes no other field. |
| Store.RotationAccumulates | store/useStore.ts:28 | After any sequence of setNebulaRotation calls, the rotation is the initial value plus the sum of the deltas. No other field changes. |
| Store.WithFocusedPhoto | store/useStore.ts:29 | setFocusedPhoto sets focusedPhotoIndex (a number or null) and changes no other field. |
| Store.AppStore.constructor | store/useStore.ts:18-23 | The initial state is tree, None, camera off, rotation 0 and no focused photo. |
| Store.AppStore.SetPhase | store/useStore.ts:25 | The store's new state is WithPhase of the old one. |
| Store.AppStore.SetGesture | store/useStore.ts:26 | The store's new state is WithGesture of the old one. |
| Store.AppStore.ToggleCamera | store/useStore.ts:27 | The store's new state is ToggledCamera of the old one. |
| Store.AppStore.SetNebulaRotation | store/useStore.ts:28 | The store's new state is Rotated of the old one. |
| Store.AppStore.SetFocusedPhoto | store/useStore.ts:29 | The store's new state is WithFocusedPhoto of the old one. |
| HandTracker.PlanarSq | components/HandTracker.tsx:80-81 | The squared planar distance uses x and y only, and is non-negative. |
| HandTracker.ExtendedIffSquared | components/HandTracker.tsx:80-82 | hypot(tip) > 1.5 · hypot(knuckle) holds iff \|tip − wrist\|² > 2.25 · \|knuckle − wrist\|². |
| HandTracker.ExtendedAmong | components/HandTracker.tsx:79-83 | The count of extended fingers in a range is at most the range's length. |
| HandTracker.CountExtendedFingers | components/HandTracker.tsx:77-83 | The counting loop computes ExtendedCount over fingers 1..4, so the result is in [0, 4]. |
| HandTracker.ExtendedAmongExtremes | components/HandTracker.tsx:79-87 | The count equals the range length iff every finger in it is extended. It is 0 iff none is. |
| HandTracker.CountIgnoresThumbAndDepth | components/HandTracker.tsx:78-82 | Two hands that differ only in z or in the thumb give the same count. |
| HandTracker.GestureOfHand | components/HandTracker.tsx:85-87 | Open_Palm iff all four fingers are extended. Closed_Fist iff none is. None iff 1 to 3 are. Pointing_Up is never produced. |
| HandTracker.PhaseRequestFollowsCycle | components/HandTracker.tsx:92-96 | Only Open_Palm in tree or Closed_Fist in nebula requests a phase. The request is the next phase of the cycle. |
| HandTracker.RotationDeltaSign | components/HandTracker.tsx:99-104 | A delta is emitted iff the phase is nebula and the gesture is Open_Palm. It is positive iff wrist.x < 0.5, and zero iff wrist.x = 0.5. |
| HandTracker.FrameEffectProperties | components/HandTracker.tsx:60-107 | For the loop of the current effect: no hand only resets the gesture to None. The phase moves at most one step, and only out of tree or nebula. The rotation moves only in nebula under Open_Palm. The camera flag and focused photo are untouched. |
| HandTracker.ProcessFrame | components/HandTracker.tsx:67-107 | Issuing setGesture, setPhase and setNebulaRotation as the loop does, deciding on the phase its closure captured, yields exactly LoopEffect of the pre-frame state and that phase. |
| HandTracker.StaleLoopLeavesCycle | components/HandTracker.tsx:92-93 | A loop that captured tree, seeing an open palm while the store is in nebula, sets blooming: neither the current phase nor its successor. |
| HandTracker.OpenHandIsOpenPalm | components/HandTracker.tsx:77-87 | A hand whose fingertips are twice as far from the wrist as their knuckles is classified Open_Palm. |
| HandTracker.VideoLoop.constructor | components/HandTracker.tsx:47 | A loop keeps the phase its effect captured, and lastVideoTime starts at -1. |
| HandTracker.VideoLoop.RenderLoop | components/HandTracker.tsx:49-51 | A frame with the same video time as the last one changes nothing. Otherwise it is processed with the loop's captured phase and its time is recorded. |
| JsMath.Lerp | components/ChristmasTree.tsx:319-321 | The result is x at t = 0 and y at t = 1, moving by t·(y − x). |
| JsMath.LerpBetween | components/ChristmasTree.tsx:312-314 | For t in [0, 1], the interpolated value lies between its two ends. |
| JsMath.RemOne | components/ChristmasTree.tsx:271 | x % 1 is in [0, 1) for x ≥ 0 and in (-1, 0] for x < 0. x − (x % 1) is an integer. |
| ParticleBuffers.GradientBetweenEnds | components/ChristmasTree.tsx:207-210 | The colour gradient of a tree point lies componentwise between colorBottom and colorTop. |
| ParticleBuffers.BasinShapes | components/ChristmasTree.tsx:194-232 | A body's tree basin lies in the cone. A ribbon's tree basin is zero and its base colour is colorRibbon, whatever offsetHSL does. Every nebula basin lies in the ring band. |
| ParticleBuffers.BodyColorJitter | components/ChristmasTree.tsx:207-217 | A body particle's colour is the gradient at its tree triple's height, shifted in saturation and lightness by less than 0.05. |
| ParticleBuffers.WriteTriple | components/ChristmasTree.tsx:196-198 | Writing slots 3i..3i+2 sets triple i and leaves every other triple unchanged. |
| ParticleBuffers.Precompute | components/ChristmasTree.tsx:187-235 | Three fresh buffers of length 7000·3. Every triple holds its tree basin (zero for ribbons), its nebula basin and its base colour. |
| ParticleBuffers.FillBody | components/ChristmasTree.tsx:194-218 | The body loop writes all three buffers for indices below 5000 and keeps the ribbon tree triples zero. |
| ParticleBuffers.FillRibbon | components/ChristmasTree.tsx:221-232 | The ribbon loop writes the nebula and colour triples for 5000..6999 and keeps the body triples. |
| ParticleFrame.FlowingSpiral | components/ChristmasTree.tsx:268-281 | The inline spiral computation yields the flow parameter and the flutter-free spiral point. |
| ParticleFrame.RibbonAt | components/ChristmasTree.tsx:265-315 | The ribbon branch, with its sequential overwrites, yields ParticleSpec. |
| ParticleFrame.BodyAt | components/ChristmasTree.tsx:317-329 | The body branch yields ParticleSpec. |
| ParticleFrame.ParticleAt | components/ChristmasTree.tsx:262-329 | The transform the loop body computes for index i equals ParticleSpec. |
| ParticleFrame.UpdateFrame | components/ChristmasTree.tsx:261-346 | Every index in [0, 7000) receives exactly the ParticleSpec transform and the ShadeSpec colour. |
| ParticleFrame.BodyEndpoints | components/ChristmasTree.tsx:319-326 | A body particle sits exactly on its nebula point at progress 1. At progress 0 it has the tree point's x and z and \|y − tree.y\| ≤ 0.05. |
| ParticleFrame.BodyBetweenBasins | components/ChristmasTree.tsx:319-321 | For progress in [0.1, 1], each body coordinate lies between its two basin coordinates. |
| ParticleFrame.RibbonAtNebula | components/ChristmasTree.tsx:299-315 | A ribbon particle at progress 1 sits on its nebula point with scale 0.1. |
| ParticleFrame.SpiralBand | components/ChristmasTree.tsx:268-281 | For t ≥ 0 the flow parameter is in [0, 1). The spiral height is in (-7.5, 7.5] and its radius in [1, 7). |
| ParticleFrame.SpiralStartsAtTop | components/ChristmasTree.tsx:271-281 | At flow parameter 0 the spiral point is at y = 7.5 on the unit circle. |
| ParticleFrame.ScaleBounds | components/ChristmasTree.tsx:288-328 | Ribbon scale is 0.12 ± 0.05 below progress 0.1 and exactly 0.1 from there on. Body scale is 0.06 ± 0.03. |
| ParticleFrame.ShadeBounds | components/ChristmasTree.tsx:337-345 | Every index keeps its base colour. Only ribbon indices get a lightness offset, which lies in [0, 0.4]. |
| TreeLayout.Decorations | components/ChristmasTree.tsx:352-364 | There are 30 ornaments. Ornament i has colour ORNAMENT_COLORS[i mod 4] and the cone sample with x and z scaled by 1.1. |
| TreeLayout.DecorationInWidenedCone | components/ChristmasTree.tsx:355-360 | Each ornament lies within the cone widened by 1.1, at a tree height, in a palette colour. |
| TreeLayout.InternalSphere | components/ChristmasTree.tsx:367-372 | An internal sphere lies in the cone, with scale in [0.35, 0.5). |
| TreeLayout.InternalSpheres | components/ChristmasTree.tsx:367-372 | There are 40 spheres. Sphere i sits on the i-th cone sample, inside the cone, with scale in [0.35, 0.5). |
| TreeLayout.AfterMeshTween | components/ChristmasTree.tsx:27-49 | No tween is started when the phase becomes tree or nebula. The same holds for GlowingSphere (lines 71-93). |
| TreeLayout.MeshCycleReturns | components/ChristmasTree.tsx:22-49 | Over one cycle a mesh goes to its nebula point in the ring band and returns exactly to its initial position. |
| TreeLayout.StarOutline | components/ChristmasTree.tsx:375-391 | One moveTo, nine lineTo, then closePath. Vertex i is at distance 1.2 (i even) or 0.5 (i odd). |
| TreeLayout.Photos | components/ChristmasTree.tsx:133-137 | There are 12 photos at radius 12, with angles in [0, 2π) spaced π/6 apart. |
| TreeLayout.GalleryAndStarByPhase | components/ChristmasTree.tsx:152-153 | Photo scale is 0 iff the phase is tree. Visible photos have scale 1.5. The star (line 427) has scale 1 iff the phase is tree. The star and the photos are never shown together, and while collapsing neither is. |
| TreeLayout.GalleryRotationStep | components/ChristmasTree.tsx:139-143 | Outside nebula the gallery rotation is frozen. In nebula the gap to the target shrinks to 0.95 of itself. |
| TreeLayout.GalleryConverges | components/ChristmasTree.tsx:139-143 | After n nebula frames the gap is 0.95ⁿ of the initial gap, so the rotation never overshoots. |
| PhaseCycle.CompletionFollowsCycle | components/ChristmasTree.tsx:239-255 | A tween runs only in blooming and collapsing. Blooming ends in nebula at progress 1, collapsing in tree at progress 0. Both go to the next phase of the cycle. |
| PhaseCycle.InitialInv | components/ChristmasTree.tsx:237 | The initial world is the tree at progress 0 and satisfies the invariant. |
| PhaseCycle.StepProperties | components/ChristmasTree.tsx:239-255 | Every event preserves the invariant (progress in [0, 1], 0 in tree, 1 in nebula). The phase stays or becomes its successor. Progress moves only while a tween runs. Hand frames with the camera off change nothing. |
| PhaseCycle.TickFollowsEase | components/ChristmasTree.tsx:241-253 | While blooming, progress equals the eased fraction. While collapsing, it equals the fraction's complement. |
| PhaseCycle.RunFollowsCycle | components/ChristmasTree.tsx:239-255 | Every event sequence preserves the invariant and visits phases only along tree → blooming → nebula → collapsing → tree. |
| PhaseCycle.ProgressRef.constructor | components/ChristmasTree.tsx:237 | progress.current.value starts at 0. |
| PhaseCycle.StartTween | components/ChristmasTree.tsx:239-255 | Entering blooming or collapsing starts a tween from the current progress. Tree and nebula start none. |
| PhaseCycle.HandleEvent | components/ChristmasTree.tsx:239-255 | Applying an event to the live store and progress ref yields exactly Step of the old world. A hand frame is handled by one loop that reads the store's current phase. |

## Left out

- Rendering: MediaPipe model loading, camera access, canvas drawing, `requestAnimationFrame` scheduling and stream cleanup. These are foreign, asynchronous I/O; a video frame enters the model as its list of detected hands.
- components/Scene.tsx and components/UI.tsx are declarative markup and scene wiring. Only the UI's camera button is modelled, as the `CameraClick` event.
- gsap easing curves, durations and random delays. A tween tick carries an eased fraction in [0, 1], and completion is an event.
- Interrupted tweens are not modelled. Neither is a mesh tween overwriting an earlier one mid-flight: each mesh tween is modelled by its target only.
- three.js colour maths: `lerpColors` is componentwise, but `offsetHSL` is a parameter function. The frame loop records a ribbon colour as its base plus the lightness offset it requests (`Shimmer`), not the resulting RGB.
- Colour-space conversion of hex strings is not modelled: colours are the components divided by 255.
- Matrix composition (`updateMatrix`, `setMatrixAt`): a slot receives a position and a uniform scale.
- Float32 and IEEE-754 rounding: all arithmetic is over the reals. In particular the rotation accumulator sums exactly.
- Geometry.RandomOrnamentColor returns the palette string, not the `THREE.Color` built from it.
- The unused `dist` in the decorations memo (components/ChristmasTree.tsx:356) is not modelled.
- The unused index argument of `getTreePosition` and `getNebulaPosition` is not a parameter.
- Photo URLs, the `Float` wobble and the `Sparkles` on the star are not modelled.
- HandTracker.IsHand: a detected hand is taken to have all 21 MediaPipe landmarks, which the source indexes without checking.
- React scheduling, and the interleaving of the hand-tracking loop and the frame loop. Events are applied one at a time.
- The hand-tracking effect is re-created on every phase change, which resets `lastVideoTime`. The composite model runs one tracking loop that reads the store's current phase. The source never removes its `loadeddata` listener, so loops closed over earlier phases can stay alive (see Findings). PhaseCycle.RunFollowsCycle is therefore a property of this single-loop model, not of the program as written.
- PhaseCycle.HandleEvent decides the tween's completion phase from the store's current phase. The source binds it when the tween starts. The two agree because, while blooming or collapsing, only the completion event itself changes the phase. A hand frame moves the phase only out of tree or nebula (`FrameEffectProperties`), and ticks and camera clicks never change it (`Step`).

## Findings

| source | as written | input that shows it | evidently intended | confidence | as-written member | corrected member |
|---|---|---|---|---|---|---|
| components/HandTracker.tsx:118-132 | The effect's cleanup cancels one animation frame and stops the tracks, but never removes the `loadeddata` listener. A `renderLoop` closed over an earlier `phase` restarts when the next stream loads and keeps acting on that phase. | Camera on in tree; the phase goes to blooming, then nebula; the user holds an open palm. The tree-era loop reaches lines 92-93 and calls `setPhase('blooming')` while the store is in nebula. | Only the loop of the current effect runs, so a frame moves the phase at most one step along the cycle. | high; not executed | HandTracker.StaleLoopLeavesCycle | HandTracker.FrameEffectProperties |
