/** components/ChristmasTree.tsx, the progress tween effect, composed with
    the store and the hand tracker's phase policy. The store accepts any
    phase; it is this composition that keeps the application on the cycle
    tree -> blooming -> nebula -> collapsing -> tree, with the tween's
    progress pinned to 0 in the tree and to 1 in the nebula. */
module PhaseCycle {
  import opened Types
  import opened JsMath
  import opened Store
  import opened HandTracker

  /** The value the progress tween started for `phase` runs to. */
  function TweenTarget(phase: Phase): Option<real> {
    match phase
    case Blooming => Some(1.0)
    case Collapsing => Some(0.0)
    case _ => None
  }

  /** The phase the tween's `onComplete` sets. */
  function CompletionPhase(phase: Phase): Option<Phase> {
    match phase
    case Blooming => Some(Nebula)
    case Collapsing => Some(Tree)
    case _ => None
  }

  /** A tween runs exactly in the two transitional phases; blooming ends in
      the nebula at progress 1, collapsing in the tree at progress 0, and
      either way the phase completed to is the next one of the cycle. */
  lemma CompletionFollowsCycle(phase: Phase)
    ensures TweenTarget(phase).Some? <==> phase == Blooming || phase == Collapsing
    ensures CompletionPhase(phase).Some? <==> TweenTarget(phase).Some?
    ensures CompletionPhase(phase).Some? ==> CompletionPhase(phase).value == Next(phase)
    ensures TweenTarget(phase) == Some(1.0) <==> CompletionPhase(phase) == Some(Nebula)
    ensures TweenTarget(phase) == Some(0.0) <==> CompletionPhase(phase) == Some(Tree)
  {
  }

  /** The application as the particle engine sees it: the store, the
      `progress.current.value` the frame loop reads, and the value the
      running tween started from (gsap records it when the tween starts). */
  datatype World = World(app: AppState, progress: real, tweenFrom: real)

  /** What can happen next: a processed video frame, a tween tick with the
      eased fraction of its duration, the tween's completion, or a click on
      the camera button. */
  datatype Event =
    | HandFrame(hands: seq<seq<Landmark>>)
    | TweenTick(eased: real)
    | TweenComplete
    | CameraClick

  /** Hand frames carry a full hand when they carry one; the eases used
      (`expo.out`, `power4.inOut`) stay within [0, 1]. */
  predicate EventOk(e: Event) {
    match e
    case HandFrame(hands) => |hands| > 0 ==> IsHand(hands[0])
    case TweenTick(eased) => 0.0 <= eased <= 1.0
    case _ => true
  }

  const INITIAL_WORLD: World := World(INITIAL, 0.0, 0.0)

  /** The effect of one event. Hand frames are processed only while the
      camera is enabled (the tracking effect returns early otherwise); a
      phase change they make starts the tween for the new phase from the
      current progress. */
  function Step(m: MathFns, w: World, e: Event): World
    requires EventOk(e)
  {
    match e
    case HandFrame(hands) =>
      if !w.app.cameraEnabled then w else
      var app := FrameEffect(m, w.app, hands);
      World(app, w.progress, if app.phase != w.app.phase then w.progress else w.tweenFrom)
    case TweenTick(eased) =>
      (match TweenTarget(w.app.phase)
       case Some(target) => w.(progress := Lerp(w.tweenFrom, target, eased))
       case None => w)
    case TweenComplete =>
      (match (TweenTarget(w.app.phase), CompletionPhase(w.app.phase))
       case (Some(target), Some(next)) => w.(app := WithPhase(w.app, next), progress := target)
       case _ => w)
    case CameraClick =>
      w.(app := ToggledCamera(w.app))
  }

  /** Progress is a fraction; it is 0 in the tree and 1 in the nebula; a
      running tween started from the end the previous phase pinned. */
  predicate Inv(w: World) {
    && 0.0 <= w.progress <= 1.0
    && (w.app.phase == Tree ==> w.progress == 0.0)
    && (w.app.phase == Nebula ==> w.progress == 1.0)
    && (w.app.phase == Blooming ==> w.tweenFrom == 0.0)
    && (w.app.phase == Collapsing ==> w.tweenFrom == 1.0)
  }

  lemma InitialInv()
    ensures Inv(INITIAL_WORLD)
    ensures INITIAL_WORLD.app.phase == Tree && INITIAL_WORLD.progress == 0.0
  {
  }

  /** Every event keeps the invariant, moves the phase at most one step
      along the cycle, and changes progress only while a tween runs. */
  lemma StepProperties(m: MathFns, w: World, e: Event)
    requires Inv(w) && EventOk(e)
    ensures Inv(Step(m, w, e))
    ensures Step(m, w, e).app.phase == w.app.phase || Step(m, w, e).app.phase == Next(w.app.phase)
    ensures Step(m, w, e).progress != w.progress ==> w.app.phase == Blooming || w.app.phase == Collapsing
    ensures Step(m, w, e).app.focusedPhotoIndex == w.app.focusedPhotoIndex
    ensures e.HandFrame? && !w.app.cameraEnabled ==> Step(m, w, e) == w
  {
    match e
    case HandFrame(hands) =>
      FrameEffectProperties(m, w.app, hands);
    case TweenTick(eased) =>
      if w.app.phase == Blooming || w.app.phase == Collapsing {
        LerpBetween(w.tweenFrom, TweenTarget(w.app.phase).value, eased);
      }
    case TweenComplete =>
    case CameraClick =>
  }

  /** While blooming, progress is exactly the eased fraction of the tween;
      while collapsing, its complement. */
  lemma TickFollowsEase(m: MathFns, w: World, eased: real)
    requires Inv(w) && 0.0 <= eased <= 1.0
    ensures w.app.phase == Blooming ==> Step(m, w, TweenTick(eased)).progress == eased
    ensures w.app.phase == Collapsing ==> Step(m, w, TweenTick(eased)).progress == 1.0 - eased
  {
  }

  /** The world after a sequence of events. */
  function Run(m: MathFns, w: World, es: seq<Event>): World
    requires forall k :: 0 <= k < |es| ==> EventOk(es[k])
    decreases |es|
  {
    if es == [] then w else Run(m, Step(m, w, es[0]), es[1..])
  }

  /** The phases visited while the events are applied, the starting one first. */
  function Phases(m: MathFns, w: World, es: seq<Event>): (ps: seq<Phase>)
    requires forall k :: 0 <= k < |es| ==> EventOk(es[k])
    ensures |ps| == |es| + 1 && ps[0] == w.app.phase
    decreases |es|
  {
    if es == [] then [w.app.phase] else [w.app.phase] + Phases(m, Step(m, w, es[0]), es[1..])
  }

  /** Each phase of the sequence is the previous one or its successor. */
  predicate OnCycle(ps: seq<Phase>) {
    forall k :: 0 < k < |ps| ==> ps[k] == ps[k - 1] || ps[k] == Next(ps[k - 1])
  }

  /** From any world satisfying the invariant (the initial one does), every
      sequence of events keeps it and visits phases only along the cycle. */
  lemma {:induction false} RunFollowsCycle(m: MathFns, w: World, es: seq<Event>)
    requires Inv(w)
    requires forall k :: 0 <= k < |es| ==> EventOk(es[k])
    ensures Inv(Run(m, w, es))
    ensures OnCycle(Phases(m, w, es))
    decreases |es|
  {
    if es != [] {
      var w' := Step(m, w, es[0]);
      StepProperties(m, w, es[0]);
      RunFollowsCycle(m, w', es[1..]);
      var ps := Phases(m, w, es);
      var rest := Phases(m, w', es[1..]);
      assert ps == [w.app.phase] + rest;
      forall k | 0 < k < |ps|
        ensures ps[k] == ps[k - 1] || ps[k] == Next(ps[k - 1])
      {
        if k > 1 {
          assert ps[k] == rest[k - 1] && ps[k - 1] == rest[k - 2];
        } else {
          assert ps[1] == rest[0] == w'.app.phase;
        }
      }
    }
  }

  // ---------------------------------------------------------------- imperative side

  /** `progress.current`, written by the tween and read by the frame loop,
      together with the start value the running tween recorded. */
  class ProgressRef {
    var value: real
    var tweenFrom: real

    constructor ()
      ensures value == 0.0 && tweenFrom == 0.0
    {
      value := 0.0;
      tweenFrom := 0.0;
    }
  }

  function WorldOf(store: AppStore, progress: ProgressRef): World
    reads store, progress
  {
    World(store.State(), progress.value, progress.tweenFrom)
  }

  /** The effect at the phase change: `gsap.to` records where the progress
      tween starts; in the tree and the nebula no tween starts. */
  method StartTween(progress: ProgressRef, phase: Phase)
    modifies progress
    ensures progress.value == old(progress.value)
    ensures progress.tweenFrom == if TweenTarget(phase).Some? then old(progress.value) else old(progress.tweenFrom)
  {
    if phase == Blooming {
      progress.tweenFrom := progress.value;
    } else if phase == Collapsing {
      progress.tweenFrom := progress.value;
    }
  }

  /** One event applied to the live objects: the hand tracker's frame
      handling (by the one loop whose closure holds the current phase), the
      effect re-run on a phase change, a tween tick, the
      `onComplete` callback, or the UI's camera button. */
  method HandleEvent(m: MathFns, store: AppStore, progress: ProgressRef, e: Event)
    requires EventOk(e)
    modifies store, progress
    ensures WorldOf(store, progress) == Step(m, old(WorldOf(store, progress)), e)
  {
    match e
    case HandFrame(hands) =>
      if store.cameraEnabled {
        var before := store.phase;
        ProcessFrame(m, store, store.phase, hands);
        if store.phase != before {
          StartTween(progress, store.phase);
          FrameEffectProperties(m, old(store.State()), hands);
        }
      }
    case TweenTick(eased) =>
      if store.phase == Blooming {
        progress.value := Lerp(progress.tweenFrom, 1.0, eased);
      } else if store.phase == Collapsing {
        progress.value := Lerp(progress.tweenFrom, 0.0, eased);
      }
    case TweenComplete =>
      if store.phase == Blooming {
        progress.value := 1.0;
        store.SetPhase(Nebula);
      } else if store.phase == Collapsing {
        progress.value := 0.0;
        store.SetPhase(Tree);
      }
    case CameraClick =>
      store.ToggleCamera();
  }
}
