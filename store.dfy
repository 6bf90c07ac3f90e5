/** store/useStore.ts: the application state and its setters. Each setter
    of the zustand store is a reducer from the current state to the next;
    the reducers are stated as functions and the store object applies them. */
module Store {
  import opened Types

  /** `AppState` without its setters. `focusedPhotoIndex` is `number | null`. */
  datatype AppState = AppState(
    phase: Phase,
    gesture: Gesture,
    cameraEnabled: bool,
    nebulaRotation: real,
    focusedPhotoIndex: Option<int>)

  /** The value the store is created with. */
  const INITIAL: AppState := AppState(Tree, NoGesture, false, 0.0, None)

  /** `setPhase`: any phase is accepted; only `phase` changes. */
  function WithPhase(s: AppState, p: Phase): (r: AppState)
    ensures r.phase == p
    ensures r.(phase := s.phase) == s
  {
    s.(phase := p)
  }

  /** `setGesture`: only `gesture` changes. */
  function WithGesture(s: AppState, g: Gesture): (r: AppState)
    ensures r.gesture == g
    ensures r.(gesture := s.gesture) == s
  {
    s.(gesture := g)
  }

  /** `toggleCamera`: `cameraEnabled` flips, nothing else changes. */
  function ToggledCamera(s: AppState): (r: AppState)
    ensures r.cameraEnabled != s.cameraEnabled
    ensures r.(cameraEnabled := s.cameraEnabled) == s
  {
    s.(cameraEnabled := !s.cameraEnabled)
  }

  /** `setNebulaRotation(delta)`: accumulates `delta` into `nebulaRotation`. */
  function Rotated(s: AppState, delta: real): (r: AppState)
    ensures r.nebulaRotation - s.nebulaRotation == delta
    ensures r.(nebulaRotation := s.nebulaRotation) == s
  {
    s.(nebulaRotation := s.nebulaRotation + delta)
  }

  /** `setFocusedPhoto`: only `focusedPhotoIndex` changes. */
  function WithFocusedPhoto(s: AppState, index: Option<int>): (r: AppState)
    ensures r.focusedPhotoIndex == index
    ensures r.(focusedPhotoIndex := s.focusedPhotoIndex) == s
  {
    s.(focusedPhotoIndex := index)
  }

  /** Toggling the camera twice restores the state. */
  lemma ToggleTwiceRestores(s: AppState)
    ensures ToggledCamera(ToggledCamera(s)) == s
  {
  }

  /** The sum of a sequence of rotation deltas, first to last. */
  function Sum(ds: seq<real>): real {
    if ds == [] then 0.0 else ds[0] + Sum(ds[1..])
  }

  /** The state after `setNebulaRotation` is called with each delta in turn. */
  function RotatedBy(s: AppState, ds: seq<real>): AppState
    decreases |ds|
  {
    if ds == [] then s else RotatedBy(Rotated(s, ds[0]), ds[1..])
  }

  /** After any sequence of `setNebulaRotation` calls the accumulator equals
      its initial value plus the sum of the deltas, and nothing else changed. */
  lemma {:induction false} RotationAccumulates(s: AppState, ds: seq<real>)
    ensures RotatedBy(s, ds).nebulaRotation == s.nebulaRotation + Sum(ds)
    ensures RotatedBy(s, ds).(nebulaRotation := s.nebulaRotation) == s
    decreases |ds|
  {
    if ds != [] {
      RotationAccumulates(Rotated(s, ds[0]), ds[1..]);
    }
  }

  /** The store object: its fields are updated in place by its setters. */
  class AppStore {
    var phase: Phase
    var gesture: Gesture
    var cameraEnabled: bool
    var nebulaRotation: real
    var focusedPhotoIndex: Option<int>

    /** The store's fields as one value. */
    function State(): AppState
      reads this
    {
      AppState(phase, gesture, cameraEnabled, nebulaRotation, focusedPhotoIndex)
    }

    constructor ()
      ensures State() == INITIAL
    {
      phase := Tree;
      gesture := NoGesture;
      cameraEnabled := false;
      nebulaRotation := 0.0;
      focusedPhotoIndex := None;
    }

    method SetPhase(p: Phase)
      modifies this
      ensures State() == WithPhase(old(State()), p)
    {
      phase := p;
    }

    method SetGesture(g: Gesture)
      modifies this
      ensures State() == WithGesture(old(State()), g)
    {
      gesture := g;
    }

    method ToggleCamera()
      modifies this
      ensures State() == ToggledCamera(old(State()))
    {
      cameraEnabled := !cameraEnabled;
    }

    method SetNebulaRotation(delta: real)
      modifies this
      ensures State() == Rotated(old(State()), delta)
    {
      nebulaRotation := nebulaRotation + delta;
    }

    method SetFocusedPhoto(index: Option<int>)
      modifies this
      ensures State() == WithFocusedPhoto(old(State()), index)
    {
      focusedPhotoIndex := index;
    }
  }
}
