/** The enumerations declared in types.ts, and an optional value. */
module Types {

  /** AppPhase: the four phases of the tree/nebula animation. */
  datatype Phase = Tree | Blooming | Nebula | Collapsing

  /** The phase that follows `p` on the cycle tree, blooming, nebula, collapsing. */
  function Next(p: Phase): Phase {
    match p
    case Tree => Blooming
    case Blooming => Nebula
    case Nebula => Collapsing
    case Collapsing => Tree
  }

  /** GestureType. `NoGesture` is the label 'None'; `PointingUp` is declared
      but the classifier in HandTracker never produces it. */
  datatype Gesture = NoGesture | OpenPalm | ClosedFist | PointingUp

  /** A value that may be absent (`number | null`, an optional request). */
  datatype Option<T> = None | Some(value: T)
}
