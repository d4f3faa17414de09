/** Which sprite sequence each state shows (getCurrentFrames,
    DesktopPet.java:1316-1357), as a key instead of an icon array. */
module Frames {
  import opened Geometry
  import opened States

  /** The sprite directories that come as a left/right pair. */
  datatype Group =
    | IdleGroup | WalkGroup | DragGroup | FallGroup | LandGroup
    | ClimbGroup | CeilingGroup | GrabGroup | SwingGroup | YawnGroup
    | DragWakeGroup | FallWakeGroup | LandWakeGroup

  /** A sprite sequence: one side of a paired group, or one of the two
      unpaired sleep and wake sequences. */
  datatype FrameKey = Paired(group: Group, side: Side) | SleepFrames | WakeFrames

  function FacingSide(facingRight: bool): Side
  {
    if facingRight then Right else Left
  }

  function FramesFor(s: State, facingRight: bool): FrameKey
  {
    var f := FacingSide(facingRight);
    match s
    case Sleep => SleepFrames
    case Wake => WakeFrames
    case DragWake => Paired(DragWakeGroup, f)
    case FallWake => Paired(FallWakeGroup, f)
    case LandWake => Paired(LandWakeGroup, f)
    case SleepWalkToCorner => Paired(WalkGroup, f)
    case Walk => Paired(WalkGroup, f)
    case WalkToEdge(_) => Paired(WalkGroup, f)
    case Yawn => Paired(YawnGroup, f)
    case Idle => Paired(IdleGroup, f)
    case Drag => Paired(DragGroup, f)
    case Fall => Paired(FallGroup, f)
    case Land => Paired(LandGroup, f)
    case Climb(side) => Paired(ClimbGroup, side)
    case Ceiling => Paired(CeilingGroup, f)
    case Grab(side) => Paired(GrabGroup, side)
    case Dismount(side) => Paired(GrabGroup, side)
    case Swing(side) => Paired(SwingGroup, side)
    case CeilingAttach(side) => Paired(SwingGroup, side)
  }

  /** The side of the wall a state clings to, if any. */
  predicate WallBound(s: State)
  {
    s.Climb? || s.Grab? || s.Dismount? || s.Swing? || s.CeilingAttach?
  }

  function WallSide(s: State): Side
    requires WallBound(s)
  {
    match s
    case Climb(side) => side
    case Grab(side) => side
    case Dismount(side) => side
    case Swing(side) => side
    case CeilingAttach(side) => side
  }

  /** Wall-bound states show their own wall's side whatever the facing;
      every other state except sleep and wake shows the facing side;
      sleep and wake ignore the facing. */
  lemma FrameSide(s: State, facingRight: bool)
    ensures WallBound(s) ==> FramesFor(s, facingRight) == FramesFor(s, !facingRight)
                             && FramesFor(s, facingRight).side == WallSide(s)
    ensures !WallBound(s) && s != Sleep && s != Wake ==>
              FramesFor(s, facingRight).Paired? && FramesFor(s, facingRight).side == FacingSide(facingRight)
    ensures s == Sleep || s == Wake ==> !FramesFor(s, facingRight).Paired?
  {
  }

  /** Transitions borrow sequences: ground-to-wall and wall-to-ground
      play the grab frames, ceiling-to-wall and wall-to-ceiling the swing
      frames, and the corner walk the walk frames. */
  lemma TransitionsBorrowFrames(side: Side, facingRight: bool)
    ensures FramesFor(Grab(side), facingRight) == FramesFor(Dismount(side), facingRight) == Paired(GrabGroup, side)
    ensures FramesFor(Swing(side), facingRight) == FramesFor(CeilingAttach(side), facingRight) == Paired(SwingGroup, side)
    ensures FramesFor(SleepWalkToCorner, facingRight) == FramesFor(Walk, facingRight)
  {
  }
}
