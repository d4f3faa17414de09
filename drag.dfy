/** The pointer protocol's pure part: how far a drag has lifted the pet,
    and the priority-ordered decision taken when the button is released
    (DesktopPet.java:376-471). */
module Drag {
  import opened Geometry
  import opened States

  /** (int)(SIZE * DRAG_SHORT_LIFT_RATIO): a lift below half the pet's
      height counts as short. */
  const ShortLift: int := 64
  /** CEILING_DETACH_TOLERANCE: how far below the top edge a pet dragged
      from the ceiling may be released and still snap back. */
  const CeilingDetachTolerance: int := 24

  /** Upward lift of the window relative to the y it had when pressed. */
  function Lift(pressY: int, y: int): (r: nat)
    ensures y < pressY ==> r == pressY - y
    ensures pressY <= y ==> r == 0
  {
    Max(0, pressY - y)
  }

  /** dragMaxLiftPx after one drag event. */
  function TrackMax(maxLift: nat, lift: nat): (r: nat)
    ensures r >= maxLift && r >= lift
    ensures r == maxLift || r == lift
  {
    if lift > maxLift then lift else maxLift
  }

  /** dragMaxLiftPx after a whole sequence of drag events at window ys. */
  function TrackAll(maxLift: nat, pressY: int, ys: seq<int>): nat
    decreases |ys|
  {
    if |ys| == 0 then maxLift
    else TrackAll(TrackMax(maxLift, Lift(pressY, ys[0])), pressY, ys[1..])
  }

  /** Over a drag the recorded lift never decreases and is exactly the
      largest lift seen: it bounds every lift and is either the starting
      value or one of them. */
  lemma {:induction false} TrackAllIsMaximum(maxLift: nat, pressY: int, ys: seq<int>)
    ensures TrackAll(maxLift, pressY, ys) >= maxLift
    ensures forall i :: 0 <= i < |ys| ==> TrackAll(maxLift, pressY, ys) >= Lift(pressY, ys[i])
    ensures TrackAll(maxLift, pressY, ys) == maxLift
            || exists i :: 0 <= i < |ys| && TrackAll(maxLift, pressY, ys) == Lift(pressY, ys[i])
    decreases |ys|
  {
    if |ys| > 0 {
      var m := TrackMax(maxLift, Lift(pressY, ys[0]));
      TrackAllIsMaximum(m, pressY, ys[1..]);
      var r := TrackAll(maxLift, pressY, ys);
      assert r == TrackAll(m, pressY, ys[1..]);
      forall i | 0 <= i < |ys|
        ensures r >= Lift(pressY, ys[i])
      {
        if i > 0 {
          assert ys[i] == ys[1..][i - 1];
        }
      }
      if r != maxLift {
        if r == m {
          assert r == Lift(pressY, ys[0]);
        } else {
          var j :| 0 <= j < |ys[1..]| && r == Lift(pressY, ys[1..][j]);
          assert ys[1..][j] == ys[j + 1];
        }
      }
    }
  }

  /** What the release of the pointer does. */
  datatype Release =
    | SoftDrop          // idle pose, slow descent to the floor
    | WakeByClick       // WAKE for 45 ticks
    | FallWakeRelease   // FALL_WAKE from above the floor
    | LandWakeDirect    // LAND_WAKE at the floor
    | BackToCeiling     // CEILING at the top edge
    | ShortLiftLand     // IDLE at the floor
    | DragFall          // FALL from above the floor
    | DragLand          // IDLE at the floor
    | Unchanged         // not dragging: nothing happens

  /** What the pet looked like when the button went down and when it
      came up. locY is the window's on-screen y (getY()); winY the logical
      y the handlers move. */
  datatype ReleaseInput = ReleaseInput(
    maxLift: nat, locY: int, winY: int, state: State,
    pressedDuringSleep: bool, draggedDuringSleep: bool,
    wasOnGround: bool, wasOnCeiling: bool)

  /** The release decision tree, in the source's order. */
  function ReleaseDecision(i: ReleaseInput, wa: WorkArea): Release
  {
    if i.maxLift < ShortLift && IsOnGround(i.locY, wa) then SoftDrop
    else if i.pressedDuringSleep then
      if !i.draggedDuringSleep then WakeByClick
      else if i.winY < wa.FloorY() then FallWakeRelease
      else LandWakeDirect
    else if i.state == Drag then
      if i.wasOnCeiling && i.locY - wa.TopY() <= CeilingDetachTolerance then BackToCeiling
      else if i.maxLift < ShortLift && i.wasOnGround then ShortLiftLand
      else if i.winY < wa.FloorY() then DragFall
      else DragLand
    else Unchanged
  }

  /** Each outcome happens exactly when its guard holds and no guard of
      higher priority does. */
  lemma ReleasePriority(i: ReleaseInput, wa: WorkArea)
    ensures var soft := i.maxLift < ShortLift && IsOnGround(i.locY, wa);
            var ceiling := i.wasOnCeiling && i.locY - wa.TopY() <= CeilingDetachTolerance;
            var short := i.maxLift < ShortLift && i.wasOnGround;
            && (ReleaseDecision(i, wa) == SoftDrop <==> soft)
            && (ReleaseDecision(i, wa) == WakeByClick <==> !soft && i.pressedDuringSleep && !i.draggedDuringSleep)
            && (ReleaseDecision(i, wa) == FallWakeRelease <==>
                  !soft && i.pressedDuringSleep && i.draggedDuringSleep && i.winY < wa.FloorY())
            && (ReleaseDecision(i, wa) == LandWakeDirect <==>
                  !soft && i.pressedDuringSleep && i.draggedDuringSleep && i.winY >= wa.FloorY())
            && (ReleaseDecision(i, wa) == BackToCeiling <==> !soft && !i.pressedDuringSleep && i.state == Drag && ceiling)
            && (ReleaseDecision(i, wa) == ShortLiftLand <==>
                  !soft && !i.pressedDuringSleep && i.state == Drag && !ceiling && short)
            && (ReleaseDecision(i, wa) == DragFall <==>
                  !soft && !i.pressedDuringSleep && i.state == Drag && !ceiling && !short && i.winY < wa.FloorY())
            && (ReleaseDecision(i, wa) == DragLand <==>
                  !soft && !i.pressedDuringSleep && i.state == Drag && !ceiling && !short && i.winY >= wa.FloorY())
            && (ReleaseDecision(i, wa) == Unchanged <==> !soft && !i.pressedDuringSleep && i.state != Drag)
  {
  }

  /** The short-lift check comes first: a click (no drag) on a pet that
      sleeps on the floor does not wake it but turns it into a soft drop. */
  lemma ClickOnSleepingPetSoftDrops(i: ReleaseInput, wa: WorkArea)
    requires i.pressedDuringSleep && !i.draggedDuringSleep
    requires i.maxLift == 0 && i.locY == wa.FloorY()
    ensures ReleaseDecision(i, wa) == SoftDrop
  {
  }

  /** A fall is only ever started from above the floor line. */
  lemma ReleaseFallsOnlyFromAbove(i: ReleaseInput, wa: WorkArea)
    ensures ReleaseDecision(i, wa) in {FallWakeRelease, DragFall} ==> i.winY < wa.FloorY()
  {
  }

  /** A short lift of a pet grabbed on the ground never makes it fall. */
  lemma ShortLiftFromGroundNeverFalls(i: ReleaseInput, wa: WorkArea)
    requires i.maxLift < ShortLift && i.wasOnGround
    ensures ReleaseDecision(i, wa) != DragFall
  {
  }
}
