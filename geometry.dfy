/** Work-area geometry shared by every handler of the pet: the rectangle the
    pet lives in, the four lines it snaps to, and the integer helpers that
    stand for java.lang.Math.max/min/abs. */
module Geometry {

  /** Edge length of the square pet window, in pixels (SIZE). */
  const Size: int := 128

  function Max(a: int, b: int): int { if a >= b then a else b }
  function Min(a: int, b: int): int { if a <= b then a else b }
  function Abs(a: int): nat { if a < 0 then -a else a }

  /** Which wall a wall-bound state belongs to. */
  datatype Side = Left | Right

  /** The usable screen rectangle (screen minus task bars), in screen
      coordinates; the pet window's top-left corner moves inside it. */
  datatype WorkArea = WorkArea(x: int, y: int, width: int, height: int)
  {
    /** The work area can hold the pet window. */
    predicate Fits() { width >= Size && height >= Size }

    /** Window y when the pet hangs from the top edge. */
    function TopY(): int { y }
    /** Window y when the pet stands on the bottom edge. */
    function FloorY(): int { y + height - Size }
    function LeftX(): int { x }
    function RightX(): int { x + width - Size }

    /** Window x when the pet clings to the given wall. */
    function WallX(side: Side): int { if side == Left then LeftX() else RightX() }
  }

  /** Math.max(lo, Math.min(v, hi)), the clamp the source writes inline. */
  function Clamp(v: int, lo: int, hi: int): (r: int)
    ensures r >= lo
    ensures lo <= hi ==> lo <= r <= hi
    ensures lo <= v <= hi ==> r == v
    ensures v < lo ==> r == lo
    ensures lo <= hi < v ==> r == hi
  {
    Max(lo, Min(v, hi))
  }

  /** isOnGround: the window is at the floor line, with one pixel of
      tolerance. */
  predicate IsOnGround(windowY: int, wa: WorkArea)
  {
    windowY >= wa.FloorY() - 1
  }

  /** Standing exactly on the floor or one pixel above it counts as on the
      ground, two pixels above does not, and the test is monotone in y. */
  lemma GroundTolerance(wa: WorkArea, y: int, y': int)
    ensures IsOnGround(wa.FloorY(), wa) && IsOnGround(wa.FloorY() - 1, wa)
    ensures !IsOnGround(wa.FloorY() - 2, wa)
    ensures y <= y' && IsOnGround(y, wa) ==> IsOnGround(y', wa)
  {
  }
}
