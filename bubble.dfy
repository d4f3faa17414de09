/** Placement of the reminder bubble next to the pet window
    (positionBubble, DesktopPet.java:1680-1712): four candidate spots tried
    in the order above, below, left, right, then a clamp into the work
    area. */
module Bubble {
  import opened Geometry

  const OffsetX: int := 0     // BUBBLE_OFFSET_X
  const OffsetY: int := 12    // BUBBLE_OFFSET_Y

  datatype Placement = Above | Below | LeftOf | RightOf

  /** The order in which the candidates are tried. */
  function Rank(p: Placement): nat
  {
    match p
    case Above => 0
    case Below => 1
    case LeftOf => 2
    case RightOf => 3
  }

  datatype Point = Point(x: int, y: int)

  /** Top-left corner of a bw x bh bubble at placement p next to a pet
      window whose top-left corner is (petX, petY). */
  function Candidate(p: Placement, petX: int, petY: int, bw: nat, bh: nat): Point
  {
    var centerX := petX + Size / 2;
    var centerY := petY + Size / 2;
    match p
    case Above => Point(centerX - bw / 2 + OffsetX, petY - bh - OffsetY)
    case Below => Point(centerX - bw / 2 + OffsetX, petY + Size + OffsetY)
    case LeftOf => Point(petX - bw - Max(2, OffsetX), centerY - bh / 2)
    case RightOf => Point(petX + Size + Max(2, OffsetX), centerY - bh / 2)
  }

  /** The one-sided test the source uses for each candidate: only the
      edge the bubble grows toward is checked. */
  predicate CandidateFits(p: Placement, petX: int, petY: int, bw: nat, bh: nat, wa: WorkArea)
  {
    var c := Candidate(p, petX, petY, bw, bh);
    match p
    case Above => c.y >= wa.y
    case Below => c.y + bh <= wa.y + wa.height
    case LeftOf => c.x >= wa.x
    case RightOf => c.x + bw <= wa.x + wa.width
  }

  /** The first fitting candidate, or Above when none fits. */
  function ChoosePlacement(petX: int, petY: int, bw: nat, bh: nat, wa: WorkArea): (r: Placement)
    ensures CandidateFits(r, petX, petY, bw, bh, wa)
            || (r == Above && forall q :: !CandidateFits(q, petX, petY, bw, bh, wa))
    ensures forall q :: Rank(q) < Rank(r) ==> !CandidateFits(q, petX, petY, bw, bh, wa)
  {
    if CandidateFits(Above, petX, petY, bw, bh, wa) then Above
    else if CandidateFits(Below, petX, petY, bw, bh, wa) then Below
    else if CandidateFits(LeftOf, petX, petY, bw, bh, wa) then LeftOf
    else if CandidateFits(RightOf, petX, petY, bw, bh, wa) then RightOf
    else Above
  }

  /** The bubble's final top-left corner: the chosen candidate clamped so
      that, when the bubble is no larger than the work area, it lies
      entirely inside; a candidate already inside is kept as it is. */
  function BubblePosition(petX: int, petY: int, bw: nat, bh: nat, wa: WorkArea): (r: Point)
    ensures wa.x <= r.x && wa.y <= r.y
    ensures bw <= wa.width ==> r.x + bw <= wa.x + wa.width
    ensures bh <= wa.height ==> r.y + bh <= wa.y + wa.height
    ensures var c := Candidate(ChoosePlacement(petX, petY, bw, bh, wa), petX, petY, bw, bh);
            wa.x <= c.x <= wa.x + wa.width - bw && wa.y <= c.y <= wa.y + wa.height - bh ==> r == c
  {
    var c := Candidate(ChoosePlacement(petX, petY, bw, bh, wa), petX, petY, bw, bh);
    Point(Clamp(c.x, wa.x, wa.x + wa.width - bw), Clamp(c.y, wa.y, wa.y + wa.height - bh))
  }
}
