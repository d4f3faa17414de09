/** Step formulas of the pet's movements: the grab/swing slide toward a
    wall, the corner walk of the sleep plan, the walk acceleration, the
    climb and ceiling step lengths, and the completion rules of the grab
    and swing transitions. */
module Motion {
  import opened Geometry

  const GrabSlide: int := 10          // GRAB_SLIDE
  const SwingSlide: int := 12         // SWING_SLIDE
  const CornerMaxStep: int := 10      // CORNER_APPROACH_MAX_STEP
  const WalkBase: int := 2            // WALK_BASE
  const WalkAccel: int := 1           // WALK_ACCEL
  const ClimbBase: int := 2           // CLIMB_BASE
  const MinSpeed: int := 1
  const MaxSpeed: int := 10

  /** (int)Math.ceil(d * 0.25) for a non-negative integer d. */
  function QuarterCeil(d: nat): (q: nat)
    ensures (d as real) * 0.25 <= q as real < (d as real) * 0.25 + 1.0
  {
    var q := (d + 3) / 4;
    assert 4 * q <= d + 3 < 4 * q + 4;
    q
  }

  /** One slide step toward targetX (DesktopPet.java:909-911, 959-961): the
      step is Math.max(1, Math.min(ceil(|dx| * 0.25), cap)), and nothing
      moves when already there. */
  function Approach(x: int, targetX: int, cap: int): (r: int)
    ensures x <= targetX ==> x <= r <= targetX
    ensures targetX <= x ==> targetX <= r <= x
    ensures x != targetX ==> Abs(targetX - r) < Abs(targetX - x)
    ensures 1 <= cap ==> Abs(r - x) <= cap
    ensures 1 <= cap && x != targetX ==> Abs(r - x) == Min(QuarterCeil(Abs(targetX - x)), cap)
  {
    var dx := targetX - x;
    var step := Max(1, Min(QuarterCeil(Abs(dx)), cap));
    x + (if dx < 0 then -step else if dx > 0 then step else 0)
  }

  /** Position after n slide steps. */
  function ApproachAfter(x: int, targetX: int, cap: int, n: nat): int
    decreases n
  {
    if n == 0 then x else ApproachAfter(Approach(x, targetX, cap), targetX, cap, n - 1)
  }

  /** The slide never overshoots and reaches the wall after at most |dx|
      steps, staying there afterwards. */
  lemma {:induction false} ApproachArrives(x: int, targetX: int, cap: int, n: nat)
    ensures x <= targetX ==> x <= ApproachAfter(x, targetX, cap, n) <= targetX
    ensures targetX <= x ==> targetX <= ApproachAfter(x, targetX, cap, n) <= x
    ensures n >= Abs(targetX - x) ==> ApproachAfter(x, targetX, cap, n) == targetX
    decreases n
  {
    if n > 0 {
      ApproachArrives(Approach(x, targetX, cap), targetX, cap, n - 1);
    }
  }

  /** One corner-walk step (DesktopPet.java:671-676): Math.min(10, |dx|)
      toward the chosen corner. */
  function CornerStep(x: int, targetX: int): (r: int)
    ensures x <= targetX ==> x <= r <= targetX
    ensures targetX <= x ==> targetX <= r <= x
    ensures Abs(targetX - r) == Max(0, Abs(targetX - x) - CornerMaxStep)
  {
    var dx := targetX - x;
    if dx != 0 then
      var step := Min(CornerMaxStep, Abs(dx));
      x + (if dx > 0 then step else -step)
    else x
  }

  /** Position after n corner-walk steps. */
  function CornerAfter(x: int, targetX: int, n: nat): int
    decreases n
  {
    if n == 0 then x else CornerAfter(CornerStep(x, targetX), targetX, n - 1)
  }

  /** The corner walk closes 10 px per tick and arrives after exactly
      ceil(|dx| / 10) ticks. */
  lemma {:induction false} CornerWalkDistance(x: int, targetX: int, n: nat)
    ensures Abs(targetX - CornerAfter(x, targetX, n)) == Max(0, Abs(targetX - x) - CornerMaxStep * n)
    ensures CornerAfter(x, targetX, n) == targetX <==> n >= (Abs(targetX - x) + CornerMaxStep - 1) / CornerMaxStep
    decreases n
  {
    if n > 0 {
      CornerWalkDistance(CornerStep(x, targetX), targetX, n - 1);
    }
  }

  /** setSpeed: Math.max(1, Math.min(10, s)). */
  function ClampSpeed(s: int): (r: int)
    ensures MinSpeed <= r <= MaxSpeed
    ensures MinSpeed <= s <= MaxSpeed ==> r == s
    ensures s < MinSpeed ==> r == MinSpeed
    ensures s > MaxSpeed ==> r == MaxSpeed
  {
    Max(MinSpeed, Min(MaxSpeed, s))
  }

  /** Walking speed target: Math.max(1, WALK_BASE * Math.max(1, speed)). */
  function WalkTargetSpeed(speed: int): (r: int)
    ensures r >= WalkBase
    ensures speed >= 1 ==> r == WalkBase * speed
    ensures speed <= 1 ==> r == WalkBase
  {
    Max(1, WalkBase * Max(1, speed))
  }

  /** Climb step: Math.max(1, speed * CLIMB_BASE). */
  function ClimbStep(speed: int): (r: int)
    ensures r >= 1
    ensures speed >= 1 ==> r == ClimbBase * speed
  {
    Max(1, speed * ClimbBase)
  }

  /** Ceiling step: Math.max(1, Math.max(1, speed) * 2). */
  function CeilingStep(speed: int): (r: int)
    ensures r >= 2
    ensures speed >= 1 ==> r == 2 * speed
  {
    Max(1, Max(1, speed) * 2)
  }

  /** One acceleration step of walkVx toward walkTarget
      (DesktopPet.java:807-808). */
  function Accelerate(v: int, target: int): (r: int)
    ensures Abs(r - v) <= WalkAccel
    ensures v <= target ==> v <= r <= target
    ensures target <= v ==> target <= r <= v
    ensures Abs(target - r) == Max(0, Abs(target - v) - WalkAccel)
  {
    var v1 := if v < target then Min(v + WalkAccel, target) else v;
    if v1 > target then Max(v1 - WalkAccel, target) else v1
  }

  /** Walk speed after n ticks toward a fixed target. */
  function AccelerateAfter(v: int, target: int, n: nat): int
    decreases n
  {
    if n == 0 then v else AccelerateAfter(Accelerate(v, target), target, n - 1)
  }

  /** The walk speed reaches its target after |target - v| ticks and never
      overshoots it. */
  lemma {:induction false} AccelerateReaches(v: int, target: int, n: nat)
    ensures Abs(target - AccelerateAfter(v, target, n)) == Max(0, Abs(target - v) - n)
    ensures v <= target ==> v <= AccelerateAfter(v, target, n) <= target
    ensures target <= v ==> target <= AccelerateAfter(v, target, n) <= v
    decreases n
  {
    if n > 0 {
      AccelerateReaches(Accelerate(v, target), target, n - 1);
    }
  }

  /** GRAB_* hands over to CLIMB_* when its countdown is over and it is at
      the wall, or as soon as its frames are used up (DesktopPet.java:920). */
  predicate GrabComplete(ticks: int, atWall: bool, frameIndex: int, frames: nat)
  {
    (ticks <= 0 && atWall) || frameIndex >= frames
  }

  /** SWING_* needs its countdown over in every case (DesktopPet.java:972). */
  predicate SwingComplete(ticks: int, atWall: bool, frameIndex: int, frames: nat)
  {
    ticks <= 0 && (atWall || frameIndex >= frames)
  }

  /** The swing rule is the stricter one: they differ exactly when the
      frames are used up while the countdown still runs. */
  lemma SwingStricterThanGrab(ticks: int, atWall: bool, frameIndex: int, frames: nat)
    ensures SwingComplete(ticks, atWall, frameIndex, frames) ==> GrabComplete(ticks, atWall, frameIndex, frames)
    ensures GrabComplete(ticks, atWall, frameIndex, frames) && !SwingComplete(ticks, atWall, frameIndex, frames)
            <==> ticks > 0 && frameIndex >= frames
  {
  }
}
