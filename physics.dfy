/** The physics solver: gravity with a terminal speed, the single bounce
    of a fall episode, and the gentle "soft drop" used after a short lift. */
module Physics {
  import opened Geometry

  const Gravity: int := 2                 // GRAVITY
  const MaxFallSpeed: int := 24           // MAX_FALL_SPEED
  const BounceRestitution: real := 0.3    // BOUNCE_RESTITUTION
  const BounceMinSpeed: int := 1          // BOUNCE_MIN_SPEED
  const SoftDropMaxSpeed: int := 2        // cap of softDropVy

  /** yVel = Math.min(MAX_FALL_SPEED, yVel + GRAVITY). */
  function ApplyGravity(v: int): (r: int)
    ensures r <= MaxFallSpeed
    ensures r <= v + Gravity
    ensures r == MaxFallSpeed || r == v + Gravity
    ensures v <= MaxFallSpeed ==> v <= r
  {
    Min(MaxFallSpeed, v + Gravity)
  }

  /** Math.round(a * BOUNCE_RESTITUTION) for a non-negative integer a:
      the nearest integer to 0.3 * a, halves rounded up. */
  function RoundRestitution(a: nat): (q: nat)
    ensures (q as real) - 0.5 <= BounceRestitution * (a as real) < (q as real) + 0.5
  {
    var q := (3 * a + 5) / 10;
    assert 10 * q <= 3 * a + 5 < 10 * q + 10;
    q
  }

  /** The upward speed after a bounce: Math.max(1, Math.round(|pre| * 0.3)). */
  function BounceSpeed(preImpact: int): (r: int)
    ensures r >= 1
    ensures Abs(preImpact) > BounceMinSpeed ==> r == RoundRestitution(Abs(preImpact))
    ensures Abs(preImpact) > BounceMinSpeed ==> r < Abs(preImpact)
    ensures Abs(preImpact) <= MaxFallSpeed ==> r <= 7
  {
    Max(1, RoundRestitution(Abs(preImpact)))
  }

  /** The vertical part of the pet while FALL or FALL_WAKE runs: window
      y, vertical speed, and whether this fall episode has bounced. */
  datatype Body = Body(y: int, v: int, bounced: bool)

  /** What one airborne tick does (DesktopPet.java:848-867). */
  datatype Impact = Airborne | Bounce | Touchdown

  function ImpactOf(b: Body, floorY: int): (i: Impact)
    ensures i == Bounce ==> !b.bounced
  {
    if b.y + ApplyGravity(b.v) < floorY then Airborne
    else if !b.bounced && Abs(b.v) > BounceMinSpeed then Bounce
    else Touchdown
  }

  /** One airborne tick: gravity, move, then on floor contact either the
      episode's single bounce or a touchdown that ends the episode. The
      new y is kept even below the floor line. */
  function FallStep(b: Body, floorY: int): (r: Body)
    ensures r.v <= MaxFallSpeed
    ensures r.y == b.y + ApplyGravity(b.v)
    ensures ImpactOf(b, floorY) == Airborne ==> r == Body(r.y, ApplyGravity(b.v), b.bounced)
    ensures ImpactOf(b, floorY) == Bounce ==> r.bounced && r.v == -BounceSpeed(b.v)
    ensures ImpactOf(b, floorY) == Touchdown ==> !r.bounced && r.v == 0
  {
    var v := ApplyGravity(b.v);
    var y := b.y + v;
    match ImpactOf(b, floorY)
    case Airborne => Body(y, v, b.bounced)
    case Bounce => Body(y, -BounceSpeed(b.v), true)
    case Touchdown => Body(y, 0, false)
  }

  /** Number of bounces during at most n ticks of one fall episode, which
      ends at the first touchdown. */
  function BouncesBeforeTouchdown(b: Body, floorY: int, n: nat): nat
    decreases n
  {
    if n == 0 then 0
    else match ImpactOf(b, floorY)
      case Touchdown => 0
      case Bounce => 1 + BouncesBeforeTouchdown(FallStep(b, floorY), floorY, n - 1)
      case Airborne => BouncesBeforeTouchdown(FallStep(b, floorY), floorY, n - 1)
  }

  /** A fall episode bounces at most once, and not at all once it has. */
  lemma {:induction false} AtMostOneBounce(b: Body, floorY: int, n: nat)
    ensures BouncesBeforeTouchdown(b, floorY, n) <= (if b.bounced then 0 else 1)
    decreases n
  {
    if n > 0 {
      match ImpactOf(b, floorY)
      case Touchdown =>
      case Bounce =>
        AtMostOneBounce(FallStep(b, floorY), floorY, n - 1);
      case Airborne =>
        AtMostOneBounce(FallStep(b, floorY), floorY, n - 1);
    }
  }

  /** The bounce starts from wherever the impact tick left the window; a
      fast impact therefore touches down on the next tick without ever
      rising above the floor. A fall that starts below the floor line
      bounces from deeper still: from 48 px below it, 52 px below. */
  lemma BounceFromBelowFloor()
    ensures var floorY := 0;
            var b0 := Body(-1, 22, false);
            var b1 := FallStep(b0, floorY);
            var b2 := FallStep(b1, floorY);
            && ImpactOf(b0, floorY) == Bounce && b1 == Body(23, -7, true)
            && ImpactOf(b1, floorY) == Touchdown && b2 == Body(18, 0, false)
    ensures var spawn := Body(48, 2, false);
            ImpactOf(spawn, 0) == Bounce && FallStep(spawn, 0) == Body(52, -1, true)
  {
    assert BounceSpeed(2) == 1 by {
      assert RoundRestitution(2) == 1;
    }
  }

  /** The first fall from the spawn point, 48 px below the top edge at
      2 px/tick: in a work area at most 176 px tall that point lies on or
      below the floor line, and the fall bounces at once, 180 - height px
      below the line. This exceeds the 23 px of a fall from above the line
      only in work areas under 157 px tall. */
  lemma SpawnBounce(wa: WorkArea)
    requires wa.height <= 176
    ensures var spawn := Body(wa.TopY() + 48, 2, false);
            && ImpactOf(spawn, wa.FloorY()) == Bounce
            && FallStep(spawn, wa.FloorY()) == Body(wa.FloorY() + 180 - wa.height, -1, true)
  {
    assert BounceSpeed(2) == 1 by {
      assert RoundRestitution(2) == 1;
    }
  }

  /** A bounce leaves the window on or below the floor line, where the
      impact tick put it; for a fall that starts above the floor line that
      is at most 23 px below it. */
  lemma BounceDepth(b: Body, floorY: int)
    requires ImpactOf(b, floorY) == Bounce
    ensures floorY <= FallStep(b, floorY).y
    ensures b.y < floorY ==> FallStep(b, floorY).y <= floorY + MaxFallSpeed - 1
  {
  }

  /** One soft-drop tick (DesktopPet.java:765-771): the idle-pose descent
      speeds up by Math.max(1, GRAVITY / 2) to at most 2 px per tick and
      never passes the floor line. */
  function SoftDropStep(y: int, vy: int, floorY: int): (r: (int, int))
    requires y < floorY
    ensures r.0 <= floorY && r.1 <= SoftDropMaxSpeed
    ensures r.0 - y <= r.1
    ensures 0 <= vy ==> 1 <= r.1 && y < r.0
  {
    var vy' := Min(SoftDropMaxSpeed, vy + Max(1, Gravity / 2));
    (Min(floorY, y + vy'), vy')
  }

  /** Ticks a soft drop from y takes to reach the floor line. */
  function SoftDropTicks(y: int, vy: int, floorY: int): (n: nat)
    requires 0 <= vy
    ensures y >= floorY ==> n == 0
    ensures y < floorY ==> 1 <= n <= floorY - y
    decreases floorY - y
  {
    if y >= floorY then 0
    else
      var r := SoftDropStep(y, vy, floorY);
      1 + SoftDropTicks(r.0, r.1, floorY)
  }

  /** Position after n soft-drop ticks (the drop stops at the floor). */
  function SoftDropAfter(y: int, vy: int, floorY: int, n: nat): int
    requires 0 <= vy
    decreases n
  {
    if n == 0 || y >= floorY then y
    else
      var r := SoftDropStep(y, vy, floorY);
      SoftDropAfter(r.0, r.1, floorY, n - 1)
  }

  /** A soft drop from above the floor never passes the floor line and
      lands exactly on it after SoftDropTicks ticks. */
  lemma {:induction false} SoftDropLandsOnFloor(y: int, vy: int, floorY: int, n: nat)
    requires 0 <= vy && y <= floorY
    ensures y <= SoftDropAfter(y, vy, floorY, n) <= floorY
    ensures n >= SoftDropTicks(y, vy, floorY) ==> SoftDropAfter(y, vy, floorY, n) == floorY
    decreases n
  {
    if n > 0 && y < floorY {
      var r := SoftDropStep(y, vy, floorY);
      SoftDropLandsOnFloor(r.0, r.1, floorY, n - 1);
    }
  }
}
