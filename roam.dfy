/** The random choices of the roam AI. java.util.Random is not modelled:
    each draw is a raw natural number supplied by the caller, and
    nextInt(bound) is that number reduced modulo bound. */
module Roam {

  const CooldownMin: int := 90      // ROAM_COOLDOWN_MIN
  const CooldownMax: int := 270     // ROAM_COOLDOWN_MAX
  const WalkMin: int := 90          // ROAM_WALK_MIN
  const WalkMax: int := 240         // ROAM_WALK_MAX
  const IdleMin: int := 45          // ROAM_IDLE_MIN
  const IdleMax: int := 150         // ROAM_IDLE_MAX
  const PauseMin: int := 30         // ROAM_PAUSE_MIN
  const PauseMax: int := 120        // ROAM_PAUSE_MAX
  const ClimbMin: int := 210        // ROAM_CLIMB_MIN
  const ClimbMax: int := 300        // ROAM_CLIMB_MAX
  const WallHangMin: int := 180     // WALL_HANG_MIN
  const CeilingHangMin: int := 210  // CEILING_HANG_MIN

  /** rng.nextInt(bound), given the raw draw. */
  function NextInt(bound: int, raw: nat): (r: int)
    requires bound > 0
    ensures 0 <= r < bound
    ensures raw < bound ==> r == raw
  {
    raw % bound
  }

  /** rng.nextBoolean(), given the raw draw. */
  function NextBool(raw: nat): bool
  {
    raw % 2 == 1
  }

  /** rand(a, b) = a + rng.nextInt(b - a + 1) (DesktopPet.java:1313). */
  function Rand(a: int, b: int, raw: nat): (r: int)
    requires a <= b
    ensures a <= r <= b
  {
    a + NextInt(b - a + 1, raw)
  }

  /** Every value of [a, b] is drawn by some raw number, and both truth
      values by some coin. */
  lemma RandCovers(a: int, b: int, v: int)
    requires a <= v <= b
    ensures exists raw: nat :: Rand(a, b, raw) == v
    ensures NextBool(0) != NextBool(1)
  {
    var raw: nat := v - a;
    assert Rand(a, b, raw) == v;
  }

  /** The four idle decisions (DesktopPet.java:1234-1250). */
  datatype IdleDecision = StartWalk | StayIdle | ClimbLeft | ClimbRight

  /** Decision for r = rng.nextInt(100). */
  function IdleChoice(r: int): IdleDecision
  {
    if r < 55 then StartWalk
    else if r < 75 then StayIdle
    else if r < 88 then ClimbLeft
    else ClimbRight
  }

  /** How many of the draws 0 .. n-1 lead to decision d. */
  function ChoiceCount(d: IdleDecision, n: nat): (c: nat)
    ensures c <= n
  {
    if n == 0 then 0
    else ChoiceCount(d, n - 1) + (if IdleChoice(n - 1) == d then 1 else 0)
  }

  /** Counting the ranges of IdleChoice over the first n draws. */
  lemma {:induction false} ChoiceCountRanges(d: IdleDecision, n: nat)
    requires n <= 100
    ensures d == StartWalk ==> ChoiceCount(d, n) == Clip(n, 0, 55)
    ensures d == StayIdle ==> ChoiceCount(d, n) == Clip(n, 55, 75)
    ensures d == ClimbLeft ==> ChoiceCount(d, n) == Clip(n, 75, 88)
    ensures d == ClimbRight ==> ChoiceCount(d, n) == Clip(n, 88, 100)
  {
    if n > 0 {
      ChoiceCountRanges(d, n - 1);
    }
  }

  /** Number of integers of [lo, hi) below n. */
  function Clip(n: nat, lo: nat, hi: nat): nat
    requires lo <= hi
  {
    if n <= lo then 0 else if n >= hi then hi - lo else n - lo
  }

  /** Over a uniform nextInt(100) the idle AI walks, stays idle, climbs
      left and climbs right with weights 55, 20, 13 and 12 percent. */
  lemma IdleDecisionWeights()
    ensures ChoiceCount(StartWalk, 100) == 55
    ensures ChoiceCount(StayIdle, 100) == 20
    ensures ChoiceCount(ClimbLeft, 100) == 13
    ensures ChoiceCount(ClimbRight, 100) == 12
  {
    ChoiceCountRanges(StartWalk, 100);
    ChoiceCountRanges(StayIdle, 100);
    ChoiceCountRanges(ClimbLeft, 100);
    ChoiceCountRanges(ClimbRight, 100);
  }
}
