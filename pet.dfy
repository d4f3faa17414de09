/** The pet itself: every field the behaviour engine updates, the tick
    dispatcher, the roam AI, the pointer protocol, the commands of the
    control panel and the reminder acknowledgement. The clock, the work
    area, the sensors and java.util.Random are parameters: one Sensors
    record and one Draws record per tick. */
module Pet {
  import opened Geometry
  import opened States
  import opened Physics
  import opened Motion
  import opened Roam
  import opened Drag
  import opened Reminder

  const LandHold: nat := 16           // LAND_HOLD_TICKS
  const LandWakeHold: nat := 24       // LAND_WAKE_HOLD_TICKS
  const WakeShow: nat := 45           // wake-by-click animation length
  const YawnMin: nat := 45            // YAWN_MIN_TICKS
  const GrabMin: nat := 36            // GRAB_MIN_TICKS
  const SwingMin: nat := 60           // SWING_MIN_TICKS
  const AttachMin: nat := 60          // CEIL_ATTACH_MIN_TICKS
  const DismountMin: nat := 30        // DISMOUNT_MIN_TICKS
  const SurfaceLatch: nat := 20       // surface latch after any surface change
  const ResumeGapMs: int := 30000     // RESUME_GAP_MS
  const MouseIdleMs: int := 300000    // MOUSE_IDLE_MS
  const SpawnMargin: int := 48        // spawn offset from the top-left corner

  /** Lengths of the sprite sequences whose exhaustion ends a transition. */
  datatype SpriteCounts = SpriteCounts(grabLeft: nat, grabRight: nat, swingLeft: nat, swingRight: nat)
  {
    function GrabFrames(side: Side): nat { if side == Left then grabLeft else grabRight }
    function SwingFrames(side: Side): nat { if side == Left then swingLeft else swingRight }
  }

  /** What the environment says at one tick: the clock, the work area,
      whether the foreground window is full screen, whether an audio probe
      exists and whether it hears sound. */
  datatype Sensors = Sensors(nowMs: int, workArea: WorkArea, foregroundFullscreen: bool,
                             audioProbeAvailable: bool, audioLoud: bool)

  /** The raw random numbers one tick may consume, one per call site. */
  datatype Draws = Draws(teleportX: nat, corner: nat, decision: nat, coin: nat, actionLen: nat,
                         cooldown: nat, pauseRoll: nat, flipRoll: nat, pauseLen: nat, dropRoll: nat)

  /** frameIndex++ on every period-th tick. */
  function Advance(frameIndex: nat, tick: nat, period: nat): nat
    requires period > 0
  {
    if tick % period == 0 then frameIndex + 1 else frameIndex
  }

  /** The state startClimbLeft/Right leads to. */
  function ClimbStartState(s: State, y: int, floorY: int, side: Side): State
  {
    if s == Ceiling then Swing(side)
    else if y < floorY && s != Fall then Fall
    else WalkToEdge(side)
  }

  /** The state an idle decision of the roam AI leads to. */
  function IdleDecisionState(d: IdleDecision, y: int, floorY: int): State
  {
    match d
    case StartWalk => Walk
    case StayIdle => Idle
    case ClimbLeft => ClimbStartState(Idle, y, floorY, Left)
    case ClimbRight => ClimbStartState(Idle, y, floorY, Right)
  }

  /** The AI's idle decision: on the floor every decision keeps the pet on
      the ground, and in the air a climb decision first makes it fall. */
  lemma IdleDecisionOutcomes(d: IdleDecision, y: int, floorY: int)
    ensures y >= floorY ==> IdleDecisionState(d, y, floorY) in {Walk, Idle, WalkToEdge(Left), WalkToEdge(Right)}
    ensures y < floorY && (d == ClimbLeft || d == ClimbRight) ==> IdleDecisionState(d, y, floorY) == Fall
    ensures IdleDecisionState(d, y, floorY) != Fall ==> !IdleDecisionState(d, y, floorY).LeftAloneByAi()
  {
  }

  class DesktopPet {
    // —— pet state ——
    var state: State
    var mode: Mode
    var facingRight: bool
    /** The logical position the handlers move. */
    var winX: int
    var winY: int
    /** Where the window is shown on screen (getX/getY); the handlers do
        not always move it together with winX/winY. */
    var locX: int
    var locY: int
    var xVel: int
    var yVel: int
    var speed: int
    var walkVx: int
    var walkTarget: int
    var climbDirY: int
    var frameIndex: nat
    var tick: nat
    // —— countdowns decremented before the test (--t <= 0) ——
    var landTicks: int
    var landWakeTicks: int
    var wakeShowTicks: int
    var attachTicks: int
    var dismountTicks: int
    var yawnTicks: int
    // —— countdowns decremented only while positive ——
    var grabTicks: nat
    var swingTicks: nat
    var surfaceLatchTicks: nat
    // —— landing ——
    var hasBounced: bool
    var softDropActive: bool
    var softDropVy: int
    var afterLand: AfterLand
    // —— drag session ——
    var dragPressWindowY: int
    var dragMaxLiftPx: nat
    var wasOnGroundAtPress: bool
    var wasOnCeilingAtPress: bool
    var stateAtPress: State
    var pressedDuringSleep: bool
    var draggedDuringSleep: bool
    var dragOffsetX: int
    var dragOffsetY: int
    // —— roam AI ——
    var aiCooldown: nat
    var aiActionTicks: nat
    var wallPauseTicks: nat
    var ceilingPauseTicks: nat
    var wallHangTicks: nat
    var ceilingHangTicks: nat
    var aiSuppressTicks: nat
    // —— sleep plan and clocks ——
    var idleSleepPlanActive: bool
    var idleTargetX: int
    var idleCornerRight: bool
    var lastRealMs: int
    var lastMouseMoveMs: int
    var lastUserActionTimeMs: int
    // —— health reminder ——
    var activeUseTicks: nat
    var reminderEnabled: bool
    var nextRemind: RemindKind
    var waitingClick: bool
    var detectFullscreen: bool
    var detectAudio: bool
    var bubbleVisible: bool
    var lastBubbleCloseMs: int
    // —— loaded resources ——
    const sprites: SpriteCounts
    const standIconOk: bool
    const sitIconOk: bool

    /** The fall speed never exceeds the terminal speed in either
        direction. */
    static predicate FallBound(yVel: int)
    {
      -MaxFallSpeed <= yVel <= MaxFallSpeed
    }

    /** The speed setting stays in 1..10. */
    static predicate SpeedBound(speed: int)
    {
      MinSpeed <= speed <= MaxSpeed
    }

    /** Walking speeds stay within the fastest walk. */
    static predicate WalkBound(walkTarget: int, walkVx: int)
    {
      Abs(walkTarget) <= WalkBase * MaxSpeed && Abs(walkVx) <= WalkBase * MaxSpeed
    }

    /** The climbing direction is up (-1) or down (+1). */
    static predicate ClimbBound(climbDirY: int)
    {
      climbDirY == -1 || climbDirY == 1
    }

    /** The soft drop speed stays in 0..2. */
    static predicate SoftDropBound(softDropVy: int)
    {
      0 <= softDropVy <= SoftDropMaxSpeed
    }

    /** The reminder counter obeys Cycle.Valid, and a bubble is only
        shown while a reminder waits. */
    static predicate ReminderBound(activeUseTicks: nat, waitingClick: bool, bubbleVisible: bool)
    {
      Cycle(activeUseTicks, waitingClick).Valid() && (bubbleVisible ==> waitingClick)
    }

    /** Every bound at once. Each operation below keeps the bounds on the
        fields it changes; the others hold because their fields are not in
        its modifies clause. */
    ghost predicate Valid()
      reads this`yVel, this`speed, this`walkTarget, this`walkVx, this`climbDirY, this`softDropVy,
            this`activeUseTicks, this`waitingClick, this`bubbleVisible
    {
      FallBound(yVel) && SpeedBound(speed) && WalkBound(walkTarget, walkVx) && ClimbBound(climbDirY) && SoftDropBound(softDropVy) && ReminderBound(activeUseTicks, waitingClick, bubbleVisible)
    }

    /** Whether the reminder icon of the given kind could be loaded. */
    function IconOk(k: RemindKind): bool
    {
      if k == Stand then standIconOk else sitIconOk
    }

    /** The pet spawns near the top-left corner and starts falling
        (DesktopPet.java:283-309). */
    constructor (wa: WorkArea, nowMs: int, sprites: SpriteCounts, standIconOk: bool, sitIconOk: bool)
      ensures Valid()
      ensures state == Fall && !hasBounced && yVel == 2 && frameIndex == 0 && tick == 0
      ensures winX == locX == wa.x + SpawnMargin && winY == locY == wa.y + SpawnMargin
      ensures mode == Roam && facingRight && speed == 2 && aiCooldown == 45 && afterLand == NoPlan
      ensures activeUseTicks == 0 && !waitingClick && nextRemind == Stand && !bubbleVisible
      ensures reminderEnabled && detectFullscreen && detectAudio
      ensures lastRealMs == lastMouseMoveMs == lastUserActionTimeMs == nowMs
      ensures this.sprites == sprites && this.standIconOk == standIconOk && this.sitIconOk == sitIconOk
      ensures xVel == 3 && walkVx == 0 && walkTarget == 0 && climbDirY == -1
      ensures landTicks == 0 && landWakeTicks == 0 && wakeShowTicks == 0
      ensures attachTicks == 0 && dismountTicks == 0 && yawnTicks == 0
      ensures grabTicks == 0 && swingTicks == 0 && surfaceLatchTicks == 0
      ensures !softDropActive && softDropVy == 0
      ensures dragPressWindowY == 0 && dragMaxLiftPx == 0 && !wasOnGroundAtPress && !wasOnCeilingAtPress
      ensures stateAtPress == Idle && !pressedDuringSleep && !draggedDuringSleep
      ensures dragOffsetX == 0 && dragOffsetY == 0
      ensures aiActionTicks == 0 && wallPauseTicks == 0 && ceilingPauseTicks == 0
      ensures wallHangTicks == 0 && ceilingHangTicks == 0 && aiSuppressTicks == 0
      ensures !idleSleepPlanActive && idleTargetX == 0 && !idleCornerRight && lastBubbleCloseMs == 0
    {
      this.sprites := sprites;
      this.standIconOk := standIconOk;
      this.sitIconOk := sitIconOk;
      mode := Roam;
      facingRight := true;
      xVel := 3;
      speed := 2;
      walkVx, walkTarget := 0, 0;
      climbDirY := -1;
      tick := 0;
      landTicks, landWakeTicks, wakeShowTicks := 0, 0, 0;
      attachTicks, dismountTicks, yawnTicks := 0, 0, 0;
      grabTicks, swingTicks, surfaceLatchTicks := 0, 0, 0;
      softDropActive, softDropVy := false, 0;
      afterLand := NoPlan;
      dragPressWindowY, dragMaxLiftPx := 0, 0;
      wasOnGroundAtPress, wasOnCeilingAtPress := false, false;
      stateAtPress := Idle;
      pressedDuringSleep, draggedDuringSleep := false, false;
      dragOffsetX, dragOffsetY := 0, 0;
      aiCooldown, aiActionTicks := 45, 0;
      wallPauseTicks, ceilingPauseTicks, wallHangTicks, ceilingHangTicks := 0, 0, 0, 0;
      aiSuppressTicks := 0;
      idleSleepPlanActive, idleTargetX, idleCornerRight := false, 0, false;
      lastRealMs, lastMouseMoveMs, lastUserActionTimeMs := nowMs, nowMs, nowMs;
      activeUseTicks := 0;
      reminderEnabled := true;
      nextRemind := Stand;
      waitingClick := false;
      detectFullscreen, detectAudio := true, true;
      bubbleVisible := false;
      lastBubbleCloseMs := 0;
      winX := wa.x + SpawnMargin;
      winY := wa.y + SpawnMargin;
      locX, locY := winX, winY;
      state := Fall;
      hasBounced := false;
      yVel := 2;
      frameIndex := 0;
    }

    // ===================== small steps shared by the handlers =====================

    /** winX = x; winY = y; setLocation(winX, winY). */
    method MoveTo(x: int, y: int)
      modifies this`winX, this`winY, this`locX, this`locY
      ensures winX == locX == x && winY == locY == y
    {
      winX, winY := x, y;
      locX, locY := x, y;
    }

    /** setLocation(x, y) alone. */
    method ShowAt(x: int, y: int)
      modifies this`locX, this`locY
      ensures locX == x && locY == y
    {
      locX, locY := x, y;
    }

    /** state = s; frameIndex = 0. */
    method EnterState(s: State)
      modifies this`state, this`frameIndex
      ensures state == s && frameIndex == 0
    {
      state := s;
      frameIndex := 0;
    }

    /** state = FALL; hasBounced = false; yVel = 0; frameIndex = 0. */
    method BeginFall()
      modifies this`state, this`hasBounced, this`yVel, this`frameIndex
      ensures FallBound(yVel)
      ensures state == Fall && !hasBounced && yVel == 0 && frameIndex == 0
    {
      state := Fall;
      hasBounced := false;
      yVel := 0;
      frameIndex := 0;
    }

    /** surfaceLatchTicks = 20; yVel = 0: set on every change of surface. */
    method Latch()
      modifies this`surfaceLatchTicks, this`yVel
      ensures FallBound(yVel) && surfaceLatchTicks == SurfaceLatch && yVel == 0
    {
      surfaceLatchTicks := SurfaceLatch;
      yVel := 0;
    }

    // ===================== global input listeners =====================

    /** A mouse event anywhere on screen (DesktopPet.java:478-489, 525-540). */
    method NoteMouseActivity(nowMs: int)
      modifies this`lastMouseMoveMs, this`lastUserActionTimeMs
      ensures lastMouseMoveMs == nowMs && lastUserActionTimeMs == nowMs
    {
      lastMouseMoveMs := nowMs;
      lastUserActionTimeMs := nowMs;
    }

    /** A key event anywhere on screen (DesktopPet.java:525-540). */
    method NoteKeyActivity(nowMs: int)
      modifies this`lastUserActionTimeMs
      ensures lastUserActionTimeMs == nowMs
    {
      lastUserActionTimeMs := nowMs;
    }

    // ===================== one tick =====================

    /** onTick (DesktopPet.java:572-1164): reminder accrual, tick counter
        and surface latch, resume teleport, mouse-idle sleep plan, the
        state's handler, then the roam AI. */
    method OnTick(s: Sensors, d: Draws)
      requires Valid()
      modifies this
      ensures Valid()
      ensures tick == old(tick) + 1
      ensures Cycle(activeUseTicks, waitingClick)
              == Accrue(old(Cycle(activeUseTicks, waitingClick)), old(reminderEnabled),
                        SensedActive(s.nowMs - old(lastUserActionTimeMs), old(detectFullscreen),
                                     s.foregroundFullscreen, old(detectAudio),
                                     s.audioProbeAvailable, s.audioLoud))
      ensures bubbleVisible == (old(bubbleVisible) || (waitingClick && !old(waitingClick) && IconOk(nextRemind)))
      ensures lastRealMs == s.nowMs
    {
      BeginTick(s, d);
      Behave(s.workArea, d);
    }

    /** The part of onTick before the state's handler
        (DesktopPet.java:573-638). */
    method BeginTick(s: Sensors, d: Draws)
      requires ReminderBound(activeUseTicks, waitingClick, bubbleVisible) && FallBound(yVel)
      modifies this`activeUseTicks, this`waitingClick, this`bubbleVisible, this`tick,
               this`surfaceLatchTicks, this`winX, this`winY, this`locX, this`locY, this`state,
               this`frameIndex, this`idleSleepPlanActive, this`lastRealMs, this`idleCornerRight,
               this`idleTargetX, this`hasBounced, this`yVel, this`afterLand, this`lastMouseMoveMs
      ensures ReminderBound(activeUseTicks, waitingClick, bubbleVisible) && FallBound(yVel)
      ensures tick == old(tick) + 1 && surfaceLatchTicks == Max(0, old(surfaceLatchTicks) - 1)
      ensures Cycle(activeUseTicks, waitingClick)
              == Accrue(old(Cycle(activeUseTicks, waitingClick)), reminderEnabled,
                        SensedActive(s.nowMs - lastUserActionTimeMs, detectFullscreen,
                                     s.foregroundFullscreen, detectAudio,
                                     s.audioProbeAvailable, s.audioLoud))
      ensures bubbleVisible == (old(bubbleVisible) || (waitingClick && !old(waitingClick) && IconOk(nextRemind)))
      ensures lastRealMs == s.nowMs
    {
      CountTick(s);
      WakeChecks(s, d);
    }

    /** Reminder accrual, the tick counter and the surface latch
        (DesktopPet.java:573-611). */
    method CountTick(s: Sensors)
      requires ReminderBound(activeUseTicks, waitingClick, bubbleVisible)
      modifies this`activeUseTicks, this`waitingClick, this`bubbleVisible, this`tick, this`surfaceLatchTicks
      ensures ReminderBound(activeUseTicks, waitingClick, bubbleVisible)
      ensures tick == old(tick) + 1 && surfaceLatchTicks == Max(0, old(surfaceLatchTicks) - 1)
      ensures Cycle(activeUseTicks, waitingClick)
              == Accrue(old(Cycle(activeUseTicks, waitingClick)), reminderEnabled,
                        SensedActive(s.nowMs - lastUserActionTimeMs, detectFullscreen,
                                     s.foregroundFullscreen, detectAudio,
                                     s.audioProbeAvailable, s.audioLoud))
      ensures bubbleVisible == (old(bubbleVisible) || (waitingClick && !old(waitingClick) && IconOk(nextRemind)))
    {
      AccrueReminder(s);
      tick := tick + 1;
      if surfaceLatchTicks > 0 {
        surfaceLatchTicks := surfaceLatchTicks - 1;
      }
    }

    /** The resume teleport and the mouse-idle trigger of the sleep plan
        (DesktopPet.java:614-638). */
    method WakeChecks(s: Sensors, d: Draws)
      requires FallBound(yVel)
      modifies this`winX, this`winY, this`locX, this`locY, this`state, this`frameIndex, this`idleSleepPlanActive,
               this`lastRealMs, this`idleCornerRight, this`idleTargetX, this`hasBounced, this`yVel, this`afterLand,
               this`lastMouseMoveMs
      ensures FallBound(yVel) && lastRealMs == s.nowMs
    {
      ResumeCheck(s.nowMs, s.workArea, d.teleportX);
      MouseIdleCheck(s.nowMs, s.workArea, d.corner);
    }

    /** The state's handler, then the roam AI (DesktopPet.java:640-1164). */
    method Behave(wa: WorkArea, d: Draws)
      requires FallBound(yVel) && SoftDropBound(softDropVy) && WalkBound(walkTarget, walkVx) && SpeedBound(speed)
      requires ClimbBound(climbDirY)
      modifies this`winX, this`winY, this`locX, this`locY, this`frameIndex, this`wakeShowTicks, this`state,
               this`facingRight, this`yawnTicks, this`idleSleepPlanActive, this`landWakeTicks,
               this`softDropVy, this`softDropActive, this`yVel, this`hasBounced, this`walkTarget,
               this`walkVx, this`wallHangTicks, this`ceilingHangTicks, this`grabTicks,
               this`surfaceLatchTicks, this`landTicks, this`afterLand, this`climbDirY,
               this`swingTicks, this`wallPauseTicks, this`attachTicks, this`dismountTicks,
               this`ceilingPauseTicks, this`aiSuppressTicks, this`aiCooldown, this`aiActionTicks,
               this`xVel
      ensures FallBound(yVel) && SoftDropBound(softDropVy) && WalkBound(walkTarget, walkVx) && ClimbBound(climbDirY)
    {
      StepState(wa);
      AiTick(wa, d);
    }

    /** The reminder part of onTick (DesktopPet.java:573-597). */
    method AccrueReminder(s: Sensors)
      requires ReminderBound(activeUseTicks, waitingClick, bubbleVisible)
      modifies this`activeUseTicks, this`waitingClick, this`bubbleVisible
      ensures ReminderBound(activeUseTicks, waitingClick, bubbleVisible)
      ensures var active := SensedActive(s.nowMs - lastUserActionTimeMs, detectFullscreen,
                                         s.foregroundFullscreen, detectAudio,
                                         s.audioProbeAvailable, s.audioLoud);
              Cycle(activeUseTicks, waitingClick) == Accrue(old(Cycle(activeUseTicks, waitingClick)), reminderEnabled, active)
      ensures bubbleVisible == (old(bubbleVisible) || (waitingClick && !old(waitingClick) && IconOk(nextRemind)))
    {
      var userActive := SensedActive(s.nowMs - lastUserActionTimeMs, detectFullscreen,
                                     s.foregroundFullscreen, detectAudio,
                                     s.audioProbeAvailable, s.audioLoud);
      if reminderEnabled && !waitingClick {
        if userActive {
          if activeUseTicks < RemindTicks {
            activeUseTicks := activeUseTicks + 1;
          }
          if activeUseTicks >= RemindTicks {
            ShowBubbleFor(nextRemind);
            waitingClick := true;
          }
        }
      }
    }

    /** showBubbleFor (DesktopPet.java:1167-1181): without an icon nothing
        is shown, yet the caller still waits for a click. */
    method ShowBubbleFor(kind: RemindKind)
      modifies this`bubbleVisible
      ensures bubbleVisible == (old(bubbleVisible) || IconOk(kind))
    {
      if IconOk(kind) {
        bubbleVisible := true;
      }
    }

    /** The suspend/resume teleport (DesktopPet.java:614-628): after a gap
        of more than 30 s the pet reappears asleep at a random x on the
        floor. */
    method ResumeCheck(nowMs: int, wa: WorkArea, raw: nat)
      modifies this`winX, this`winY, this`locX, this`locY, this`state, this`frameIndex,
               this`idleSleepPlanActive, this`lastRealMs
      ensures lastRealMs == nowMs
      ensures var teleport := nowMs - old(lastRealMs) > ResumeGapMs && old(state) != Sleep;
              && (teleport ==> state == Sleep && frameIndex == 0 && !idleSleepPlanActive
                               && winY == locY == wa.FloorY() && locX == winX
                               && wa.LeftX() <= winX
                               && (wa.LeftX() <= wa.RightX() ==> winX <= wa.RightX()))
              && (!teleport ==> state == old(state) && winX == old(winX) && winY == old(winY)
                                && locX == old(locX) && locY == old(locY) && frameIndex == old(frameIndex)
                                && idleSleepPlanActive == old(idleSleepPlanActive))
    {
      var gap := nowMs - lastRealMs;
      lastRealMs := nowMs;
      if gap > ResumeGapMs && state != Sleep {
        var left, right := wa.LeftX(), wa.RightX();
        MoveTo(left + NextInt(Max(1, right - left + 1), raw), wa.FloorY());
        EnterState(Sleep);
        idleSleepPlanActive := false;
      }
    }

    /** The mouse-idle trigger of the sleep plan (DesktopPet.java:630-638):
        five minutes without a mouse event outside the sleep cycle. */
    method MouseIdleCheck(nowMs: int, wa: WorkArea, raw: nat)
      requires FallBound(yVel)
      modifies this`idleCornerRight, this`idleTargetX, this`idleSleepPlanActive, this`state,
               this`hasBounced, this`yVel, this`frameIndex, this`afterLand, this`lastMouseMoveMs
      ensures FallBound(yVel)
      ensures var trigger := !old(state).InSleepCycle() && nowMs - old(lastMouseMoveMs) >= MouseIdleMs;
              && (trigger ==> lastMouseMoveMs == nowMs && PlannedSleep(wa, raw))
              && (!trigger ==> lastMouseMoveMs == old(lastMouseMoveMs)
                               && unchanged(this`idleCornerRight, this`idleTargetX, this`idleSleepPlanActive,
                                            this`state, this`hasBounced, this`yVel, this`frameIndex, this`afterLand))
    {
      if !state.InSleepCycle() {
        if nowMs - lastMouseMoveMs >= MouseIdleMs {
          StartIdleSleepPlan(wa, raw);
          lastMouseMoveMs := nowMs;
        }
      }
    }

    /** The switch on the state (DesktopPet.java:640-1158), in three
        groups: the sleep cycle, the ground and air states, and the
        wall and ceiling states. */
    method StepState(wa: WorkArea)
      requires FallBound(yVel) && SoftDropBound(softDropVy) && WalkBound(walkTarget, walkVx) && SpeedBound(speed) && ClimbBound(climbDirY)
      modifies this`winX, this`winY, this`locX, this`locY, this`frameIndex, this`wakeShowTicks,
               this`state, this`facingRight, this`yawnTicks, this`idleSleepPlanActive,
               this`landWakeTicks, this`softDropVy, this`softDropActive, this`yVel, this`hasBounced,
               this`walkTarget, this`walkVx, this`wallHangTicks, this`ceilingHangTicks,
               this`grabTicks, this`surfaceLatchTicks, this`landTicks, this`afterLand,
               this`climbDirY, this`swingTicks, this`wallPauseTicks, this`attachTicks,
               this`dismountTicks, this`ceilingPauseTicks
      ensures FallBound(yVel) && SoftDropBound(softDropVy) && WalkBound(walkTarget, walkVx) && ClimbBound(climbDirY)
    {
      if SleepGroup(state) {
        StepSleepCycle(wa);
      } else if WallGroup(state) {
        StepWall(wa);
      } else {
        StepGround(wa);
      }
    }

    /** The states handled by StepSleepCycle. */
    static predicate SleepGroup(s: State)
    {
      s == Sleep || s == Wake || s == SleepWalkToCorner || s == Yawn || s == DragWake || s == LandWake
    }

    /** The states handled by StepWall. */
    static predicate WallGroup(s: State)
    {
      s.Grab? || s.Swing? || s.Climb? || s.CeilingAttach? || s.Dismount? || s == Ceiling
    }

    /** The sleep-cycle cases. None of them moves the pet sideways except
        the walk to the corner, and each stays within the sleep cycle or
        the sleep plan or ends in IDLE. */
    method StepSleepCycle(wa: WorkArea)
      requires SleepGroup(state)
      modifies this`winX, this`winY, this`locX, this`locY, this`frameIndex, this`wakeShowTicks,
               this`state, this`facingRight, this`yawnTicks, this`idleSleepPlanActive,
               this`landWakeTicks
      ensures old(state) != SleepWalkToCorner ==> winX == old(winX)
      ensures state.InSleepCycle() || state.InSleepPlan() || state == Idle
      ensures old(state) == Sleep ==> SleepStepped(wa)
      ensures old(state) == Wake ==> WakeStepped(wa)
      ensures old(state) == SleepWalkToCorner ==> CornerStepped(wa)
      ensures old(state) == Yawn ==> YawnStepped(wa)
      ensures old(state) == DragWake ==> DragWakeStepped()
      ensures old(state) == LandWake ==> LandWakeStepped()
    {
      match state
      case Sleep => SleepTick(wa);
      case Wake => WakeTick(wa);
      case SleepWalkToCorner => CornerWalkTick(wa);
      case Yawn => YawnTick(wa);
      case DragWake => DragWakeTick();
      case LandWake => LandWakeTick();
      case _ => assert false;
    }

    /** The ground and air cases. */
    method StepGround(wa: WorkArea)
      requires FallBound(yVel) && SoftDropBound(softDropVy) && WalkBound(walkTarget, walkVx) && SpeedBound(speed)
      requires !SleepGroup(state) && !WallGroup(state)
      modifies this`softDropVy, this`winY, this`locX, this`locY, this`softDropActive, this`yVel,
               this`state, this`hasBounced, this`frameIndex, this`winX, this`walkTarget,
               this`walkVx, this`wallHangTicks, this`ceilingHangTicks, this`facingRight,
               this`grabTicks, this`surfaceLatchTicks, this`landTicks, this`landWakeTicks,
               this`afterLand
      ensures FallBound(yVel) && SoftDropBound(softDropVy) && WalkBound(walkTarget, walkVx)
    {
      match state
      case Idle => IdleTick(wa);
      case Walk => WalkTick(wa);
      case WalkToEdge(_) => WalkTick(wa);
      case Drag => DragTick();
      case Fall => AirTick(wa);
      case FallWake => AirTick(wa);
      case Land => LandTick();
      case _ => assert false;
    }

    /** The wall and ceiling cases. */
    method StepWall(wa: WorkArea)
      requires FallBound(yVel) && ClimbBound(climbDirY)
      requires WallGroup(state)
      modifies this`winX, this`winY, this`locX, this`locY, this`frameIndex, this`grabTicks,
               this`climbDirY, this`state, this`surfaceLatchTicks, this`yVel, this`swingTicks,
               this`wallPauseTicks, this`attachTicks, this`dismountTicks, this`wallHangTicks,
               this`facingRight, this`ceilingPauseTicks, this`ceilingHangTicks
      ensures FallBound(yVel) && ClimbBound(climbDirY)
    {
      match state
      case Grab(side) => GrabTick(wa, side);
      case Swing(side) => SwingTick(wa, side);
      case Climb(side) => ClimbTick(wa, side);
      case CeilingAttach(side) => AttachTick(wa, side);
      case Dismount(side) => DismountTick(wa, side);
      case Ceiling => CeilingTick(wa);
      case _ => assert false;
    }

    // ===================== sleep cycle =====================

    /** What one SLEEP tick leaves behind: the pet held on the floor, the
        animation advanced every 6 ticks, and nothing else of the sleep
        cycle touched. */
    twostate predicate SleepStepped(wa: WorkArea)
      reads this
    {
      && state == Sleep
      && winX == locX == old(winX) && winY == locY == wa.FloorY()
      && frameIndex == Advance(old(frameIndex), tick, 6)
      && unchanged(this`wakeShowTicks, this`facingRight, this`yawnTicks, this`idleSleepPlanActive,
                   this`landWakeTicks)
    }

    /** SLEEP (DesktopPet.java:642-649): held on the floor; it never ends
        by itself. */
    method SleepTick(wa: WorkArea)
      requires state == Sleep
      modifies this`winX, this`winY, this`locX, this`locY, this`frameIndex
      ensures SleepStepped(wa)
    {
      MoveTo(winX, wa.FloorY());
      frameIndex := Advance(frameIndex, tick, 6);
    }

    /** What one WAKE tick leaves behind: held on the floor, one tick
        less to show, and IDLE once the countdown is over. */
    twostate predicate WakeStepped(wa: WorkArea)
      reads this
    {
      && winX == locX == old(winX) && winY == locY == wa.FloorY()
      && wakeShowTicks == old(wakeShowTicks) - 1
      && (wakeShowTicks <= 0 ==> state == Idle && frameIndex == 0)
      && (wakeShowTicks > 0 ==> state == Wake && frameIndex == Advance(old(frameIndex), tick, 5))
      && unchanged(this`facingRight, this`yawnTicks, this`idleSleepPlanActive, this`landWakeTicks)
    }

    /** WAKE (DesktopPet.java:652-659): held on the floor until the
        countdown ends in IDLE. */
    method WakeTick(wa: WorkArea)
      requires state == Wake
      modifies this`winX, this`winY, this`locX, this`locY, this`frameIndex, this`wakeShowTicks, this`state
      ensures WakeStepped(wa)
    {
      MoveTo(winX, wa.FloorY());
      frameIndex := Advance(frameIndex, tick, 5);
      wakeShowTicks := wakeShowTicks - 1;
      if wakeShowTicks <= 0 {
        EnterState(Idle);
      }
    }

    /** What one corner-walk tick leaves behind: one CornerStep along the
        floor, facing the way it went, and YAWN at a bound or the target. */
    twostate predicate CornerStepped(wa: WorkArea)
      reads this
    {
      && winX == locX == CornerStep(old(winX), idleTargetX) && winY == locY == wa.FloorY()
      && (old(winX) != idleTargetX ==> facingRight == (old(winX) < idleTargetX))
      && (old(winX) == idleTargetX ==> facingRight == old(facingRight))
      && (var arrived := winX == wa.LeftX() || winX == wa.RightX() || winX == idleTargetX;
          && (arrived ==> state == Yawn && frameIndex == 0 && yawnTicks == YawnMin)
          && (!arrived ==> state == SleepWalkToCorner && yawnTicks == old(yawnTicks)
                           && frameIndex == Advance(old(frameIndex), tick, 4)))
      && unchanged(this`wakeShowTicks, this`idleSleepPlanActive, this`landWakeTicks)
    }

    /** SLEEP_WALK_TO_CORNER (DesktopPet.java:662-689): walk along the floor
        toward the chosen corner without grabbing the wall, then yawn. */
    method CornerWalkTick(wa: WorkArea)
      requires state == SleepWalkToCorner
      modifies this`winX, this`winY, this`locX, this`locY, this`facingRight, this`frameIndex,
               this`state, this`yawnTicks
      ensures CornerStepped(wa)
    {
      var left, right := wa.LeftX(), wa.RightX();
      var x := winX;
      var dx := idleTargetX - x;
      if dx != 0 {
        var step := Min(CornerMaxStep, Abs(dx));
        x := x + (if dx > 0 then step else -step);
        facingRight := dx > 0;
      }
      MoveTo(x, wa.FloorY());
      frameIndex := Advance(frameIndex, tick, 4);
      if winX == left || winX == right || Abs(idleTargetX - winX) <= 0 {
        EnterState(Yawn);
        yawnTicks := YawnMin;
      }
    }

    /** What one YAWN tick leaves behind: held on the floor, one tick less,
        and SLEEP with the plan over once the countdown is over. */
    twostate predicate YawnStepped(wa: WorkArea)
      reads this
    {
      && winX == locX == old(winX) && winY == locY == wa.FloorY()
      && yawnTicks == old(yawnTicks) - 1
      && (yawnTicks <= 0 ==> state == Sleep && frameIndex == 0 && !idleSleepPlanActive)
      && (yawnTicks > 0 ==> state == Yawn && frameIndex == Advance(old(frameIndex), tick, 5)
                            && idleSleepPlanActive == old(idleSleepPlanActive))
      && unchanged(this`wakeShowTicks, this`facingRight, this`landWakeTicks)
    }

    /** YAWN (DesktopPet.java:692-704): on the floor until the countdown
        ends in SLEEP, which also ends the sleep plan. */
    method YawnTick(wa: WorkArea)
      requires state == Yawn
      modifies this`winX, this`winY, this`locX, this`locY, this`frameIndex, this`yawnTicks, this`state,
               this`idleSleepPlanActive
      ensures YawnStepped(wa)
    {
      MoveTo(winX, wa.FloorY());
      frameIndex := Advance(frameIndex, tick, 5);
      yawnTicks := yawnTicks - 1;
      if yawnTicks <= 0 {
        EnterState(Sleep);
        idleSleepPlanActive := false;
      }
    }

    /** What one DRAG_WAKE tick leaves behind: only the animation moves. */
    twostate predicate DragWakeStepped()
      reads this
    {
      && frameIndex == Advance(old(frameIndex), tick, 6)
      && unchanged(this`winX, this`winY, this`locX, this`locY, this`wakeShowTicks, this`state,
                   this`facingRight, this`yawnTicks, this`idleSleepPlanActive, this`landWakeTicks)
    }

    /** DRAG_WAKE (DesktopPet.java:707-710): only the animation runs. */
    method DragWakeTick()
      requires state == DragWake
      modifies this`frameIndex
      ensures DragWakeStepped()
    {
      frameIndex := Advance(frameIndex, tick, 6);
    }

    /** What one LAND_WAKE tick leaves behind: one tick less, IDLE once the
        countdown is over, and the pet left where it is. */
    twostate predicate LandWakeStepped()
      reads this
    {
      && landWakeTicks == old(landWakeTicks) - 1
      && (landWakeTicks <= 0 ==> state == Idle && frameIndex == 0)
      && (landWakeTicks > 0 ==> state == LandWake && frameIndex == Advance(old(frameIndex), tick, 5))
      && unchanged(this`winX, this`winY, this`locX, this`locY, this`wakeShowTicks, this`facingRight,
                   this`yawnTicks, this`idleSleepPlanActive)
    }

    /** LAND_WAKE (DesktopPet.java:749-756): countdown, then IDLE. */
    method LandWakeTick()
      requires state == LandWake
      modifies this`frameIndex, this`landWakeTicks, this`state
      ensures LandWakeStepped()
    {
      frameIndex := Advance(frameIndex, tick, 5);
      landWakeTicks := landWakeTicks - 1;
      if landWakeTicks <= 0 {
        EnterState(Idle);
      }
    }

    // ===================== airborne =====================

    /** FALL and FALL_WAKE (DesktopPet.java:713-746, 844-876): one step of
        FallStep. On touchdown the window is shown at the floor while winY
        keeps the position below it and x is not clamped; otherwise x is
        clamped and the window shown at (winX, winY). */
    method AirTick(wa: WorkArea)
      requires FallBound(yVel) && (state == Fall || state == FallWake)
      modifies this`yVel, this`winY, this`winX, this`locX, this`locY, this`hasBounced, this`state,
               this`frameIndex, this`landTicks, this`landWakeTicks
      ensures FallBound(yVel)
      ensures var next := FallStep(Body(old(winY), old(yVel), old(hasBounced)), wa.FloorY());
              winY == next.y && yVel == next.v && hasBounced == next.bounced
      ensures var impact := ImpactOf(Body(old(winY), old(yVel), old(hasBounced)), wa.FloorY());
              && (impact == Touchdown ==>
                    && state == (if old(state) == Fall then Land else LandWake) && frameIndex == 0
                    && winX == locX == old(winX) && locY == wa.FloorY()
                    && landTicks == (if old(state) == Fall then LandHold else old(landTicks))
                    && landWakeTicks == (if old(state) == FallWake then LandWakeHold else old(landWakeTicks)))
              && (impact != Touchdown ==>
                    && state == old(state) && winX == Clamp(old(winX), wa.LeftX(), wa.RightX())
                    && locX == winX && locY == winY
                    && frameIndex == Advance(old(frameIndex), tick, 3)
                    && landTicks == old(landTicks) && landWakeTicks == old(landWakeTicks))
    {
      var floorY := wa.FloorY();
      var preImpactYVel := yVel;
      yVel := Min(MaxFallSpeed, yVel + Gravity);
      winY := winY + yVel;
      if winY >= floorY {
        if !hasBounced && Abs(preImpactYVel) > BounceMinSpeed {
          yVel := -BounceSpeed(preImpactYVel);
          hasBounced := true;
        } else {
          ShowAt(winX, floorY);
          yVel := 0;
          hasBounced := false;
          EndFall();
          return;
        }
      }
      MoveTo(Max(wa.LeftX(), Min(winX, wa.RightX())), winY);
      frameIndex := Advance(frameIndex, tick, 3);
    }

    /** The end of a fall: FALL lands, FALL_WAKE lands awake. */
    method EndFall()
      requires state == Fall || state == FallWake
      modifies this`state, this`frameIndex, this`landTicks, this`landWakeTicks
      ensures state == (if old(state) == Fall then Land else LandWake) && frameIndex == 0
      ensures landTicks == (if old(state) == Fall then LandHold else old(landTicks))
      ensures landWakeTicks == (if old(state) == FallWake then LandWakeHold else old(landWakeTicks))
    {
      if state == Fall {
        EnterState(Land);
        landTicks := LandHold;
      } else {
        EnterState(LandWake);
        landWakeTicks := LandWakeHold;
      }
    }

    /** LAND (DesktopPet.java:878-900): countdown, then the plan left in
        afterLand, which is consumed. */
    method LandTick()
      requires state == Land
      modifies this`frameIndex, this`landTicks, this`state, this`afterLand
      ensures landTicks == old(landTicks) - 1
      ensures landTicks > 0 ==> state == Land && afterLand == old(afterLand)
                                && frameIndex == Advance(old(frameIndex), tick, 5)
      ensures landTicks <= 0 ==> frameIndex == 0 && afterLand == NoPlan
                                 && state == match old(afterLand)
                                             case NoPlan => Idle
                                             case WalkToClimb(side) => WalkToEdge(side)
                                             case SleepPlanWalkToCorner => SleepWalkToCorner
    {
      frameIndex := Advance(frameIndex, tick, 5);
      landTicks := landTicks - 1;
      if landTicks <= 0 {
        match afterLand
        case SleepPlanWalkToCorner =>
          afterLand := NoPlan;
          EnterState(SleepWalkToCorner);
        case WalkToClimb(side) =>
          EnterState(WalkToEdge(side));
          afterLand := NoPlan;
        case NoPlan =>
          EnterState(Idle);
      }
    }

    // ===================== ground =====================

    /** IDLE (DesktopPet.java:759-796): a soft drop in progress takes the
        whole tick; otherwise a pet above the floor falls once the surface
        latch is over, and a pet on the floor is held there with x
        clamped. */
    method IdleTick(wa: WorkArea)
      requires FallBound(yVel) && SoftDropBound(softDropVy) && WalkBound(walkTarget, walkVx) && state == Idle
      modifies this`softDropVy, this`winY, this`locX, this`locY, this`softDropActive, this`yVel,
               this`state, this`hasBounced, this`frameIndex, this`winX, this`walkTarget, this`walkVx,
               this`wallHangTicks, this`ceilingHangTicks
      ensures FallBound(yVel) && SoftDropBound(softDropVy) && WalkBound(walkTarget, walkVx)
      ensures old(softDropActive) ==>
                SoftDropped(wa)
                && unchanged(this`state, this`hasBounced, this`frameIndex, this`winX, this`walkTarget,
                             this`walkVx, this`wallHangTicks, this`ceilingHangTicks)
      ensures !old(softDropActive) && old(winY) < wa.FloorY() && surfaceLatchTicks == 0 ==>
                state == Fall && !hasBounced && yVel == 0 && frameIndex == 0
                && unchanged(this`winX, this`winY, this`locX, this`locY, this`softDropActive, this`softDropVy,
                             this`walkTarget, this`walkVx, this`wallHangTicks, this`ceilingHangTicks)
      ensures !old(softDropActive) && (old(winY) >= wa.FloorY() || surfaceLatchTicks > 0) ==>
                && state == Idle && winX == locX == Clamp(old(winX), wa.LeftX(), wa.RightX())
                && winY == locY == wa.FloorY() && walkTarget == 0 && walkVx == 0
                && wallHangTicks == 0 && ceilingHangTicks == 0
                && frameIndex == Advance(old(frameIndex), tick, 8)
                && unchanged(this`softDropActive, this`softDropVy, this`yVel, this`hasBounced)
    {
      if softDropActive {
        SoftDropTick(wa);
        return;
      }
      var floorY := wa.FloorY();
      if winY < floorY && surfaceLatchTicks == 0 {
        BeginFall();
        return;
      }
      MoveTo(Max(wa.LeftX(), Min(winX, wa.RightX())), floorY);
      walkTarget, walkVx := 0, 0;
      frameIndex := Advance(frameIndex, tick, 8);
      wallHangTicks, ceilingHangTicks := 0, 0;
    }

    /** What one soft-drop tick leaves behind: one SoftDropStep from above
        the floor, shown where it is; the drop is still on exactly while
        the pet is above the floor, and ends with both speeds zeroed. */
    twostate predicate SoftDropped(wa: WorkArea)
      reads this
    {
      && locX == winX && locY == winY
      && (old(winY) < wa.FloorY() ==> winY == SoftDropStep(old(winY), old(softDropVy), wa.FloorY()).0)
      && (old(winY) >= wa.FloorY() ==> winY == wa.FloorY())
      && (softDropActive <==> winY < wa.FloorY())
      && (softDropActive ==> old(winY) < wa.FloorY()
                             && softDropVy == SoftDropStep(old(winY), old(softDropVy), wa.FloorY()).1
                             && yVel == old(yVel))
      && (!softDropActive ==> softDropVy == 0 && yVel == 0)
    }

    /** The soft drop of IDLE (DesktopPet.java:761-783): one SoftDropStep
        while above the floor; reaching the floor ends the drop. */
    method SoftDropTick(wa: WorkArea)
      requires FallBound(yVel) && SoftDropBound(softDropVy) && state == Idle && softDropActive
      modifies this`softDropVy, this`winY, this`locX, this`locY, this`softDropActive, this`yVel
      ensures FallBound(yVel) && SoftDropBound(softDropVy)
      ensures SoftDropped(wa)
    {
      var floorY := wa.FloorY();
      if winY < floorY {
        var g := Max(1, Gravity / 2);
        softDropVy := Min(SoftDropMaxSpeed, softDropVy + g);
        winY := Min(floorY, winY + softDropVy);
        ShowAt(winX, winY);
      }
      if winY >= floorY {
        winY := floorY;
        ShowAt(winX, winY);
        softDropActive := false;
        softDropVy := 0;
        yVel := 0;
      }
    }

    /** WALK, WALK_TO_LEFT, WALK_TO_RIGHT (DesktopPet.java:798-836): above
        the floor a walker falls once the surface latch is over; otherwise
        it aims, accelerates one step toward its target speed and strides. */
    method WalkTick(wa: WorkArea)
      requires FallBound(yVel) && WalkBound(walkTarget, walkVx) && SpeedBound(speed) && state.Walking()
      modifies this`state, this`hasBounced, this`yVel, this`frameIndex, this`facingRight, this`walkTarget,
               this`walkVx, this`winX, this`winY, this`locX, this`locY, this`grabTicks,
               this`surfaceLatchTicks, this`wallHangTicks, this`ceilingHangTicks
      ensures FallBound(yVel) && WalkBound(walkTarget, walkVx)
      ensures old(winY) < wa.FloorY() - 1 && old(surfaceLatchTicks) == 0 ==>
                state == Fall && !hasBounced && yVel == 0 && frameIndex == 0
                && unchanged(this`winX, this`winY, this`locX, this`locY, this`facingRight, this`walkTarget,
                             this`walkVx, this`grabTicks, this`surfaceLatchTicks, this`wallHangTicks,
                             this`ceilingHangTicks)
      ensures !(old(winY) < wa.FloorY() - 1 && old(surfaceLatchTicks) == 0) ==>
                && hasBounced == old(hasBounced)
                && (old(state) == WalkToEdge(Left) ==> !facingRight && walkTarget == -WalkTargetSpeed(speed))
                && (old(state) == WalkToEdge(Right) ==> facingRight && walkTarget == WalkTargetSpeed(speed))
                && (old(state) == Walk ==>
                      facingRight == old(facingRight)
                      && walkTarget == (if old(walkTarget) != 0 then old(walkTarget)
                                        else if facingRight then WalkTargetSpeed(speed) else -WalkTargetSpeed(speed)))
                && walkVx == Accelerate(old(walkVx), walkTarget)
                && Strode(old(winX), old(state), old(frameIndex), wa)
    {
      var floorY := wa.FloorY();
      if winY < floorY - 1 && surfaceLatchTicks == 0 {
        BeginFall();
        return;
      }
      AimWalk();
      AccelerateWalk();
      Stride(wa);
    }

    /** walkVx moves one step toward walkTarget. */
    method AccelerateWalk()
      requires WalkBound(walkTarget, walkVx)
      modifies this`walkVx
      ensures WalkBound(walkTarget, walkVx) && walkVx == Accelerate(old(walkVx), walkTarget)
    {
      if walkVx < walkTarget {
        walkVx := Min(walkVx + WalkAccel, walkTarget);
      }
      if walkVx > walkTarget {
        walkVx := Max(walkVx - WalkAccel, walkTarget);
      }
    }

    /** Facing and target speed of a walker: toward the named edge, or the
        current facing when the walk has no target yet. */
    method AimWalk()
      requires SpeedBound(speed) && WalkBound(walkTarget, walkVx) && state.Walking()
      modifies this`facingRight, this`walkTarget
      ensures WalkBound(walkTarget, walkVx)
      ensures state == WalkToEdge(Left) ==> !facingRight && walkTarget == -WalkTargetSpeed(speed)
      ensures state == WalkToEdge(Right) ==> facingRight && walkTarget == WalkTargetSpeed(speed)
      ensures state == Walk ==>
                facingRight == old(facingRight)
                && walkTarget == (if old(walkTarget) != 0 then old(walkTarget)
                                  else if facingRight then WalkTargetSpeed(speed) else -WalkTargetSpeed(speed))
    {
      var base := Max(1, WalkBase * Max(1, speed));
      if state == WalkToEdge(Left) {
        facingRight := false;
        walkTarget := -base;
      } else if state == WalkToEdge(Right) {
        facingRight := true;
        walkTarget := base;
      } else if walkTarget == 0 {
        walkTarget := if facingRight then base else -base;
      }
    }

    /** What one stride of walkVx from x0 leads to: at or past a bound of
        the work area the walker grabs that wall, otherwise it walks on
        along the floor. */
    twostate predicate Strode(x0: int, s0: State, fi0: nat, wa: WorkArea)
      reads this
    {
      var x := x0 + walkVx;
      && winY == locY == wa.FloorY() && locX == winX
      && (x <= wa.LeftX() ==>
            winX == wa.LeftX() && state == Grab(Left) && frameIndex == 0 && grabTicks == GrabMin
            && surfaceLatchTicks == SurfaceLatch && yVel == 0
            && unchanged(this`wallHangTicks, this`ceilingHangTicks))
      && (wa.LeftX() < x && x >= wa.RightX() ==>
            winX == wa.RightX() && state == Grab(Right) && frameIndex == 0 && grabTicks == GrabMin
            && surfaceLatchTicks == SurfaceLatch && yVel == 0
            && unchanged(this`wallHangTicks, this`ceilingHangTicks))
      && (wa.LeftX() < x < wa.RightX() ==>
            winX == x && state == s0 && frameIndex == Advance(fi0, tick, 4)
            && wallHangTicks == 0 && ceilingHangTicks == 0
            && unchanged(this`grabTicks, this`surfaceLatchTicks, this`yVel))
    }

    /** winX += walkVx, then the edge test (DesktopPet.java:813-835). */
    method Stride(wa: WorkArea)
      requires FallBound(yVel)
      modifies this`winX, this`winY, this`locX, this`locY, this`state, this`frameIndex, this`grabTicks,
               this`surfaceLatchTicks, this`yVel, this`wallHangTicks, this`ceilingHangTicks
      ensures FallBound(yVel)
      ensures Strode(old(winX), old(state), old(frameIndex), wa)
    {
      var floorY := wa.FloorY();
      var x := winX + walkVx;
      var left, right := wa.LeftX(), wa.RightX();
      if x <= left {
        MoveTo(left, floorY);
        EnterState(Grab(Left));
        grabTicks := GrabMin;
        Latch();
      } else if x >= right {
        MoveTo(right, floorY);
        EnterState(Grab(Right));
        grabTicks := GrabMin;
        Latch();
      } else {
        MoveTo(x, floorY);
        frameIndex := Advance(frameIndex, tick, 4);
        wallHangTicks, ceilingHangTicks := 0, 0;
      }
    }

    /** DRAG (DesktopPet.java:838-842): only the animation runs; the hang
        counters reset. */
    method DragTick()
      requires state == Drag
      modifies this`frameIndex, this`wallHangTicks, this`ceilingHangTicks
      ensures frameIndex == Advance(old(frameIndex), tick, 6) && wallHangTicks == 0 && ceilingHangTicks == 0
    {
      frameIndex := Advance(frameIndex, tick, 6);
      wallHangTicks, ceilingHangTicks := 0, 0;
    }

    // ===================== transitions and walls =====================

    /** GRAB_LEFT/RIGHT (DesktopPet.java:903-950): slide toward the wall
        along the floor and hand over to an upward climb. */
    method GrabTick(wa: WorkArea, side: Side)
      requires FallBound(yVel) && ClimbBound(climbDirY) && state == Grab(side)
      modifies this`winX, this`winY, this`locX, this`locY, this`frameIndex, this`grabTicks,
               this`climbDirY, this`state, this`surfaceLatchTicks, this`yVel
      ensures FallBound(yVel) && ClimbBound(climbDirY)
      ensures winX == locX == Approach(old(winX), wa.WallX(side), GrabSlide)
      ensures winY == locY == wa.FloorY()
      ensures grabTicks == Max(0, old(grabTicks) - 1)
      ensures var fi := Advance(old(frameIndex), tick, 5);
              if GrabComplete(grabTicks, winX == wa.WallX(side), fi, sprites.GrabFrames(side)) then
                state == Climb(side) && frameIndex == 0 && climbDirY == -1
                && surfaceLatchTicks == SurfaceLatch && yVel == 0
              else
                state == Grab(side) && frameIndex == fi && climbDirY == old(climbDirY)
                && surfaceLatchTicks == old(surfaceLatchTicks) && yVel == old(yVel)
    {
      var targetX := wa.WallX(side);
      MoveTo(Approach(winX, targetX, GrabSlide), wa.FloorY());
      frameIndex := Advance(frameIndex, tick, 5);
      if grabTicks > 0 {
        grabTicks := grabTicks - 1;
      }
      var atWall := winX == targetX;
      var animDone := frameIndex >= sprites.GrabFrames(side);
      if (grabTicks == 0 && atWall) || animDone {
        BeginClimb(side, -1);
      }
    }

    /** SWING_LEFT/RIGHT (DesktopPet.java:953-1002): slide along the top
        edge toward the wall and hand over to a downward climb. */
    method SwingTick(wa: WorkArea, side: Side)
      requires FallBound(yVel) && ClimbBound(climbDirY) && state == Swing(side)
      modifies this`winX, this`winY, this`locX, this`locY, this`frameIndex, this`swingTicks,
               this`climbDirY, this`state, this`surfaceLatchTicks, this`yVel
      ensures FallBound(yVel) && ClimbBound(climbDirY)
      ensures winX == locX == Approach(old(winX), wa.WallX(side), SwingSlide)
      ensures winY == locY == wa.TopY()
      ensures swingTicks == Max(0, old(swingTicks) - 1)
      ensures var fi := Advance(old(frameIndex), tick, 4);
              if SwingComplete(swingTicks, winX == wa.WallX(side), fi, sprites.SwingFrames(side)) then
                state == Climb(side) && frameIndex == 0 && climbDirY == 1
                && surfaceLatchTicks == SurfaceLatch && yVel == 0
              else
                state == Swing(side) && frameIndex == fi && climbDirY == old(climbDirY)
                && surfaceLatchTicks == old(surfaceLatchTicks) && yVel == old(yVel)
    {
      var targetX := wa.WallX(side);
      MoveTo(Approach(winX, targetX, SwingSlide), wa.TopY());
      frameIndex := Advance(frameIndex, tick, 4);
      if swingTicks > 0 {
        swingTicks := swingTicks - 1;
      }
      var atWall := winX == targetX;
      var animDone := frameIndex >= sprites.SwingFrames(side);
      if swingTicks == 0 && (atWall || animDone) {
        BeginClimb(side, 1);
      }
    }

    /** state = CLIMB_*; frameIndex = 0; climbDirY = dirY;
        surfaceLatchTicks = 20; yVel = 0. */
    method BeginClimb(side: Side, dirY: int)
      requires dirY == -1 || dirY == 1
      modifies this`state, this`frameIndex, this`climbDirY, this`surfaceLatchTicks, this`yVel
      ensures FallBound(yVel) && ClimbBound(climbDirY)
      ensures state == Climb(side) && frameIndex == 0 && climbDirY == dirY
      ensures surfaceLatchTicks == SurfaceLatch && yVel == 0
    {
      EnterState(Climb(side));
      climbDirY := dirY;
      Latch();
    }

    /** CLIMB_LEFT/RIGHT (DesktopPet.java:1005-1066): snap to the wall,
        clamp y between the top and the floor and show the window there,
        then move one climb step unless paused. Reaching the top hands over
        to CEILING_ATTACH, reaching the floor to DISMOUNT; otherwise the
        window stays shown at the clamped y until the next tick. */
    method ClimbTick(wa: WorkArea, side: Side)
      requires FallBound(yVel) && state == Climb(side)
      modifies this`winX, this`winY, this`locX, this`locY, this`wallPauseTicks, this`state,
               this`frameIndex, this`attachTicks, this`surfaceLatchTicks, this`yVel,
               this`dismountTicks, this`wallHangTicks
      ensures FallBound(yVel)
      ensures winX == locX == wa.WallX(side)
      ensures wallPauseTicks == Max(0, old(wallPauseTicks) - 1)
      ensures var y0 := Min(Max(old(winY), wa.TopY()), wa.FloorY());
              var y1 := if old(wallPauseTicks) > 0 then y0
                        else if climbDirY > 0 then y0 + ClimbStep(speed) else y0 - ClimbStep(speed);
              && (y1 <= wa.TopY() ==>
                    state == CeilingAttach(side) && winY == locY == wa.TopY() && attachTicks == AttachMin
                    && surfaceLatchTicks == SurfaceLatch && yVel == 0 && frameIndex == Advance(0, tick, 5)
                    && wallHangTicks == old(wallHangTicks) && dismountTicks == old(dismountTicks))
              && (wa.TopY() < y1 && y1 >= wa.FloorY() ==>
                    state == Dismount(side) && winY == locY == wa.FloorY() && dismountTicks == DismountMin
                    && frameIndex == Advance(0, tick, 5) && wallHangTicks == old(wallHangTicks)
                    && unchanged(this`attachTicks, this`surfaceLatchTicks, this`yVel))
              && (wa.TopY() < y1 < wa.FloorY() ==>
                    state == Climb(side) && winY == y1 && locY == y0
                    && frameIndex == Advance(old(frameIndex), tick, 5)
                    && wallHangTicks == (if wallPauseTicks > 0 then old(wallHangTicks) + 1 else 0)
                    && unchanged(this`attachTicks, this`dismountTicks, this`surfaceLatchTicks, this`yVel))
    {
      MoveTo(wa.WallX(side), Min(Max(winY, wa.TopY()), wa.FloorY()));
      ClimbAlong(wa, side);
      frameIndex := Advance(frameIndex, tick, 5);
    }

    /** The climbing part of CLIMB_*: one step along the wall unless
        paused, then the hand-over at the top or the floor edge. */
    method ClimbAlong(wa: WorkArea, side: Side)
      requires FallBound(yVel) && state == Climb(side) && locX == winX && locY == winY
      modifies this`winX, this`winY, this`locX, this`locY, this`wallPauseTicks, this`state,
               this`frameIndex, this`attachTicks, this`surfaceLatchTicks, this`yVel,
               this`dismountTicks, this`wallHangTicks
      ensures FallBound(yVel)
      ensures winX == locX == old(winX)
      ensures wallPauseTicks == Max(0, old(wallPauseTicks) - 1)
      ensures var y1 := if old(wallPauseTicks) > 0 then old(winY)
                        else if climbDirY > 0 then old(winY) + ClimbStep(speed) else old(winY) - ClimbStep(speed);
              && (y1 <= wa.TopY() ==>
                    state == CeilingAttach(side) && winY == locY == wa.TopY() && attachTicks == AttachMin
                    && surfaceLatchTicks == SurfaceLatch && yVel == 0 && frameIndex == 0
                    && wallHangTicks == old(wallHangTicks) && dismountTicks == old(dismountTicks))
              && (wa.TopY() < y1 && y1 >= wa.FloorY() ==>
                    state == Dismount(side) && winY == locY == wa.FloorY() && dismountTicks == DismountMin
                    && frameIndex == 0 && wallHangTicks == old(wallHangTicks)
                    && unchanged(this`attachTicks, this`surfaceLatchTicks, this`yVel))
              && (wa.TopY() < y1 < wa.FloorY() ==>
                    state == Climb(side) && winY == y1 && locY == old(locY) && frameIndex == old(frameIndex)
                    && wallHangTicks == (if wallPauseTicks > 0 then old(wallHangTicks) + 1 else 0)
                    && unchanged(this`attachTicks, this`dismountTicks, this`surfaceLatchTicks, this`yVel))
    {
      var topY, floorY := wa.TopY(), wa.FloorY();
      var climbStep := Max(1, speed * ClimbBase);
      if wallPauseTicks > 0 {
        wallPauseTicks := wallPauseTicks - 1;
      } else {
        winY := winY + (if climbDirY > 0 then climbStep else -climbStep);
      }
      if winY <= topY {
        MoveTo(winX, topY);
        EnterState(CeilingAttach(side));
        attachTicks := AttachMin;
        Latch();
      } else if winY >= floorY {
        MoveTo(winX, floorY);
        EnterState(Dismount(side));
        dismountTicks := DismountMin;
      } else if wallPauseTicks > 0 {
        wallHangTicks := wallHangTicks + 1;
      } else {
        wallHangTicks := 0;
      }
    }

    /** CEILING_ATTACH_LEFT/RIGHT (DesktopPet.java:1069-1096): held at the
        top edge until the countdown ends on the ceiling, facing away from
        the wall. */
    method AttachTick(wa: WorkArea, side: Side)
      requires FallBound(yVel) && state == CeilingAttach(side)
      modifies this`winX, this`winY, this`locX, this`locY, this`frameIndex, this`attachTicks, this`state,
               this`facingRight, this`surfaceLatchTicks, this`yVel
      ensures FallBound(yVel)
      ensures winX == locX == old(winX) && winY == locY == wa.TopY()
      ensures attachTicks == old(attachTicks) - 1
      ensures attachTicks <= 0 ==> state == Ceiling && frameIndex == 0 && facingRight == (side == Left)
                                   && surfaceLatchTicks == SurfaceLatch && yVel == 0
      ensures attachTicks > 0 ==> state == CeilingAttach(side) && facingRight == old(facingRight)
                                  && frameIndex == Advance(old(frameIndex), tick, 4)
                                  && unchanged(this`surfaceLatchTicks, this`yVel)
    {
      MoveTo(winX, wa.TopY());
      frameIndex := Advance(frameIndex, tick, 4);
      attachTicks := attachTicks - 1;
      if attachTicks <= 0 {
        EnterState(Ceiling);
        facingRight := side == Left;
        Latch();
      }
    }

    /** DISMOUNT_LEFT/RIGHT (DesktopPet.java:1099-1120): held at the wall's
        floor corner until the countdown ends in IDLE. */
    method DismountTick(wa: WorkArea, side: Side)
      requires state == Dismount(side)
      modifies this`winX, this`winY, this`locX, this`locY, this`frameIndex, this`dismountTicks, this`state
      ensures winX == locX == wa.WallX(side) && winY == locY == wa.FloorY()
      ensures dismountTicks == old(dismountTicks) - 1
      ensures dismountTicks <= 0 ==> state == Idle && frameIndex == 0
      ensures dismountTicks > 0 ==> state == Dismount(side) && frameIndex == Advance(old(frameIndex), tick, 5)
    {
      MoveTo(wa.WallX(side), wa.FloorY());
      frameIndex := Advance(frameIndex, tick, 5);
      dismountTicks := dismountTicks - 1;
      if dismountTicks <= 0 {
        EnterState(Idle);
      }
    }

    /** CEILING (DesktopPet.java:1122-1157): walk along the top edge unless
        paused; at a bound swing down to that wall. */
    method CeilingTick(wa: WorkArea)
      requires FallBound(yVel) && state == Ceiling
      modifies this`winX, this`winY, this`locX, this`locY, this`ceilingPauseTicks, this`state,
               this`frameIndex, this`swingTicks, this`surfaceLatchTicks, this`yVel, this`ceilingHangTicks
      ensures FallBound(yVel)
      ensures winY == locY == wa.TopY() && winX == locX
      ensures ceilingPauseTicks == Max(0, old(ceilingPauseTicks) - 1)
      ensures old(ceilingPauseTicks) > 0 ==>
                state == Ceiling && winX == old(winX)
                && frameIndex == Advance(old(frameIndex), tick, 4) && ceilingHangTicks == old(ceilingHangTicks) + 1
                && unchanged(this`swingTicks, this`surfaceLatchTicks, this`yVel)
      ensures var x := old(winX) + (if facingRight then CeilingStep(speed) else -CeilingStep(speed));
              old(ceilingPauseTicks) == 0 ==>
                && (x <= wa.LeftX() ==>
                      winX == wa.LeftX() && state == Swing(Left) && frameIndex == 0
                      && swingTicks == SwingMin && surfaceLatchTicks == SurfaceLatch && yVel == 0
                      && ceilingHangTicks == old(ceilingHangTicks))
                && (wa.LeftX() < x && x >= wa.RightX() ==>
                      winX == wa.RightX() && state == Swing(Right) && frameIndex == 0
                      && swingTicks == SwingMin && surfaceLatchTicks == SurfaceLatch && yVel == 0
                      && ceilingHangTicks == old(ceilingHangTicks))
                && (wa.LeftX() < x < wa.RightX() ==>
                      state == Ceiling && winX == x
                      && frameIndex == Advance(old(frameIndex), tick, 4)
                      && ceilingHangTicks == old(ceilingHangTicks) + 1
                      && unchanged(this`swingTicks, this`surfaceLatchTicks, this`yVel))
    {
      var topY := wa.TopY();
      var left, right := wa.LeftX(), wa.RightX();
      var x := winX;
      if ceilingPauseTicks > 0 {
        ceilingPauseTicks := ceilingPauseTicks - 1;
      } else {
        var step := Max(1, Max(1, speed) * 2);
        x := x + (if facingRight then step else -step);
        if x <= left {
          MoveTo(left, topY);
          SwingFromCeiling(Left);
          return;
        }
        if x >= right {
          MoveTo(right, topY);
          SwingFromCeiling(Right);
          return;
        }
      }
      MoveTo(x, topY);
      frameIndex := Advance(frameIndex, tick, 4);
      ceilingHangTicks := ceilingHangTicks + 1;
    }

    /** state = SWING_*; frameIndex = 0; swingTicks = SWING_MIN_TICKS;
        surfaceLatchTicks = 20; yVel = 0. */
    method SwingFromCeiling(side: Side)
      modifies this`state, this`frameIndex, this`swingTicks, this`surfaceLatchTicks, this`yVel
      ensures FallBound(yVel)
      ensures state == Swing(side) && frameIndex == 0 && swingTicks == SwingMin
      ensures surfaceLatchTicks == SurfaceLatch && yVel == 0
    {
      EnterState(Swing(side));
      swingTicks := SwingMin;
      Latch();
    }

    // ===================== roam AI =====================

    /** An idle pet still cooling down: only the cooldown counts down. */
    twostate predicate AiCooledDown()
      reads this
    {
      aiCooldown == old(aiCooldown) - 1
      && unchanged(this`aiSuppressTicks, this`aiActionTicks, this`state, this`frameIndex, this`walkTarget,
                   this`facingRight, this`xVel, this`swingTicks, this`surfaceLatchTicks, this`yVel,
                   this`hasBounced, this`afterLand, this`wallPauseTicks, this`climbDirY, this`wallHangTicks,
                   this`ceilingPauseTicks, this`ceilingHangTicks)
    }

    /** aiTick (DesktopPet.java:1204-1311): nothing in manual mode; while
        suppressed only the suppression counts down; otherwise the branch
        of the current state group. */
    method AiTick(wa: WorkArea, d: Draws)
      requires FallBound(yVel) && WalkBound(walkTarget, walkVx) && SpeedBound(speed) && ClimbBound(climbDirY)
      modifies this`aiSuppressTicks, this`aiCooldown, this`aiActionTicks, this`state, this`frameIndex,
               this`walkTarget, this`facingRight, this`xVel, this`swingTicks, this`surfaceLatchTicks,
               this`yVel, this`hasBounced, this`afterLand, this`wallPauseTicks, this`climbDirY,
               this`wallHangTicks, this`ceilingPauseTicks, this`ceilingHangTicks
      ensures FallBound(yVel) && WalkBound(walkTarget, walkVx) && ClimbBound(climbDirY)
      ensures old(mode) == Manual ==> unchanged(this)
      ensures old(mode) == Roam && old(aiSuppressTicks) > 0 ==>
                aiSuppressTicks == old(aiSuppressTicks) - 1
                && unchanged(this`aiCooldown, this`aiActionTicks, this`state, this`frameIndex, this`walkTarget,
                             this`facingRight, this`xVel, this`swingTicks, this`surfaceLatchTicks, this`yVel,
                             this`hasBounced, this`afterLand, this`wallPauseTicks, this`climbDirY,
                             this`wallHangTicks, this`ceilingPauseTicks, this`ceilingHangTicks)
      ensures old(mode) == Roam && old(aiSuppressTicks) == 0 && old(state).LeftAloneByAi() ==> unchanged(this)
      ensures old(mode) == Roam && old(aiSuppressTicks) == 0 && old(state) == Idle && old(aiCooldown) > 0 ==>
                AiCooledDown()
      ensures old(mode) == Roam && old(aiSuppressTicks) == 0 && old(state) == Idle && old(aiCooldown) == 0 ==>
                CooldownMin <= aiCooldown <= CooldownMax && AiDecided(wa, d)
      ensures old(mode) == Roam && old(aiSuppressTicks) == 0 && old(state).Walking() ==> AiWalked(d)
      ensures old(mode) == Roam && old(aiSuppressTicks) == 0 && old(state).Climb? ==> AiClimbed(d)
      ensures old(mode) == Roam && old(aiSuppressTicks) == 0 && old(state) == Ceiling ==> AiCeilinged(d)
    {
      if mode != Roam {
        return;
      }
      if aiSuppressTicks > 0 {
        aiSuppressTicks := aiSuppressTicks - 1;
        return;
      }
      AiAct(wa, d);
    }

    /** The branch of aiTick for the current state group
        (DesktopPet.java:1230-1310); the other states are left alone. */
    method AiAct(wa: WorkArea, d: Draws)
      requires FallBound(yVel) && WalkBound(walkTarget, walkVx) && SpeedBound(speed) && ClimbBound(climbDirY)
      modifies this`aiSuppressTicks, this`aiCooldown, this`aiActionTicks, this`state, this`frameIndex,
               this`walkTarget, this`facingRight, this`xVel, this`swingTicks, this`surfaceLatchTicks,
               this`yVel, this`hasBounced, this`afterLand, this`wallPauseTicks, this`climbDirY,
               this`wallHangTicks, this`ceilingPauseTicks, this`ceilingHangTicks
      ensures FallBound(yVel) && WalkBound(walkTarget, walkVx) && ClimbBound(climbDirY)
      ensures old(state).LeftAloneByAi() ==> unchanged(this)
      ensures old(state) == Idle && old(aiCooldown) > 0 ==> AiCooledDown()
      ensures old(state) == Idle && old(aiCooldown) == 0 ==>
                CooldownMin <= aiCooldown <= CooldownMax && AiDecided(wa, d)
      ensures old(state).Walking() ==> AiWalked(d)
      ensures old(state).Climb? ==> AiClimbed(d)
      ensures old(state) == Ceiling ==> AiCeilinged(d)
    {
      AiActsOnFourGroups(state);
      if state == Idle {
        AiIdle(wa, d);
      } else if state.Walking() {
        AiWalk(d);
      } else if state.Climb? {
        AiClimb(d);
      } else if state == Ceiling {
        AiCeiling(d);
      }
    }

    /** The IDLE branch (DesktopPet.java:1231-1253): count the cooldown
        down, and decide once it is over. */
    method AiIdle(wa: WorkArea, d: Draws)
      requires FallBound(yVel) && WalkBound(walkTarget, walkVx) && SpeedBound(speed) && state == Idle
      modifies this`aiCooldown, this`aiActionTicks, this`state, this`frameIndex, this`aiSuppressTicks,
               this`walkTarget, this`facingRight, this`xVel, this`swingTicks, this`surfaceLatchTicks,
               this`yVel, this`hasBounced, this`afterLand
      ensures FallBound(yVel) && WalkBound(walkTarget, walkVx)
      ensures old(aiCooldown) > 0 ==> AiCooledDown()
      ensures old(aiCooldown) == 0 ==> CooldownMin <= aiCooldown <= CooldownMax && AiDecided(wa, d)
    {
      if aiCooldown > 0 {
        aiCooldown := aiCooldown - 1;
      } else {
        AiIdleDecision(wa, d);
      }
    }

    /** What the AI's idle decision leaves behind: a new cooldown, the
        state the weighted choice leads to, and the effects of setWalk and
        setFacingRight, setIdle, or startClimbLeft/Right. The wall and
        ceiling counters are never touched. */
    twostate predicate AiDecided(wa: WorkArea, d: Draws)
      reads this
    {
      var choice := IdleChoice(NextInt(100, d.decision));
      && state == IdleDecisionState(choice, winY, wa.FloorY())
      && match choice
         case StartWalk => WalkDecided(d)
         case StayIdle => StayDecided(d)
         case ClimbLeft => ClimbDecided(wa, d, Left)
         case ClimbRight => ClimbDecided(wa, d, Right)
    }

    /** Common to every idle decision: the new cooldown, the AI held off
        for 60 ticks, and the wall and ceiling fields kept. */
    twostate predicate Decided(d: Draws)
      reads this
    {
      && aiCooldown == Rand(CooldownMin, CooldownMax, d.cooldown)
      && aiSuppressTicks == 60
      && unchanged(this`swingTicks, this`surfaceLatchTicks, this`wallPauseTicks, this`climbDirY,
                   this`wallHangTicks, this`ceilingPauseTicks, this`ceilingHangTicks)
    }

    /** A walk in a random direction: setWalk, then setFacingRight. */
    twostate predicate WalkDecided(d: Draws)
      reads this
    {
      && Decided(d) && state == Walk && frameIndex == 0
      && facingRight == NextBool(d.coin) && aiActionTicks == Rand(WalkMin, WalkMax, d.actionLen)
      && walkTarget == (if facingRight then WalkTargetSpeed(speed) else -WalkTargetSpeed(speed))
      && xVel == (if facingRight then Max(1, Abs(old(xVel))) else -Max(1, Abs(old(xVel))))
      && unchanged(this`yVel, this`hasBounced, this`afterLand)
    }

    /** A spell of standing still: setIdle. */
    twostate predicate StayDecided(d: Draws)
      reads this
    {
      && Decided(d) && state == Idle && frameIndex == 0
      && aiActionTicks == Rand(IdleMin, IdleMax, d.actionLen)
      && unchanged(this`walkTarget, this`facingRight, this`xVel, this`yVel, this`hasBounced, this`afterLand)
    }

    /** A climb toward the given wall: startClimbLeft/Right from IDLE. */
    twostate predicate ClimbDecided(wa: WorkArea, d: Draws, side: Side)
      reads this
    {
      && Decided(d) && state == ClimbStartState(Idle, winY, wa.FloorY(), side)
      && unchanged(this`aiActionTicks, this`walkTarget, this`facingRight, this`xVel)
      && (winY < wa.FloorY() ==>
            !hasBounced && yVel == 0 && frameIndex == old(frameIndex) && afterLand == WalkToClimb(side))
      && (winY >= wa.FloorY() ==>
            frameIndex == 0 && unchanged(this`yVel, this`hasBounced, this`afterLand))
    }

    /** The IDLE branch after its cooldown (DesktopPet.java:1233-1252). */
    method AiIdleDecision(wa: WorkArea, d: Draws)
      requires FallBound(yVel) && WalkBound(walkTarget, walkVx) && SpeedBound(speed) && state == Idle
      modifies this`aiCooldown, this`aiActionTicks, this`state, this`frameIndex, this`aiSuppressTicks,
               this`walkTarget, this`facingRight, this`xVel, this`swingTicks, this`surfaceLatchTicks,
               this`yVel, this`hasBounced, this`afterLand
      ensures FallBound(yVel) && WalkBound(walkTarget, walkVx)
      ensures AiDecided(wa, d)
    {
      match IdleChoice(NextInt(100, d.decision)) {
        case StartWalk => DecideWalk(d);
        case StayIdle => DecideStay(d);
        case ClimbLeft => DecideClimb(wa, d, Left);
        case ClimbRight => DecideClimb(wa, d, Right);
      }
    }

    /** The walk decision and the new cooldown (DesktopPet.java:1235-1239, 1251). */
    method DecideWalk(d: Draws)
      requires WalkBound(walkTarget, walkVx) && SpeedBound(speed)
      modifies this`aiCooldown, this`aiActionTicks, this`state, this`frameIndex, this`aiSuppressTicks,
               this`walkTarget, this`facingRight, this`xVel
      ensures WalkBound(walkTarget, walkVx)
      ensures WalkDecided(d)
    {
      SetWalk();
      SetFacingRight(NextBool(d.coin));
      aiActionTicks := Rand(WalkMin, WalkMax, d.actionLen);
      aiCooldown := Rand(CooldownMin, CooldownMax, d.cooldown);
    }

    /** The stay-idle decision and the new cooldown (DesktopPet.java:1240-1243, 1251). */
    method DecideStay(d: Draws)
      modifies this`aiCooldown, this`aiActionTicks, this`state, this`frameIndex, this`aiSuppressTicks
      ensures StayDecided(d)
    {
      SetIdle();
      aiActionTicks := Rand(IdleMin, IdleMax, d.actionLen);
      aiCooldown := Rand(CooldownMin, CooldownMax, d.cooldown);
    }

    /** The climb decision and the new cooldown (DesktopPet.java:1244-1251). */
    method DecideClimb(wa: WorkArea, d: Draws, side: Side)
      requires FallBound(yVel) && state == Idle
      modifies this`aiCooldown, this`state, this`frameIndex, this`aiSuppressTicks, this`swingTicks,
               this`surfaceLatchTicks, this`yVel, this`hasBounced, this`afterLand
      ensures FallBound(yVel)
      ensures ClimbDecided(wa, d, side)
    {
      StartClimb(wa, side);
      aiCooldown := Rand(CooldownMin, CooldownMax, d.cooldown);
    }

    /** What the AI does to a walker: the walk time counts down; once it is
        over the target speed drops to 0, and a pet standing still turns
        IDLE with a new cooldown. Nothing else changes. */
    twostate predicate AiWalked(d: Draws)
      reads this
    {
      && unchanged(this`facingRight, this`xVel, this`swingTicks, this`surfaceLatchTicks, this`yVel,
                   this`hasBounced, this`afterLand, this`wallPauseTicks, this`climbDirY, this`wallHangTicks,
                   this`ceilingPauseTicks, this`ceilingHangTicks)
      && (old(aiActionTicks) > 0 ==>
            aiActionTicks == old(aiActionTicks) - 1
            && unchanged(this`walkTarget, this`state, this`frameIndex, this`aiSuppressTicks, this`aiCooldown))
      && (old(aiActionTicks) == 0 ==> walkTarget == 0 && aiActionTicks == 0)
      && (old(aiActionTicks) == 0 && walkVx == 0 ==>
            state == Idle && frameIndex == 0 && aiSuppressTicks == 60
            && aiCooldown == Rand(CooldownMin, CooldownMax, d.cooldown))
      && (old(aiActionTicks) == 0 && walkVx != 0 ==>
            unchanged(this`state, this`frameIndex, this`aiSuppressTicks, this`aiCooldown))
    }

    /** The walking branch (DesktopPet.java:1255-1269): when the walk time
        is over, stop accelerating and turn idle once standing still. */
    method AiWalk(d: Draws)
      requires WalkBound(walkTarget, walkVx) && state.Walking()
      modifies this`aiActionTicks, this`walkTarget, this`state, this`frameIndex, this`aiSuppressTicks,
               this`aiCooldown
      ensures WalkBound(walkTarget, walkVx)
      ensures AiWalked(d)
    {
      if aiActionTicks > 0 {
        aiActionTicks := aiActionTicks - 1;
      } else {
        walkTarget := 0;
        if Abs(walkVx) <= 0 {
          SetIdle();
          aiCooldown := Rand(CooldownMin, CooldownMax, d.cooldown);
        }
      }
    }

    /** What the AI does to a climber: with no pause running, a 1-in-120
        roll starts a pause; failing that, a 1-in-180 roll redraws the
        climbing direction at random. After a long hang a 1-in-5 roll on
        every 30th tick drops the pet into a fall. Nothing else changes. */
    twostate predicate AiClimbed(d: Draws)
      reads this
    {
      var pause := old(wallPauseTicks) == 0 && NextInt(120, d.pauseRoll) == 0;
      var redraw := old(wallPauseTicks) == 0 && !pause && NextInt(180, d.flipRoll) == 0;
      var drop := old(wallHangTicks) > WallHangMin && tick % 30 == 0 && NextInt(5, d.dropRoll) == 0;
      && wallPauseTicks == (if pause then Rand(PauseMin, PauseMax, d.pauseLen) else old(wallPauseTicks))
      && climbDirY == (if redraw then (if NextBool(d.coin) then -1 else 1) else old(climbDirY))
      && unchanged(this`aiSuppressTicks, this`aiCooldown, this`aiActionTicks, this`walkTarget, this`facingRight,
                   this`xVel, this`swingTicks, this`surfaceLatchTicks, this`afterLand, this`ceilingPauseTicks,
                   this`ceilingHangTicks)
      && (drop ==> state == Fall && !hasBounced && yVel == 0 && frameIndex == 0 && wallHangTicks == 0)
      && (!drop ==> unchanged(this`state, this`hasBounced, this`yVel, this`frameIndex, this`wallHangTicks))
    }

    /** The wall branch (DesktopPet.java:1271-1287): pause or flip the
        climbing direction now and then, and after a long hang drop off. */
    method AiClimb(d: Draws)
      requires FallBound(yVel) && ClimbBound(climbDirY) && state.Climb?
      modifies this`wallPauseTicks, this`climbDirY, this`state, this`hasBounced, this`yVel,
               this`frameIndex, this`wallHangTicks
      ensures FallBound(yVel) && ClimbBound(climbDirY)
      ensures AiClimbed(d)
    {
      if wallPauseTicks == 0 && NextInt(120, d.pauseRoll) == 0 {
        wallPauseTicks := Rand(PauseMin, PauseMax, d.pauseLen);
      } else if wallPauseTicks == 0 && NextInt(180, d.flipRoll) == 0 {
        climbDirY := if NextBool(d.coin) then -1 else 1;
      }
      if wallHangTicks > WallHangMin && tick % 30 == 0 && NextInt(5, d.dropRoll) == 0 {
        BeginFall();
        wallHangTicks := 0;
      }
    }

    /** What the AI does on the ceiling: with no pause running, a 1-in-150
        roll starts a pause; failing that, a finished run draws a new
        facing at random and a new run length, and a run in progress counts
        down. After a long hang a 1-in-5 roll on every 30th tick drops the
        pet into a fall. Nothing else changes. */
    twostate predicate AiCeilinged(d: Draws)
      reads this
    {
      var pause := old(ceilingPauseTicks) == 0 && NextInt(150, d.pauseRoll) == 0;
      var newRun := old(ceilingPauseTicks) == 0 && !pause && old(aiActionTicks) == 0;
      var countDown := old(ceilingPauseTicks) == 0 && !pause && old(aiActionTicks) > 0;
      var drop := old(ceilingHangTicks) > CeilingHangMin && tick % 30 == 0 && NextInt(5, d.dropRoll) == 0;
      && ceilingPauseTicks == (if pause then Rand(PauseMin, PauseMax, d.pauseLen) else old(ceilingPauseTicks))
      && facingRight == (if newRun then NextBool(d.coin) else old(facingRight))
      && aiActionTicks == (if newRun then Rand(ClimbMin, ClimbMax, d.actionLen)
                           else if countDown then old(aiActionTicks) - 1 else old(aiActionTicks))
      && unchanged(this`aiSuppressTicks, this`aiCooldown, this`walkTarget, this`xVel, this`swingTicks,
                   this`surfaceLatchTicks, this`afterLand, this`wallPauseTicks, this`climbDirY, this`wallHangTicks)
      && (drop ==> state == Fall && !hasBounced && yVel == 0 && frameIndex == 0 && ceilingHangTicks == 0)
      && (!drop ==> unchanged(this`state, this`hasBounced, this`yVel, this`frameIndex, this`ceilingHangTicks))
    }

    /** The ceiling branch (DesktopPet.java:1289-1309): pause, draw a new facing
        or count down the current run, and after a long hang drop off. */
    method AiCeiling(d: Draws)
      requires FallBound(yVel) && state == Ceiling
      modifies this`ceilingPauseTicks, this`facingRight, this`aiActionTicks, this`state, this`hasBounced,
               this`yVel, this`frameIndex, this`ceilingHangTicks
      ensures FallBound(yVel)
      ensures AiCeilinged(d)
    {
      if ceilingPauseTicks == 0 {
        if NextInt(150, d.pauseRoll) == 0 {
          ceilingPauseTicks := Rand(PauseMin, PauseMax, d.pauseLen);
        } else if aiActionTicks == 0 {
          facingRight := NextBool(d.coin);
          aiActionTicks := Rand(ClimbMin, ClimbMax, d.actionLen);
        } else {
          aiActionTicks := aiActionTicks - 1;
        }
      }
      if ceilingHangTicks > CeilingHangMin && tick % 30 == 0 && NextInt(5, d.dropRoll) == 0 {
        BeginFall();
        ceilingHangTicks := 0;
      }
    }

    // ===================== commands =====================

    /** setIdle (DesktopPet.java:1362). */
    method SetIdle()
      modifies this`state, this`frameIndex, this`aiSuppressTicks
      ensures state == Idle && frameIndex == 0 && aiSuppressTicks == 60
    {
      EnterState(Idle);
      aiSuppressTicks := 60;
    }

    /** setWalk (DesktopPet.java:1363-1368): walk in the facing direction
        at the speed setting's target. */
    method SetWalk()
      requires SpeedBound(speed) && WalkBound(walkTarget, walkVx)
      modifies this`state, this`frameIndex, this`aiSuppressTicks, this`walkTarget
      ensures WalkBound(walkTarget, walkVx) && state == Walk && frameIndex == 0 && aiSuppressTicks == 60
      ensures walkTarget == (if facingRight then WalkTargetSpeed(speed) else -WalkTargetSpeed(speed))
    {
      EnterState(Walk);
      aiSuppressTicks := 60;
      var base := Max(1, WalkBase * Max(1, speed));
      walkTarget := if facingRight then base else -base;
    }

    /** setFacingRight (DesktopPet.java:1369-1374): the sign of xVel and of
        the walk target follow the new facing. */
    method SetFacingRight(right: bool)
      requires SpeedBound(speed) && WalkBound(walkTarget, walkVx)
      modifies this`facingRight, this`xVel, this`aiSuppressTicks, this`walkTarget
      ensures WalkBound(walkTarget, walkVx) && facingRight == right && aiSuppressTicks == 60
      ensures xVel == (if right then Max(1, Abs(old(xVel))) else -Max(1, Abs(old(xVel))))
      ensures walkTarget == (if right then WalkTargetSpeed(speed) else -WalkTargetSpeed(speed))
    {
      facingRight := right;
      var v := Max(1, Abs(xVel));
      xVel := if right then v else -v;
      aiSuppressTicks := 60;
      var base := Max(1, WalkBase * Max(1, speed));
      walkTarget := if facingRight then base else -base;
    }

    /** setSpeed (DesktopPet.java:1375): clamped into 1..10. */
    method SetSpeed(s: int)
      modifies this`speed
      ensures SpeedBound(speed) && speed == ClampSpeed(s)
    {
      speed := Max(1, Min(10, s));
    }

    /** setModeRoam (DesktopPet.java:1380). */
    method SetModeRoam()
      modifies this`mode
      ensures mode == Roam
    {
      mode := Roam;
    }

    /** setModeManual (DesktopPet.java:1381): the AI stays quiet for 120
        ticks even if roaming is switched back on. */
    method SetModeManual()
      modifies this`mode, this`aiSuppressTicks
      ensures mode == Manual && aiSuppressTicks == 120
    {
      mode := Manual;
      aiSuppressTicks := 120;
    }

    /** startClimbLeft/startClimbRight (DesktopPet.java:1384-1415): from the
        ceiling swing to the wall; in the air, unless already falling, fall
        first and walk to the wall after landing; otherwise, a falling pet
        included, walk to the wall at once. */
    method StartClimb(wa: WorkArea, side: Side)
      requires FallBound(yVel)
      modifies this`state, this`frameIndex, this`swingTicks, this`surfaceLatchTicks, this`yVel,
               this`hasBounced, this`afterLand, this`aiSuppressTicks
      ensures FallBound(yVel)
      ensures state == ClimbStartState(old(state), winY, wa.FloorY(), side) && aiSuppressTicks == 60
      ensures old(state) == Ceiling ==>
                frameIndex == 0 && swingTicks == SwingMin && surfaceLatchTicks == SurfaceLatch && yVel == 0
                && unchanged(this`hasBounced, this`afterLand)
      ensures old(state) != Ceiling && winY < wa.FloorY() && old(state) != Fall ==>
                !hasBounced && yVel == 0 && afterLand == WalkToClimb(side)
                && unchanged(this`frameIndex, this`swingTicks, this`surfaceLatchTicks)
      ensures old(state) != Ceiling && !(winY < wa.FloorY() && old(state) != Fall) ==>
                frameIndex == 0
                && unchanged(this`yVel, this`hasBounced, this`afterLand, this`swingTicks, this`surfaceLatchTicks)
    {
      if state == Ceiling {
        SwingFromCeiling(side);
      } else if winY < wa.FloorY() && state != Fall {
        state := Fall;
        hasBounced := false;
        yVel := 0;
        afterLand := WalkToClimb(side);
      } else {
        EnterState(WalkToEdge(side));
      }
      aiSuppressTicks := 60;
    }

    /** startCeiling (DesktopPet.java:1416-1425): jump to the top edge. */
    method StartCeiling(wa: WorkArea, toRight: bool)
      modifies this`winX, this`winY, this`locX, this`locY, this`state, this`facingRight, this`frameIndex,
               this`surfaceLatchTicks, this`yVel, this`aiSuppressTicks
      ensures FallBound(yVel)
      ensures winY == locY == wa.TopY() && winX == locX == Clamp(old(winX), wa.LeftX(), wa.RightX())
      ensures state == Ceiling && facingRight == toRight && frameIndex == 0
      ensures surfaceLatchTicks == SurfaceLatch && yVel == 0 && aiSuppressTicks == 60
    {
      MoveTo(Max(wa.LeftX(), Min(winX, wa.RightX())), wa.TopY());
      EnterState(Ceiling);
      facingRight := toRight;
      Latch();
      aiSuppressTicks := 60;
    }

    /** What startIdleSleepPlan leaves behind: nothing changes during the
        sleep plan; otherwise a corner is drawn, the target is exactly that
        bound of the work area, and the pet either falls at 4 px/tick or
        more with the corner walk planned after landing, or starts the
        corner walk at once. */
    twostate predicate PlannedSleep(wa: WorkArea, raw: nat)
      reads this
    {
      if old(state).InSleepPlan() then
        unchanged(this`idleCornerRight, this`idleTargetX, this`idleSleepPlanActive, this`state,
                  this`hasBounced, this`yVel, this`frameIndex, this`afterLand)
      else
        && idleCornerRight == NextBool(raw) && idleSleepPlanActive
        && idleTargetX == (if idleCornerRight then wa.RightX() else wa.LeftX())
        && frameIndex == 0
        && (winY < wa.FloorY() ==>
              state == Fall && !hasBounced && yVel == Max(old(yVel), 4) && yVel >= 4
              && afterLand == SleepPlanWalkToCorner)
        && (winY >= wa.FloorY() ==>
              state == SleepWalkToCorner && hasBounced == old(hasBounced) && yVel == old(yVel)
              && afterLand == old(afterLand))
    }

    /** startIdleSleepPlan (DesktopPet.java:1428-1452): pick a corner; fall
        first when airborne, otherwise start walking to it. */
    method StartIdleSleepPlan(wa: WorkArea, raw: nat)
      requires FallBound(yVel)
      modifies this`idleCornerRight, this`idleTargetX, this`idleSleepPlanActive, this`state,
               this`hasBounced, this`yVel, this`frameIndex, this`afterLand
      ensures FallBound(yVel)
      ensures old(state).InSleepPlan() ==> unchanged(this)
      ensures PlannedSleep(wa, raw)
    {
      if state == Sleep || state == Yawn || state == SleepWalkToCorner {
        return;
      }
      idleCornerRight := NextBool(raw);
      idleTargetX := if idleCornerRight then wa.RightX() else wa.LeftX();
      idleSleepPlanActive := true;
      if winY < wa.FloorY() {
        state := Fall;
        hasBounced := false;
        yVel := Max(yVel, 4);
        frameIndex := 0;
        afterLand := SleepPlanWalkToCorner;
      } else {
        EnterState(SleepWalkToCorner);
      }
    }

    // ===================== reminder acknowledgement =====================

    /** hideBubbleAndAdvance (DesktopPet.java:1184-1201): a click on a visible
        bubble, debounced by 250 ms, restarts the cycle with the other kind. */
    method HideBubbleAndAdvance(nowMs: int)
      requires ReminderBound(activeUseTicks, waitingClick, bubbleVisible)
      modifies this`lastBubbleCloseMs, this`bubbleVisible, this`waitingClick, this`activeUseTicks,
               this`nextRemind
      ensures ReminderBound(activeUseTicks, waitingClick, bubbleVisible)
      ensures AckAccepted(old(bubbleVisible), nowMs, old(lastBubbleCloseMs)) ==>
                lastBubbleCloseMs == nowMs && !bubbleVisible && !waitingClick && activeUseTicks == 0
                && nextRemind == old(nextRemind).Next()
      ensures !AckAccepted(old(bubbleVisible), nowMs, old(lastBubbleCloseMs)) ==> unchanged(this)
    {
      if !bubbleVisible {
        return;
      }
      if nowMs - lastBubbleCloseMs < CloseDebounceMs {
        return;
      }
      lastBubbleCloseMs := nowMs;
      bubbleVisible := false;
      waitingClick := false;
      activeUseTicks := 0;
      nextRemind := if nextRemind == Stand then Sit else Stand;
    }

    /** resetReminder (DesktopPet.java:1718-1722). */
    method ResetReminder()
      modifies this`activeUseTicks, this`waitingClick, this`bubbleVisible
      ensures ReminderBound(activeUseTicks, waitingClick, bubbleVisible) && activeUseTicks == 0 && !waitingClick && !bubbleVisible
    {
      activeUseTicks := 0;
      waitingClick := false;
      if bubbleVisible {
        bubbleVisible := false;
      }
    }

    /** setReminderEnabled (DesktopPet.java:1717). */
    method SetReminderEnabled(on: bool)
      modifies this`reminderEnabled
      ensures reminderEnabled == on
    {
      reminderEnabled := on;
    }

    /** setDetectFullscreen (DesktopPet.java:1723). */
    method SetDetectFullscreen(on: bool)
      modifies this`detectFullscreen
      ensures detectFullscreen == on
    {
      detectFullscreen := on;
    }

    /** setDetectAudio (DesktopPet.java:1724). */
    method SetDetectAudio(on: bool)
      modifies this`detectAudio
      ensures detectAudio == on
    {
      detectAudio := on;
    }

    // ===================== pointer protocol =====================

    /** mousePressed (DesktopPet.java:313-345): remember where and how the
        pet was; a sleeping pet only notes the press, any other starts a
        drag. (ex, ey) is the press point inside the pet window. */
    method MousePressed(ex: int, ey: int, wa: WorkArea)
      modifies this`dragPressWindowY, this`dragMaxLiftPx, this`stateAtPress, this`wasOnGroundAtPress,
               this`wasOnCeilingAtPress, this`pressedDuringSleep, this`draggedDuringSleep,
               this`dragOffsetX, this`dragOffsetY, this`state, this`frameIndex, this`aiSuppressTicks
      ensures dragPressWindowY == locY && dragMaxLiftPx == 0 && stateAtPress == old(state)
      ensures wasOnGroundAtPress == IsOnGround(locY, wa) && wasOnCeilingAtPress == old(state).OnCeilingSurface()
      ensures dragOffsetX == ex && dragOffsetY == ey
      ensures old(state) == Sleep ==>
                state == Sleep && pressedDuringSleep && !draggedDuringSleep
                && frameIndex == old(frameIndex) && aiSuppressTicks == old(aiSuppressTicks)
      ensures old(state) != Sleep ==>
                state == Drag && frameIndex == 0 && aiSuppressTicks == 90
                && pressedDuringSleep == old(pressedDuringSleep) && draggedDuringSleep == old(draggedDuringSleep)
    {
      NotePress(wa);
      dragOffsetX, dragOffsetY := ex, ey;
      if state == Sleep {
        pressedDuringSleep := true;
        draggedDuringSleep := false;
        return;
      }
      EnterState(Drag);
      aiSuppressTicks := 90;
    }

    /** The part of mousePressed that records the pet at the press. */
    method NotePress(wa: WorkArea)
      modifies this`dragPressWindowY, this`dragMaxLiftPx, this`stateAtPress, this`wasOnGroundAtPress,
               this`wasOnCeilingAtPress
      ensures dragPressWindowY == locY && dragMaxLiftPx == 0 && stateAtPress == state
      ensures wasOnGroundAtPress == IsOnGround(locY, wa) && wasOnCeilingAtPress == state.OnCeilingSurface()
    {
      dragPressWindowY := locY;
      dragMaxLiftPx := 0;
      stateAtPress := state;
      wasOnGroundAtPress := IsOnGround(locY, wa);
      wasOnCeilingAtPress := state == Ceiling || state.CeilingAttach? || state.Swing?;
    }

    /** mouseDragged (DesktopPet.java:346-375): the window follows the
        pointer (px, py) on screen and the largest lift is tracked; after a
        press on a sleeping pet this is a wake-up drag. */
    method MouseDragged(px: int, py: int)
      modifies this`state, this`frameIndex, this`aiSuppressTicks, this`draggedDuringSleep, this`winX,
               this`winY, this`locX, this`locY, this`dragMaxLiftPx
      ensures winX == locX == px - dragOffsetX && winY == locY == py - dragOffsetY
      ensures dragMaxLiftPx == TrackMax(old(dragMaxLiftPx), Lift(dragPressWindowY, locY))
      ensures pressedDuringSleep ==>
                state == DragWake && draggedDuringSleep
                && (old(state) != DragWake ==> frameIndex == 0 && aiSuppressTicks == 90)
                && (old(state) == DragWake ==> frameIndex == old(frameIndex) && aiSuppressTicks == old(aiSuppressTicks))
      ensures !pressedDuringSleep ==>
                unchanged(this`state, this`frameIndex, this`draggedDuringSleep, this`aiSuppressTicks)
    {
      if pressedDuringSleep {
        if state != DragWake {
          EnterState(DragWake);
          aiSuppressTicks := 90;
        }
        draggedDuringSleep := true;
      }
      MoveTo(px - dragOffsetX, py - dragOffsetY);
      var lifted := Max(0, dragPressWindowY - locY);
      if lifted > dragMaxLiftPx {
        dragMaxLiftPx := lifted;
      }
    }

    /** The inputs of the release decision as they stand now. */
    function ReleaseNow(): ReleaseInput
      reads this
    {
      ReleaseInput(dragMaxLiftPx, locY, winY, state, pressedDuringSleep, draggedDuringSleep,
                   wasOnGroundAtPress, wasOnCeilingAtPress)
    }

    /** The short-lift release on the ground: IDLE with a soft drop from
        speed 0; the window stays where it is. */
    twostate predicate SoftDropBegun()
      reads this
    {
      state == Idle && softDropActive && softDropVy == 0 && frameIndex == 0 && dragMaxLiftPx == 0
      && unchanged(this`wakeShowTicks, this`hasBounced, this`yVel, this`landWakeTicks, this`winX, this`winY,
                   this`locX, this`locY, this`pressedDuringSleep, this`draggedDuringSleep,
                   this`aiSuppressTicks, this`surfaceLatchTicks, this`wasOnCeilingAtPress,
                   this`wasOnGroundAtPress)
    }

    /** A click on a sleeping pet: WAKE for 45 ticks, sleep marks cleared. */
    twostate predicate WokenByClick()
      reads this
    {
      state == Wake && frameIndex == 0 && wakeShowTicks == WakeShow
      && !pressedDuringSleep && !draggedDuringSleep && aiSuppressTicks == 90
      && unchanged(this`softDropActive, this`softDropVy, this`dragMaxLiftPx, this`hasBounced, this`yVel,
                   this`landWakeTicks, this`winX, this`winY, this`locX, this`locY, this`surfaceLatchTicks,
                   this`wasOnCeilingAtPress, this`wasOnGroundAtPress)
    }

    /** A sleeping pet dragged and released in the air: FALL_WAKE at
        2 px/tick or more from where it was let go. */
    twostate predicate FellAwake()
      reads this
    {
      state == FallWake && frameIndex == 0 && !hasBounced && yVel == Max(2, old(yVel))
      && !pressedDuringSleep && !draggedDuringSleep && aiSuppressTicks == 90
      && unchanged(this`softDropActive, this`softDropVy, this`dragMaxLiftPx, this`wakeShowTicks,
                   this`landWakeTicks, this`winX, this`winY, this`locX, this`locY, this`surfaceLatchTicks,
                   this`wasOnCeilingAtPress, this`wasOnGroundAtPress)
    }

    /** A sleeping pet dragged and released at or below the floor:
        LAND_WAKE for 24 ticks, put on the floor. */
    twostate predicate LandedAwake(wa: WorkArea)
      reads this
    {
      state == LandWake && frameIndex == 0 && landWakeTicks == LandWakeHold
      && winX == locX == old(winX) && winY == locY == wa.FloorY()
      && !pressedDuringSleep && !draggedDuringSleep && aiSuppressTicks == 90
      && unchanged(this`softDropActive, this`softDropVy, this`dragMaxLiftPx, this`wakeShowTicks,
                   this`hasBounced, this`yVel, this`surfaceLatchTicks, this`wasOnCeilingAtPress,
                   this`wasOnGroundAtPress)
    }

    /** A pet dragged off the ceiling and let go near the top edge: back on
        the ceiling with x clamped and the latch set. */
    twostate predicate BackOnCeiling(wa: WorkArea)
      reads this
    {
      state == Ceiling && frameIndex == 0 && winY == locY == wa.TopY()
      && winX == locX == Clamp(old(winX), wa.LeftX(), wa.RightX())
      && yVel == 0 && surfaceLatchTicks == SurfaceLatch && aiSuppressTicks == 60
      && dragMaxLiftPx == 0 && !wasOnCeilingAtPress && !wasOnGroundAtPress
      && unchanged(this`softDropActive, this`softDropVy, this`wakeShowTicks, this`hasBounced,
                   this`landWakeTicks, this`pressedDuringSleep, this`draggedDuringSleep)
    }

    /** A short lift of a pet grabbed on the ground: IDLE on the floor. */
    twostate predicate PutBack(wa: WorkArea)
      reads this
    {
      state == Idle && frameIndex == 0 && winX == locX == old(winX) && winY == locY == wa.FloorY()
      && yVel == 0 && aiSuppressTicks == 60
      && dragMaxLiftPx == 0 && !wasOnCeilingAtPress && !wasOnGroundAtPress
      && unchanged(this`softDropActive, this`softDropVy, this`wakeShowTicks, this`hasBounced,
                   this`landWakeTicks, this`pressedDuringSleep, this`draggedDuringSleep, this`surfaceLatchTicks)
    }

    /** Any other drag let go in the air: FALL at 2 px/tick or more from
        where it was let go. */
    twostate predicate DroppedInAir()
      reads this
    {
      state == Fall && frameIndex == 0 && !hasBounced && yVel == Max(old(yVel), 2)
      && aiSuppressTicks == 90 && !wasOnCeilingAtPress && !wasOnGroundAtPress
      && unchanged(this`softDropActive, this`softDropVy, this`dragMaxLiftPx, this`wakeShowTicks,
                   this`landWakeTicks, this`winX, this`winY, this`locX, this`locY, this`pressedDuringSleep,
                   this`draggedDuringSleep, this`surfaceLatchTicks)
    }

    /** Any other drag let go at or below the floor: IDLE on the floor,
        the animation frame kept. */
    twostate predicate DroppedOnFloor(wa: WorkArea)
      reads this
    {
      state == Idle && winX == locX == old(winX) && winY == locY == wa.FloorY()
      && aiSuppressTicks == 90 && !wasOnCeilingAtPress && !wasOnGroundAtPress
      && unchanged(this`softDropActive, this`softDropVy, this`frameIndex, this`dragMaxLiftPx,
                   this`wakeShowTicks, this`hasBounced, this`yVel, this`landWakeTicks, this`pressedDuringSleep,
                   this`draggedDuringSleep, this`surfaceLatchTicks)
    }

    /** What each release outcome leaves behind. Every field a release may
        change is either given its new value or said to be kept; the
        window is only moved where the source calls setLocation. */
    twostate predicate ReleasedAs(r: Release, wa: WorkArea)
      reads this
    {
      match r
      case SoftDrop => SoftDropBegun()
      case WakeByClick => WokenByClick()
      case FallWakeRelease => FellAwake()
      case LandWakeDirect => LandedAwake(wa)
      case BackToCeiling => BackOnCeiling(wa)
      case ShortLiftLand => PutBack(wa)
      case DragFall => DroppedInAir()
      case DragLand => DroppedOnFloor(wa)
      case Unchanged => unchanged(this)
    }

    /** mouseReleased (DesktopPet.java:376-471): carries out the outcome
        ReleaseDecision picks. */
    method MouseReleased(wa: WorkArea)
      requires FallBound(yVel) && SoftDropBound(softDropVy)
      modifies this`softDropActive, this`softDropVy, this`state, this`frameIndex, this`dragMaxLiftPx,
               this`wakeShowTicks, this`hasBounced, this`yVel, this`landWakeTicks, this`winX, this`winY,
               this`locX, this`locY, this`pressedDuringSleep, this`draggedDuringSleep, this`aiSuppressTicks,
               this`surfaceLatchTicks, this`wasOnCeilingAtPress, this`wasOnGroundAtPress
      ensures FallBound(yVel) && SoftDropBound(softDropVy)
      ensures ReleasedAs(ReleaseDecision(old(ReleaseNow()), wa), wa)
    {
      if dragMaxLiftPx < ShortLift && IsOnGround(locY, wa) {
        BeginSoftDrop();
      } else if pressedDuringSleep {
        ReleaseSleepPress(wa);
      } else if state == Drag {
        if wasOnCeilingAtPress && locY - wa.TopY() <= CeilingDetachTolerance {
          ReleaseToCeiling(wa);
        } else if dragMaxLiftPx < ShortLift && wasOnGroundAtPress {
          ReleaseShortLift(wa);
        } else {
          ReleaseDrag(wa);
        }
      }
    }

    /** The short-lift release: idle pose and a slow descent. */
    method BeginSoftDrop()
      modifies this`softDropActive, this`softDropVy, this`state, this`frameIndex, this`dragMaxLiftPx
      ensures SoftDropBound(softDropVy)
      ensures SoftDropBegun()
    {
      softDropActive := true;
      softDropVy := 0;
      EnterState(Idle);
      dragMaxLiftPx := 0;
    }

    /** The release after a press on a sleeping pet: a click wakes it, a
        drag lands it awake, falling first when above the floor. */
    method ReleaseSleepPress(wa: WorkArea)
      requires FallBound(yVel) && pressedDuringSleep
      modifies this`state, this`frameIndex, this`wakeShowTicks, this`hasBounced, this`yVel,
               this`landWakeTicks, this`winX, this`winY, this`locX, this`locY, this`pressedDuringSleep,
               this`draggedDuringSleep, this`aiSuppressTicks
      ensures FallBound(yVel)
      ensures !old(draggedDuringSleep) ==> WokenByClick()
      ensures old(draggedDuringSleep) && old(winY) < wa.FloorY() ==> FellAwake()
      ensures old(draggedDuringSleep) && old(winY) >= wa.FloorY() ==> LandedAwake(wa)
    {
      if !draggedDuringSleep {
        WakeOnClick();
      } else if winY < wa.FloorY() {
        FallAwakeOnRelease();
      } else {
        LandAwakeOnRelease(wa);
      }
    }

    /** Sleep marks cleared and the AI held off for 90 ticks: the common
        tail of every release after a press on a sleeping pet. */
    method ClearSleepPress()
      modifies this`pressedDuringSleep, this`draggedDuringSleep, this`aiSuppressTicks
      ensures !pressedDuringSleep && !draggedDuringSleep && aiSuppressTicks == 90
    {
      pressedDuringSleep, draggedDuringSleep := false, false;
      aiSuppressTicks := 90;
    }

    /** A click on a sleeping pet (DesktopPet.java:395-398, 413-415). */
    method WakeOnClick()
      modifies this`state, this`frameIndex, this`wakeShowTicks, this`pressedDuringSleep,
               this`draggedDuringSleep, this`aiSuppressTicks
      ensures WokenByClick()
    {
      EnterState(Wake);
      wakeShowTicks := WakeShow;
      ClearSleepPress();
    }

    /** A sleeping pet dragged and let go in the air
        (DesktopPet.java:401-405, 413-415). */
    method FallAwakeOnRelease()
      requires FallBound(yVel)
      modifies this`state, this`frameIndex, this`hasBounced, this`yVel, this`pressedDuringSleep,
               this`draggedDuringSleep, this`aiSuppressTicks
      ensures FallBound(yVel) && FellAwake()
    {
      EnterState(FallWake);
      hasBounced := false;
      yVel := Max(2, yVel);
      ClearSleepPress();
    }

    /** A sleeping pet dragged and let go at or below the floor
        (DesktopPet.java:406-410, 413-415). */
    method LandAwakeOnRelease(wa: WorkArea)
      modifies this`state, this`frameIndex, this`landWakeTicks, this`winX, this`winY, this`locX, this`locY,
               this`pressedDuringSleep, this`draggedDuringSleep, this`aiSuppressTicks
      ensures LandedAwake(wa)
    {
      EnterState(LandWake);
      landWakeTicks := LandWakeHold;
      MoveTo(winX, wa.FloorY());
      ClearSleepPress();
    }

    /** A pet dragged off the ceiling and released near the top edge
        snaps back to it. */
    method ReleaseToCeiling(wa: WorkArea)
      modifies this`winX, this`winY, this`locX, this`locY, this`state, this`frameIndex, this`yVel,
               this`surfaceLatchTicks, this`aiSuppressTicks, this`dragMaxLiftPx, this`wasOnCeilingAtPress,
               this`wasOnGroundAtPress
      ensures FallBound(yVel) && BackOnCeiling(wa)
    {
      MoveTo(Max(wa.LeftX(), Min(winX, wa.RightX())), wa.TopY());
      EnterState(Ceiling);
      Latch();
      aiSuppressTicks := 60;
      dragMaxLiftPx := 0;
      wasOnCeilingAtPress, wasOnGroundAtPress := false, false;
    }

    /** A short lift of a pet grabbed on the ground puts it back on the
        floor. */
    method ReleaseShortLift(wa: WorkArea)
      modifies this`winY, this`locX, this`locY, this`yVel, this`state, this`frameIndex, this`aiSuppressTicks,
               this`dragMaxLiftPx, this`wasOnGroundAtPress, this`wasOnCeilingAtPress
      ensures FallBound(yVel) && PutBack(wa)
    {
      winY := wa.FloorY();
      ShowAt(winX, winY);
      yVel := 0;
      EnterState(Idle);
      aiSuppressTicks := 60;
      dragMaxLiftPx := 0;
      wasOnGroundAtPress, wasOnCeilingAtPress := false, false;
    }

    /** Any other drag ends in a fall from above the floor, or idle on it. */
    method ReleaseDrag(wa: WorkArea)
      requires FallBound(yVel)
      modifies this`state, this`hasBounced, this`yVel, this`frameIndex, this`winY, this`locX, this`locY,
               this`wasOnGroundAtPress, this`wasOnCeilingAtPress, this`aiSuppressTicks
      ensures FallBound(yVel)
      ensures old(winY) < wa.FloorY() ==> DroppedInAir()
      ensures old(winY) >= wa.FloorY() ==> DroppedOnFloor(wa)
    {
      if winY < wa.FloorY() {
        state := Fall;
        hasBounced := false;
        yVel := Max(yVel, 2);
        frameIndex := 0;
      } else {
        state := Idle;
        winY := wa.FloorY();
        ShowAt(winX, winY);
      }
      wasOnGroundAtPress, wasOnCeilingAtPress := false, false;
      aiSuppressTicks := 90;
    }
  }

  /** A climb command given to a pet that is already falling: the pet
      turns WALK_TO_* in mid-air, and the next walk tick, still above the
      floor with no surface latch, makes it fall again from speed 0 with no
      plan to walk to the wall after landing, so the command is lost. */
  method ClimbWhileFalling(sprites: SpriteCounts, nowMs: int) returns (afterCommand: State, afterTick: State, fallSpeed: int, plan: AfterLand)
    ensures afterCommand == WalkToEdge(Left)
    ensures afterTick == Fall && fallSpeed == 0 && plan == NoPlan
  {
    var wa := WorkArea(0, 0, 1920, 1080);
    var pet := new DesktopPet(wa, nowMs, sprites, true, true);
    pet.StartClimb(wa, Left);
    afterCommand := pet.state;
    pet.WalkTick(wa);
    afterTick, fallSpeed, plan := pet.state, pet.yVel, pet.afterLand;
  }

  /** A click on a pet sleeping on the floor: the press only marks the
      sleep, and the release takes the short-lift path first, so the pet
      ends idle in a soft drop instead of waking, still marked as pressed
      during sleep. */
  method SleepingPetClick(wa: WorkArea, nowMs: int, sprites: SpriteCounts) returns (s: State, softDrop: bool, stillMarked: bool)
    ensures s == Idle && softDrop && stillMarked
  {
    var pet := new DesktopPet(wa, nowMs, sprites, true, true);
    pet.ResumeCheck(nowMs + ResumeGapMs + 1, wa, 0);
    pet.MousePressed(10, 10, wa);
    assert pet.ReleaseNow().maxLift == 0 && pet.ReleaseNow().locY == wa.FloorY();
    ClickOnSleepingPetSoftDrops(pet.ReleaseNow(), wa);
    pet.MouseReleased(wa);
    s, softDrop, stillMarked := pet.state, pet.softDropActive, pet.pressedDuringSleep;
  }
}
