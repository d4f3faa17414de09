# Desktop pet behaviour engine in Dafny

This project models the behaviour engine of the `DesktopPet` class in `DesktopPet.java`. The class is a small animated window that lives on the desktop. About thirty times a second it falls, bounces, walks, grabs a screen edge, climbs it, walks along the top edge, swings back down, yawns and sleeps in a corner. It can also be dragged with the mouse. On the side it counts minutes of active computer use and shows a "stand up / sit down" reminder bubble.

Without the Swing plumbing, what remains is an integer state machine over a few dozen fields:
- the position, speeds, facing and frame counter;
- one countdown per transition state;
- the surface latch and the landing flags;
- the drag-session fields;
- the roam AI's counters;
- the reminder cycle.

The model has two layers.

- **Pure kernels**, one module per concern, as functions with lemmas:
  - `Geometry`: the work area, clamping and the ground test.
  - `States`: the state set and its groups.
  - `Physics`: gravity, bounce and the soft drop.
  - `Motion`: the grab/swing approach, the corner walk, walk acceleration and climb steps.
  - `Roam`: random draws and the idle decision.
  - `Drag`: lift tracking and the release decision tree.
  - `Reminder`: activity, accrual, alternation and "HH:MM:SS".
  - `Frames`: which sprite sequence a state shows.
  - `Bubble`: where the reminder bubble goes.
- **The pet itself** (`Pet.DesktopPet`), a class whose methods update its fields in place as the Java methods do:
  - `OnTick` and one method per state handler;
  - the roam AI;
  - the three pointer handlers;
  - the control-panel commands;
  - the reminder acknowledgement.

  Each method's `ensures` ties the new state either to the pure kernels or to the outcome the source promises. The class also keeps an invariant `Valid()`, which holds these bounds:
  - the fall speed stays within ±24;
  - the speed setting stays in 1..10;
  - walk speeds stay within the fastest walk;
  - the climbing direction is ±1;
  - the soft-drop speed stays in 0..2;
  - the reminder counter stays at or below its threshold, and a reminder waits exactly when the counter has reached it.

Everything outside the engine is a parameter. One `Sensors` record per tick carries:
- the clock;
- the work area;
- the full-screen probe;
- the audio probe.

The random numbers come as raw draws in a `Draws` record: `nextInt(n)` is the draw modulo `n`. The frame counts of the grab and swing sprites, and whether each reminder icon loaded, are constructor arguments.

The code has behaviours a reader may not expect; the model keeps them:
- **A click on a pet sleeping on the floor soft-drops it instead of waking it.** `mouseReleased` tests "short lift and on the ground" before it tests "pressed during sleep". The click therefore ends in IDLE with a soft drop, and `pressedDuringSleep` stays set (`Drag.ClickOnSleepingPetSoftDrops`, `Pet.SleepingPetClick`).
- **A finished grab or swing does not imply arrival.** A grab also completes when its frames run out, wherever the pet is. A swing completes when its countdown is over and its frames run out (`Motion.SwingStricterThanGrab`).
- **The frame counter can restart at 1.** When a climb hands over to CEILING_ATTACH or DISMOUNT, `frameIndex` is reset to 0 and then advanced in the same tick.
- **After touchdown, `winY` stays below the floor.** On touchdown the window is shown at the floor, but `winY` keeps the position below it, and x is not clamped on that tick. On a bounce, the pet rises from wherever the impact left it. For a fall that starts above the floor that is at most 23 px below the floor (`Physics.BounceDepth`). The spawn point lies 48 px below the top edge, which is on or below the floor in a work area at most 176 px tall. There the first fall bounces 180 − height px below the floor (`Physics.SpawnBounce`), which is deeper than 23 px only in work areas under 157 px tall; a 128 px tall work area gives 52 px (`Physics.BounceFromBelowFloor`).
- **A climb command given during a fall is lost.** `startClimbLeft`/`startClimbRight` fall first only when the pet is in the air and not already falling. A falling pet turns WALK_TO_* in mid-air. On the next tick the walk handler (DesktopPet.java:802) makes it fall again from speed 0, with no plan to walk to the wall after landing, as long as it is above the floor and no surface latch runs (`Pet.ClimbWhileFalling`).
- **With a missing icon, the reminder stays blocked.** When the reminder is due but its icon failed to load, no bubble appears, yet `waitingClick` is still set. The acknowledgement needs a visible bubble, so accrual stays blocked until `resetReminder`.

## Model

| member | source | states |
|---|---|---|
| Geometry.Clamp | DesktopPet.java:741 | `max(lo, min(v, hi))` lies in `[lo, hi]` when the range is non-empty. A value already inside is kept; one below is raised to `lo`, one above is lowered to `hi`. |
| Geometry.GroundTolerance | DesktopPet.java:1753-1757 | The ground test `IsOnGround` accepts the floor line and 1 px above it, but not 2 px above. It is monotone downward. |
| States.AiActsOnFourGroups | DesktopPet.java:1207-1311 | The roam AI acts exactly on IDLE, the three walking states, CLIMB_* and CEILING. It leaves every other state alone. |
| Physics.ApplyGravity | DesktopPet.java:720 | After the gravity step the speed is at most 24. The speed is `v + 2` or the terminal speed, and it never decreases for `v ≤ 24`. |
| Physics.RoundRestitution | DesktopPet.java:727 | The integer formula equals `Math.round(0.3·a)` for every natural `a`: it is within half a unit of `0.3·a`. |
| Physics.BounceSpeed | DesktopPet.java:726-727 | The bounce speed is at least 1. Above the minimum impact speed it is the rounded 30 %, strictly slower than the impact. For impacts up to 24 it is at most 7. |
| Physics.ImpactOf | DesktopPet.java:720-730 | A bounce is only possible in a fall episode that has not bounced yet. |
| Physics.FallStep | DesktopPet.java:717-745 | One airborne tick: y moves by the post-gravity speed. A bounce sets the flag and reverses the speed to `-BounceSpeed`. A touchdown zeroes the speed and clears the flag. Otherwise the body keeps falling. |
| Physics.SpawnBounce | DesktopPet.java:720-742 | The spawn fall (48 px below the top edge, 2 px/tick) in a work area at most 176 px tall bounces on its first tick, to 180 − height px below the floor with upward speed 1. |
| Physics.BounceDepth | DesktopPet.java:720-742 | A bounce leaves the window on or below the floor line, and at most 23 px below it when the fall tick started above the line. |
| Physics.AtMostOneBounce | DesktopPet.java:848-875 | Within one fall episode, up to its touchdown, the pet bounces at most once, and not at all after it has bounced. |
| Physics.BounceFromBelowFloor | DesktopPet.java:720-742 | Concrete runs: a fall at 22 px/tick from 1 px above the floor bounces at 23 px below the floor with speed −7, then touches down on the next tick. A fall from the spawn point 48 px below the floor at 2 px/tick bounces at 52 px below it. |
| Physics.SoftDropStep | DesktopPet.java:765-771 | One soft-drop tick: the speed stays at most 2 and y never passes the floor. The move is at most the new speed, and a pet above the floor moves down by at least 1. |
| Physics.SoftDropTicks | DesktopPet.java:761-783 | The number of ticks a soft drop takes: none from the floor, and between 1 and the height above the floor otherwise. |
| Physics.SoftDropLandsOnFloor | DesktopPet.java:761-783 | A soft drop stays between its start and the floor, and reaches exactly the floor after `SoftDropTicks` ticks. |
| Motion.QuarterCeil | DesktopPet.java:909 | `(d+3)/4` equals `ceil(d·0.25)`. |
| Motion.Approach | DesktopPet.java:908-910 | One grab/swing slide step never overshoots and strictly shrinks the distance. Its length is `min(ceil(abs(dx)/4), cap)`. |
| Motion.ApproachArrives | DesktopPet.java:903-1002 | Repeated slide steps stay between the start and the target, and reach the target within `abs(dx)` steps. |
| Motion.CornerStep | DesktopPet.java:671-676 | One corner-walk step never overshoots and cuts the distance by `min(10, abs(dx))`. |
| Motion.CornerWalkDistance | DesktopPet.java:662-689 | After n steps the distance is `max(0, abs(dx) − 10n)`. The corner is reached exactly after `ceil(abs(dx)/10)` steps. |
| Motion.ClampSpeed | DesktopPet.java:1375 | `setSpeed` keeps the value in 1..10: values inside are kept, values outside go to the nearer bound. |
| Motion.WalkTargetSpeed | DesktopPet.java:805 | The walk target is `2·speed`, and at least 2. |
| Motion.ClimbStep | DesktopPet.java:1015 | The climb step is `2·speed`, and at least 1. |
| Motion.CeilingStep | DesktopPet.java:1132 | The ceiling step is `2·speed`, and at least 2. |
| Motion.Accelerate | DesktopPet.java:810-811 | `walkVx` moves toward its target by at most 1 without overshoot. The remaining gap shrinks by 1 until it reaches 0. |
| Motion.AccelerateReaches | DesktopPet.java:798-836 | After n ticks the gap to the target is `max(0, gap − n)`, and the speed stays between its start and the target. |
| Motion.SwingStricterThanGrab | DesktopPet.java:917-970 | Every swing that `SwingComplete` ends would also end as a grab under `GrabComplete`, but not the reverse: a grab completes on used-up frames while its countdown still runs. |
| Roam.NextInt | DesktopPet.java:1234 | `nextInt(bound)` lies in `[0, bound)`, and a draw already in range is returned as it is. |
| Roam.Rand | DesktopPet.java:1313 | `rand(a, b)` lies in `[a, b]`. |
| Roam.RandCovers | DesktopPet.java:1313 | Every value of `[a, b]` is reachable by some draw, and the coin can land either way. |
| Roam.ChoiceCountRanges | DesktopPet.java:1234-1250 | Of the draws 0..n−1, `IdleChoice` sends those below 55 to walk, 55..74 to idle, 75..87 to climb left and 88..99 to climb right. |
| Roam.IdleDecisionWeights | DesktopPet.java:1234-1250 | Over `nextInt(100)` the idle decisions have the weights 55, 20, 13 and 12. |
| Drag.Lift | DesktopPet.java:362 | The lift is the upward distance from the press position, and 0 when the pet is at or below it. |
| Drag.TrackMax | DesktopPet.java:363 | The recorded lift never decreases and is at least the new lift. |
| Drag.TrackAllIsMaximum | DesktopPet.java:346-375 | Over a whole drag the recorded lift never decreases and is exactly the largest lift seen. |
| Drag.ReleasePriority | DesktopPet.java:376-471 | `ReleaseDecision` picks each release outcome exactly when its guard holds and no guard of higher priority does. The order is: short lift on the ground, then the sleep press (click, fall or land), then dragged from the ceiling near the top, then short lift from the ground, then fall or land. |
| Drag.ClickOnSleepingPetSoftDrops | DesktopPet.java:378-388 | A click without a drag on a pet asleep at the floor ends in a soft drop, not in WAKE. |
| Drag.ReleaseFallsOnlyFromAbove | DesktopPet.java:401-459 | A release starts a fall only from above the floor line. |
| Drag.ShortLiftFromGroundNeverFalls | DesktopPet.java:443-452 | A short lift of a pet grabbed on the ground never ends in FALL. |
| Reminder.KindAlternates | DesktopPet.java:1200 | The reminders alternate STAND/SIT. After an even number of acknowledgements the kind is back where it started. |
| Reminder.ActivitySources | DesktopPet.java:576-587 | `SensedActive`: recent input always counts as activity. Full screen alone counts only without an audio probe; with a probe it counts only together with sound and audio detection. Nothing else counts. |
| Reminder.Accrue | DesktopPet.java:589-597 | Accrual keeps the counter at or below 1800, with "waiting ⇔ at threshold". It is unchanged while disabled, waiting or inactive, and otherwise adds one tick. |
| Reminder.AccrueAllCounts | DesktopPet.java:589-597 | Over any run of ticks the counter equals `min(1800, start + active ticks)`. |
| Reminder.RemindsAfterOneActiveMinute | DesktopPet.java:589-597 | From a fresh cycle, a reminder waits exactly when 1800 active ticks have been seen. |
| Reminder.ElapsedHMS | DesktopPet.java:1727-1731 | Hours, minutes and seconds recompose to the accrued whole seconds, with minutes and seconds below 60. |
| Reminder.Pad2 | DesktopPet.java:1731 | `%02d` gives at least two digits, and exactly the two digits of n for n < 100. |
| Reminder.FormatHMSRoundTrip | DesktopPet.java:1728-1731 | Below 100 hours `FormatHMS` renders eight characters `HH:MM:SS`, which read back to the accrued whole seconds. |
| Frames.FrameSide | DesktopPet.java:1316-1357 | In `FramesFor`, states bound to a wall show that wall's side whatever the facing. Other states show the facing side, except sleep and wake, which have one sequence each. |
| Frames.TransitionsBorrowFrames | DesktopPet.java:1326-1353 | Grab and dismount share the grab frames, swing and ceiling-attach the swing frames, and the corner walk uses the walk frames. |
| Bubble.ChoosePlacement | DesktopPet.java:1684-1704 | The bubble goes to the first candidate that fits, in the order above, below, left, right. No earlier candidate fits, and when none fits the choice is "above". |
| Bubble.BubblePosition | DesktopPet.java:1684-1712 | The final position is inside the work area when the bubble fits in it. A fitting candidate is kept as it is. |
| Pet.IdleDecisionOutcomes | DesktopPet.java:1234-1250 | On the floor every idle decision keeps the pet on the ground. In the air a climb decision makes it fall first. A decision that does not fall leaves the pet in a state the AI drives. |
| Pet.DesktopPet.constructor | DesktopPet.java:182-268 | Every field starts as its initializer or the constructor body sets it: the pet spawns 48 px inside the top-left corner, falling at 2 px/tick, in roam mode at speed 2 with `xVel` 3, climbing direction up, no walk speed, every countdown, latch, drag record and AI counter at 0, no soft drop, no sleep marks and no sleep plan, with a fresh reminder cycle, and satisfying `Valid()`. |
| Pet.DesktopPet.NoteMouseActivity | DesktopPet.java:478-489 | A global mouse event refreshes both activity timestamps. |
| Pet.DesktopPet.NoteKeyActivity | DesktopPet.java:525-540 | A global key event refreshes the user-action timestamp. |
| Pet.DesktopPet.OnTick | DesktopPet.java:572-640 | One tick keeps `Valid()` and advances `tick`. It accrues the reminder exactly as `Accrue` with `SensedActive` describes, shows the bubble only when the reminder has just become due and its icon exists, and records the clock. |
| Pet.DesktopPet.CountTick | DesktopPet.java:573-612 | Reminder accrual as `Accrue`, the bubble shown only when the reminder has just become due and its icon exists, `tick + 1`, and a surface-latch countdown that stops at 0. |
| Pet.DesktopPet.AccrueReminder | DesktopPet.java:573-597 | The counter follows `Accrue`. The bubble appears only when the reminder becomes due and its icon exists. |
| Pet.DesktopPet.ShowBubbleFor | DesktopPet.java:1167-1181 | The bubble is shown if and only if the kind's icon exists. |
| Pet.DesktopPet.ResumeCheck | DesktopPet.java:614-628 | A gap of more than 30 s outside SLEEP teleports the pet asleep onto the floor at an x in `[left, right]` and ends the sleep plan. Otherwise nothing moves. |
| Pet.DesktopPet.MouseIdleCheck | DesktopPet.java:630-638 | Five idle minutes outside the sleep cycle run `startIdleSleepPlan` (`PlannedSleep`: nothing during the plan, otherwise the pet falls, or walks to the chosen corner) and restart the idle clock. Otherwise none of the plan's fields changes. |
| Pet.DesktopPet.StepSleepCycle | DesktopPet.java:642-756 | Each sleep-cycle state takes its handler's whole effect (`SleepStepped`, `WakeStepped`, `CornerStepped`, `YawnStepped`, `DragWakeStepped`, `LandWakeStepped`). Only the corner walk moves the pet sideways, and every case stays within the sleep cycle or plan, or ends in IDLE. |
| Pet.DesktopPet.SleepTick | DesktopPet.java:642-649 | SLEEP holds the pet on the floor, advances the frame every 6 ticks and never ends by itself; the other sleep-cycle fields are kept. |
| Pet.DesktopPet.WakeTick | DesktopPet.java:652-659 | WAKE holds the pet on the floor and counts down. It ends in IDLE when the countdown reaches 0; the other sleep-cycle fields are kept. |
| Pet.DesktopPet.CornerWalkTick | DesktopPet.java:662-689 | One `CornerStep` along the floor toward the target, facing the walk direction. At a bound or the target the pet goes to YAWN for 45 ticks; the other sleep-cycle fields are kept. |
| Pet.DesktopPet.YawnTick | DesktopPet.java:692-704 | YAWN holds the pet on the floor and counts down. At 0 the pet goes to SLEEP and the sleep plan ends; the other sleep-cycle fields are kept. |
| Pet.DesktopPet.DragWakeTick | DesktopPet.java:707-710 | DRAG_WAKE only advances the animation; nothing else of the sleep cycle changes. |
| Pet.DesktopPet.LandWakeTick | DesktopPet.java:749-756 | LAND_WAKE counts down and ends in IDLE; the pet is not moved. |
| Pet.DesktopPet.AirTick | DesktopPet.java:844-876 | FALL, and FALL_WAKE at lines 713-746, take one `FallStep`. On touchdown they become LAND with 16 ticks or LAND_WAKE with 24, shown at the floor. Otherwise x is clamped into `[left, right]`. `Valid()`'s fall bound is kept. |
| Pet.DesktopPet.EndFall | DesktopPet.java:860-866 | FALL lands in LAND with 16 ticks, and FALL_WAKE in LAND_WAKE with 24. |
| Pet.DesktopPet.LandTick | DesktopPet.java:878-900 | LAND counts down. At 0 it follows the `afterLand` plan (idle, walk to a wall, walk to the corner) and consumes it. |
| Pet.DesktopPet.IdleTick | DesktopPet.java:759-796 | A soft drop in progress takes the whole tick (`SoftDropped`) and changes nothing else. A pet above the floor falls once the surface latch is over, from where it is. Otherwise the pet is held on the floor with x clamped and the walk speeds zeroed. In each branch the fields it does not set are kept. |
| Pet.DesktopPet.SoftDropTick | DesktopPet.java:761-783 | `SoftDropped`: one `SoftDropStep`. The drop ends exactly when the floor is reached, with the speeds zeroed. |
| Pet.DesktopPet.WalkTick | DesktopPet.java:798-836 | A walker falls only once the surface latch is over, from where it is, with its walk speeds and facing kept. Otherwise it aims at its edge or facing, accelerates one step (`Accelerate`) and strides. At a bound x is clamped and the pet goes to GRAB_* with 36 ticks. |
| Pet.DesktopPet.AccelerateWalk | DesktopPet.java:810-811 | `walkVx` takes one `Accelerate` step toward its target. |
| Pet.DesktopPet.AimWalk | DesktopPet.java:805-808 | WALK_TO_LEFT/RIGHT face their edge at the full target speed. WALK keeps a non-zero target, or takes the facing's. |
| Pet.DesktopPet.Stride | DesktopPet.java:813-835 | `Strode`: crossing a bound clamps x to that bound and gives GRAB_* with the latch set and the hang counters kept. Otherwise the pet walks on along the floor with the grab countdown, latch and fall speed kept. |
| Pet.DesktopPet.DragTick | DesktopPet.java:838-842 | DRAG only animates and resets the hang counters. |
| Pet.DesktopPet.GrabTick | DesktopPet.java:903-950 | One `Approach` step along the floor, and the countdown stops at 0. On `GrabComplete` the pet goes to CLIMB_* upward with the latch set; otherwise nothing else changes. |
| Pet.DesktopPet.SwingTick | DesktopPet.java:953-1002 | One `Approach` step along the top edge. On `SwingComplete` the pet goes to CLIMB_* downward with the latch set. |
| Pet.DesktopPet.BeginClimb | DesktopPet.java:919-923 | Entering CLIMB_* sets the direction, the surface latch and zero fall speed. |
| Pet.DesktopPet.ClimbTick | DesktopPet.java:1005-1066 | The pet snaps to the wall with y clamped into `[top, floor]`, then moves one climb step unless paused. At the top it goes to CEILING_ATTACH with 60 ticks; at the floor to DISMOUNT with 30; otherwise the hang counter grows only while paused. Each branch keeps the countdowns, latch and fall speed it does not set. |
| Pet.DesktopPet.ClimbAlong | DesktopPet.java:1015-1031 | The climbing step and hand-over of `ClimbTick` from an already clamped position, with the same kept fields. |
| Pet.DesktopPet.AttachTick | DesktopPet.java:1069-1096 | The pet is held at the top edge while counting down, with the latch and fall speed kept. At 0 it goes to CEILING, facing away from the wall, with the latch set. |
| Pet.DesktopPet.DismountTick | DesktopPet.java:1099-1120 | The pet is held at the wall's floor corner while counting down. At 0 it goes to IDLE. |
| Pet.DesktopPet.CeilingTick | DesktopPet.java:1122-1157 | On the top edge the pet walks `CeilingStep` unless paused, with the swing countdown, latch and fall speed kept. Crossing a bound clamps x and gives SWING_* with 60 ticks, the hang counter kept. |
| Pet.DesktopPet.SwingFromCeiling | DesktopPet.java:1136-1149 | Entering SWING_* sets 60 ticks and the surface latch. |
| Pet.DesktopPet.AiTick | DesktopPet.java:1205-1230 | In manual mode nothing changes, and while suppressed only the suppression counts down. States left alone by the AI are untouched. Otherwise each group takes its branch's whole effect: IDLE cools down (`AiCooledDown`) or decides (`AiDecided`, cooldown in `[90, 270]`), walkers follow `AiWalked`, climbers `AiClimbed`, the ceiling `AiCeilinged`. |
| Pet.DesktopPet.AiAct | DesktopPet.java:1230-1310 | The same cases once the AI is active. |
| Pet.DesktopPet.AiIdle | DesktopPet.java:1231-1253 | IDLE under the AI: a running cooldown drops by one and nothing else changes (`AiCooledDown`); once it is over the pet decides (`AiDecided`) and the new cooldown lies in `[90, 270]`. |
| Pet.DesktopPet.AiIdleDecision | DesktopPet.java:1231-1253 | `AiDecided`: the weighted idle decision. Walk in a random direction for `[90, 240]` ticks (setWalk and setFacingRight, with `xVel` following the facing), stay idle for `[45, 150]`, or start a climb (falling first in the air, with the walk to the wall planned). The cooldown is in `[90, 270]`; each branch keeps what it does not set. |
| Pet.DesktopPet.DecideWalk | DesktopPet.java:1235-1251 | `WalkDecided`: WALK with a random facing, the walk target and `xVel` signed by that facing, a walk time in `[90, 240]` and a cooldown in `[90, 270]`; the fall fields and the wall and ceiling counters are kept. |
| Pet.DesktopPet.DecideStay | DesktopPet.java:1240-1251 | `StayDecided`: IDLE from frame 0 for `[45, 150]` ticks with a new cooldown; facing, speeds, fall fields and counters are kept. |
| Pet.DesktopPet.DecideClimb | DesktopPet.java:1244-1251 | `ClimbDecided`: the state `startClimbLeft/Right` gives from IDLE: in the air a fall from speed 0 with the walk to that wall planned and the frame kept, on the floor WALK_TO_* from frame 0. A new cooldown; facing, walk target and action time are kept. |
| Pet.DesktopPet.AiWalk | DesktopPet.java:1255-1269 | `AiWalked`: the walk time counts down and nothing else changes. Once it is over the target speed drops to 0, and the pet turns IDLE with a new cooldown only when standing still. |
| Pet.DesktopPet.AiClimb | DesktopPet.java:1271-1287 | `AiClimbed`: with no pause running, a 1-in-120 roll starts a pause; only when that roll fails, a 1-in-180 roll redraws the climbing direction at random (it may stay the same). After a long hang a 1-in-5 roll on every 30th tick drops the pet into a fall; without a drop the state, frame and fall fields are kept. |
| Pet.DesktopPet.AiCeiling | DesktopPet.java:1289-1309 | `AiCeilinged`: with no pause running, a 1-in-150 roll starts a pause; otherwise a finished run draws a new random facing (possibly the same) and run length, and a run in progress counts down. After a long hang the pet may drop; without a drop the state, frame and fall fields are kept. |
| Pet.DesktopPet.SetIdle | DesktopPet.java:1362 | IDLE with the AI suppressed for 60 ticks. |
| Pet.DesktopPet.SetWalk | DesktopPet.java:1363-1368 | WALK toward the facing at the speed's target. |
| Pet.DesktopPet.SetFacingRight | DesktopPet.java:1369-1374 | The facing, the sign of `xVel` (magnitude at least 1) and the walk target all follow the new direction. |
| Pet.DesktopPet.SetSpeed | DesktopPet.java:1375 | The speed is `ClampSpeed(s)`, so it stays in 1..10. |
| Pet.DesktopPet.SetModeRoam | DesktopPet.java:1380 | Roam mode. |
| Pet.DesktopPet.SetModeManual | DesktopPet.java:1381 | Manual mode, with the AI suppressed for 120 ticks. |
| Pet.DesktopPet.StartClimb | DesktopPet.java:1384-1415 | From the ceiling the pet swings to the wall. In the air, unless already falling, it falls first and walks to the wall after landing. Otherwise, a falling pet included, it turns WALK_TO_* at once. Each branch keeps the swing countdown, latch and landing fields it does not set. |
| Pet.DesktopPet.StartCeiling | DesktopPet.java:1416-1425 | The pet jumps to the top edge with x clamped and the latch set. |
| Pet.DesktopPet.StartIdleSleepPlan | DesktopPet.java:1428-1452 | `PlannedSleep`: no effect during the sleep plan. Otherwise the target is exactly the left or right bound. In the air the pet falls at ≥ 4 px/tick with the corner walk planned after landing; otherwise the corner walk starts. |
| Pet.DesktopPet.HideBubbleAndAdvance | DesktopPet.java:1184-1201 | Acts only on a visible bubble at least 250 ms after the last close (`AckAccepted`). It then hides the bubble, zeroes the counter, clears the wait and flips STAND/SIT. `Valid()`'s reminder bound is kept. |
| Pet.DesktopPet.ResetReminder | DesktopPet.java:1718-1722 | The counter is zeroed, the wait is cleared and the bubble is hidden. |
| Pet.DesktopPet.SetReminderEnabled | DesktopPet.java:1717 | The reminder switch. |
| Pet.DesktopPet.SetDetectFullscreen | DesktopPet.java:1723 | The full-screen detection switch. |
| Pet.DesktopPet.SetDetectAudio | DesktopPet.java:1724 | The audio detection switch. |
| Pet.DesktopPet.MousePressed | DesktopPet.java:313-345 | Records the press position, zero lift, ground and ceiling contact. A sleeping pet only marks the press; any other pet enters DRAG with the AI suppressed for 90 ticks. |
| Pet.DesktopPet.NotePress | DesktopPet.java:316-325 | The press record: window y, zero lift, the state, and whether the pet was on the ground or on a ceiling surface. |
| Pet.DesktopPet.MouseDragged | DesktopPet.java:346-375 | The window follows the pointer, and the recorded lift becomes `TrackMax` of the old lift and the new one. After a press during sleep this is a DRAG_WAKE; otherwise state, frame, sleep mark and AI suppression are kept. |
| Pet.DesktopPet.MouseReleased | DesktopPet.java:376-471 | The release carries out exactly the outcome `ReleaseDecision` picks from the pre-release fields, as listed in `ReleasedAs`. Each outcome gives every field the release may change either its new value or its old one; `winX` moves only when snapping back to the ceiling, and the window only where the source calls `setLocation`. |
| Pet.DesktopPet.BeginSoftDrop | DesktopPet.java:378-388 | `SoftDropBegun`: IDLE with a soft drop starting at speed 0 and the lift reset; the window is not moved. |
| Pet.DesktopPet.ReleaseSleepPress | DesktopPet.java:393-417 | A click gives WAKE for 45 ticks (`WokenByClick`), leaving the window where it is. A drag gives FALL_WAKE at ≥ 2 px/tick from where it was let go (`FellAwake`), or LAND_WAKE for 24 ticks on the floor at the same x (`LandedAwake`). Both sleep marks are cleared. |
| Pet.DesktopPet.WakeOnClick | DesktopPet.java:395-415 | `WokenByClick`: WAKE for 45 ticks from frame 0, sleep marks cleared, the AI held off for 90 ticks, the window and fall fields kept. |
| Pet.DesktopPet.FallAwakeOnRelease | DesktopPet.java:401-415 | `FellAwake`: FALL_WAKE from frame 0 at the larger of the fall speed and 2 px/tick, with the window left where it was let go. |
| Pet.DesktopPet.LandAwakeOnRelease | DesktopPet.java:406-415 | `LandedAwake`: LAND_WAKE for 24 ticks, placed on the floor at the same x. |
| Pet.DesktopPet.ClearSleepPress | DesktopPet.java:413-415 | Both sleep marks cleared and the AI suppressed for 90 ticks. |
| Pet.DesktopPet.ReleaseToCeiling | DesktopPet.java:420-440 | `BackOnCeiling`: the pet snaps back to the top edge with x clamped and the latch set. |
| Pet.DesktopPet.ReleaseShortLift | DesktopPet.java:443-452 | `PutBack`: IDLE at the floor at the same x. |
| Pet.DesktopPet.ReleaseDrag | DesktopPet.java:454-470 | FALL at the larger of the drag's fall speed and 2 px/tick, from where it was let go with the window not moved (`DroppedInAir`); otherwise IDLE on the floor at the same x with the frame and fall speed kept (`DroppedOnFloor`). |
| Pet.SleepingPetClick | DesktopPet.java:313-388 | Scenario: press and release without a drag on a pet that was teleported asleep onto the floor. It ends IDLE in a soft drop, still marked as pressed during sleep. |
| Pet.ClimbWhileFalling | DesktopPet.java:1384-1415 | A climb command to the freshly spawned, falling pet in a 1920×1080 work area gives WALK_TO_LEFT. The next walk tick turns it back into FALL at speed 0 with no landing plan, so the climb is dropped. |

## Left out

- Swing/AWT: the windows, painting, `repaint`, the tray and the control panel, and listener registration. Pointer events are method calls taking coordinates. `setLocation` is the pair `locX/locY`, which only records where the window is shown.
- Sprite loading, scaling and flushing (`loadIconsFromDir`, `flushIcons`, `reloadSprites`) are file I/O. Only the grab and swing frame counts matter to the engine, and they are constructor arguments. Whether each reminder icon loaded is a constructor argument too.
- `getWorkArea`/`getWorkAreaRect` query the graphics environment. The work area is a parameter, and `positionBubble` takes the same rectangle.
- `isForegroundFullscreen`/`getForegroundRect` are foreign calls. Their result is a boolean in `Sensors`.
- `startAudioProbeThread` is a background thread with floating-point RMS. Whether a probe exists and whether it hears sound above 0.01 are booleans in `Sensors`.
- `PetRecorder` logging (`logAction`, `setRecordingEnabled`) is a side effect with no influence on the state.
- `System.currentTimeMillis` is read as one `nowMs` per tick, though `onTick` reads the clock twice in the same tick.
- `java.util.Random` is not modelled. Every draw is a raw natural number, and `nextInt(n)` is that number modulo `n`, so any sequence of outcomes the generator could produce can be supplied.
- `getProgressPercent` rounds a double and feeds only the display.
- The getters (`getElapsedActiveMinutes`, `getElapsedActiveSeconds`, `getReminderSecondsTotal`, the state and mode getters) are read-only. `getElapsedActiveHMS` is modelled.
- Fields the engine never reads, and helpers nothing calls: `bounceArmed`, `didSmallBounce`, `preImpactVy`, `dragPressWinY`, `dragExceededThreshold`, `dragWasOnGroundAtPress`, `trySetIdle`, `tryEnterLand`. `stateAtPress` is written and kept, but nothing reads it.
- The bubble window following the pet on each tick is only window placement; the placement rule itself is `Bubble.BubblePosition`.
- `startRunning`/`stopRunning` only start and stop the timer.
- The integers are unbounded. The Java `int` and `long` fields never come near overflow at 30 ticks per second except `tick`, after about two years of uninterrupted running. The model does not wrap `tick`.
- The intermediate `setLocation` calls inside a handler are not modelled: only the last position shown in a tick is kept.
- Reminder.Accrue: the contract is stated for cycles that satisfy `Cycle.Valid`. Cycles that break it cannot arise, because every method keeps `Valid()`.
- Pet.DesktopPet.OnTick: its contract states the invariant, the tick counter, the reminder accrual, the bubble and the clock. The movement of each state is stated by the per-state methods it dispatches to, so OnTick does not restate the state machine in one clause.
- Pet.DesktopPet.BeginTick: it only runs `CountTick` and then `WakeChecks`. It re-exports `CountTick`'s contract; the resume teleport and the sleep-plan trigger are stated on `ResumeCheck` and `MouseIdleCheck`.
- Pet.DesktopPet.WakeChecks: it only runs `ResumeCheck` and then `MouseIdleCheck`, whose contracts state the effects. Its own contract carries the speed bound and the recorded clock.
- Pet.DesktopPet.Behave: it only runs `StepState` and then `AiTick`. Its contract carries the bounds; the effects are stated on the handlers and on `AiTick`.
- Pet.DesktopPet.StepState: it only picks one of `StepSleepCycle`, `StepGround` and `StepWall` by the state group. Its contract carries the bounds.
- Pet.DesktopPet.StepGround: it only calls the handler of the ground or air state (`IdleTick`, `WalkTick`, `DragTick`, `AirTick`, `LandTick`). Its contract carries the bounds; each handler states its effect.
- Pet.DesktopPet.StepWall: it only calls the handler of the wall or ceiling state (`GrabTick`, `SwingTick`, `ClimbTick`, `AttachTick`, `DismountTick`, `CeilingTick`). Its contract carries the bounds; each handler states its effect.
