/** The closed set of animation states, the run mode and the deferred
    after-landing plan of the pet (DesktopPet.State, Mode, AfterLand).
    The source's LEFT/RIGHT pairs are written as one constructor with a
    side: WALK_TO_LEFT is WalkToEdge(Left), GRAB_RIGHT is Grab(Right), and
    so on. */
module States {
  import opened Geometry

  datatype State =
    | Idle | Walk | Drag | Fall | Land
    | WalkToEdge(side: Side)        // WALK_TO_LEFT, WALK_TO_RIGHT
    | Climb(side: Side)             // CLIMB_LEFT, CLIMB_RIGHT
    | Ceiling
    | Grab(side: Side)              // ground -> wall
    | Swing(side: Side)             // ceiling -> wall
    | CeilingAttach(side: Side)     // wall -> ceiling
    | Dismount(side: Side)          // wall -> ground
    | SleepWalkToCorner | Yawn | Sleep | Wake
    | DragWake | FallWake | LandWake
  {
    /** States that count as "on the ceiling" when the pointer is pressed
        (mousePressed, DesktopPet.java:321-325). */
    predicate OnCeilingSurface()
    {
      Ceiling? || CeilingAttach? || Swing?
    }

    /** States in which the mouse-idle check does not start the sleep plan
        (DesktopPet.java:631-632). */
    predicate InSleepCycle()
    {
      Sleep? || Wake? || DragWake? || FallWake? || LandWake?
    }

    /** States in which startIdleSleepPlan does nothing
        (DesktopPet.java:1429). */
    predicate InSleepPlan()
    {
      Sleep? || Yawn? || SleepWalkToCorner?
    }

    /** States the roam AI never touches (DesktopPet.java:1211-1229). */
    predicate LeftAloneByAi()
    {
      Sleep? || Wake? || DragWake? || FallWake? || LandWake?
      || SleepWalkToCorner? || Yawn? || Drag? || Fall? || Land?
      || Grab? || Swing? || CeilingAttach? || Dismount?
    }

    /** WALK, WALK_TO_LEFT and WALK_TO_RIGHT share one handler. */
    predicate Walking()
    {
      Walk? || WalkToEdge?
    }
  }

  /** Roam: the AI decides; Manual: only commands and the pointer move the pet. */
  datatype Mode = Roam | Manual

  /** What LAND turns into when its hold expires. */
  datatype AfterLand =
    | NoPlan                    // NONE
    | WalkToClimb(side: Side)   // WALK_TO_LEFT_CLIMB, WALK_TO_RIGHT_CLIMB
    | SleepPlanWalkToCorner     // SLEEP_PLAN_WALK_TO_CORNER

  /** Every state the roam AI acts on is IDLE, a walking state, a climb or
      CEILING; every other state is left alone. */
  lemma AiActsOnFourGroups(s: State)
    ensures !s.LeftAloneByAi() <==> (s == Idle || s.Walking() || s.Climb? || s == Ceiling)
  {
  }
}
