/** The health reminder: the activity test, the accrual of active ticks up
    to the reminder threshold, the STAND/SIT alternation, and the
    "HH:MM:SS" rendering of the accrued time. */
module Reminder {
  import opened Geometry

  const ActiveIdleMs: int := 60000      // ACTIVE_IDLE_MS
  const Fps: int := 30                  // FPS
  const RemindMinutes: int := 1         // REMIND_MINUTES
  const RemindTicks: int := RemindMinutes * 60 * Fps   // REMIND_TICKS = 1800
  const CloseDebounceMs: int := 250     // bubble close debounce

  /** Which posture the next reminder asks for. */
  datatype RemindKind = Stand | Sit
  {
    /** The alternation done by hideBubbleAndAdvance. */
    function Next(): RemindKind
    {
      if this == Stand then Sit else Stand
    }
  }

  /** The kind after n acknowledgements. */
  function KindAfter(k: RemindKind, n: nat): RemindKind
    decreases n
  {
    if n == 0 then k else KindAfter(k.Next(), n - 1)
  }

  /** The reminders alternate: after an even number of acknowledgements
      the kind is back where it started, after an odd number it is the
      other one. */
  lemma {:induction false} KindAlternates(k: RemindKind, n: nat)
    ensures KindAfter(k, n) == (if n % 2 == 0 then k else k.Next())
    decreases n
  {
    if n > 0 {
      KindAlternates(k.Next(), n - 1);
    }
  }

  /** The activity test of one tick (DesktopPet.java:580-587). idleGapMs
      is the time since the last global keyboard or mouse event;
      loud stands for the audio probe's RMS being above 0.01. */
  function SensedActive(idleGapMs: int, detectFullscreen: bool, foregroundFullscreen: bool,
                        detectAudio: bool, probeAvailable: bool, loud: bool): bool
  {
    var fullscreen := detectFullscreen && foregroundFullscreen;
    var audioBusy := detectAudio && probeAvailable && loud;
    idleGapMs <= ActiveIdleMs || (fullscreen && (if probeAvailable then audioBusy else true))
  }

  /** Sources of activity: recent input always counts; a full-screen
      foreground window counts on its own when no audio probe exists and
      only together with sound when one does; nothing else counts. With
      a probe but audio detection switched off, full screen never counts. */
  lemma ActivitySources(idleGapMs: int, detectFullscreen: bool, foregroundFullscreen: bool,
                        detectAudio: bool, probeAvailable: bool, loud: bool)
    ensures idleGapMs <= ActiveIdleMs ==>
              SensedActive(idleGapMs, detectFullscreen, foregroundFullscreen, detectAudio, probeAvailable, loud)
    ensures !probeAvailable && detectFullscreen && foregroundFullscreen ==>
              SensedActive(idleGapMs, detectFullscreen, foregroundFullscreen, detectAudio, probeAvailable, loud)
    ensures idleGapMs > ActiveIdleMs && probeAvailable ==>
              (SensedActive(idleGapMs, detectFullscreen, foregroundFullscreen, detectAudio, probeAvailable, loud)
               <==> detectFullscreen && foregroundFullscreen && detectAudio && loud)
    ensures idleGapMs > ActiveIdleMs && !(detectFullscreen && foregroundFullscreen) ==>
              !SensedActive(idleGapMs, detectFullscreen, foregroundFullscreen, detectAudio, probeAvailable, loud)
  {
  }

  /** The reminder counter and whether a reminder is waiting to be
      acknowledged (activeUseTicks, waitingClick). */
  datatype Cycle = Cycle(activeTicks: nat, waiting: bool)
  {
    /** The counter stays within the threshold, and a reminder waits
        exactly when the counter has reached it. */
    predicate Valid()
    {
      activeTicks <= RemindTicks && (waiting <==> activeTicks == RemindTicks)
    }
  }

  /** One tick of accrual (DesktopPet.java:589-597). */
  function Accrue(c: Cycle, enabled: bool, userActive: bool): (r: Cycle)
    ensures c.Valid() ==> r.Valid()
    ensures !enabled || c.waiting || !userActive ==> r == c
    ensures c.Valid() && enabled && !c.waiting && userActive ==> r.activeTicks == c.activeTicks + 1
  {
    if enabled && !c.waiting && userActive then
      var a := if c.activeTicks < RemindTicks then c.activeTicks + 1 else c.activeTicks;
      Cycle(a, a >= RemindTicks)
    else c
  }

  /** Number of true entries. */
  function CountTrue(acts: seq<bool>): nat
    decreases |acts|
  {
    if |acts| == 0 then 0 else (if acts[0] then 1 else 0) + CountTrue(acts[1..])
  }

  /** Accrual over a sequence of ticks with reminders enabled. */
  function AccrueAll(c: Cycle, acts: seq<bool>): Cycle
    decreases |acts|
  {
    if |acts| == 0 then c else AccrueAll(Accrue(c, true, acts[0]), acts[1..])
  }

  /** Every active tick adds one to the counter until the threshold, at
      which point the reminder waits and the counter stops. */
  lemma {:induction false} AccrueAllCounts(c: Cycle, acts: seq<bool>)
    requires c.Valid()
    ensures AccrueAll(c, acts).Valid()
    ensures AccrueAll(c, acts).activeTicks == Min(RemindTicks, c.activeTicks + CountTrue(acts))
    decreases |acts|
  {
    if |acts| > 0 {
      AccrueAllCounts(Accrue(c, true, acts[0]), acts[1..]);
    }
  }

  /** From a fresh cycle, the reminder waits exactly when 1800 active
      ticks (one minute at 30 frames per second) have been seen. */
  lemma RemindsAfterOneActiveMinute(acts: seq<bool>)
    ensures AccrueAll(Cycle(0, false), acts).waiting <==> CountTrue(acts) >= RemindTicks
  {
    AccrueAllCounts(Cycle(0, false), acts);
  }

  /** hideBubbleAndAdvance acts only on a visible bubble and at least
      250 ms after the previous close. */
  predicate AckAccepted(bubbleVisible: bool, nowMs: int, lastCloseMs: int)
  {
    bubbleVisible && nowMs - lastCloseMs >= CloseDebounceMs
  }

  /** Accrued time split into hours, minutes and seconds
      (getElapsedActiveHMS, DesktopPet.java:1728-1731). */
  function ElapsedHMS(activeTicks: nat): (r: (nat, nat, nat))
    ensures r.0 * 3600 + r.1 * 60 + r.2 == activeTicks / Fps
    ensures r.1 < 60 && r.2 < 60
  {
    var s := activeTicks / Fps;
    (s / 3600, (s % 3600) / 60, s % 60)
  }

  function DigitChar(d: nat): char
    requires d < 10
  {
    ['0', '1', '2', '3', '4', '5', '6', '7', '8', '9'][d]
  }

  function DigitValue(c: char): int
  {
    c as int - '0' as int
  }

  /** Decimal digits of n. */
  function Decimal(n: nat): (r: string)
    ensures |r| >= 1
  {
    if n < 10 then [DigitChar(n)] else Decimal(n / 10) + [DigitChar(n % 10)]
  }

  /** String.format("%02d", n) for n >= 0: at least two digits. */
  function Pad2(n: nat): (r: string)
    ensures |r| >= 2
    ensures n < 100 ==> |r| == 2 && DigitValue(r[0]) * 10 + DigitValue(r[1]) == n
  {
    if n < 10 then ['0', DigitChar(n)]
    else if n < 100 then [DigitChar(n / 10), DigitChar(n % 10)]
    else Decimal(n)
  }

  /** "%02d:%02d:%02d" applied to ElapsedHMS. */
  function FormatHMS(activeTicks: nat): string
  {
    var t := ElapsedHMS(activeTicks);
    Pad2(t.0) + ":" + Pad2(t.1) + ":" + Pad2(t.2)
  }

  /** Reading "HH:MM:SS" back gives the accrued whole seconds. */
  function ParseHMS(s: string): int
    requires |s| == 8
  {
    (DigitValue(s[0]) * 10 + DigitValue(s[1])) * 3600
    + (DigitValue(s[3]) * 10 + DigitValue(s[4])) * 60
    + DigitValue(s[6]) * 10 + DigitValue(s[7])
  }

  /** Below 100 hours the rendering is "HH:MM:SS" and reads back to the
      accrued whole seconds. */
  lemma FormatHMSRoundTrip(activeTicks: nat)
    requires activeTicks < 100 * 3600 * Fps
    ensures var s := FormatHMS(activeTicks);
            |s| == 8 && s[2] == ':' && s[5] == ':' && ParseHMS(s) == activeTicks / Fps
  {
    var t := ElapsedHMS(activeTicks);
    var h, m, sec := Pad2(t.0), Pad2(t.1), Pad2(t.2);
    var s := FormatHMS(activeTicks);
    assert s == h + ":" + m + ":" + sec;
    assert s[0] == h[0] && s[1] == h[1] && s[3] == m[0] && s[4] == m[1] && s[6] == sec[0] && s[7] == sec[1];
  }
}
