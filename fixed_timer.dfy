/**
 * The compact countdown widget (frontend/src/components/pomodoro/PomodoroTimer.tsx):
 * fixed 25-minute work and 5-minute break phases, no cycle counter, and a
 * pause that keeps the remaining time because nothing refills it.
 */
module FixedTimer {
  import opened FocusTimer
  import opened Text
  import opened ClockText

  const WorkMinutes: nat := 25
  const BreakMinutes: nat := 5

  /** The widget's state cells: `secondsLeft`, `isRunning`, `mode`. */
  datatype Countdown = Countdown(mode: Mode, secondsLeft: nat, isRunning: bool)

  function FixedPhase(m: Mode): nat {
    if m == Work then WorkMinutes * 60 else BreakMinutes * 60
  }

  /** The count is always within the current phase, running or not. */
  predicate FixedInv(c: Countdown) {
    1 <= c.secondsLeft <= FixedPhase(c.mode)
  }

  function FixedInitial(): (c: Countdown)
    ensures FixedInv(c) && c.mode == Work && c.secondsLeft == 1500 && !c.isRunning
  {
    Countdown(Work, WorkMinutes * 60, false)
  }

  /**
   * One second of the interval: a count of 1 or less switches phase (work to
   * a 300-second break, break to a 1500-second work phase); otherwise the
   * count drops by one. Nothing happens while stopped.
   */
  function FixedTick(c: Countdown): (r: Countdown)
    ensures !c.isRunning ==> r == c
    ensures c.isRunning && c.secondsLeft > 1 ==> r == c.(secondsLeft := c.secondsLeft - 1)
    ensures c.isRunning && c.secondsLeft <= 1 ==>
      r.mode != c.mode && r.secondsLeft == (if c.mode == Work then 300 else 1500) && r.isRunning
    ensures FixedInv(c) ==> FixedInv(r)
  {
    if !c.isRunning then c
    else if c.secondsLeft <= 1 then
      if c.mode == Work then c.(mode := Break, secondsLeft := BreakMinutes * 60)
      else c.(mode := Work, secondsLeft := WorkMinutes * 60)
    else c.(secondsLeft := c.secondsLeft - 1)
  }

  function FixedTicks(c: Countdown, n: nat): (r: Countdown)
    ensures FixedInv(c) ==> FixedInv(r)
    decreases n
  {
    if n == 0 then c else FixedTicks(FixedTick(c), n - 1)
  }

  /** Start/Pause flips `isRunning` and nothing else. */
  function FixedToggle(c: Countdown): (r: Countdown)
    ensures r.isRunning == !c.isRunning
    ensures r.mode == c.mode && r.secondsLeft == c.secondsLeft
  {
    c.(isRunning := !c.isRunning)
  }

  function FixedReset(c: Countdown): (r: Countdown)
    ensures r == FixedInitial()
  {
    Countdown(Work, WorkMinutes * 60, false)
  }

  /** Within a phase, `n` ticks take exactly `n` seconds off the count. */
  lemma {:induction false} FixedTicksWithinPhase(c: Countdown, n: nat)
    requires c.isRunning && n < c.secondsLeft
    ensures FixedTicks(c, n) == c.(secondsLeft := c.secondsLeft - n)
    decreases n
  {
    if n > 0 {
      FixedTicksWithinPhase(FixedTick(c), n - 1);
    }
  }

  /**
   * Pausing and resuming loses nothing: while paused no tick changes the
   * count, and resuming gives back exactly the state that was paused.
   */
  lemma {:induction false} PauseKeepsRemaining(c: Countdown, n: nat)
    requires c.isRunning
    ensures FixedToggle(FixedToggle(c)) == c
    ensures FixedTicks(FixedToggle(c), n) == FixedToggle(c)
    decreases n
  {
    if n > 0 {
      PauseKeepsRemaining(c, n - 1);
    }
  }

  /** How the widget relates to the page timer at its default 25/5 durations. */
  function AsPageTimer(c: Countdown, cycle: nat): (t: Timer)
    ensures t.mode == c.mode && t.secondsLeft == c.secondsLeft && t.isRunning == c.isRunning
    ensures t.workMinutes == 25 && t.breakMinutes == 5 && t.cycle == cycle
  {
    Timer(c.mode, WorkMinutes, BreakMinutes, c.secondsLeft, c.isRunning, cycle)
  }

  /**
   * A tick of the widget is a tick of the page timer at 25/5 minutes, apart
   * from the cycle counter the widget does not keep.
   */
  lemma TickAgreesWithPage(c: Countdown, cycle: nat)
    ensures var t := TickStep(AsPageTimer(c, cycle));
      t == AsPageTimer(FixedTick(c), t.cycle)
  {
  }

  /**
   * Where the two differ: pausing a running phase that has already counted
   * down keeps the count here, while the page refills it to the full phase.
   */
  lemma PauseDiffersFromPage(c: Countdown, cycle: nat)
    requires FixedInv(c) && c.isRunning && c.secondsLeft < FixedPhase(c.mode) && cycle >= 1
    ensures FixedToggle(c).secondsLeft == c.secondsLeft
    ensures ToggleStep(AsPageTimer(c, cycle)).secondsLeft == FixedPhase(c.mode)
    ensures ToggleStep(AsPageTimer(c, cycle)).secondsLeft != FixedToggle(c).secondsLeft
  {
  }

  /** The `mm:ss` display always has two-digit minutes here: the longest phase is 25:00. */
  lemma FixedDisplayWidth(c: Countdown)
    requires FixedInv(c)
    ensures |MinutesSeconds(c.secondsLeft)| == 5
  {
  }

  class FixedCountdown {
    var mode: Mode
    var secondsLeft: nat
    var isRunning: bool

    function State(): Countdown
      reads this
    {
      Countdown(mode, secondsLeft, isRunning)
    }

    constructor ()
      ensures State() == FixedInitial()
    {
      mode := Work;
      secondsLeft := WorkMinutes * 60;
      isRunning := false;
    }

    method Tick()
      modifies this
      ensures State() == FixedTick(old(State()))
    {
      if !isRunning {
        return;
      }
      if secondsLeft <= 1 {
        if mode == Work {
          mode := Break;
          secondsLeft := BreakMinutes * 60;
        } else {
          mode := Work;
          secondsLeft := WorkMinutes * 60;
        }
      } else {
        secondsLeft := secondsLeft - 1;
      }
    }

    method Toggle()
      modifies this
      ensures State() == FixedToggle(old(State()))
    {
      isRunning := !isRunning;
    }

    method Reset()
      modifies this
      ensures State() == FixedReset(old(State()))
    {
      mode := Work;
      secondsLeft := WorkMinutes * 60;
      isRunning := false;
    }

    /** The display text: `minutes:seconds`, each padded to two digits. */
    method Display() returns (text: string)
      ensures text == MinutesSeconds(secondsLeft)
    {
      var minutes := TwoDigits(secondsLeft / 60);
      var seconds := TwoDigits(secondsLeft % 60);
      text := minutes + ":" + seconds;
    }
  }
}
