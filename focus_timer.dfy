/**
 * The focus timer page (frontend/src/pages/PomodoroPage.tsx): a work/break
 * countdown with adjustable durations and a cycle counter, plus the
 * "pick a task for this session" dialog.
 *
 * The page is a set of state cells updated by event handlers and effects.
 * Each event is modelled as one atomic step on a value `Timer` (the timer
 * cells) or `TaskPicker` (the dialog cells); the class `FocusTimerPage`
 * holds the cells as fields and its methods perform the same updates in
 * place. The idle re-sync effect runs after every event that leaves the
 * timer stopped, so it is folded into the steps as `Settle`.
 */
module FocusTimer {
  import opened Results
  import opened Text
  import opened ClockText
  import opened JsMath
  import Types

  datatype Mode = Work | Break

  /** The timer cells: `mode`, `workMinutes`, `breakMinutes`, `secondsLeft`, `isRunning`, `cycle`. */
  datatype Timer = Timer(
    mode: Mode,
    workMinutes: nat,
    breakMinutes: nat,
    secondsLeft: nat,
    isRunning: bool,
    cycle: nat)

  /** Full length, in seconds, of the current phase (`totalSeconds`). */
  function PhaseSeconds(t: Timer): nat {
    if t.mode == Work then t.workMinutes * 60 else t.breakMinutes * 60
  }

  /**
   * The state every step keeps: durations and cycle are at least 1; a
   * running countdown is within its phase; a stopped one shows the full phase.
   */
  predicate Inv(t: Timer) {
    && t.workMinutes >= 1
    && t.breakMinutes >= 1
    && t.cycle >= 1
    && (t.isRunning ==> 1 <= t.secondsLeft <= PhaseSeconds(t))
    && (!t.isRunning ==> t.secondsLeft == PhaseSeconds(t))
  }

  /** The state the page mounts with. */
  function Initial(): (t: Timer)
    ensures Inv(t) && !t.isRunning && t.mode == Work && t.cycle == 1
    ensures t.workMinutes == 25 && t.breakMinutes == 5 && t.secondsLeft == 1500
  {
    Timer(Work, 25, 5, 25 * 60, false, 1)
  }

  /**
   * The idle re-sync effect: whenever the timer is not running, the
   * countdown is overwritten with the full length of the current phase.
   */
  function Settle(t: Timer): (r: Timer)
    ensures r.mode == t.mode && r.workMinutes == t.workMinutes && r.breakMinutes == t.breakMinutes
    ensures r.isRunning == t.isRunning && r.cycle == t.cycle
    ensures t.isRunning ==> r.secondsLeft == t.secondsLeft
    ensures !t.isRunning ==> r.secondsLeft == PhaseSeconds(t)
  {
    if t.isRunning then t else t.(secondsLeft := PhaseSeconds(t))
  }

  /**
   * The end of a phase: work hands over to a full break with the same
   * cycle, a break hands over to a full work phase of the next cycle.
   */
  function Expired(t: Timer): (r: Timer)
    ensures r.mode != t.mode
    ensures r.secondsLeft == PhaseSeconds(r)
    ensures r.cycle == if t.mode == Break then t.cycle + 1 else t.cycle
    ensures r.workMinutes == t.workMinutes && r.breakMinutes == t.breakMinutes
    ensures r.isRunning == t.isRunning
    ensures Inv(t) && t.isRunning ==> Inv(r)
  {
    if t.mode == Work then t.(mode := Break, secondsLeft := t.breakMinutes * 60)
    else t.(mode := Work, cycle := t.cycle + 1, secondsLeft := t.workMinutes * 60)
  }

  /**
   * One second of the interval. No interval exists while stopped; a count of
   * 1 or less ends the phase; otherwise the count drops by exactly one.
   */
  function TickStep(t: Timer): (r: Timer)
    ensures !t.isRunning ==> r == t
    ensures t.isRunning && t.secondsLeft > 1 ==>
      r.secondsLeft == t.secondsLeft - 1 && r.mode == t.mode && r.cycle == t.cycle
    ensures t.isRunning && t.secondsLeft <= 1 ==> r == Expired(t)
    ensures r.workMinutes == t.workMinutes && r.breakMinutes == t.breakMinutes && r.isRunning == t.isRunning
    ensures Inv(t) ==> Inv(r)
  {
    if !t.isRunning then t
    else if t.secondsLeft <= 1 then Expired(t)
    else t.(secondsLeft := t.secondsLeft - 1)
  }

  /** `n` consecutive ticks. */
  function Ticks(t: Timer, n: nat): (r: Timer)
    ensures Inv(t) ==> Inv(r)
    decreases n
  {
    if n == 0 then t else Ticks(TickStep(t), n - 1)
  }

  /** The Start/Pause button, followed by the re-sync effect. */
  function ToggleStep(t: Timer): (r: Timer)
    ensures r.isRunning == !t.isRunning
    ensures r.mode == t.mode && r.cycle == t.cycle
    ensures r.workMinutes == t.workMinutes && r.breakMinutes == t.breakMinutes
    ensures t.isRunning ==> r.secondsLeft == PhaseSeconds(t)
    ensures !t.isRunning ==> r.secondsLeft == t.secondsLeft
    ensures Inv(t) ==> Inv(r)
  {
    Settle(t.(isRunning := !t.isRunning))
  }

  /** The Reset button. */
  function ResetStep(t: Timer): (r: Timer)
    ensures !r.isRunning && r.mode == Work && r.cycle == 1
    ensures r.secondsLeft == t.workMinutes * 60
    ensures r.workMinutes == t.workMinutes && r.breakMinutes == t.breakMinutes
    ensures t.workMinutes >= 1 && t.breakMinutes >= 1 ==> Inv(r)
  {
    t.(isRunning := false, mode := Work, cycle := 1, secondsLeft := t.workMinutes * 60)
  }

  /**
   * `Math.max(1, Number(v) || 1)` for the text of a minutes input, where
   * `None` is text that is not a number (`NaN`) and `Some(n)` a whole
   * number. Zero, negatives and non-numbers all give 1; there is no upper bound.
   */
  function ClampMinutes(input: Option<int>): (m: nat)
    ensures m >= 1
    ensures input.Some? && input.value >= 1 ==> m == input.value
    ensures input.None? || input.value < 1 ==> m == 1
  {
    if input.None? || input.value == 0 then 1
    else if input.value < 1 then 1
    else input.value
  }

  /** The work-minutes input; it is disabled while the timer runs. */
  function SetWorkStep(t: Timer, input: Option<int>): (r: Timer)
    ensures t.isRunning ==> r == t
    ensures !t.isRunning ==> r == Settle(t.(workMinutes := ClampMinutes(input)))
    ensures Inv(t) ==> Inv(r)
  {
    if t.isRunning then t else Settle(t.(workMinutes := ClampMinutes(input)))
  }

  /** The break-minutes input; it is disabled while the timer runs. */
  function SetBreakStep(t: Timer, input: Option<int>): (r: Timer)
    ensures t.isRunning ==> r == t
    ensures !t.isRunning ==> r == Settle(t.(breakMinutes := ClampMinutes(input)))
    ensures Inv(t) ==> Inv(r)
  {
    if t.isRunning then t else Settle(t.(breakMinutes := ClampMinutes(input)))
  }

  // ---------------------------------------------------------------------------
  // Properties of the countdown over many ticks
  // ---------------------------------------------------------------------------

  /** Ticks compose: `a + b` ticks are `a` ticks followed by `b` ticks. */
  lemma {:induction false} TicksAdd(t: Timer, a: nat, b: nat)
    ensures Ticks(t, a + b) == Ticks(Ticks(t, a), b)
    decreases a
  {
    if a > 0 {
      TicksAdd(TickStep(t), a - 1, b);
    }
  }

  /** A stopped timer does not move, however many seconds pass. */
  lemma {:induction false} IdleTicks(t: Timer, n: nat)
    requires !t.isRunning
    ensures Ticks(t, n) == t
    decreases n
  {
    if n > 0 {
      IdleTicks(t, n - 1);
    }
  }

  /**
   * Within a phase the count goes down by one per tick and nothing else
   * changes: mode and cycle stay as they were.
   */
  lemma {:induction false} TicksWithinPhase(t: Timer, n: nat)
    requires t.isRunning && n < t.secondsLeft
    ensures Ticks(t, n) == t.(secondsLeft := t.secondsLeft - n)
    decreases n
  {
    if n > 0 {
      TicksWithinPhase(TickStep(t), n - 1);
    }
  }

  /** After exactly `secondsLeft` ticks the phase has ended. */
  lemma PhaseExpiry(t: Timer)
    requires t.isRunning && t.secondsLeft >= 1
    ensures Ticks(t, t.secondsLeft) == Expired(t)
  {
    CountdownEnds(t, t.secondsLeft - 1);
  }

  lemma {:induction false} CountdownEnds(t: Timer, n: nat)
    requires t.isRunning && t.secondsLeft == n + 1
    ensures Ticks(t, t.secondsLeft) == Expired(t)
    decreases n
  {
    var next := TickStep(t);
    assert Ticks(t, t.secondsLeft) == Ticks(next, n);
    if n == 0 {
      assert next == Expired(t);
    } else {
      CountdownEnds(next, n - 1);
      assert next == t.(secondsLeft := n);
    }
  }

  /**
   * A full work phase followed by a full break brings a running timer back
   * to the start of a work phase, one cycle later.
   */
  lemma FullCycle(t: Timer)
    requires Inv(t) && t.isRunning && t.mode == Work && t.secondsLeft == t.workMinutes * 60
    ensures Ticks(t, (t.workMinutes + t.breakMinutes) * 60) == t.(cycle := t.cycle + 1)
  {
    var u := Expired(t);
    PhaseExpiry(t);
    PhaseExpiry(u);
    TicksThen(t, t.secondsLeft, u.secondsLeft, (t.workMinutes + t.breakMinutes) * 60, u, Expired(u));
    BreakThenWork(t, u);
  }

  /** Reaching `u` in `a` ticks and then `v` in `b` more is reaching `v` in `a + b`. */
  lemma TicksThen(t: Timer, a: nat, b: nat, n: nat, u: Timer, v: Timer)
    requires n == a + b && Ticks(t, a) == u && Ticks(u, b) == v
    ensures Ticks(t, n) == v
  {
    TicksAdd(t, a, b);
  }

  /** The break after a work phase ends in the next cycle's full work phase. */
  lemma BreakThenWork(t: Timer, u: Timer)
    requires t.mode == Work && t.secondsLeft == t.workMinutes * 60 && u == Expired(t)
    ensures Expired(u) == t.(cycle := t.cycle + 1)
  {
  }

  /**
   * The default session: press Start, and after 25 minutes the break begins
   * with 5 minutes on the clock; 5 minutes later the second cycle's work
   * phase starts from 25:00.
   */
  lemma FirstSession()
    ensures Ticks(ToggleStep(Initial()), 1500) == Timer(Break, 25, 5, 300, true, 1)
    ensures Ticks(ToggleStep(Initial()), 1800) == Timer(Work, 25, 5, 1500, true, 2)
  {
    var t := ToggleStep(Initial());
    PhaseExpiry(t);
    FullCycle(t);
  }

  /**
   * Pausing discards the time already counted down in the phase, and
   * starting again resumes from the full phase, not from where it stopped.
   */
  lemma PauseDiscardsElapsed(t: Timer)
    requires Inv(t) && t.isRunning
    ensures ToggleStep(t) == t.(isRunning := false, secondsLeft := PhaseSeconds(t))
    ensures ToggleStep(ToggleStep(t)) == t.(secondsLeft := PhaseSeconds(t))
  {
  }

  /** Reset is idempotent and does not depend on the mode, count, cycle or running flag. */
  lemma ResetIdempotent(t: Timer, m: Mode, n: nat, c: nat, run: bool)
    ensures ResetStep(ResetStep(t)) == ResetStep(t)
    ensures ResetStep(t) == ResetStep(t.(mode := m, secondsLeft := n, cycle := c, isRunning := run))
  {
  }

  // ---------------------------------------------------------------------------
  // Progress ring
  // ---------------------------------------------------------------------------

  /** Elapsed share of the phase, in percent, clamped to [0, 100]. */
  function Progress(total: int, left: int): (p: real)
    ensures 0.0 <= p <= 100.0
    ensures total <= 0 ==> p == 0.0
    ensures total > 0 && left >= total ==> p == 0.0
    ensures total > 0 && left <= 0 ==> p == 100.0
  {
    if total > 0 then
      ElapsedShareBounds(total, left);
      MinReal(100.0, MaxReal(0.0, ((total - left) as real / total as real) * 100.0))
    else 0.0
  }

  lemma ElapsedShareBounds(total: int, left: int)
    requires total > 0
    ensures left >= total ==> ((total - left) as real / total as real) * 100.0 <= 0.0
    ensures left <= 0 ==> ((total - left) as real / total as real) * 100.0 >= 100.0
  {
    var x := (total - left) as real / total as real;
    assert x * total as real == (total - left) as real;
  }

  /** A later count (fewer seconds left) never shows less progress. */
  lemma ProgressMonotone(total: int, left1: int, left2: int)
    requires left1 <= left2
    ensures Progress(total, left2) <= Progress(total, left1)
  {
    if total > 0 {
      QuotientMonotone((total - left2) as real, (total - left1) as real, total as real);
    }
  }

  lemma QuotientMonotone(a: real, b: real, d: real)
    requires a <= b && d > 0.0
    ensures a / d <= b / d
  {
    var q := (b - a) / d;
    assert q * d == b - a;
    assert b / d - a / d == q;
  }

  /** A stopped timer shows an empty ring; a running one is never full. */
  lemma ProgressOfTimer(t: Timer)
    requires Inv(t)
    ensures !t.isRunning ==> Progress(PhaseSeconds(t), t.secondsLeft) == 0.0
    ensures t.isRunning ==> Progress(PhaseSeconds(t), t.secondsLeft) < 100.0
  {
    if t.isRunning {
      ElapsedShareBelowFull(PhaseSeconds(t), t.secondsLeft);
    }
  }

  lemma ElapsedShareBelowFull(total: int, left: int)
    requires total > 0 && left >= 1
    ensures ((total - left) as real / total as real) * 100.0 < 100.0
  {
    var d := total as real;
    var x := (total - left) as real / d;
    assert x * d == (total - left) as real;
  }

  // ---------------------------------------------------------------------------
  // Choosing the task for the session
  // ---------------------------------------------------------------------------

  const NoTaskYet: string := "No task selected yet"

  /** The dialog cells: `showTaskModal`, `selectedTaskId`, `customTask`, `activeTask`. */
  datatype TaskPicker = TaskPicker(
    showTaskModal: bool,
    selectedTaskId: Option<int>,
    customTask: string,
    activeTask: string)

  function InitialPicker(): (p: TaskPicker)
    ensures !p.showTaskModal && p.selectedTaskId.None? && p.customTask == "" && p.activeTask == NoTaskYet
  {
    TaskPicker(false, None, "", NoTaskYet)
  }

  /**
   * The label `confirmTaskSelection` leaves active: non-blank custom text,
   * trimmed, wins; otherwise the title of the first task with the selected
   * id; otherwise the current label stays.
   */
  function ConfirmedLabel(active: string, custom: string, selected: Option<int>, tasks: seq<Types.Task>): (r: string)
    ensures TrimJs(custom) != "" ==> r == TrimJs(custom)
    ensures TrimJs(custom) == "" && selected.Some? && (exists i :: 0 <= i < |tasks| && tasks[i].id == selected.value) ==>
      exists i :: 0 <= i < |tasks| && tasks[i].id == selected.value && r == tasks[i].title
        && forall j :: 0 <= j < i ==> tasks[j].id != selected.value
    ensures TrimJs(custom) == "" && (selected.None? || forall i :: 0 <= i < |tasks| ==> tasks[i].id != selected.value) ==>
      r == active
  {
    if TrimJs(custom) != "" then TrimJs(custom)
    else if selected.Some? then
      match Types.FindById(tasks, selected.value)
      case Some(task) => task.title
      case None => active
    else active
  }

  /** The "Choose task" button: open the dialog with nothing chosen. */
  function OpenStep(p: TaskPicker): (r: TaskPicker)
    ensures r.showTaskModal && r.selectedTaskId.None? && r.customTask == "" && r.activeTask == p.activeTask
  {
    p.(showTaskModal := true, selectedTaskId := None, customTask := "")
  }

  /** Typing in the custom-task box also clears the chosen existing task. */
  function EditCustomStep(p: TaskPicker, text: string): (r: TaskPicker)
    ensures r.customTask == text && r.selectedTaskId.None?
    ensures r.showTaskModal == p.showTaskModal && r.activeTask == p.activeTask
  {
    p.(customTask := text, selectedTaskId := None)
  }

  /** "Use this task": take the confirmed label and close the dialog. */
  function ConfirmStep(p: TaskPicker, tasks: seq<Types.Task>): (r: TaskPicker)
    ensures !r.showTaskModal
    ensures r.selectedTaskId == p.selectedTaskId && r.customTask == p.customTask
    ensures r.activeTask == ConfirmedLabel(p.activeTask, p.customTask, p.selectedTaskId, tasks)
  {
    p.(activeTask := ConfirmedLabel(p.activeTask, p.customTask, p.selectedTaskId, tasks), showTaskModal := false)
  }

  /** Opening the dialog and confirming straight away keeps the active task. */
  lemma OpenThenConfirmKeepsTask(p: TaskPicker, tasks: seq<Types.Task>)
    ensures ConfirmStep(OpenStep(p), tasks).activeTask == p.activeTask
  {
    assert TrimJs("") == "";
  }

  /**
   * Typing only blanks into the custom box deselects the chosen task, so
   * confirming then keeps the previous label even if a task had been chosen.
   */
  lemma BlankCustomKeepsTask(p: TaskPicker, blanks: string, tasks: seq<Types.Task>)
    requires forall i :: 0 <= i < |blanks| ==> IsWhitespace(JsWhitespace, blanks[i])
    ensures ConfirmStep(EditCustomStep(p, blanks), tasks).activeTask == p.activeTask
  {
  }

  /** The label shown on the page: `activeTask || "No task selected yet"`. */
  function ActiveTaskDisplay(active: string): (r: string)
    ensures r != ""
    ensures active != "" ==> r == active
  {
    if active != "" then active else NoTaskYet
  }

  // ---------------------------------------------------------------------------
  // The page's state cells, updated in place
  // ---------------------------------------------------------------------------

  class FocusTimerPage {
    var mode: Mode
    var workMinutes: nat
    var breakMinutes: nat
    var secondsLeft: nat
    var isRunning: bool
    var cycle: nat
    var showTaskModal: bool
    var selectedTaskId: Option<int>
    var customTask: string
    var activeTask: string

    function TimerState(): Timer
      reads this
    {
      Timer(mode, workMinutes, breakMinutes, secondsLeft, isRunning, cycle)
    }

    function Picker(): TaskPicker
      reads this
    {
      TaskPicker(showTaskModal, selectedTaskId, customTask, activeTask)
    }

    predicate Valid()
      reads this
    {
      Inv(TimerState())
    }

    constructor ()
      ensures Valid()
      ensures TimerState() == Initial() && Picker() == InitialPicker()
    {
      mode := Work;
      workMinutes := 25;
      breakMinutes := 5;
      secondsLeft := 25 * 60;
      isRunning := false;
      cycle := 1;
      showTaskModal := false;
      selectedTaskId := None;
      customTask := "";
      activeTask := NoTaskYet;
    }

    /** The idle re-sync effect. */
    method SyncIdle()
      modifies this
      ensures TimerState() == Settle(old(TimerState()))
      ensures Picker() == old(Picker())
    {
      if isRunning {
        return;
      }
      if mode == Work {
        secondsLeft := workMinutes * 60;
      } else {
        secondsLeft := breakMinutes * 60;
      }
    }

    /** One firing of the one-second interval. */
    method Tick()
      requires Valid()
      modifies this
      ensures Valid()
      ensures TimerState() == TickStep(old(TimerState()))
      ensures Picker() == old(Picker())
    {
      if !isRunning {
        return;
      }
      if secondsLeft <= 1 {
        if mode == Work {
          mode := Break;
          secondsLeft := breakMinutes * 60;
        } else {
          mode := Work;
          cycle := cycle + 1;
          secondsLeft := workMinutes * 60;
        }
      } else {
        secondsLeft := secondsLeft - 1;
      }
    }

    method ToggleRunning()
      requires Valid()
      modifies this
      ensures Valid()
      ensures TimerState() == ToggleStep(old(TimerState()))
      ensures Picker() == old(Picker())
    {
      isRunning := !isRunning;
      SyncIdle();
    }

    method HandleReset()
      requires Valid()
      modifies this
      ensures Valid()
      ensures TimerState() == ResetStep(old(TimerState()))
      ensures Picker() == old(Picker())
    {
      isRunning := false;
      mode := Work;
      cycle := 1;
      secondsLeft := workMinutes * 60;
      SyncIdle();
    }

    method SetWorkMinutes(input: Option<int>)
      requires Valid()
      modifies this
      ensures Valid()
      ensures TimerState() == SetWorkStep(old(TimerState()), input)
      ensures Picker() == old(Picker())
    {
      if isRunning {
        return;
      }
      workMinutes := ClampMinutes(input);
      SyncIdle();
    }

    method SetBreakMinutes(input: Option<int>)
      requires Valid()
      modifies this
      ensures Valid()
      ensures TimerState() == SetBreakStep(old(TimerState()), input)
      ensures Picker() == old(Picker())
    {
      if isRunning {
        return;
      }
      breakMinutes := ClampMinutes(input);
      SyncIdle();
    }

    method OpenTaskModal()
      modifies this
      ensures Picker() == OpenStep(old(Picker()))
      ensures TimerState() == old(TimerState())
    {
      showTaskModal := true;
      selectedTaskId := None;
      customTask := "";
    }

    /** Choosing the radio button of an existing task. */
    method ChooseTask(id: int)
      modifies this
      ensures Picker() == old(Picker()).(selectedTaskId := Some(id))
      ensures TimerState() == old(TimerState())
    {
      selectedTaskId := Some(id);
    }

    method EditCustomTask(text: string)
      modifies this
      ensures Picker() == EditCustomStep(old(Picker()), text)
      ensures TimerState() == old(TimerState())
    {
      customTask := text;
      if selectedTaskId != None {
        selectedTaskId := None;
      }
    }

    method ConfirmTaskSelection(tasks: seq<Types.Task>)
      modifies this
      ensures Picker() == ConfirmStep(old(Picker()), tasks)
      ensures TimerState() == old(TimerState())
    {
      var trimmed := TrimJs(customTask);
      if trimmed != "" {
        activeTask := trimmed;
      } else if selectedTaskId != None {
        var found := Types.FindById(tasks, selectedTaskId.value);
        if found.Some? {
          activeTask := found.value.title;
        }
      }
      showTaskModal := false;
    }

    /** `formattedTime()`: whole minutes and seconds, each padded to two digits. */
    method FormattedTime() returns (text: string)
      ensures text == MinutesSeconds(secondsLeft)
    {
      var mins := TwoDigits(secondsLeft / 60);
      var secs := TwoDigits(secondsLeft % 60);
      text := mins + ":" + secs;
    }

    /** `progress`: the elapsed share of the current phase in percent. */
    method CurrentProgress() returns (p: real)
      ensures p == Progress(PhaseSeconds(TimerState()), secondsLeft)
    {
      var totalSeconds := if mode == Work then workMinutes * 60 else breakMinutes * 60;
      if totalSeconds > 0 {
        p := MinReal(100.0, MaxReal(0.0, ((totalSeconds - secondsLeft) as real / totalSeconds as real) * 100.0));
      } else {
        p := 0.0;
      }
    }

    /** The close button and "Cancel". */
    method CloseTaskModal()
      modifies this
      ensures Picker() == old(Picker()).(showTaskModal := false)
      ensures TimerState() == old(TimerState())
    {
      showTaskModal := false;
    }
  }
}
