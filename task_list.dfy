/**
 * The planner's task list (frontend/src/components/tasks/TaskList.tsx): the
 * split into active and completed tasks, what each card shows, and the
 * request the "Add to Calendar" button sends to the backend.
 */
module TaskList {
  import opened Results
  import opened Text
  import opened ClockText
  import opened PyDateTime
  import opened Types
  import GoogleCalendar

  // ---------------------------------------------------------------------------
  // The two groups
  // ---------------------------------------------------------------------------

  /** `tasks.filter(t => t.is_completed == done)`. */
  function WithStatus(tasks: seq<Task>, done: bool): (r: seq<Task>)
    ensures |r| <= |tasks|
    ensures forall i :: 0 <= i < |r| ==> r[i].isCompleted == done
    ensures forall i :: 0 <= i < |tasks| && tasks[i].isCompleted == done ==> tasks[i] in r
    ensures forall t :: t in r ==> t in tasks
    decreases |tasks|
  {
    if tasks == [] then []
    else
      var rest := WithStatus(tasks[1..], done);
      assert forall i :: 1 <= i < |tasks| ==> tasks[i] == tasks[1..][i - 1];
      if tasks[0].isCompleted == done then [tasks[0]] + rest else rest
  }

  /** The "Active Tasks" group. */
  function Pending(tasks: seq<Task>): (r: seq<Task>)
    ensures forall t :: t in r <==> t in tasks && !t.isCompleted
  {
    WithStatus(tasks, false)
  }

  /** The "Completed" group. */
  function Completed(tasks: seq<Task>): (r: seq<Task>)
    ensures forall t :: t in r <==> t in tasks && t.isCompleted
  {
    WithStatus(tasks, true)
  }

  /**
   * Filtering distributes over concatenation: each group keeps the tasks in
   * the order they have in the store.
   */
  lemma {:induction false} WithStatusAppend(a: seq<Task>, b: seq<Task>, done: bool)
    ensures WithStatus(a + b, done) == WithStatus(a, done) + WithStatus(b, done)
    decreases |a|
  {
    if a == [] {
      assert a + b == b;
    } else {
      assert (a + b)[1..] == a[1..] + b;
      WithStatusAppend(a[1..], b, done);
    }
  }

  /** Every task is in exactly one group, as many times as it is in the store. */
  lemma {:induction false} Partition(tasks: seq<Task>)
    ensures multiset(Pending(tasks)) + multiset(Completed(tasks)) == multiset(tasks)
    ensures |Pending(tasks)| + |Completed(tasks)| == |tasks|
    decreases |tasks|
  {
    if tasks != [] {
      Partition(tasks[1..]);
      assert tasks == [tasks[0]] + tasks[1..];
    }
  }

  /** A task is in the active group exactly when it is in the store and not completed. */
  lemma InActiveGroup(tasks: seq<Task>, t: Task)
    ensures t in Pending(tasks) <==> t in tasks && !t.isCompleted
  {
    if t in tasks && !t.isCompleted {
      var i :| 0 <= i < |tasks| && tasks[i] == t;
    }
  }

  const EmptyStateText: string := "Nothing here yet. Add a tiny task when you're ready."

  /** A rendered group: its header label, the count beside it, its cards and the empty-state line. */
  datatype GroupView = GroupView(heading: string, count: int, cards: seq<Task>, emptyState: Option<string>)

  function RenderGroup(heading: string, list: seq<Task>): (g: GroupView)
    ensures g.count == |g.cards| && g.cards == list
    ensures g.emptyState.Some? <==> g.cards == []
    ensures g.emptyState.Some? ==> g.emptyState.value == EmptyStateText
  {
    GroupView(heading, |list|, list, if |list| == 0 then Some(EmptyStateText) else None)
  }

  /** The two sections of the page: the active group first, then the completed one. */
  function RenderGroups(tasks: seq<Task>): (groups: (GroupView, GroupView))
    ensures groups.0.heading == "Active Tasks" && groups.0.cards == Pending(tasks)
    ensures groups.1.heading == "Completed" && groups.1.cards == Completed(tasks)
    ensures groups.0.count + groups.1.count == |tasks|
  {
    Partition(tasks);
    (RenderGroup("Active Tasks", Pending(tasks)), RenderGroup("Completed", Completed(tasks)))
  }

  /**
   * The two header counts add up to the number of tasks, and both groups
   * show the empty-state line only when there is no task at all.
   */
  lemma GroupCounts(tasks: seq<Task>)
    ensures RenderGroups(tasks).0.count + RenderGroups(tasks).1.count == |tasks|
    ensures RenderGroups(tasks).0.emptyState.Some? && RenderGroups(tasks).1.emptyState.Some? <==> tasks == []
  {
    Partition(tasks);
  }

  // ---------------------------------------------------------------------------
  // One card
  // ---------------------------------------------------------------------------

  /** `mood_tag.replace("_", " ")`: a string pattern, so only the first underscore becomes a space. */
  function ReplaceFirstUnderscore(s: string): (r: string)
    ensures |r| == |s|
    ensures forall i :: 0 <= i < |s| ==> (r[i] != s[i] <==> s[i] == '_' && '_' !in s[..i])
    ensures forall i :: 0 <= i < |s| && r[i] != s[i] ==> r[i] == ' '
    decreases |s|
  {
    if s == [] then []
    else if s[0] == '_' then [' '] + s[1..]
    else
      var rest := ReplaceFirstUnderscore(s[1..]);
      assert forall i :: 1 <= i < |s| ==> s[..i] == [s[0]] + s[1..][..i - 1];
      [s[0]] + rest
  }

  /** At most one character changes, and none changes when there is no underscore. */
  lemma ReplacesAtMostOne(s: string, i: int, j: int)
    requires 0 <= i < j < |s|
    ensures ReplaceFirstUnderscore(s)[i] == s[i] || ReplaceFirstUnderscore(s)[j] == s[j]
  {
    if ReplaceFirstUnderscore(s)[i] != s[i] {
      assert s[..j][i] == '_';
    }
  }

  lemma NoUnderscoreUnchanged(s: string)
    requires '_' !in s
    ensures ReplaceFirstUnderscore(s) == s
  {
    var r := ReplaceFirstUnderscore(s);
    forall i | 0 <= i < |s|
      ensures r[i] == s[i]
    {
      assert s[i] in s;
    }
  }

  /**
   * The text before the first underscore and everything after it, further
   * underscores included, are kept; only that underscore becomes a space.
   */
  lemma {:induction false} FirstUnderscoreOnly(before: string, after: string)
    requires '_' !in before
    ensures ReplaceFirstUnderscore(before + "_" + after) == before + " " + after
    decreases |before|
  {
    var s := before + "_" + after;
    if before == [] {
      assert s == ['_'] + after;
    } else {
      assert s[1..] == before[1..] + "_" + after;
      FirstUnderscoreOnly(before[1..], after);
    }
  }

  /** So the tag "low_energy_day" is shown as "low energy_day". */
  lemma SecondUnderscoreKept(before: string, after: string)
    requires before == "low" && after == "energy_day"
    ensures ReplaceFirstUnderscore(before + "_" + after) == "low energy_day"
  {
    FirstUnderscoreOnly(before, after);
  }

  /** What a card shows besides its title. */
  datatype CardView = CardView(
    title: string,
    description: Option<string>,
    dueBadge: bool,
    softDueBadge: bool,
    moodChip: Option<string>,
    toggleLabel: string)

  /**
   * The description, the due badge and the mood chip appear when their field
   * is truthy. The "Soft due" badge asks for a due value that is both falsy
   * and truthy, so it never appears.
   */
  function CardFor(task: Task): (c: CardView)
    ensures c.title == task.title
    ensures c.description.Some? <==> Truthy(task.description)
    ensures c.description.Some? ==> c.description.value == task.description.value
    ensures c.dueBadge <==> Truthy(task.dueDatetime)
    ensures !c.softDueBadge
    ensures c.moodChip.Some? <==> Truthy(task.moodTag)
    ensures c.moodChip.Some? ==> c.moodChip.value == ReplaceFirstUnderscore(task.moodTag.value)
    ensures c.toggleLabel == (if task.isCompleted then "Mark as not done" else "Mark done")
  {
    CardView(
      task.title,
      if Truthy(task.description) then Some(task.description.value) else None,
      Truthy(task.dueDatetime),
      !Truthy(task.dueDatetime) && Truthy(task.dueDatetime),
      if Truthy(task.moodTag) then Some(ReplaceFirstUnderscore(task.moodTag.value)) else None,
      if task.isCompleted then "Mark as not done" else "Mark done")
  }

  // ---------------------------------------------------------------------------
  // "Add to Calendar"
  // ---------------------------------------------------------------------------

  const SessionMinutes: int := 25
  const DefaultDescription: string := "Study session created from Mood Study Planner task."

  /**
   * An instant as the browser reports it: the UTC calendar date of
   * `toISOString()`, and the local `getHours()` / `getMinutes()`.
   */
  datatype BrowserInstant = BrowserInstant(utcDate: string, hours: nat, minutes: nat)

  predicate ValidInstant(t: BrowserInstant) {
    t.hours < 24 && t.minutes < 60
  }

  /**
   * The request of `addToCalendar`: the instant of the due date-time when the
   * task has one, the current instant otherwise; `HH:MM` of its local clock;
   * a fixed 25 minutes; the task's description or a default sentence.
   */
  function CalendarRequest(task: Task, due: BrowserInstant, now: BrowserInstant): (req: GoogleCalendar.EventRequest)
    requires ValidInstant(due) && ValidInstant(now)
    ensures var at := if Truthy(task.dueDatetime) then due else now;
      && req.date == at.utcDate
      && |req.startTime| == 5 && req.startTime[2] == ':'
      && AllDigits(req.startTime[..2]) && AllDigits(req.startTime[3..])
      && DecimalValue(req.startTime[..2]) == at.hours && DecimalValue(req.startTime[3..]) == at.minutes
    ensures req.title == task.title
    ensures req.durationMinutes == SessionMinutes
    ensures req.description != ""
    ensures Truthy(task.description) ==> req.description == task.description.value
    ensures !Truthy(task.description) ==> req.description == DefaultDescription
  {
    var at := if Truthy(task.dueDatetime) then due else now;
    GoogleCalendar.EventRequest(
      task.title,
      if Truthy(task.description) then task.description.value else DefaultDescription,
      at.utcDate,
      Clock(at.hours, at.minutes),
      SessionMinutes)
  }

  /**
   * Whenever the browser's date is a valid calendar date, the backend reads
   * the request's start back as exactly that date and clock time.
   */
  lemma CalendarStartParses(task: Task, due: BrowserInstant, now: BrowserInstant, y: int, m: int, d: int)
    requires ValidInstant(due) && ValidInstant(now)
    requires ValidDate(y, m, d)
    requires (if Truthy(task.dueDatetime) then due else now).utcDate == IsoDate(y, m, d)
    ensures var at := if Truthy(task.dueDatetime) then due else now;
      ParseDateTime(GoogleCalendar.StartText(CalendarRequest(task, due, now)))
        == Some(DateTime(y, m, d, at.hours, at.minutes))
  {
    var at := if Truthy(task.dueDatetime) then due else now;
    ParseIsoRoundTrip(y, m, d, at.hours, at.minutes);
  }

  /**
   * A session sent at 23:35 or later crosses midnight, so the end the
   * backend writes on the start date lies before the start.
   */
  lemma LateSessionsEndBeforeStart(start: DateTime, endRaw: DateTime)
    requires ValidDateTime(start) && ValidDateTime(endRaw)
    requires start.hour * 60 + start.minute >= 23 * 60 + 35
    requires endRaw.hour * 60 + endRaw.minute == (start.hour * 60 + start.minute + SessionMinutes) % 1440
    ensures MinutesSinceMin(start.(hour := endRaw.hour, minute := endRaw.minute)) < MinutesSinceMin(start)
  {
    GoogleCalendar.AsWrittenEndBeforeStart(start, SessionMinutes, endRaw);
  }
}
