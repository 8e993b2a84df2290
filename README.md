# Mood Study Planner — a Dafny model of its core

Mood Study Planner is a study companion: a React frontend with a focus
timer, a mood log and trend chart, a journal, a task planner and a chat
"study buddy", and a FastAPI backend that stores tasks, talks to Google
Calendar and asks a language model for replies. This project models the
logic at the centre of that system and proves what it promises:

- **The focus timer page** (`FocusTimer`, from `PomodoroPage.tsx`). The
  timer cells are a value `Timer`, changed by one step function per event:
  a tick, Start/Pause, Reset and the two duration inputs. The dialog cells
  are a value `TaskPicker` with its own steps for choosing the session's
  task. The class `FocusTimerPage` holds the same cells as fields, and each
  of its methods is proved to perform exactly the matching step. The
  invariant `Inv` is kept by every step. It says that a running count stays
  within its phase and that a stopped timer always shows the full phase.
- **The fixed 25/5 countdown** (`FixedTimer`, from `PomodoroTimer.tsx`),
  with lemmas relating it to the page's timer. A tick does the same on
  both. Pausing differs: the countdown keeps the remaining time and the
  page does not.
- **The small classifiers and formatters**: the energy score and its band
  (`EnergyScore`), the mood trend chart data (`MoodTrend`), the journal
  card's emotion chip and colour (`JournalCard`), the new-task form
  (`NewTaskForm`), and the task list's groups, cards and "Add to Calendar"
  request (`TaskList`).
- **The app store** (`AppStore`, from `AppContext.tsx`): login, logout,
  refresh, adding moods and tasks, toggling a task and chatting. Each is a
  step function on a value `Store`, and the class `AppProvider` performs
  them in place.
- **The Google Calendar routes** (`GoogleCalendar`): the in-memory token
  store, the OAuth state check, and building the event body from a date,
  a start time and a duration.
- **The chat prompts** (`ChatContext`, from `chat_ai.py`): the mood-context
  sentence, the prompts, and the fallbacks for empty or failed answers.
- **The task routes** (`TaskRoutes`, from `routes/tasks.py`). The task table
  is the class `TaskTable`. Its `Update` applies the sent fields one by one
  in a loop, and that loop is proved to compute the field-by-field merge
  `Merged`.

Supporting modules:

- `Results`: Option, Result and HTTP errors.
- `Text`: digits, padding, trimming, case and containment.
- `ClockText`: `HH:MM` and `mm:ss` formatting.
- `JsMath`: `Math.min`, `Math.max` and `Math.round` on reals.
- `PyDateTime`: `strptime("%Y-%m-%d %H:%M")`, minute arithmetic with `timedelta`, and the proleptic Gregorian calendar.
- `Types`: the frontend's records.

Behaviour worth knowing:

- The countdown is a per-tick decrement of `secondsLeft`. It is not
  measured against the clock.
- The effect at `PomodoroPage.tsx:41-48` refills the phase whenever the
  timer is not running. So Pause throws away the time already counted
  down, and Start resumes from the full phase (`PauseDiscardsElapsed`).
- The duration inputs clamp only from below (`Math.max(1, …)`). Nothing
  caps them at 90 or 60 minutes (`ClampMinutes`).
- The calendar event's end is written on the start date, even for a
  session that runs past midnight. `EventBodyFor` and
  `CreateCalendarEvent` model the route as written. `EventBodyCorrected`
  is the body with the end on its own date (see Findings).

## Model

| member | source | states |
|---|---|---|
| FocusTimer.Initial | frontend/src/pages/PomodoroPage.tsx:28-38 | the page mounts in work mode with 25/5 minutes, 1500 seconds left, stopped, in cycle 1, and satisfying the timer invariant |
| FocusTimer.Settle | frontend/src/pages/PomodoroPage.tsx:41-48 | a stopped timer's count becomes the full length of its current phase; a running one is untouched; no other cell changes |
| FocusTimer.Expired | frontend/src/pages/PomodoroPage.tsx:56-65 | the end of a phase flips the mode, refills the count to the new phase, advances the cycle only when a break ends, and keeps the invariant |
| FocusTimer.TickStep | frontend/src/pages/PomodoroPage.tsx:54-69 | no interval runs while stopped; a count above 1 drops by exactly one with mode and cycle kept; a count of 1 or less ends the phase; the invariant is kept |
| FocusTimer.Ticks | frontend/src/pages/PomodoroPage.tsx:54-69 | any number of ticks keeps the invariant, so a running count stays within [1, phase length] |
| FocusTimer.ToggleStep | frontend/src/pages/PomodoroPage.tsx:226 | Start/Pause flips the running flag and keeps mode, cycle and durations; Pause refills the count to the full phase, Start keeps the count shown; the invariant is kept |
| FocusTimer.ResetStep | frontend/src/pages/PomodoroPage.tsx:82-87 | from any state: stopped, work mode, cycle 1, count = work minutes × 60, durations kept |
| FocusTimer.ClampMinutes | frontend/src/pages/PomodoroPage.tsx:161 | a duration input stores its whole number when it is at least 1, and 1 for zero, negatives or non-numbers; there is no upper bound |
| FocusTimer.SetWorkStep | frontend/src/pages/PomodoroPage.tsx:160-163 | the work input does nothing while running (it is disabled), otherwise stores the clamped value and re-syncs; the invariant is kept |
| FocusTimer.SetBreakStep | frontend/src/pages/PomodoroPage.tsx:175-178 | the same for the break input |
| FocusTimer.TicksAdd | frontend/src/pages/PomodoroPage.tsx:54-69 | a + b ticks are a ticks followed by b ticks |
| FocusTimer.IdleTicks | frontend/src/pages/PomodoroPage.tsx:51-52 | a stopped timer does not change however many seconds pass |
| FocusTimer.TicksWithinPhase | frontend/src/pages/PomodoroPage.tsx:55-67 | fewer ticks than the count lower it by exactly that many and change nothing else |
| FocusTimer.PhaseExpiry | frontend/src/pages/PomodoroPage.tsx:56-65 | after exactly `secondsLeft` ticks the phase has ended |
| FocusTimer.FullCycle | frontend/src/pages/PomodoroPage.tsx:56-65 | a full work phase plus a full break returns to the start of a work phase, one cycle later |
| FocusTimer.FirstSession | frontend/src/pages/PomodoroPage.tsx:28-69 | with the defaults, Start then 1500 ticks gives a 300-second break in cycle 1, and 1800 ticks the start of cycle 2 |
| FocusTimer.PauseDiscardsElapsed | frontend/src/pages/PomodoroPage.tsx:41-48 | pausing a running timer refills the phase; pausing and starting again resumes from the full phase, not from where it stopped |
| FocusTimer.ResetIdempotent | frontend/src/pages/PomodoroPage.tsx:82-87 | reset twice is reset once, and the result does not depend on the mode, the count, the cycle or the running flag, whatever their values |
| FocusTimer.Progress | frontend/src/pages/PomodoroPage.tsx:89-96 | progress is in [0, 100]; 0 for a non-positive total or a full count; 100 when no time is left |
| FocusTimer.ProgressMonotone | frontend/src/pages/PomodoroPage.tsx:89-96 | fewer seconds left never shows less progress |
| FocusTimer.ProgressOfTimer | frontend/src/pages/PomodoroPage.tsx:89-96 | a stopped timer shows 0 % and a running one never 100 % |
| FocusTimer.InitialPicker | frontend/src/pages/PomodoroPage.tsx:35-38 | the dialog starts closed, with no selection, empty custom text and "No task selected yet" |
| FocusTimer.ConfirmedLabel | frontend/src/pages/PomodoroPage.tsx:110-116 | non-blank custom text wins, trimmed; otherwise the title of the first task with the selected id; otherwise the active label stays |
| FocusTimer.OpenStep | frontend/src/pages/PomodoroPage.tsx:104-108 | opening the dialog clears the selection and the custom text and keeps the active task |
| FocusTimer.EditCustomStep | frontend/src/pages/PomodoroPage.tsx:359-362 | typing custom text stores it and clears the selected id |
| FocusTimer.ConfirmStep | frontend/src/pages/PomodoroPage.tsx:110-118 | confirming closes the dialog and sets the active task to the confirmed label; the task list is only read |
| FocusTimer.OpenThenConfirmKeepsTask | frontend/src/pages/PomodoroPage.tsx:104-118 | opening and confirming at once leaves the active task as it was |
| FocusTimer.BlankCustomKeepsTask | frontend/src/pages/PomodoroPage.tsx:359-362 | typing only blanks deselects the chosen task, so confirming keeps the previous label |
| FocusTimer.ActiveTaskDisplay | frontend/src/pages/PomodoroPage.tsx:263 | the shown label is never empty and is the active task whenever that is non-empty |
| FocusTimer.FocusTimerPage.constructor | frontend/src/pages/PomodoroPage.tsx:28-38 | the cells start as `Initial()` and `InitialPicker()` |
| FocusTimer.FocusTimerPage.SyncIdle | frontend/src/pages/PomodoroPage.tsx:41-48 | the effect updates the cells exactly as `Settle` |
| FocusTimer.FocusTimerPage.Tick | frontend/src/pages/PomodoroPage.tsx:54-69 | the interval callback updates the cells exactly as `TickStep` and keeps the invariant |
| FocusTimer.FocusTimerPage.ToggleRunning | frontend/src/pages/PomodoroPage.tsx:226 | the button updates the cells exactly as `ToggleStep` |
| FocusTimer.FocusTimerPage.HandleReset | frontend/src/pages/PomodoroPage.tsx:82-87 | `handleReset` updates the cells exactly as `ResetStep` |
| FocusTimer.FocusTimerPage.SetWorkMinutes | frontend/src/pages/PomodoroPage.tsx:160-162 | the work input updates the cells exactly as `SetWorkStep` |
| FocusTimer.FocusTimerPage.SetBreakMinutes | frontend/src/pages/PomodoroPage.tsx:175-177 | the break input updates the cells exactly as `SetBreakStep` |
| FocusTimer.FocusTimerPage.OpenTaskModal | frontend/src/pages/PomodoroPage.tsx:104-108 | `openTaskModal` updates the dialog cells exactly as `OpenStep`; timer untouched |
| FocusTimer.FocusTimerPage.ChooseTask | frontend/src/pages/PomodoroPage.tsx:335 | picking a radio button sets only the selected id |
| FocusTimer.FocusTimerPage.EditCustomTask | frontend/src/pages/PomodoroPage.tsx:359-362 | the custom-text input updates the dialog cells exactly as `EditCustomStep` |
| FocusTimer.FocusTimerPage.ConfirmTaskSelection | frontend/src/pages/PomodoroPage.tsx:110-118 | `confirmTaskSelection` updates the dialog cells exactly as `ConfirmStep` |
| FocusTimer.FocusTimerPage.FormattedTime | frontend/src/pages/PomodoroPage.tsx:74-80 | `formattedTime` is the `mm:ss` text of the count |
| FocusTimer.FocusTimerPage.CurrentProgress | frontend/src/pages/PomodoroPage.tsx:89-96 | `progress` is `Progress` of the current phase length and count |
| FocusTimer.FocusTimerPage.CloseTaskModal | frontend/src/pages/PomodoroPage.tsx:298 | the close button only hides the dialog |
| ClockText.MinutesSeconds | frontend/src/pages/PomodoroPage.tsx:74-80 | the text is minutes, ':' and two-digit seconds, both fields made of decimal digits only; minutes × 60 + seconds reads back as the count; the seconds are below 60; it is 5 characters exactly below 100 minutes |
| Text.TwoDigitsPads | frontend/src/components/pomodoro/PomodoroTimer.tsx:34-36 | the two-digit field is the decimal rendering left-padded with "0" to width 2, exactly as `padStart(2, "0")` pads it |
| Text.TrimsAreSlices | frontend/src/components/tasks/NewTaskForm.tsx:16-25 | `trim()` and `strip()` return a slice of the text with only white space cut off before and after it |
| Text.JoinEnds | backend/app/chat_ai.py:53 | `sep.join(parts)` of at least one part ends with the last part (it starts with the first, by `Join`'s own contract) |
| ClockText.Clock | frontend/src/components/tasks/TaskList.tsx:36-38 | `HH:MM` is two fields of decimal digits around a colon and reads back as the hours and minutes it was built from; 5 characters exactly when the hours are below 100 |
| FixedTimer.FixedInitial | frontend/src/components/pomodoro/PomodoroTimer.tsx:4-10 | the countdown starts in work mode with 1500 seconds, stopped |
| FixedTimer.FixedTick | frontend/src/components/pomodoro/PomodoroTimer.tsx:15-28 | stopped: nothing; above 1: one second less, mode kept; otherwise work hands over to 300 seconds of break and break to 1500 of work; the invariant is kept |
| FixedTimer.FixedTicks | frontend/src/components/pomodoro/PomodoroTimer.tsx:15-28 | any number of ticks keeps the invariant |
| FixedTimer.FixedToggle | frontend/src/components/pomodoro/PomodoroTimer.tsx:57 | Start/Pause flips only the running flag; the remaining time is kept |
| FixedTimer.FixedReset | frontend/src/components/pomodoro/PomodoroTimer.tsx:38-42 | reset from any state gives the initial countdown |
| FixedTimer.FixedTicksWithinPhase | frontend/src/components/pomodoro/PomodoroTimer.tsx:26 | fewer ticks than the count lower it by exactly that many |
| FixedTimer.PauseKeepsRemaining | frontend/src/components/pomodoro/PomodoroTimer.tsx:12-31 | pause then start restores the running state exactly, and a paused countdown does not move |
| FixedTimer.AsPageTimer | frontend/src/components/pomodoro/PomodoroTimer.tsx:4-10 | the countdown seen as a page timer with fixed 25/5 minutes |
| FixedTimer.TickAgreesWithPage | frontend/src/components/pomodoro/PomodoroTimer.tsx:15-28 | a tick does the same on the countdown and on the page timer, apart from the cycle counter the countdown lacks |
| FixedTimer.PauseDiffersFromPage | frontend/src/components/pomodoro/PomodoroTimer.tsx:57 | pausing a partly elapsed phase keeps the count here but refills it on the page |
| FixedTimer.FixedDisplayWidth | frontend/src/components/pomodoro/PomodoroTimer.tsx:33-36 | the `mm:ss` display is always 5 characters |
| FixedTimer.FixedCountdown.constructor | frontend/src/components/pomodoro/PomodoroTimer.tsx:8-10 | the cells start as `FixedInitial()` |
| FixedTimer.FixedCountdown.Tick | frontend/src/components/pomodoro/PomodoroTimer.tsx:15-28 | the interval callback updates the cells exactly as `FixedTick` |
| FixedTimer.FixedCountdown.Toggle | frontend/src/components/pomodoro/PomodoroTimer.tsx:57 | the button updates the cells exactly as `FixedToggle` |
| FixedTimer.FixedCountdown.Reset | frontend/src/components/pomodoro/PomodoroTimer.tsx:38-42 | `reset` updates the cells exactly as `FixedReset` |
| FixedTimer.FixedCountdown.Display | frontend/src/components/pomodoro/PomodoroTimer.tsx:33-36 | the display is the `mm:ss` text of the count |
| EnergyScore.BaseScore | frontend/src/components/cards/EnergyScoreCard.tsx:33-41 | the base is 85, 72, 60, 45, 38 or 32 exactly when that keyword group is the first to match the lower-cased mood, and 55 when none does |
| EnergyScore.ScoreOrHalf | frontend/src/components/cards/EnergyScoreCard.tsx:46 | a missing emotion score counts as 0.5 |
| EnergyScore.Adjusted | frontend/src/components/cards/EnergyScoreCard.tsx:44-49 | without a label the base is kept; with one, +8 × score for POSITIVE and −10 × score for NEGATIVE; a score in [0, 1] moves it by at most that |
| EnergyScore.ClampScore | frontend/src/components/cards/EnergyScoreCard.tsx:51 | the final score is in [0, 100] and is the rounded value whenever that is in range |
| JsMath.Round | frontend/src/components/cards/EnergyScoreCard.tsx:51 | `Math.round` gives the integer within half a unit, halves going up |
| EnergyScore.BandOf | frontend/src/components/cards/EnergyScoreCard.tsx:56-68 | the four bands partition the scores at 80, 60 and 40 |
| EnergyScore.BandMonotone | frontend/src/components/cards/EnergyScoreCard.tsx:56-68 | a higher score never falls into a lower band |
| EnergyScore.ComputeEnergy | frontend/src/components/cards/EnergyScoreCard.tsx:24-75 | no mood gives 50 and "No mood logged yet"; otherwise the clamped adjusted base, in [0, 100], with the label and description of its band |
| EnergyScore.NoEmotionKeepsBase | frontend/src/components/cards/EnergyScoreCard.tsx:44-49 | without an emotion label the score is exactly the keyword base |
| EnergyScore.EmotionShiftBounded | frontend/src/components/cards/EnergyScoreCard.tsx:44-51 | with a score in [0, 1] the emotion moves the result by at most −10 / +8 from the base |
| MoodTrend.MoodToScore | frontend/src/components/charts/MoodTrendChart.tsx:12-19 | each score is in [1, 3] and is 3, 2, 1.5 or 1 exactly when that keyword group is the first to match, with 2 otherwise |
| MoodTrend.DropFive | frontend/src/components/charts/MoodTrendChart.tsx:30 | the date loses its first five characters (all of it when shorter) |
| MoodTrend.ToPoint | frontend/src/components/charts/MoodTrendChart.tsx:29-32 | a point carries the shortened date and the mood's score |
| MoodTrend.Reversed | frontend/src/components/charts/MoodTrendChart.tsx:28 | reversing keeps the length |
| MoodTrend.ReversedAt | frontend/src/components/charts/MoodTrendChart.tsx:28 | position i of the reversal is position n−1−i of the input |
| MoodTrend.ReversedAll | frontend/src/components/charts/MoodTrendChart.tsx:28 | the same for every position at once |
| MoodTrend.FirstFourteen | frontend/src/components/charts/MoodTrendChart.tsx:26-27 | the window is the first min(14, n) entries of the input, which is itself unchanged |
| MoodTrend.ChartData | frontend/src/components/charts/MoodTrendChart.tsx:26-32 | the chart has min(14, n) points, and point i comes from entry k−1−i |
| MoodTrend.ChartEnds | frontend/src/components/charts/MoodTrendChart.tsx:26-32 | the newest entry is the last point and the oldest in the window the first |
| MoodTrend.Render | frontend/src/components/charts/MoodTrendChart.tsx:34-40 | the empty-history message appears exactly when there are no moods; otherwise a non-empty chart of `ChartData` |
| JournalCard.EmotionLabel | frontend/src/components/journal/JournalEntryCard.tsx:60 | a missing or empty label shows as "neutral", any other label as itself |
| JournalCard.ScorePercent | frontend/src/components/journal/JournalEntryCard.tsx:61 | a missing score shows as 0 %; a score in [0, 1] shows as a rounded percent in [0, 100] |
| JournalCard.PercentWithin | frontend/src/components/journal/JournalEntryCard.tsx:61 | a score in [0, 1] rounds to a percent in [0, 100] |
| JournalCard.ScoreTone | frontend/src/components/journal/JournalEntryCard.tsx:64-73 | positive words give the positive colour, otherwise negative words the negative one, otherwise muted |
| JournalCard.ChipKeyOf | frontend/src/components/journal/JournalEntryCard.tsx:92-102 | the chip key is positive, negative or neutral by the same tests; the "stress" key is never chosen |
| JournalCard.ChipMatchesTone | frontend/src/components/journal/JournalEntryCard.tsx:64-102 | chip and score colour always agree |
| JournalCard.MissingLabelIsNeutral | frontend/src/components/journal/JournalEntryCard.tsx:60-102 | an entry without a label gets the neutral chip, as "neutral" contains none of the keywords |
| JournalCard.NotContainedInNeutral | frontend/src/components/journal/JournalEntryCard.tsx:66-67 | none of the eight keywords occurs in "neutral" |
| JournalCard.InitialShowReflection | frontend/src/components/journal/JournalEntryCard.tsx:33 | the reflection starts shown exactly when the entry has one |
| JournalCard.PanelOf | frontend/src/components/journal/JournalEntryCard.tsx:194-209 | the reflection text shows exactly when shown and present, the placeholder when shown and absent, nothing when hidden |
| JournalCard.FirstRender | frontend/src/components/journal/JournalEntryCard.tsx:33 | on first render the placeholder never shows, and the text shows exactly when there is one |
| NewTaskForm.DueDatetime | frontend/src/components/tasks/NewTaskForm.tsx:18-22 | no date gives null whatever the time; otherwise the date, 'T', the time (midnight when empty) and ":00" seconds, read back at fixed positions |
| NewTaskForm.NoTimeIsMidnight | frontend/src/components/tasks/NewTaskForm.tsx:21 | an empty time is the same as 00:00 |
| NewTaskForm.DueDatetimeFields | frontend/src/components/tasks/NewTaskForm.tsx:21 | with inputs of the usual widths the result is 19 characters with the date at 0-9 and the time at 11-15 |
| NewTaskForm.DueDatetimeInjective | frontend/src/components/tasks/NewTaskForm.tsx:21 | different date or time inputs of the usual widths never give the same due value |
| NewTaskForm.MoodTagOrNull | frontend/src/components/tasks/NewTaskForm.tsx:28 | an empty mood tag is sent as null, any other as itself |
| NewTaskForm.Payload | frontend/src/components/tasks/NewTaskForm.tsx:16-29 | nothing is sent exactly when the trimmed title is empty; otherwise the trimmed title (no white space at its ends), no description, the due value and the mood tag |
| NewTaskForm.Submit | frontend/src/components/tasks/NewTaskForm.tsx:14-35 | a submit sends `Payload`; the form is cleared only when something was sent and `addTask` succeeded |
| NewTaskForm.BlankTitleSendsNothing | frontend/src/components/tasks/NewTaskForm.tsx:16 | a blank title sends nothing and changes no field |
| NewTaskForm.NoDoubleSubmit | frontend/src/components/tasks/NewTaskForm.tsx:31-34 | after a successful submit, submitting again sends nothing |
| NewTaskForm.TaskForm.constructor | frontend/src/components/tasks/NewTaskForm.tsx:9-12 | the four fields start empty |
| NewTaskForm.TaskForm.SetTitle | frontend/src/components/tasks/NewTaskForm.tsx:43 | replaces only the title |
| NewTaskForm.TaskForm.SetDate | frontend/src/components/tasks/NewTaskForm.tsx:61 | replaces only the date |
| NewTaskForm.TaskForm.SetTime | frontend/src/components/tasks/NewTaskForm.tsx:78 | replaces only the time |
| NewTaskForm.TaskForm.SetMoodTag | frontend/src/components/tasks/NewTaskForm.tsx:97 | replaces only the mood tag |
| NewTaskForm.TaskForm.HandleSubmit | frontend/src/components/tasks/NewTaskForm.tsx:14-35 | `handleSubmit` sends `Payload` of the fields and leaves them as `Submit` says |
| TaskList.WithStatus | frontend/src/components/tasks/TaskList.tsx:24-25 | the filter keeps exactly the tasks with the given status, and no others |
| TaskList.Pending | frontend/src/components/tasks/TaskList.tsx:24 | the active group holds exactly the tasks of the store that are not completed |
| TaskList.Completed | frontend/src/components/tasks/TaskList.tsx:25 | the completed group holds exactly the tasks of the store that are completed |
| TaskList.RenderGroups | frontend/src/components/tasks/TaskList.tsx:229-232 | the page shows "Active Tasks" with the active group, then "Completed" with the completed group, and the two counts add up to the number of tasks |
| TaskList.WithStatusAppend | frontend/src/components/tasks/TaskList.tsx:25-26 | filtering distributes over concatenation, so each group keeps the store's order |
| TaskList.Partition | frontend/src/components/tasks/TaskList.tsx:25-26 | every task is in exactly one group, as often as in the store |
| TaskList.InActiveGroup | frontend/src/components/tasks/TaskList.tsx:25 | a task is active exactly when it is in the store and not completed |
| TaskList.RenderGroup | frontend/src/components/tasks/TaskList.tsx:80-89 | a group's count is its number of cards, and the empty-state line appears exactly when it has none |
| TaskList.GroupCounts | frontend/src/components/tasks/TaskList.tsx:231-232 | the two counts add up to the number of tasks, and both groups are empty exactly when there are no tasks |
| TaskList.ReplaceFirstUnderscore | frontend/src/components/tasks/TaskList.tsx:211 | only the first underscore changes, into a space; the length is kept |
| TaskList.ReplacesAtMostOne | frontend/src/components/tasks/TaskList.tsx:211 | no two characters change |
| TaskList.NoUnderscoreUnchanged | frontend/src/components/tasks/TaskList.tsx:211 | a tag without underscores is shown as it is |
| TaskList.FirstUnderscoreOnly | frontend/src/components/tasks/TaskList.tsx:211 | everything after the first underscore, later underscores included, is kept |
| TaskList.SecondUnderscoreKept | frontend/src/components/tasks/TaskList.tsx:211 | "low_energy_day" shows as "low energy_day" |
| TaskList.CardFor | frontend/src/components/tasks/TaskList.tsx:117-211 | description, due badge and mood chip appear exactly when their field is truthy; the "Soft due" badge never does; the toggle label follows the status |
| TaskList.CalendarRequest | frontend/src/components/tasks/TaskList.tsx:28-57 | the request takes the due instant when there is one, otherwise now, with zero-padded `HH:MM` of its clock (two digit fields around ':' that read back as its hours and minutes), 25 minutes, and the description or the default sentence |
| TaskList.CalendarStartParses | frontend/src/components/tasks/TaskList.tsx:33-44 | for a valid date, the backend reads the request's start back as exactly that date and clock time |
| TaskList.LateSessionsEndBeforeStart | frontend/src/components/tasks/TaskList.tsx:47 | a 25-minute session starting at 23:35 or later ends, as written by the backend, before it starts |
| Types.FindById | frontend/src/contexts/AppContext.tsx:136 | the first task with the id, or nothing exactly when no task has it |
| AppStore.InitialStore | frontend/src/contexts/AppContext.tsx:42-73 | logged in exactly when a token is stored; loading; every list empty; calendar not connected |
| AppStore.LoginStep | frontend/src/contexts/AppContext.tsx:46-60 | login succeeds exactly when the API answers success, and only then sets the flag |
| AppStore.LogoutStep | frontend/src/contexts/AppContext.tsx:62-65 | logout clears the logged-in flag and nothing else |
| AppStore.RefreshStep | frontend/src/contexts/AppContext.tsx:76-96 | nothing happens when logged out; otherwise the lists and calendar flag are replaced (a failed status counts as not connected) or, on failure, kept, and loading ends |
| AppStore.RefreshAfterLogout | frontend/src/contexts/AppContext.tsx:77 | refreshing after logout changes nothing |
| AppStore.MoodRequestFor | frontend/src/contexts/AppContext.tsx:103-119 | the request carries today's date, the mood and the note, and an emotion exactly when there is a note and its analysis succeeded |
| AppStore.Prepend | frontend/src/contexts/AppContext.tsx:121 | the created item comes first and the old list follows unchanged |
| AppStore.AddMoodStep | frontend/src/contexts/AppContext.tsx:103-122 | a created mood is prepended; a failed create changes nothing |
| AppStore.AddTaskStep | frontend/src/contexts/AppContext.tsx:125-133 | a created task is prepended; a failed create changes nothing |
| AppStore.ReplaceById | frontend/src/contexts/AppContext.tsx:143 | every task with the id is replaced by the answer and every other is kept, as is the length |
| AppStore.ReplaceByIdIdempotent | frontend/src/contexts/AppContext.tsx:143 | replacing twice with the same answer is replacing once |
| AppStore.ReplacedIsFound | frontend/src/contexts/AppContext.tsx:143 | after the replacement, looking the id up finds the answer |
| AppStore.ToggleStep | frontend/src/contexts/AppContext.tsx:135-144 | an unknown id sends nothing and changes nothing; otherwise the negated status is requested and the answer replaces the task |
| AppStore.ToggleKeepsOthers | frontend/src/contexts/AppContext.tsx:143 | a toggle keeps the length and every task with another id |
| AppStore.AssistantText | frontend/src/contexts/AppContext.tsx:157-178 | the reply, or "AI is currently offline." when the call fails |
| AppStore.SendChatStep | frontend/src/contexts/AppContext.tsx:147-179 | exactly two messages are appended, the user's and then the assistant's; the old ones and every other cell are kept |
| AppStore.SendChatAlternates | frontend/src/contexts/AppContext.tsx:147-179 | the conversation keeps alternating user, assistant |
| AppStore.AppProvider.constructor | frontend/src/contexts/AppContext.tsx:42-73 | the cells start as `InitialStore` |
| AppStore.AppProvider.Login | frontend/src/contexts/AppContext.tsx:46-60 | updates the cells and answers exactly as `LoginStep` |
| AppStore.AppProvider.Logout | frontend/src/contexts/AppContext.tsx:62-65 | updates the cells exactly as `LogoutStep` |
| AppStore.AppProvider.RefreshAll | frontend/src/contexts/AppContext.tsx:76-96 | updates the cells exactly as `RefreshStep` |
| AppStore.AppProvider.AddMood | frontend/src/contexts/AppContext.tsx:103-122 | sends `MoodRequestFor` and updates the cells as `AddMoodStep` |
| AppStore.AppProvider.AddTask | frontend/src/contexts/AppContext.tsx:125-133 | updates the cells exactly as `AddTaskStep` |
| AppStore.AppProvider.ToggleTaskCompleted | frontend/src/contexts/AppContext.tsx:135-144 | requests and updates exactly as `ToggleStep` |
| AppStore.AppProvider.SendChatMessage | frontend/src/contexts/AppContext.tsx:147-179 | updates the cells exactly as `SendChatStep` |
| GoogleCalendar.NotConnectedAtStart | backend/app/google_calendar.py:27-35 | the server starts without tokens, so not connected |
| GoogleCalendar.StoredTokens | backend/app/google_calendar.py:137-145 | the callback stores each credential under its key, scopes joined by spaces |
| GoogleCalendar.SplitWords | backend/app/google_calendar.py:95 | `str.split()` yields non-empty words without white space |
| GoogleCalendar.ScopesRoundTrip | backend/app/google_calendar.py:95 | splitting the space-joined scopes gives the scopes back |
| GoogleCalendar.ServiceScopes | backend/app/google_calendar.py:95-97 | the service uses the stored scopes when present and non-empty, the default scope otherwise |
| GoogleCalendar.ServiceUsesGrantedScopes | backend/app/google_calendar.py:95-97 | after a callback the service asks for exactly the granted scopes, or the default when none were granted |
| GoogleCalendar.Status | backend/app/google_calendar.py:106-108 | connected exactly when the access token is present and non-empty |
| GoogleCalendar.AuthUrlStep | backend/app/google_calendar.py:111-123 | handing out a URL remembers its state and keeps the tokens |
| GoogleCalendar.Callback | backend/app/google_calendar.py:126-149 | a remembered state that differs from the request's is refused with 400; a failed exchange is an error; otherwise the tokens are replaced and the state cleared |
| GoogleCalendar.ForeignStateRejected | backend/app/google_calendar.py:130-131 | after a URL is handed out, a callback with another state is refused |
| GoogleCalendar.MatchingStateConnects | backend/app/google_calendar.py:126-149 | the matching state with a token connects and clears the state |
| GoogleCalendar.UncheckedWithoutRememberedState | backend/app/google_calendar.py:130 | with no state remembered, the state in the request makes no difference |
| GoogleCalendar.StateClearedAfterCallback | backend/app/google_calendar.py:147 | a successful callback leaves no state remembered |
| GoogleCalendar.CalendarConnection.constructor | backend/app/google_calendar.py:27-37 | the globals start without tokens or state |
| GoogleCalendar.CalendarConnection.GetStatus | backend/app/google_calendar.py:106-108 | answers `Status` of the globals |
| GoogleCalendar.CalendarConnection.RequestAuthUrl | backend/app/google_calendar.py:111-123 | updates the globals exactly as `AuthUrlStep` |
| GoogleCalendar.CalendarConnection.HandleCallback | backend/app/google_calendar.py:126-149 | updates the globals and answers exactly as `Callback` |
| GoogleCalendar.BuildRfc3339 | backend/app/google_calendar.py:77-79 | the date, 'T', the time and ":00+05:30", each read back at its position |
| GoogleCalendar.BuildRfc3339Injective | backend/app/google_calendar.py:77-79 | for dates of equal length, equal results mean equal dates and times |
| PyDateTime.ParseDateTime | backend/app/google_calendar.py:168-170 | whatever `strptime` accepts is a valid date and time of day |
| PyDateTime.ParseIsoRoundTrip | backend/app/google_calendar.py:168-170 | a valid date and time written as `YYYY-MM-DD HH:MM` parse back to themselves |
| PyDateTime.AddMinutes | backend/app/google_calendar.py:171 | adding a `timedelta` of k minutes gives the instant exactly k minutes later, and fails outside years 1-9999 |
| PyDateTime.SumTimeOfDay | backend/app/google_calendar.py:171-172 | the end's clock time is the start's plus the duration, modulo a day |
| GoogleCalendar.EndAsWritten | backend/app/google_calendar.py:173 | as written: the end's clock time on the START date |
| GoogleCalendar.EndOnItsOwnDate | backend/app/google_calendar.py:173 | corrected: the end's clock time on its own date, read back by `strptime` as the end |
| GoogleCalendar.EventBodyFor | backend/app/google_calendar.py:162-186 | 400 without tokens; an error for an unparsable start or an out-of-range end, and a body exactly when neither happens; the body has the title, the description, the start as sent, and an end that joins the START date to the clock time of the instant the duration after the start |
| GoogleCalendar.CreateCalendarEvent | backend/app/google_calendar.py:155-196 | errors of the body pass through and a failed insert is an error; otherwise the answer carries the event's id and link and the same start and end (on the start date) as the body sent |
| GoogleCalendar.EventBodyCorrected | backend/app/google_calendar.py:168-186 | corrected body: the same outcome as the route in every case, and the same body but for the end, which is written on the date the session ends |
| GoogleCalendar.EndFollowsStart | backend/app/google_calendar.py:168-173 | in the corrected body, the end reads back as exactly the duration after the start |
| GoogleCalendar.AsWrittenEndBeforeStart | backend/app/google_calendar.py:171-173 | as written, a session crossing midnight ends before it starts |
| GoogleCalendar.StartReads | backend/app/google_calendar.py:168-170 | a request whose date is a zero-padded YYYY-MM-DD of a real day and whose start is a zero-padded HH:MM is read back by the route as exactly that day and clock time |
| GoogleCalendar.LateSessionAsWritten | backend/app/google_calendar.py:162-186 | for a session dated 2025-03-10 starting at 23:50 for 25 minutes, the start reads as 23:50 that day, the route's body is sent with end "2025-03-10T00:15:00+05:30", and that end, read on the start's date, is 1415 minutes before the start |
| ChatContext.MoodParts | backend/app/chat_ai.py:41-51 | a part per truthy field, in the order mood, note, emotion |
| ChatContext.BuildMoodContext | backend/app/chat_ai.py:27-53 | the fixed "no entries" sentence when all three fields are falsy (whatever the score), otherwise the parts joined by a space, a vertical bar and a space |
| ChatContext.ContextNeverLooksEmpty | backend/app/chat_ai.py:38-53 | with any truthy field the context is never the "no entries" sentence |
| ChatContext.PromptHead | backend/app/chat_ai.py:67-84 | the system prompt, followed by the mood context only when it is truthy |
| ChatContext.Prompt | backend/app/chat_ai.py:86-91 | the prompt contains the user's message |
| ChatContext.StrippedAnswer | backend/app/chat_ai.py:92-104 | a failed model call gives the error sentence; an answer that strips to nothing gives the empty-answer sentence; otherwise the answer with surrounding white space removed |
| ChatContext.StudyReply | backend/app/chat_ai.py:93-104 | never empty: the stripped answer, a fixed sentence for a blank answer, another for a failed call |
| ChatContext.EmotionNote | backend/app/chat_ai.py:131-134 | the emotion line appears only for a truthy label, and contains it |
| ChatContext.ReflectionPrompt | backend/app/chat_ai.py:136-145 | the reflection prompt contains the journal text |
| ChatContext.ReflectionReply | backend/app/chat_ai.py:147-158 | never empty: the stripped answer or one of the two reflection fallbacks |
| ChatContext.BlankAnswersFallBack | backend/app/chat_ai.py:95-98 | a white-space-only answer gives the fallback sentence |
| TaskRoutes.AssignAllSnoc | backend/app/routes/tasks.py:51-52 | assigning one more field is one more `setattr` on the result so far |
| TaskRoutes.AssignAllConcat | backend/app/routes/tasks.py:51-52 | assigning two runs of fields is assigning the first, then the second |
| TaskRoutes.Merged | backend/app/routes/tasks.py:50-52 | each sent field, null included, takes the sent value; every field not sent, id and both timestamps included, is kept |
| TaskRoutes.SentFieldsMerge | backend/app/routes/tasks.py:50-52 | the `setattr` loop over the sent fields gives exactly `Merged` |
| TaskRoutes.EmptyPatchKeepsRow | backend/app/routes/tasks.py:50 | an empty body changes nothing |
| TaskRoutes.PatchIdempotent | backend/app/routes/tasks.py:50-52 | sending the same body twice is sending it once |
| TaskRoutes.IndexOf | backend/app/routes/tasks.py:45-47 | finds a row with the id, or nothing exactly when none has it |
| TaskRoutes.InsertByCreated | backend/app/routes/tasks.py:17-19 | inserting into a newest-first list keeps it newest-first and adds exactly the row |
| TaskRoutes.ListTasks | backend/app/routes/tasks.py:17-19 | the listing is newest first and a permutation of the table |
| TaskRoutes.TaskTable.constructor | backend/app/models.py:43-46 | the table starts empty and valid |
| TaskRoutes.TaskTable.List | backend/app/routes/tasks.py:15-20 | `list_tasks` returns the rows newest first, all of them, each once |
| TaskRoutes.TaskTable.Create | backend/app/routes/tasks.py:26-33 | `create_task` appends exactly the new row, stamped with the current instant |
| TaskRoutes.TaskTable.Update | backend/app/routes/tasks.py:39-57 | 404 and no change for an unknown id; otherwise the merged row replaces that row only, or, when a NOT NULL column was sent null, an error and no change |
| TaskRoutes.TaskTable.Delete | backend/app/routes/tasks.py:63-71 | 404 and no change for an unknown id; otherwise exactly that row is removed |
| TaskRoutes.DeleteRemovesExactlyOne | backend/app/routes/tasks.py:65-69 | after a delete the id is gone and every other row remains |
| TaskRoutes.UpdateKeepsIds | backend/app/routes/tasks.py:45-56 | an update keeps the ids distinct |

## Left out

- Rendering: JSX, styling, colour constants and the conic-gradient ring are not modelled. Only the values they show are.
- React scheduling is not modelled: `setInterval` timing, effect ordering, and StrictMode running a state updater twice (which would bump the cycle twice). One tick is one atomic step. The idle re-sync is applied right after each stopped step.
- AppStore: each async handler is one atomic step, and the effect at `AppContext.tsx:98-100` that calls `refreshAll` whenever `isLoggedIn` becomes true is not modelled: refreshing is its own step, `RefreshStep`. In the source, `sendChatMessage` appends the user bubble before its `await`, so two overlapping sends give user, user, assistant, assistant; `SendChatAlternates` holds for sequential sends only.
- Network and storage are parameters. This covers `api.ts` calls, `localStorage`, `window.confirm`, `alert`, `window.open` and `location.reload`: each call's outcome is passed in as a `Result`.
- Foreign services are parameters. This covers the Google OAuth `Flow` (the generated state and the fetched credentials), the Calendar client `build`/`insert`, and Gemini's `generate_content`. The emotion model in `backend/app/emotion.py` is not part of this model; its analysis is a parameter.
- The authorisation URL text and `create_flow`'s client configuration are not modelled. They come from the OAuth library and environment variables.
- The clock and the locale are parameters. This covers `new Date()`, `toISOString`, `getHours`, `getMinutes` and `Date.now()`. `formatDateTime` (`toLocaleString`) is not modelled.
- TaskList.CalendarRequest: the model does not relate the UTC date of `toISOString` to the local hours of `getHours`. Both come in as parameters, so a date that differs between UTC and local time passes through unchecked. It also takes both instants as valid (`ValidInstant`). For an Invalid Date, `toISOString` throws a `RangeError`; `addToCalendar` catches it (`TaskList.tsx:61-63`) and shows an alert. That path is not modelled.
- AppStore.LoginStep: `api.ts` defines no `login`, so the call at `AppContext.tsx:48` throws and the catch answers `false`: as shipped, every login is rejected. The model keeps the API's outcome as a parameter and states what happens for each outcome, so it covers this case (the outcome is an error) but does not fix it.
- The frontend sends `due_datetime` while the backend's `TaskCreate` has `due_date`. The backend drops the unknown field. The two sides are modelled separately and the mismatch is not stated as a property.
- `deleteTask` in `TaskList.tsx` is not modelled; it is a confirm dialog, an API call and a page reload. `handleFavorite`, `handleDelete` and `handleReflection` in `JournalEntryCard.tsx`, and the 3-dot menu, are not modelled either; they are API calls followed by `onUpdated`.
- ChatContext.BuildMoodContext: `%.2f` is not interpreted. The caller passes the score together with its rendered text.
- Reals stand in for floating-point numbers. `Math.round` is `floor(x + 0.5)`. Fractional minute inputs are not modelled: a duration input is a whole number or not a number.
- Case mapping is ASCII only. White space is the fixed character list each language's trim removes (`Text.IsWhitespace`). Python's Unicode `\d` in `strptime` is not modelled: only ASCII digits parse.
- TaskRoutes.TaskTable.Create: the new row's id is a parameter; the database's autoincrement is not modelled. Bodies that fail `TaskCreate` validation (422) never reach the route and are not modelled. `created_at` and `updated_at` come from two separate `datetime.utcnow` calls (`models.py:45-46`) and may differ by microseconds; the model stamps both with the one instant it is given.
- TaskRoutes.ListTasks: rows with equal `created_at` may come back in any order. The model fixes one order and promises only newest first plus a permutation. Timestamps are integers that order like instants.
- Sessions, engines and commits are not modelled as such. A commit either stores the row or fails as a whole (the NOT NULL case of `Update`).
- `get_calendar_service` with tokens present builds a client whose behaviour is the `insert` parameter. Only its scopes (`ServiceScopes`) and its 400 path are modelled.

## Findings

| source | as written | input that shows it | evidently intended | confidence | as-written member | corrected member |
|---|---|---|---|---|---|---|
| backend/app/google_calendar.py:173 | the end date-time is built from the START date and the end's clock time | date "2025-03-10", start "23:50", 25 minutes: end "2025-03-10T00:15:00+05:30", 1415 minutes before the start | the end on the date it falls on (`EventBodyCorrected`), here "2025-03-11T00:15:00+05:30", 25 minutes after the start | not executed | GoogleCalendar.LateSessionAsWritten | GoogleCalendar.EndFollowsStart |
