/**
 * The "new task" form (frontend/src/components/tasks/NewTaskForm.tsx): four
 * text fields, and a submit that checks the title, builds the optional due
 * date-time, hands the payload to the store's `addTask` and clears the form.
 */
module NewTaskForm {
  import opened Results
  import opened Text

  /** The four controlled inputs of the form. */
  datatype FormState = FormState(title: string, date: string, time: string, moodTag: string)

  const EmptyForm: FormState := FormState("", "", "", "")

  /** What `handleSubmit` passes to `addTask`; the description is always left undefined. */
  datatype NewTaskPayload = NewTaskPayload(
    title: string,
    description: Option<string>,
    dueDatetime: Option<string>,
    moodTag: Option<string>)

  /**
   * The due date-time: nothing without a date (whatever the time), the date at
   * midnight without a time, otherwise the date, a `T`, the `HH:MM` time and
   * `:00` seconds.
   */
  function DueDatetime(date: string, time: string): (r: Option<string>)
    ensures r.None? <==> date == ""
    ensures r.Some? ==> |r.value| == |date| + 1 + (if time == "" then 8 else |time| + 3)
    ensures r.Some? ==> r.value[..|date|] == date && r.value[|date|] == 'T'
    ensures r.Some? && time != "" ==> r.value[|date| + 1..|date| + 1 + |time|] == time
                                      && r.value[|date| + 1 + |time|..] == ":00"
    ensures r.Some? && time == "" ==> r.value[|date| + 1..] == "00:00:00"
  {
    if date == "" then None
    else if time != "" then
      var s := date + "T" + time + ":00";
      assert s[|date| + 1..|date| + 1 + |time|] == time;
      assert s[|date| + 1 + |time|..] == ":00";
      Some(s)
    else
      var s := date + "T00:00:00";
      assert s[|date| + 1..] == "00:00:00";
      Some(s)
  }

  /** Leaving the time empty is the same as choosing midnight. */
  lemma NoTimeIsMidnight(date: string)
    ensures DueDatetime(date, "") == DueDatetime(date, "00:00")
  {
    assert "T" + "00:00" + ":00" == "T00:00:00";
    assert date + "T" + "00:00" + ":00" == date + ("T" + "00:00" + ":00");
  }

  /**
   * A date-input value and a time-input value are read back from the due
   * date-time at fixed positions: characters 0-9 are the date, 11-15 the time.
   */
  lemma DueDatetimeFields(date: string, time: string)
    requires |date| == 10 && |time| == 5
    ensures DueDatetime(date, time).Some?
    ensures var s := DueDatetime(date, time).value;
            |s| == 19 && s[..10] == date && s[10] == 'T' && s[11..16] == time && s[16..] == ":00"
  {
  }

  /** Two submissions with a date and a time of the usual widths send the same due value only for the same inputs. */
  lemma DueDatetimeInjective(d1: string, t1: string, d2: string, t2: string)
    requires |d1| == |d2| == 10 && |t1| == |t2| == 5
    ensures DueDatetime(d1, t1) == DueDatetime(d2, t2) <==> d1 == d2 && t1 == t2
  {
    DueDatetimeFields(d1, t1);
    DueDatetimeFields(d2, t2);
  }

  /** `moodTag || null`. */
  function MoodTagOrNull(moodTag: string): (r: Option<string>)
    ensures r.None? <==> moodTag == ""
    ensures r.Some? ==> r.value == moodTag
  {
    if moodTag == "" then None else Some(moodTag)
  }

  /**
   * The payload of a submit, or nothing when the title is blank. The title is
   * sent trimmed, so it is never blank and never starts or ends with white space.
   */
  function Payload(f: FormState): (p: Option<NewTaskPayload>)
    ensures p.None? <==> TrimJs(f.title) == ""
    ensures p.Some? ==> p.value.title == TrimJs(f.title) && p.value.title != ""
                        && !IsWhitespace(JsWhitespace, p.value.title[0]) && !IsWhitespace(JsWhitespace, p.value.title[|p.value.title| - 1])
    ensures p.Some? ==> p.value.description.None?
    ensures p.Some? ==> p.value.dueDatetime == DueDatetime(f.date, f.time)
    ensures p.Some? ==> p.value.moodTag == MoodTagOrNull(f.moodTag)
  {
    var title := TrimJs(f.title);
    if title == "" then None
    else Some(NewTaskPayload(title, None, DueDatetime(f.date, f.time), MoodTagOrNull(f.moodTag)))
  }

  /**
   * One submit. `addTaskSucceeded` is the outcome of the awaited `addTask`:
   * when it rejects, the clearing statements after it are not reached and the
   * form keeps its text.
   */
  function Submit(f: FormState, addTaskSucceeded: bool): (r: (FormState, Option<NewTaskPayload>))
    ensures r.1 == Payload(f)
    ensures r.1.None? ==> r.0 == f
    ensures r.1.Some? && addTaskSucceeded ==> r.0 == EmptyForm
    ensures r.1.Some? && !addTaskSucceeded ==> r.0 == f
  {
    var p := Payload(f);
    if p.None? then (f, None)
    else if addTaskSucceeded then (EmptyForm, p)
    else (f, p)
  }

  /** A blank or white-space title sends nothing and changes no field. */
  lemma BlankTitleSendsNothing(f: FormState, addTaskSucceeded: bool)
    requires forall i :: 0 <= i < |f.title| ==> IsWhitespace(JsWhitespace, f.title[i])
    ensures Submit(f, addTaskSucceeded) == (f, None)
  {
  }

  /** Pressing submit again right after a successful submit sends nothing more. */
  lemma NoDoubleSubmit(f: FormState, first: bool, second: bool)
    requires Payload(f).Some? && first
    ensures Submit(Submit(f, first).0, second).1.None?
  {
  }

  /** The form as a component with four state cells. */
  class TaskForm {
    var title: string
    var date: string
    var time: string
    var moodTag: string

    function State(): FormState
      reads this
    {
      FormState(title, date, time, moodTag)
    }

    constructor ()
      ensures State() == EmptyForm
    {
      title, date, time, moodTag := "", "", "", "";
    }

    /** The four `onChange` handlers, each replacing one cell with the input's value. */
    method SetTitle(value: string)
      modifies this
      ensures State() == old(State()).(title := value)
    {
      title := value;
    }

    method SetDate(value: string)
      modifies this
      ensures State() == old(State()).(date := value)
    {
      date := value;
    }

    method SetTime(value: string)
      modifies this
      ensures State() == old(State()).(time := value)
    {
      time := value;
    }

    method SetMoodTag(value: string)
      modifies this
      ensures State() == old(State()).(moodTag := value)
    {
      moodTag := value;
    }

    /** `handleSubmit`: returns what was passed to `addTask`, if anything. */
    method HandleSubmit(addTaskSucceeded: bool) returns (sent: Option<NewTaskPayload>)
      modifies this
      ensures sent == Payload(old(State()))
      ensures State() == Submit(old(State()), addTaskSucceeded).0
    {
      ghost var before := State();
      var trimmed := TrimJs(title);
      if trimmed == "" {
        return None;
      }
      sent := Some(NewTaskPayload(trimmed, None, DueDatetime(date, time), MoodTagOrNull(moodTag)));
      assert sent == Payload(before);
      if addTaskSucceeded {
        title := "";
        date := "";
        time := "";
        moodTag := "";
      }
    }
  }
}
