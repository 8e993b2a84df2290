/**
 * The backend's task routes (backend/app/routes/tasks.py) over the task
 * table (backend/app/models.py): list, create, partial update and delete.
 * The table is the class `TaskTable`, its rows a sequence with distinct ids;
 * timestamps are numbers that order like the instants they stand for.
 */
module TaskRoutes {
  import opened Results

  /**
   * A task row as the ORM object holds it. `title` and `isCompleted` are
   * NOT NULL columns; the object can hold a null for them only between a
   * `setattr` and the commit that rejects it.
   */
  datatype TaskRow = TaskRow(
    id: int,
    title: Option<string>,
    description: Option<string>,
    dueDate: Option<string>,
    isCompleted: Option<bool>,
    moodTag: Option<string>,
    createdAt: int,
    updatedAt: int)

  /** A row the database accepts: both NOT NULL columns hold a value. */
  predicate Storable(row: TaskRow) {
    row.title.Some? && row.isCompleted.Some?
  }

  const NotFound: HttpError := HttpError(404, "Task not found")

  // ---------------------------------------------------------------------------
  // The partial update
  // ---------------------------------------------------------------------------

  /** One field of a PATCH body: left out, or sent (possibly as null). */
  datatype Field<T> = Unset | Sent(value: T)

  /** `TaskUpdate`: every field optional and nullable. */
  datatype TaskPatch = TaskPatch(
    title: Field<Option<string>>,
    description: Field<Option<string>>,
    dueDate: Field<Option<string>>,
    isCompleted: Field<Option<bool>>,
    moodTag: Field<Option<string>>)

  /** One entry of `payload.dict(exclude_unset=True)`: a column and the value sent for it. */
  datatype Assignment =
    | SetTitle(title: Option<string>)
    | SetDescription(description: Option<string>)
    | SetDueDate(dueDate: Option<string>)
    | SetIsCompleted(isCompleted: Option<bool>)
    | SetMoodTag(moodTag: Option<string>)

  /** `setattr(task, key, value)` for one entry. */
  function Assign(row: TaskRow, a: Assignment): TaskRow {
    match a
    case SetTitle(v) => row.(title := v)
    case SetDescription(v) => row.(description := v)
    case SetDueDate(v) => row.(dueDate := v)
    case SetIsCompleted(v) => row.(isCompleted := v)
    case SetMoodTag(v) => row.(moodTag := v)
  }

  /** The entries in their order, applied one after the other. */
  function AssignAll(row: TaskRow, entries: seq<Assignment>): TaskRow
    decreases |entries|
  {
    if entries == [] then row else AssignAll(Assign(row, entries[0]), entries[1..])
  }

  lemma {:induction false} AssignAllSnoc(row: TaskRow, entries: seq<Assignment>, last: Assignment)
    ensures AssignAll(row, entries + [last]) == Assign(AssignAll(row, entries), last)
    decreases |entries|
  {
    if entries != [] {
      assert (entries + [last])[1..] == entries[1..] + [last];
      AssignAllSnoc(Assign(row, entries[0]), entries[1..], last);
    }
  }

  /**
   * The sent fields, in the declaration order of `TaskUpdate`: a field sent
   * as null is there, a field left out is not.
   */
  function SentFields(p: TaskPatch): (entries: seq<Assignment>)
    ensures |entries| <= 5
  {
    (if p.title.Sent? then [SetTitle(p.title.value)] else [])
    + (if p.description.Sent? then [SetDescription(p.description.value)] else [])
    + (if p.dueDate.Sent? then [SetDueDate(p.dueDate.value)] else [])
    + (if p.isCompleted.Sent? then [SetIsCompleted(p.isCompleted.value)] else [])
    + (if p.moodTag.Sent? then [SetMoodTag(p.moodTag.value)] else [])
  }

  /** A sent value, or the current one when the field was left out. */
  function Choose<T>(f: Field<T>, current: T): T {
    if f.Sent? then f.value else current
  }

  /**
   * The row a patch should give, column by column: every sent field takes
   * the sent value, null included; every other column, the id and both
   * timestamps keep theirs.
   */
  function Merged(row: TaskRow, p: TaskPatch): (m: TaskRow)
    ensures m.id == row.id && m.createdAt == row.createdAt && m.updatedAt == row.updatedAt
    ensures p.title.Unset? ==> m.title == row.title
    ensures p.title.Sent? ==> m.title == p.title.value
    ensures p.description.Unset? ==> m.description == row.description
    ensures p.description.Sent? ==> m.description == p.description.value
    ensures p.dueDate.Unset? ==> m.dueDate == row.dueDate
    ensures p.dueDate.Sent? ==> m.dueDate == p.dueDate.value
    ensures p.isCompleted.Unset? ==> m.isCompleted == row.isCompleted
    ensures p.isCompleted.Sent? ==> m.isCompleted == p.isCompleted.value
    ensures p.moodTag.Unset? ==> m.moodTag == row.moodTag
    ensures p.moodTag.Sent? ==> m.moodTag == p.moodTag.value
  {
    row.(title := Choose(p.title, row.title),
         description := Choose(p.description, row.description),
         dueDate := Choose(p.dueDate, row.dueDate),
         isCompleted := Choose(p.isCompleted, row.isCompleted),
         moodTag := Choose(p.moodTag, row.moodTag))
  }

  /** Assigning the sent fields one by one gives the merged row. */
  lemma SentFieldsMerge(row: TaskRow, p: TaskPatch)
    ensures AssignAll(row, SentFields(p)) == Merged(row, p)
  {
    var t := if p.title.Sent? then [SetTitle(p.title.value)] else [];
    var d := if p.description.Sent? then [SetDescription(p.description.value)] else [];
    var u := if p.dueDate.Sent? then [SetDueDate(p.dueDate.value)] else [];
    var c := if p.isCompleted.Sent? then [SetIsCompleted(p.isCompleted.value)] else [];
    var g := if p.moodTag.Sent? then [SetMoodTag(p.moodTag.value)] else [];
    AssignAllConcat(row, t, d);
    AssignAllConcat(row, t + d, u);
    AssignAllConcat(row, t + d + u, c);
    AssignAllConcat(row, t + d + u + c, g);
  }

  lemma {:induction false} AssignAllConcat(row: TaskRow, a: seq<Assignment>, b: seq<Assignment>)
    ensures AssignAll(row, a + b) == AssignAll(AssignAll(row, a), b)
    decreases |a|
  {
    if a == [] {
      assert a + b == b;
    } else {
      assert (a + b)[1..] == a[1..] + b;
      AssignAllConcat(Assign(row, a[0]), a[1..], b);
    }
  }

  /** An empty patch changes nothing. */
  lemma EmptyPatchKeepsRow(row: TaskRow)
    ensures Merged(row, TaskPatch(Unset, Unset, Unset, Unset, Unset)) == row
  {
  }

  /** Sending the same patch twice is sending it once. */
  lemma PatchIdempotent(row: TaskRow, p: TaskPatch)
    ensures Merged(Merged(row, p), p) == Merged(row, p)
  {
  }

  // ---------------------------------------------------------------------------
  // Looking rows up
  // ---------------------------------------------------------------------------

  predicate DistinctIds(rows: seq<TaskRow>) {
    forall i, j :: 0 <= i < j < |rows| ==> rows[i].id != rows[j].id
  }

  /** `session.get(Task, task_id)`: the position of the row with that id. */
  function IndexOf(rows: seq<TaskRow>, id: int): (r: Option<nat>)
    ensures r.None? <==> forall i :: 0 <= i < |rows| ==> rows[i].id != id
    ensures r.Some? ==> r.value < |rows| && rows[r.value].id == id
    decreases |rows|
  {
    if rows == [] then None
    else if rows[0].id == id then Some(0)
    else
      match IndexOf(rows[1..], id)
      case None => None
      case Some(k) => Some(k + 1)
  }

  // ---------------------------------------------------------------------------
  // Listing
  // ---------------------------------------------------------------------------

  predicate NewestFirst(rows: seq<TaskRow>) {
    forall i, j :: 0 <= i < j < |rows| ==> rows[i].createdAt >= rows[j].createdAt
  }

  /** Put a row into a newest-first list behind every row created after it. */
  function InsertByCreated(sorted: seq<TaskRow>, row: TaskRow): (r: seq<TaskRow>)
    requires NewestFirst(sorted)
    ensures NewestFirst(r)
    ensures multiset(r) == multiset(sorted) + multiset{row}
    decreases |sorted|
  {
    if sorted == [] || sorted[0].createdAt <= row.createdAt then [row] + sorted
    else
      var rest := InsertByCreated(sorted[1..], row);
      assert sorted == [sorted[0]] + sorted[1..];
      BehindFirst(sorted, row, rest);
      [sorted[0]] + rest
  }

  /** Everything inserted behind the newest row is no newer than it. */
  lemma BehindFirst(sorted: seq<TaskRow>, row: TaskRow, rest: seq<TaskRow>)
    requires NewestFirst(sorted) && sorted != [] && row.createdAt < sorted[0].createdAt
    requires NewestFirst(rest) && multiset(rest) == multiset(sorted[1..]) + multiset{row}
    ensures NewestFirst([sorted[0]] + rest)
  {
    forall j | 0 <= j < |rest|
      ensures rest[j].createdAt <= sorted[0].createdAt
    {
      assert rest[j] in multiset(rest);
      if rest[j] != row {
        assert rest[j] in multiset(sorted[1..]);
        var m :| 0 <= m < |sorted[1..]| && sorted[1..][m] == rest[j];
        assert sorted[m + 1] == rest[j];
      }
    }
    var r := [sorted[0]] + rest;
    forall i, j | 0 <= i < j < |r|
      ensures r[i].createdAt >= r[j].createdAt
    {
      if i > 0 {
        assert r[i] == rest[i - 1] && r[j] == rest[j - 1];
      } else {
        assert r[j] == rest[j - 1];
      }
    }
  }

  /**
   * `ORDER BY created_at DESC`: the same rows, newest first. Rows created
   * at the same instant may come in any order; this is one of them.
   */
  function ListTasks(rows: seq<TaskRow>): (r: seq<TaskRow>)
    ensures NewestFirst(r)
    ensures multiset(r) == multiset(rows)
    decreases |rows|
  {
    if rows == [] then []
    else
      assert rows == [rows[0]] + rows[1..];
      InsertByCreated(ListTasks(rows[1..]), rows[0])
  }

  // ---------------------------------------------------------------------------
  // The table
  // ---------------------------------------------------------------------------

  class TaskTable {
    var rows: seq<TaskRow>

    /** Ids are distinct and every stored row satisfies the NOT NULL columns. */
    predicate Valid()
      reads this
    {
      DistinctIds(rows) && forall i :: 0 <= i < |rows| ==> Storable(rows[i])
    }

    constructor ()
      ensures Valid() && rows == []
    {
      rows := [];
    }

    /** `list_tasks`. */
    method List() returns (result: seq<TaskRow>)
      ensures NewestFirst(result) && multiset(result) == multiset(rows)
    {
      result := ListTasks(rows);
    }

    /**
     * `create_task`: the body has already been validated as `TaskCreate`, so
     * the title is a text and the completion flag a boolean; the database
     * gives the new row a fresh id and stamps both timestamps with the
     * current instant.
     */
    method Create(title: string, description: Option<string>, dueDate: Option<string>,
                  isCompleted: bool, moodTag: Option<string>, newId: int, now: int)
      returns (created: TaskRow)
      requires Valid()
      requires forall i :: 0 <= i < |rows| ==> rows[i].id != newId
      modifies this
      ensures Valid()
      ensures created == TaskRow(newId, Some(title), description, dueDate, Some(isCompleted), moodTag, now, now)
      ensures rows == old(rows) + [created]
    {
      created := TaskRow(newId, Some(title), description, dueDate, Some(isCompleted), moodTag, now, now);
      rows := rows + [created];
    }

    /**
     * `update_task`: 404 for an unknown id; otherwise every sent field is
     * assigned in turn, and the commit either stores the result in place or,
     * when a NOT NULL column was sent as null, fails and stores nothing.
     */
    method Update(taskId: int, patch: TaskPatch) returns (r: Result<TaskRow, HttpError>)
      requires Valid()
      modifies this
      ensures Valid()
      ensures IndexOf(old(rows), taskId).None? ==> r == Err(NotFound) && rows == old(rows)
      ensures IndexOf(old(rows), taskId).Some? ==>
        var k := IndexOf(old(rows), taskId).value;
        var merged := Merged(old(rows)[k], patch);
        && (Storable(merged) ==> r == Ok(merged) && rows == old(rows)[k := merged])
        && (!Storable(merged) ==> r == Err(ServerError) && rows == old(rows))
    {
      var found := IndexOf(rows, taskId);
      if found.None? {
        return Err(NotFound);
      }
      var k := found.value;
      var stored := rows[k];
      var task := stored;
      var entries := SentFields(patch);
      var i := 0;
      while i < |entries|
        invariant 0 <= i <= |entries|
        invariant task == AssignAll(stored, entries[..i])
        invariant rows == old(rows)
      {
        AssignAllSnoc(stored, entries[..i], entries[i]);
        assert entries[..i + 1] == entries[..i] + [entries[i]];
        task := Assign(task, entries[i]);
        i := i + 1;
      }
      assert entries[..i] == entries;
      SentFieldsMerge(stored, patch);
      if !Storable(task) {
        return Err(ServerError);
      }
      rows := rows[k := task];
      r := Ok(task);
    }

    /** `delete_task`: 404 for an unknown id; otherwise exactly that row goes. */
    method Delete(taskId: int) returns (r: Option<HttpError>)
      requires Valid()
      modifies this
      ensures Valid()
      ensures IndexOf(old(rows), taskId).None? ==> r == Some(NotFound) && rows == old(rows)
      ensures IndexOf(old(rows), taskId).Some? ==>
        var k := IndexOf(old(rows), taskId).value;
        r.None? && rows == old(rows)[..k] + old(rows)[k + 1..]
    {
      var found := IndexOf(rows, taskId);
      if found.None? {
        return Some(NotFound);
      }
      var k := found.value;
      rows := rows[..k] + rows[k + 1..];
      r := None;
    }
  }

  /**
   * After a delete the id is gone and every other row is still there: the
   * rows of the old table are the new rows plus the deleted one.
   */
  lemma DeleteRemovesExactlyOne(rows: seq<TaskRow>, taskId: int)
    requires DistinctIds(rows) && IndexOf(rows, taskId).Some?
    ensures var k := IndexOf(rows, taskId).value;
      var after := rows[..k] + rows[k + 1..];
      && (forall i :: 0 <= i < |after| ==> after[i].id != taskId)
      && multiset(rows) == multiset(after) + multiset{rows[k]}
  {
    var k := IndexOf(rows, taskId).value;
    var after := rows[..k] + rows[k + 1..];
    forall i | 0 <= i < |after|
      ensures after[i].id != taskId
    {
      if i < k {
        assert after[i] == rows[i];
      } else {
        assert after[i] == rows[i + 1];
      }
    }
    assert rows == rows[..k] + [rows[k]] + rows[k + 1..];
  }

  /** An update keeps the ids, so a valid table stays one with distinct ids. */
  lemma UpdateKeepsIds(rows: seq<TaskRow>, k: nat, p: TaskPatch)
    requires DistinctIds(rows) && k < |rows|
    ensures DistinctIds(rows[k := Merged(rows[k], p)])
  {
  }
}
