/**
 * The records the frontend exchanges with the backend (frontend/src/types.ts),
 * with JavaScript's optional/nullable fields as `Option`.
 */
module Types {
  import opened Results

  /** A logged mood; `emotionScore` is the classifier's confidence. */
  datatype MoodEntry = MoodEntry(
    id: int,
    date: string,
    mood: string,
    note: Option<string>,
    emotionLabel: Option<string>,
    emotionScore: Option<real>,
    createdAt: string)

  /** A planner task as the frontend sees it. */
  datatype Task = Task(
    id: int,
    title: string,
    description: Option<string>,
    dueDatetime: Option<string>,
    isCompleted: bool,
    moodTag: Option<string>,
    createdAt: string,
    updatedAt: string)

  /** A journal entry with its optional AI reflection. */
  datatype JournalEntry = JournalEntry(
    id: int,
    date: string,
    content: string,
    emotionLabel: Option<string>,
    emotionScore: Option<real>,
    isFavorite: bool,
    aiReflection: Option<string>)

  datatype Sender = User | Assistant

  /** A chat bubble; its id and timestamp come from the clock and are not modelled. */
  datatype ChatMessage = ChatMessage(sender: Sender, text: string)

  /**
   * `tasks.find((t) => t.id === id)`: the first task carrying `id`, or nothing
   * when no task carries it.
   */
  function FindById(tasks: seq<Task>, id: int): (r: Option<Task>)
    ensures r.None? <==> forall i :: 0 <= i < |tasks| ==> tasks[i].id != id
    ensures r.Some? ==> exists i :: 0 <= i < |tasks| && tasks[i] == r.value && r.value.id == id
                                    && forall j :: 0 <= j < i ==> tasks[j].id != id
    decreases |tasks|
  {
    if tasks == [] then None
    else if tasks[0].id == id then Some(tasks[0])
    else
      var r := FindById(tasks[1..], id);
      assert r.Some? ==> exists i :: 0 <= i < |tasks[1..]| && tasks[1..][i] == r.value && forall j :: 0 <= j < i ==> tasks[1..][j].id != id;
      r
  }
}
