/**
 * The application store (frontend/src/contexts/AppContext.tsx): the
 * logged-in flag and the mood, task, journal and chat lists every page reads,
 * and the handlers that change them. The results of the backend calls are
 * parameters: `Ok` for a resolved request, `Err` for a rejected one. A
 * handler whose awaited call rejects without a `catch` stops at that point
 * and changes nothing after it.
 *
 * `Store` is the state as a value and each `…Step` function one handler;
 * the class `AppProvider` holds the same cells as fields.
 */
module AppStore {
  import opened Results
  import opened Text
  import opened Types

  const OfflineReply: string := "AI is currently offline."

  datatype Store = Store(
    isLoggedIn: bool,
    moods: seq<MoodEntry>,
    tasks: seq<Task>,
    journal: seq<JournalEntry>,
    loading: bool,
    calendarConnected: bool,
    chatMessages: seq<ChatMessage>)

  /** The first render: logged in when a token is stored, every list empty, loading. */
  function InitialStore(hasToken: bool): (s: Store)
    ensures s.isLoggedIn == hasToken && s.loading && !s.calendarConnected
    ensures s.moods == [] && s.tasks == [] && s.journal == [] && s.chatMessages == []
  {
    Store(hasToken, [], [], [], true, false, [])
  }

  // ---------------------------------------------------------------------------
  // Log in and out
  // ---------------------------------------------------------------------------

  /**
   * `login`: the outcome of the login request is `Ok(success)` or a rejection.
   * Only a successful answer sets the flag; the result says whether it did.
   */
  function LoginStep(s: Store, outcome: Result<bool, string>): (r: (Store, bool))
    ensures r.1 <==> outcome == Ok(true)
    ensures r.1 ==> r.0 == s.(isLoggedIn := true)
    ensures !r.1 ==> r.0 == s
  {
    if outcome == Ok(true) then (s.(isLoggedIn := true), true) else (s, false)
  }

  /** `logout` clears the flag and nothing else. */
  function LogoutStep(s: Store): (r: Store)
    ensures !r.isLoggedIn
    ensures r.(isLoggedIn := s.isLoggedIn) == s
  {
    s.(isLoggedIn := false)
  }

  // ---------------------------------------------------------------------------
  // Refresh
  // ---------------------------------------------------------------------------

  /** What the three list requests of `refreshAll` return together. */
  datatype Fetched = Fetched(moods: seq<MoodEntry>, tasks: seq<Task>, journal: seq<JournalEntry>)

  /**
   * `refreshAll`. Logged out: nothing happens, not even the loading flag.
   * Logged in: the lists are replaced when all three list requests succeed
   * and kept when one fails; the calendar flag is the status request's answer,
   * false when that request fails; loading ends false either way.
   */
  function RefreshStep(s: Store, lists: Result<Fetched, string>, calendarStatus: Result<bool, string>): (r: Store)
    ensures !s.isLoggedIn ==> r == s
    ensures s.isLoggedIn ==> !r.loading && r.isLoggedIn && r.chatMessages == s.chatMessages
    ensures s.isLoggedIn && lists.Ok? ==>
      && r.moods == lists.value.moods && r.tasks == lists.value.tasks && r.journal == lists.value.journal
      && (r.calendarConnected <==> calendarStatus == Ok(true))
    ensures s.isLoggedIn && lists.Err? ==> r == s.(loading := false)
  {
    if !s.isLoggedIn then s
    else
      match lists
      case Err(_) => s.(loading := false)
      case Ok(f) =>
        var connected := match calendarStatus case Ok(c) => c case Err(_) => false;
        s.(moods := f.moods, tasks := f.tasks, journal := f.journal,
           calendarConnected := connected, loading := false)
  }

  /** After logging out a refresh changes nothing, whatever the backend would answer. */
  lemma RefreshAfterLogout(s: Store, lists: Result<Fetched, string>, calendarStatus: Result<bool, string>)
    ensures RefreshStep(LogoutStep(s), lists, calendarStatus) == LogoutStep(s)
  {
  }

  // ---------------------------------------------------------------------------
  // Moods and tasks
  // ---------------------------------------------------------------------------

  /** The body of the create-mood request. */
  datatype MoodRequest = MoodRequest(
    date: string,
    mood: string,
    note: Option<string>,
    emotionLabel: Option<string>,
    emotionScore: Option<real>)

  /** The emotion classifier's answer. */
  datatype Emotion = Emotion(name: string, score: real)

  /**
   * The create-mood request: the emotion is asked for only when the note is
   * truthy, and a failed analysis leaves both emotion fields out.
   */
  function MoodRequestFor(today: string, mood: string, note: Option<string>,
                          analysis: Result<Emotion, string>): (req: MoodRequest)
    ensures req.date == today && req.mood == mood && req.note == note
    ensures req.emotionLabel.Some? <==> Truthy(note) && analysis.Ok?
    ensures req.emotionScore.Some? <==> req.emotionLabel.Some?
    ensures req.emotionLabel.Some? ==>
      req.emotionLabel.value == analysis.value.name && req.emotionScore.value == analysis.value.score
  {
    if Truthy(note) && analysis.Ok? then
      MoodRequest(today, mood, note, Some(analysis.value.name), Some(analysis.value.score))
    else MoodRequest(today, mood, note, None, None)
  }

  /** Put a newly created item in front of a list: the old list follows it unchanged. */
  function Prepend<T>(created: T, list: seq<T>): (r: seq<T>)
    ensures |r| == |list| + 1 && r[0] == created && r[1..] == list
  {
    [created] + list
  }

  /** `addMood`: the created entry, when the request succeeds, goes first. */
  function AddMoodStep(s: Store, created: Result<MoodEntry, string>): (r: Store)
    ensures created.Ok? ==> r == s.(moods := Prepend(created.value, s.moods))
    ensures created.Err? ==> r == s
  {
    if created.Ok? then s.(moods := Prepend(created.value, s.moods)) else s
  }

  /** `addTask`: the created task, when the request succeeds, goes first. */
  function AddTaskStep(s: Store, created: Result<Task, string>): (r: Store)
    ensures created.Ok? ==> r == s.(tasks := Prepend(created.value, s.tasks))
    ensures created.Err? ==> r == s
  {
    if created.Ok? then s.(tasks := Prepend(created.value, s.tasks)) else s
  }

  /**
   * `prev.map(t => t.id === id ? updated : t)`: every task carrying `id` is
   * replaced, every other task stays where it was.
   */
  function ReplaceById(tasks: seq<Task>, id: int, updated: Task): (r: seq<Task>)
    ensures |r| == |tasks|
    ensures forall i :: 0 <= i < |tasks| ==> r[i] == (if tasks[i].id == id then updated else tasks[i])
    decreases |tasks|
  {
    if tasks == [] then []
    else [if tasks[0].id == id then updated else tasks[0]] + ReplaceById(tasks[1..], id, updated)
  }

  /** Replacing twice with the same task is replacing once. */
  lemma ReplaceByIdIdempotent(tasks: seq<Task>, id: int, updated: Task)
    requires updated.id == id
    ensures ReplaceById(ReplaceById(tasks, id, updated), id, updated) == ReplaceById(tasks, id, updated)
  {
  }

  /** When the backend returns the task under its own id, looking that id up finds the new version. */
  lemma ReplacedIsFound(tasks: seq<Task>, id: int, updated: Task)
    requires updated.id == id && FindById(tasks, id).Some?
    ensures FindById(ReplaceById(tasks, id, updated), id) == Some(updated)
  {
    var r := ReplaceById(tasks, id, updated);
    var k :| 0 <= k < |tasks| && tasks[k].id == id && forall j :: 0 <= j < k ==> tasks[j].id != id;
    assert r[k].id == id;
    var found := FindById(r, id).value;
    var i :| 0 <= i < |r| && r[i] == found && found.id == id;
    assert r[i] == updated;
  }

  /**
   * `toggleTaskCompleted`: an unknown id sends no request and changes nothing.
   * Otherwise the request asks for the negated completion flag, and the
   * answer, when the request succeeds, replaces the tasks with that id.
   */
  function ToggleStep(s: Store, id: int, answer: Result<Task, string>): (r: (Store, Option<bool>))
    ensures FindById(s.tasks, id).None? ==> r == (s, None)
    ensures FindById(s.tasks, id).Some? ==> r.1 == Some(!FindById(s.tasks, id).value.isCompleted)
    ensures FindById(s.tasks, id).Some? && answer.Ok? ==> r.0 == s.(tasks := ReplaceById(s.tasks, id, answer.value))
    ensures FindById(s.tasks, id).Some? && answer.Err? ==> r.0 == s
  {
    match FindById(s.tasks, id)
    case None => (s, None)
    case Some(existing) =>
      var request := Some(!existing.isCompleted);
      if answer.Ok? then (s.(tasks := ReplaceById(s.tasks, id, answer.value)), request) else (s, request)
  }

  /** A toggle keeps the number of tasks and every task with another id. */
  lemma ToggleKeepsOthers(s: Store, id: int, answer: Result<Task, string>, i: int)
    requires 0 <= i < |s.tasks| && s.tasks[i].id != id
    ensures |ToggleStep(s, id, answer).0.tasks| == |s.tasks|
    ensures ToggleStep(s, id, answer).0.tasks[i] == s.tasks[i]
  {
  }

  // ---------------------------------------------------------------------------
  // Chat
  // ---------------------------------------------------------------------------

  /** The assistant's bubble: the reply, or the offline sentence when the request fails. */
  function AssistantText(reply: Result<string, string>): (text: string)
    ensures reply.Ok? ==> text == reply.value
    ensures reply.Err? ==> text == OfflineReply
  {
    match reply
    case Ok(t) => t
    case Err(_) => OfflineReply
  }

  /** `sendChatMessage`: the user's bubble, then exactly one assistant bubble. */
  function SendChatStep(s: Store, text: string, reply: Result<string, string>): (r: Store)
    ensures |r.chatMessages| == |s.chatMessages| + 2
    ensures r.chatMessages[..|s.chatMessages|] == s.chatMessages
    ensures r.chatMessages[|s.chatMessages|] == ChatMessage(User, text)
    ensures r.chatMessages[|s.chatMessages| + 1] == ChatMessage(Assistant, AssistantText(reply))
    ensures r.(chatMessages := s.chatMessages) == s
  {
    s.(chatMessages := s.chatMessages + [ChatMessage(User, text), ChatMessage(Assistant, AssistantText(reply))])
  }

  /** In a conversation the bubbles alternate: every even position is the user, every odd one the assistant. */
  predicate Alternating(messages: seq<ChatMessage>) {
    |messages| % 2 == 0
    && forall i :: 0 <= i < |messages| ==> (messages[i].sender == User <==> i % 2 == 0)
  }

  lemma SendChatAlternates(s: Store, text: string, reply: Result<string, string>)
    requires Alternating(s.chatMessages)
    ensures Alternating(SendChatStep(s, text, reply).chatMessages)
  {
    var r := SendChatStep(s, text, reply).chatMessages;
    var n := |s.chatMessages|;
    forall i | 0 <= i < |r|
      ensures r[i].sender == User <==> i % 2 == 0
    {
      if i < n {
        assert r[i] == r[..n][i];
      }
    }
  }

  // ---------------------------------------------------------------------------
  // The provider
  // ---------------------------------------------------------------------------

  class AppProvider {
    var isLoggedIn: bool
    var moods: seq<MoodEntry>
    var tasks: seq<Task>
    var journal: seq<JournalEntry>
    var loading: bool
    var calendarConnected: bool
    var chatMessages: seq<ChatMessage>

    function State(): Store
      reads this
    {
      Store(isLoggedIn, moods, tasks, journal, loading, calendarConnected, chatMessages)
    }

    /** `hasToken`: whether a token is in local storage when the provider mounts. */
    constructor (hasToken: bool)
      ensures State() == InitialStore(hasToken)
    {
      isLoggedIn := hasToken;
      moods, tasks, journal, chatMessages := [], [], [], [];
      loading := true;
      calendarConnected := false;
    }

    method Login(outcome: Result<bool, string>) returns (ok: bool)
      modifies this
      ensures (State(), ok) == LoginStep(old(State()), outcome)
    {
      ok := false;
      if outcome.Ok? && outcome.value {
        isLoggedIn := true;
        ok := true;
      }
    }

    method Logout()
      modifies this
      ensures State() == LogoutStep(old(State()))
    {
      isLoggedIn := false;
    }

    method RefreshAll(lists: Result<Fetched, string>, calendarStatus: Result<bool, string>)
      modifies this
      ensures State() == RefreshStep(old(State()), lists, calendarStatus)
    {
      if !isLoggedIn {
        return;
      }
      loading := true;
      if lists.Ok? {
        moods := lists.value.moods;
        tasks := lists.value.tasks;
        journal := lists.value.journal;
        calendarConnected := calendarStatus.Ok? && calendarStatus.value;
      }
      loading := false;
    }

    /** Returns the create-mood request; the store changes only when it succeeds. */
    method AddMood(today: string, mood: string, note: Option<string>,
                   analysis: Result<Emotion, string>, created: Result<MoodEntry, string>)
      returns (request: MoodRequest)
      modifies this
      ensures request == MoodRequestFor(today, mood, note, analysis)
      ensures State() == AddMoodStep(old(State()), created)
    {
      var emotionName: Option<string> := None;
      var score: Option<real> := None;
      if Truthy(note) && analysis.Ok? {
        emotionName := Some(analysis.value.name);
        score := Some(analysis.value.score);
      }
      request := MoodRequest(today, mood, note, emotionName, score);
      if created.Ok? {
        moods := [created.value] + moods;
      }
    }

    method AddTask(created: Result<Task, string>)
      modifies this
      ensures State() == AddTaskStep(old(State()), created)
    {
      if created.Ok? {
        tasks := [created.value] + tasks;
      }
    }

    /** Returns the requested completion flag, or nothing when no request is sent. */
    method ToggleTaskCompleted(id: int, answer: Result<Task, string>) returns (request: Option<bool>)
      modifies this
      ensures (State(), request) == ToggleStep(old(State()), id, answer)
    {
      var existing := FindById(tasks, id);
      if existing.None? {
        return None;
      }
      request := Some(!existing.value.isCompleted);
      if answer.Ok? {
        tasks := ReplaceById(tasks, id, answer.value);
      }
    }

    method SendChatMessage(text: string, reply: Result<string, string>)
      modifies this
      ensures State() == SendChatStep(old(State()), text, reply)
    {
      chatMessages := chatMessages + [ChatMessage(User, text)];
      var answer := if reply.Ok? then reply.value else OfflineReply;
      chatMessages := chatMessages + [ChatMessage(Assistant, answer)];
    }
  }
}
