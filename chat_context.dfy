/**
 * The Study Buddy chat helpers (backend/app/chat_ai.py): the short text
 * that describes the user's latest mood, the prompt it goes into, and the
 * clean-up of the language model's answer. The model call itself is not
 * modelled; its outcome is a parameter.
 */
module ChatContext {
  import opened Results
  import opened Text

  const NoMoodContext: string := "No recent mood entries are available."
  const EmptyReplyFallback: string := "Let's take one small step. What would you like to work on? 😊"
  const ErrorReplyFallback: string := "I'm here with you. Let's try again in a simple step. 💜"

  /** Python truthiness of an optional number: present and not zero. */
  predicate TruthyScore(score: Option<real>) {
    score.Some? && score.value != 0.0
  }

  function MoodLine(moodLabel: string): string {
    "Mood logged: " + moodLabel
  }

  function NoteLine(note: string): string {
    "Note: '" + note + "'"
  }

  /**
   * The emotion part. `scoreText` is the score printed with two decimals
   * (`%.2f`); it is used only when the score is truthy, otherwise "N/A".
   */
  function EmotionLine(emotionLabel: string, score: Option<real>, scoreText: string): string {
    "Emotion detected: " + emotionLabel + " (score " + (if TruthyScore(score) then scoreText else "N/A") + ")"
  }

  /**
   * The parts list: one part per truthy field, always in the order mood,
   * note, emotion.
   */
  function MoodParts(moodLabel: Option<string>, moodNote: Option<string>, emotionLabel: Option<string>,
                     emotionScore: Option<real>, scoreText: string): (parts: seq<string>)
    ensures |parts| == (if Truthy(moodLabel) then 1 else 0) + (if Truthy(moodNote) then 1 else 0)
                       + (if Truthy(emotionLabel) then 1 else 0)
    ensures Truthy(moodLabel) ==> parts[0] == MoodLine(moodLabel.value)
    ensures Truthy(emotionLabel) ==> parts[|parts| - 1] == EmotionLine(emotionLabel.value, emotionScore, scoreText)
    ensures Truthy(moodNote) ==>
      parts[if Truthy(moodLabel) then 1 else 0] == NoteLine(moodNote.value)
  {
    (if Truthy(moodLabel) then [MoodLine(moodLabel.value)] else [])
    + (if Truthy(moodNote) then [NoteLine(moodNote.value)] else [])
    + (if Truthy(emotionLabel) then [EmotionLine(emotionLabel.value, emotionScore, scoreText)] else [])
  }

  /**
   * `build_mood_context_text`: the fixed sentence when mood, note and
   * emotion label are all falsy (whatever the score), else the parts joined
   * by " | ".
   */
  function BuildMoodContext(moodLabel: Option<string>, moodNote: Option<string>, emotionLabel: Option<string>,
                            emotionScore: Option<real>, scoreText: string): (r: string)
    ensures !Truthy(moodLabel) && !Truthy(moodNote) && !Truthy(emotionLabel) ==> r == NoMoodContext
    ensures Truthy(moodLabel) || Truthy(moodNote) || Truthy(emotionLabel) ==>
      var parts := MoodParts(moodLabel, moodNote, emotionLabel, emotionScore, scoreText);
      parts != [] && r == Join(parts, " | ")
  {
    if !(Truthy(moodLabel) || Truthy(moodNote) || Truthy(emotionLabel)) then NoMoodContext
    else Join(MoodParts(moodLabel, moodNote, emotionLabel, emotionScore, scoreText), " | ")
  }

  /**
   * The fixed sentence is never produced by an actual mood: a context built
   * from any truthy field starts with "Mood", "Not" or "Emo", never "No ".
   */
  lemma ContextNeverLooksEmpty(moodLabel: Option<string>, moodNote: Option<string>, emotionLabel: Option<string>,
                               emotionScore: Option<real>, scoreText: string)
    requires Truthy(moodLabel) || Truthy(moodNote) || Truthy(emotionLabel)
    ensures BuildMoodContext(moodLabel, moodNote, emotionLabel, emotionScore, scoreText) != NoMoodContext
  {
    var parts := MoodParts(moodLabel, moodNote, emotionLabel, emotionScore, scoreText);
    var r := Join(parts, " | ");
    var first := parts[0];
    assert |first| >= 3 && first[2] != ' ' by {
      if Truthy(moodLabel) {
        assert first == MoodLine(moodLabel.value);
      } else if Truthy(moodNote) {
        assert first == NoteLine(moodNote.value);
      } else {
        assert first == EmotionLine(emotionLabel.value, emotionScore, scoreText);
      }
    }
    assert r[..|first|] == first;
    assert r[2] == first[2];
    assert NoMoodContext[2] == ' ';
  }

  const SystemPrompt: string :=
    "\nYou are Study Buddy — a warm, concise academic support assistant.\n\nRules:\n"
    + "- Keep messages short (1–3 sentences).\n- Friendly, supportive, never heavy or emotional.\n"
    + "- Give clear, simple study advice.\n- Minimal emojis (0–1).\n"
    + "- Keep alignment clean; avoid long paragraphs.\n\nMood logic:\n"
    + "- If user seems stressed → encourage tiny steps.\n- If neutral → give small structured guidance.\n"
    + "- If positive → encourage focus or small challenges.\n"

  /** The system prompt, extended with the mood context when that is truthy. */
  function PromptHead(moodContext: Option<string>): (head: string)
    ensures !Truthy(moodContext) ==> head == SystemPrompt
    ensures Truthy(moodContext) ==> Contains(head, moodContext.value) && StartsWith(head, SystemPrompt)
  {
    if Truthy(moodContext) then
      var pre := SystemPrompt + "\nConsider this mood context: ";
      ContainsMiddle(pre, moodContext.value, "\n");
      assert (pre + moodContext.value + "\n")[..|SystemPrompt|] == SystemPrompt;
      pre + moodContext.value + "\n"
    else SystemPrompt
  }

  /** The full prompt: it always carries the user's message. */
  function Prompt(userMessage: string, moodContext: Option<string>): (prompt: string)
    ensures Contains(prompt, userMessage)
  {
    var pre := "\n" + PromptHead(moodContext) + "\n\nUser: ";
    ContainsMiddle(pre, userMessage, "\nAssistant:\n");
    pre + userMessage + "\nAssistant:\n"
  }

  /**
   * The answer both model calls return: the model's text with surrounding
   * whitespace stripped, one fallback sentence when that leaves nothing,
   * another when the model call failed.
   */
  function StrippedAnswer(modelOutput: Result<string, string>, emptyFallback: string, errorFallback: string): (reply: string)
    ensures modelOutput.Err? ==> reply == errorFallback
    ensures modelOutput.Ok? && StripPy(modelOutput.value) == "" ==> reply == emptyFallback
    ensures modelOutput.Ok? && StripPy(modelOutput.value) != "" ==> reply == StripPy(modelOutput.value)
  {
    match modelOutput
    case Err(_) => errorFallback
    case Ok(text) =>
      var stripped := StripPy(text);
      if stripped == "" then emptyFallback else stripped
  }

  /** The study-coach reply, with its own two fallbacks. A reply is never empty. */
  function StudyReply(modelOutput: Result<string, string>): (reply: string)
    ensures reply != ""
    ensures modelOutput.Err? ==> reply == ErrorReplyFallback
    ensures modelOutput.Ok? && StripPy(modelOutput.value) == "" ==> reply == EmptyReplyFallback
    ensures modelOutput.Ok? && StripPy(modelOutput.value) != "" ==> reply == StripPy(modelOutput.value)
  {
    StrippedAnswer(modelOutput, EmptyReplyFallback, ErrorReplyFallback)
  }

  // ---------------------------------------------------------------------------
  // Journal reflections
  // ---------------------------------------------------------------------------

  const EmptyReflectionFallback: string := "Thanks for writing that. It sounds meaningful. Keep noticing your thoughts gently."
  const ErrorReflectionFallback: string := "Thanks for sharing. Keep being kind to yourself while you reflect. 🌿"

  /** The emotion line of the reflection prompt: present only for a truthy label. */
  function EmotionNote(emotionLabel: Option<string>): (note: string)
    ensures !Truthy(emotionLabel) ==> note == ""
    ensures Truthy(emotionLabel) ==> Contains(note, emotionLabel.value)
  {
    if Truthy(emotionLabel) then
      var pre := "\nEmotion detected: ";
      ContainsMiddle(pre, emotionLabel.value, "\n");
      pre + emotionLabel.value + "\n"
    else ""
  }

  const ReflectionSystemPrompt: string :=
    "\nYou are a gentle journal reflection assistant.\n"
    + "Your job is to provide a short, warm reflection (2–3 sentences max).\n\nRules:\n"
    + "- Never sound like therapy.\n- Be encouraging and neutral.\n- Offer a small insight or observation.\n"
    + "- If an emotion is provided, reflect on it softly.\n- Tone should stay supportive, simple, and not too deep.\n"

  /** The reflection prompt always carries the journal text. */
  function ReflectionPrompt(journalText: string, emotionLabel: Option<string>): (prompt: string)
    ensures Contains(prompt, journalText)
  {
    var pre := "\n" + ReflectionSystemPrompt + "\n\nJournal Entry:\n";
    ContainsMiddle(pre, journalText, "\n\n" + EmotionNote(emotionLabel) + "\n\nWrite the reflection:\n");
    pre + journalText + ("\n\n" + EmotionNote(emotionLabel) + "\n\nWrite the reflection:\n")
  }

  /** `generate_reflection_text`'s answer, with the two reflection fallbacks. Never empty. */
  function ReflectionReply(modelOutput: Result<string, string>): (reply: string)
    ensures reply != ""
    ensures modelOutput.Err? ==> reply == ErrorReflectionFallback
    ensures modelOutput.Ok? && StripPy(modelOutput.value) == "" ==> reply == EmptyReflectionFallback
    ensures modelOutput.Ok? && StripPy(modelOutput.value) != "" ==> reply == StripPy(modelOutput.value)
  {
    StrippedAnswer(modelOutput, EmptyReflectionFallback, ErrorReflectionFallback)
  }

  /** A model answer that is only white space gets the fallback, never an empty reply. */
  lemma BlankAnswersFallBack(text: string)
    requires forall i :: 0 <= i < |text| ==> IsWhitespace(PyWhitespace, text[i])
    ensures StudyReply(Ok(text)) == EmptyReplyFallback
    ensures ReflectionReply(Ok(text)) == EmptyReflectionFallback
  {
  }
}
