/**
 * How a journal entry card classifies the entry's detected emotion
 * (frontend/src/components/journal/JournalEntryCard.tsx): the label and
 * percentage shown, the colour of the percentage, the chip style, and
 * whether the reflection panel is open.
 */
module JournalCard {
  import opened Results
  import opened Text
  import opened JsMath
  import Types

  /** `entry.emotion_label || "neutral"`. */
  function EmotionLabel(emotion: Option<string>): (r: string)
    ensures r != ""
    ensures Truthy(emotion) ==> r == emotion.value
    ensures !Truthy(emotion) ==> r == "neutral"
  {
    if Truthy(emotion) then emotion.value else "neutral"
  }

  /**
   * `Math.round((entry.emotion_score || 0) * 100)`: a missing or zero
   * score shows 0; a confidence in [0, 1] shows a percentage in [0, 100].
   */
  function ScorePercent(score: Option<real>): (pct: int)
    ensures score.None? ==> pct == 0
    ensures score.Some? ==> pct == Round(score.value * 100.0)
    ensures score.Some? && 0.0 <= score.value <= 1.0 ==> 0 <= pct <= 100
  {
    match score
    case None => 0
    case Some(s) =>
      PercentWithin(s);
      if s == 0.0 then 0 else Round(s * 100.0)
  }

  lemma PercentWithin(s: real)
    ensures 0.0 <= s <= 1.0 ==> 0 <= Round(s * 100.0) <= 100
  {
    if 0.0 <= s <= 1.0 {
      RoundWithin(s * 100.0, 0, 100);
    }
  }

  /** The label, lower-cased, contains "pos", "joy" or "happy". */
  predicate IsPositive(emotion: string) {
    var l := Lower(emotion);
    Contains(l, "pos") || Contains(l, "joy") || Contains(l, "happy")
  }

  /** The label, lower-cased, contains "sad", "neg", "stress", "anx" or "anger". */
  predicate IsNegative(emotion: string) {
    var l := Lower(emotion);
    Contains(l, "sad") || Contains(l, "neg") || Contains(l, "stress") || Contains(l, "anx") || Contains(l, "anger")
  }

  /** The colour of the percentage. */
  datatype Tone = PositiveTone | NegativeTone | Muted

  /** Positive wins over negative; neither is muted. */
  function ScoreTone(emotion: string): (t: Tone)
    ensures t == PositiveTone <==> IsPositive(emotion)
    ensures t == NegativeTone <==> !IsPositive(emotion) && IsNegative(emotion)
    ensures t == Muted <==> !IsPositive(emotion) && !IsNegative(emotion)
  {
    if IsPositive(emotion) then PositiveTone
    else if IsNegative(emotion) then NegativeTone
    else Muted
  }

  /** The keys of the chip style table that `chipClass` can look up. */
  datatype ChipKey = PositiveChip | NegativeChip | StressChip | NeutralChip

  /**
   * `chipClass`'s key. Its third choice, "stress" for labels containing
   * "stress" or "anx", is never taken: such labels are already negative.
   */
  function ChipKeyOf(emotion: string): (k: ChipKey)
    ensures k != StressChip
    ensures k == PositiveChip <==> IsPositive(emotion)
    ensures k == NegativeChip <==> !IsPositive(emotion) && IsNegative(emotion)
    ensures k == NeutralChip <==> !IsPositive(emotion) && !IsNegative(emotion)
  {
    var l := Lower(emotion);
    if IsPositive(emotion) then PositiveChip
    else if IsNegative(emotion) then NegativeChip
    else if Contains(l, "stress") || Contains(l, "anx") then StressChip
    else NeutralChip
  }

  /** The chip and the percentage colour always agree. */
  lemma ChipMatchesTone(emotion: string)
    ensures ChipKeyOf(emotion) == PositiveChip <==> ScoreTone(emotion) == PositiveTone
    ensures ChipKeyOf(emotion) == NegativeChip <==> ScoreTone(emotion) == NegativeTone
    ensures ChipKeyOf(emotion) == NeutralChip <==> ScoreTone(emotion) == Muted
  {
  }

  /** A missing label is shown as "neutral", which is neither positive nor negative. */
  lemma MissingLabelIsNeutral(emotion: Option<string>)
    requires !Truthy(emotion)
    ensures ChipKeyOf(EmotionLabel(emotion)) == NeutralChip
  {
    var l := Lower("neutral");
    assert l == "neutral";
    NotContainedInNeutral("pos");
    NotContainedInNeutral("joy");
    NotContainedInNeutral("happy");
    NotContainedInNeutral("sad");
    NotContainedInNeutral("neg");
    NotContainedInNeutral("stress");
    NotContainedInNeutral("anx");
    NotContainedInNeutral("anger");
  }

  lemma NotContainedInNeutral(w: string)
    requires w in {"pos", "joy", "happy", "sad", "neg", "stress", "anx", "anger"}
    ensures !Contains("neutral", w)
  {
    var n := "neutral";
    forall i | 0 <= i < |n| - 2
      ensures n[i] != w[0] || n[i + 1] != w[1] || n[i + 2] != w[2]
    {
      assert i == 0 || i == 1 || i == 2 || i == 3 || i == 4;
    }
    NoTripleOccurrence(n, w);
  }

  // ---------------------------------------------------------------------------
  // The reflection panel
  // ---------------------------------------------------------------------------

  /** `showReflection` starts open exactly when the entry already has a reflection. */
  function InitialShowReflection(entry: Types.JournalEntry): (show: bool)
    ensures show <==> Truthy(entry.aiReflection)
  {
    Truthy(entry.aiReflection)
  }

  /** What appears below the entry. */
  datatype Panel = NoPanel | ReflectionText(text: string) | NoReflectionYet

  function PanelOf(entry: Types.JournalEntry, show: bool): (p: Panel)
    ensures p.ReflectionText? <==> show && Truthy(entry.aiReflection)
    ensures p.ReflectionText? ==> p.text == entry.aiReflection.value
    ensures p == NoReflectionYet <==> show && !Truthy(entry.aiReflection)
    ensures p == NoPanel <==> !show
  {
    if show && Truthy(entry.aiReflection) then ReflectionText(entry.aiReflection.value)
    else if show then NoReflectionYet
    else NoPanel
  }

  /**
   * When a card is first shown, an entry with a reflection shows it and one
   * without shows nothing: the "No reflection generated yet." line appears
   * only after the reflection button has opened the panel.
   */
  lemma FirstRender(entry: Types.JournalEntry)
    ensures PanelOf(entry, InitialShowReflection(entry)) != NoReflectionYet
    ensures Truthy(entry.aiReflection) <==> PanelOf(entry, InitialShowReflection(entry)).ReflectionText?
  {
  }
}
