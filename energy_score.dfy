/**
 * The study-energy card (frontend/src/components/cards/EnergyScoreCard.tsx):
 * the latest mood entry is turned into a 0-100 score and one of four bands.
 * Scores are JavaScript numbers; they are modelled as reals, and
 * `Math.round` as rounding half up.
 */
module EnergyScore {
  import opened Results
  import opened Text
  import opened JsMath
  import Types

  /** What the card shows. */
  datatype Energy = Energy(score: int, labelText: string, description: string)

  const NoMoodScore: int := 50
  const NoMoodLabel: string := "No mood logged yet"
  const NoMoodDescription: string := "Log today’s mood to let MindStudy estimate your study energy."

  // ---------------------------------------------------------------------------
  // Keyword base score
  // ---------------------------------------------------------------------------

  predicate SoundsGreat(m: string) {
    Contains(m, "great") || Contains(m, "excited") || Contains(m, "happy")
  }
  predicate SoundsGood(m: string) { Contains(m, "good") }
  predicate SoundsOkay(m: string) { Contains(m, "okay") || Contains(m, "fine") }
  predicate SoundsTired(m: string) { Contains(m, "tired") }
  predicate SoundsStressed(m: string) { Contains(m, "stressed") || Contains(m, "anxious") }
  predicate SoundsSad(m: string) { Contains(m, "sad") || Contains(m, "low") }

  /**
   * The base score of a mood text: the first keyword group the lower-cased
   * text matches decides, in the order great/excited/happy, good, okay/fine,
   * tired, stressed/anxious, sad/low; no match gives 55.
   */
  function BaseScore(mood: string): (b: int)
    ensures var m := Lower(mood);
      && (b == 85 <==> SoundsGreat(m))
      && (b == 72 <==> !SoundsGreat(m) && SoundsGood(m))
      && (b == 60 <==> !SoundsGreat(m) && !SoundsGood(m) && SoundsOkay(m))
      && (b == 45 <==> !SoundsGreat(m) && !SoundsGood(m) && !SoundsOkay(m) && SoundsTired(m))
      && (b == 38 <==> !SoundsGreat(m) && !SoundsGood(m) && !SoundsOkay(m) && !SoundsTired(m)
                       && SoundsStressed(m))
      && (b == 32 <==> !SoundsGreat(m) && !SoundsGood(m) && !SoundsOkay(m) && !SoundsTired(m)
                       && !SoundsStressed(m) && SoundsSad(m))
      && (b == 55 <==> !SoundsGreat(m) && !SoundsGood(m) && !SoundsOkay(m) && !SoundsTired(m)
                       && !SoundsStressed(m) && !SoundsSad(m))
  {
    var m := Lower(mood);
    if SoundsGreat(m) then 85
    else if SoundsGood(m) then 72
    else if SoundsOkay(m) then 60
    else if SoundsTired(m) then 45
    else if SoundsStressed(m) then 38
    else if SoundsSad(m) then 32
    else 55
  }

  // ---------------------------------------------------------------------------
  // Emotion adjustment, rounding, clamping
  // ---------------------------------------------------------------------------

  /** `emotion_score ?? 0.5`: only a missing score is replaced. */
  function ScoreOrHalf(score: Option<real>): (s: real)
    ensures score.Some? ==> s == score.value
    ensures score.None? ==> s == 0.5
  {
    match score
    case Some(v) => v
    case None => 0.5
  }

  /**
   * The adjusted base: when an emotion label is present, a label containing
   * POSITIVE adds 8 times the confidence and one containing NEGATIVE takes
   * off 10 times it (a label with both words gets both).
   */
  function Adjusted(base: int, emotionLabel: Option<string>, emotionScore: Option<real>): (x: real)
    ensures !Truthy(emotionLabel) ==> x == base as real
    ensures Truthy(emotionLabel) ==>
      var u := Upper(emotionLabel.value);
      var s := ScoreOrHalf(emotionScore);
      x == base as real + (if Contains(u, "POSITIVE") then 8.0 * s else 0.0)
                        - (if Contains(u, "NEGATIVE") then 10.0 * s else 0.0)
    ensures 0.0 <= ScoreOrHalf(emotionScore) <= 1.0 ==> base as real - 10.0 <= x <= base as real + 8.0
  {
    if Truthy(emotionLabel) then
      var u := Upper(emotionLabel.value);
      var s := ScoreOrHalf(emotionScore);
      var up := if Contains(u, "POSITIVE") then 8.0 * s else 0.0;
      var down := if Contains(u, "NEGATIVE") then 10.0 * s else 0.0;
      base as real + up - down
    else base as real
  }

  /** `Math.max(0, Math.min(100, Math.round(x)))`. */
  function ClampScore(x: real): (n: int)
    ensures 0 <= n <= 100
    ensures 0 <= Round(x) <= 100 ==> n == Round(x)
    ensures Round(x) < 0 ==> n == 0
    ensures Round(x) > 100 ==> n == 100
  {
    var r := Round(x);
    if r > 100 then 100 else if r < 0 then 0 else r
  }

  // ---------------------------------------------------------------------------
  // Bands
  // ---------------------------------------------------------------------------

  datatype Band = HighEnergy | SteadyEnergy | GentleEnergy | HandleWithCare

  /** The band of a score: at least 80, at least 60, at least 40, or below. */
  function BandOf(score: int): (b: Band)
    ensures b == HighEnergy <==> score >= 80
    ensures b == SteadyEnergy <==> 60 <= score < 80
    ensures b == GentleEnergy <==> 40 <= score < 60
    ensures b == HandleWithCare <==> score < 40
  {
    if score >= 80 then HighEnergy
    else if score >= 60 then SteadyEnergy
    else if score >= 40 then GentleEnergy
    else HandleWithCare
  }

  function Rank(b: Band): nat {
    match b
    case HandleWithCare => 0
    case GentleEnergy => 1
    case SteadyEnergy => 2
    case HighEnergy => 3
  }

  /** A higher score never falls in a lower band. */
  lemma BandMonotone(s1: int, s2: int)
    requires s1 <= s2
    ensures Rank(BandOf(s1)) <= Rank(BandOf(s2))
  {
  }

  function BandLabel(b: Band): string {
    match b
    case HighEnergy => "High Energy"
    case SteadyEnergy => "Steady Energy"
    case GentleEnergy => "Gentle Energy"
    case HandleWithCare => "Handle With Care"
  }

  function BandDescription(b: Band): string {
    match b
    case HighEnergy => "Perfect time for challenging tasks or deep-focus study."
    case SteadyEnergy => "You can handle medium-difficulty work with kind breaks."
    case GentleEnergy => "Stick to lighter tasks and keep expectations soft."
    case HandleWithCare => "Today is a good day for tiny steps, review, or rest."
  }

  // ---------------------------------------------------------------------------
  // computeEnergy
  // ---------------------------------------------------------------------------

  /**
   * `computeEnergy(latestMood)`. Without a mood the card shows 50 and the
   * "no mood" label; otherwise the score is the clamped, rounded adjusted
   * base and the label and description are those of its band.
   */
  function ComputeEnergy(latest: Option<Types.MoodEntry>): (e: Energy)
    ensures latest.None? ==> e == Energy(NoMoodScore, NoMoodLabel, NoMoodDescription)
    ensures latest.Some? ==>
      && 0 <= e.score <= 100
      && e.labelText == BandLabel(BandOf(e.score))
      && e.description == BandDescription(BandOf(e.score))
      && e.score == ClampScore(Adjusted(BaseScore(latest.value.mood),
                                        latest.value.emotionLabel, latest.value.emotionScore))
  {
    match latest
    case None => Energy(NoMoodScore, NoMoodLabel, NoMoodDescription)
    case Some(entry) =>
      var base := BaseScore(entry.mood);
      var clamped := ClampScore(Adjusted(base, entry.emotionLabel, entry.emotionScore));
      var band := BandOf(clamped);
      Energy(clamped, BandLabel(band), BandDescription(band))
  }

  /** Without an emotion label the score is exactly the keyword base score. */
  lemma NoEmotionKeepsBase(entry: Types.MoodEntry)
    requires !Truthy(entry.emotionLabel)
    ensures ComputeEnergy(Some(entry)).score == BaseScore(entry.mood)
  {
    var b := BaseScore(entry.mood);
    assert Round(b as real) == b;
  }

  /**
   * With a classifier confidence in [0, 1] (or none), the emotion moves the
   * keyword score by at most 8 points up or 10 points down.
   */
  lemma EmotionShiftBounded(entry: Types.MoodEntry)
    requires entry.emotionScore.None? || 0.0 <= entry.emotionScore.value <= 1.0
    ensures var b := BaseScore(entry.mood);
      b - 10 <= ComputeEnergy(Some(entry)).score <= b + 8
  {
    var b := BaseScore(entry.mood);
    var x := Adjusted(b, entry.emotionLabel, entry.emotionScore);
    RoundWithin(x, b - 10, b + 8);
  }
}
