/**
 * The mood trend chart (frontend/src/components/charts/MoodTrendChart.tsx):
 * mood words become scores between 1 and 3, and the chart plots the 14
 * newest entries, oldest first.
 */
module MoodTrend {
  import opened Text
  import Types

  predicate SoundsHappy(m: string) { Contains(m, "happy") }
  predicate SoundsOkay(m: string) { Contains(m, "okay") || Contains(m, "fine") }
  predicate SoundsStressed(m: string) { Contains(m, "stressed") || Contains(m, "nervous") }
  predicate SoundsSad(m: string) { Contains(m, "sad") || Contains(m, "low") }

  /**
   * `moodToScore`: checked in the order happy, okay/fine, stressed/nervous,
   * sad/low on the lower-cased mood; anything else is a neutral 2.
   */
  function MoodToScore(mood: string): (score: real)
    ensures 1.0 <= score <= 3.0
    ensures var m := Lower(mood);
      && (score == 3.0 <==> SoundsHappy(m))
      && (score == 1.5 <==> !SoundsHappy(m) && !SoundsOkay(m) && SoundsStressed(m))
      && (score == 1.0 <==> !SoundsHappy(m) && !SoundsOkay(m) && !SoundsStressed(m) && SoundsSad(m))
      && (score == 2.0 <==> !SoundsHappy(m) && (SoundsOkay(m) || (!SoundsStressed(m) && !SoundsSad(m))))
  {
    var m := Lower(mood);
    if SoundsHappy(m) then 3.0
    else if SoundsOkay(m) then 2.0
    else if SoundsStressed(m) then 1.5
    else if SoundsSad(m) then 1.0
    else 2.0
  }

  /** One plotted point. */
  datatype Point = Point(date: string, score: real)

  /** `s.slice(5)`: everything after the fifth character, or "" for a shorter string. */
  function DropFive(s: string): (r: string)
    ensures |s| >= 5 ==> r == s[5..]
    ensures |s| < 5 ==> r == ""
  {
    if |s| >= 5 then s[5..] else ""
  }

  function ToPoint(m: Types.MoodEntry): (p: Point)
    ensures p.date == DropFive(m.date) && p.score == MoodToScore(m.mood)
  {
    Point(DropFive(m.date), MoodToScore(m.mood))
  }

  /** `Array.prototype.reverse` on a copy. */
  function Reversed<T>(s: seq<T>): (r: seq<T>)
    ensures |r| == |s|
    decreases |s|
  {
    if s == [] then [] else Reversed(s[1..]) + [s[0]]
  }

  /** Position `i` of the reversed sequence holds position `|s| - 1 - i` of the input. */
  lemma {:induction false} ReversedAt<T>(s: seq<T>, i: nat)
    requires i < |s|
    ensures Reversed(s)[i] == s[|s| - 1 - i]
    decreases |s|
  {
    if i < |s| - 1 {
      ReversedAt(s[1..], i);
    }
  }

  lemma ReversedAll<T>(s: seq<T>)
    ensures forall i :: 0 <= i < |s| ==> Reversed(s)[i] == s[|s| - 1 - i]
  {
    forall i | 0 <= i < |s|
      ensures Reversed(s)[i] == s[|s| - 1 - i]
    {
      ReversedAt(s, i);
    }
  }

  /** `[...moods].slice(0, 14)`: at most the first 14 entries. */
  function FirstFourteen(moods: seq<Types.MoodEntry>): (r: seq<Types.MoodEntry>)
    ensures |r| == if |moods| < 14 then |moods| else 14
    ensures r == moods[..|r|]
  {
    if |moods| < 14 then moods else moods[..14]
  }

  /**
   * The chart data: the first (newest) `k = min(14, |moods|)` entries in
   * reverse order, so point `i` is entry `k - 1 - i`, with the date cut
   * after its year and the mood turned into a score.
   */
  function ChartData(moods: seq<Types.MoodEntry>): (data: seq<Point>)
    ensures |data| == if |moods| < 14 then |moods| else 14
    ensures forall i :: 0 <= i < |data| ==> data[i] == ToPoint(moods[|data| - 1 - i])
  {
    var window := FirstFourteen(moods);
    ReversedAll(window);
    seq(|window|, i requires 0 <= i < |window| => ToPoint(Reversed(window)[i]))
  }

  /** The chart's newest point is the newest entry, and its oldest the 14th newest (or the oldest). */
  lemma ChartEnds(moods: seq<Types.MoodEntry>)
    requires moods != []
    ensures var data := ChartData(moods);
      && data[|data| - 1] == ToPoint(moods[0])
      && data[0] == ToPoint(moods[|data| - 1])
  {
  }

  /** What the card renders: the empty-history message or a chart. */
  datatype View = EmptyHistory | Chart(points: seq<Point>)

  const EmptyHistoryText: string := "No mood history yet. Log your mood to see trends over time."

  function Render(moods: seq<Types.MoodEntry>): (v: View)
    ensures v == EmptyHistory <==> moods == []
    ensures v.Chart? ==> v.points == ChartData(moods) && v.points != []
  {
    var data := ChartData(moods);
    if |data| == 0 then EmptyHistory else Chart(data)
  }
}
