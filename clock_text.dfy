/**
 * Two-field clock texts `AA:BB` where each field is a number left-padded to
 * two digits: the `mm:ss` countdown of both timers, the `HH:MM` start time
 * the task list sends to the calendar, and the `%H:%M` end time the backend
 * formats.
 */
module ClockText {
  import opened Text

  /** `${pad2(a)}:${pad2(b)}` for a second field below 60. */
  function Clock(a: nat, b: nat): (r: string)
    requires b < 60
    ensures |r| >= 5 && r[|r| - 3] == ':'
    ensures AllDigits(r[..|r| - 3]) && AllDigits(r[|r| - 2..])
    ensures DecimalValue(r[..|r| - 3]) == a && DecimalValue(r[|r| - 2..]) == b
    ensures |r| == 5 <==> a < 100
  {
    var x, y := TwoDigits(a), TwoDigits(b);
    var r := x + ":" + y;
    JoinedFields(x, y, r);
    r
  }

  /** The two fields and the colon are where the reading takes them from. */
  lemma JoinedFields(x: string, y: string, r: string)
    requires |y| == 2 && r == x + ":" + y
    ensures |r| == |x| + 3 && r[|r| - 3] == ':'
    ensures r[..|r| - 3] == x && r[|r| - 2..] == y
  {
  }

  /**
   * The countdown text of a number of seconds: whole minutes, a colon and the
   * remaining seconds. The seconds field is always two digits, and reading
   * the two fields back gives minutes * 60 + seconds == the input.
   */
  function MinutesSeconds(secondsLeft: nat): (r: string)
    ensures |r| >= 5 && r[|r| - 3] == ':'
    ensures AllDigits(r[..|r| - 3]) && AllDigits(r[|r| - 2..])
    ensures DecimalValue(r[..|r| - 3]) * 60 + DecimalValue(r[|r| - 2..]) == secondsLeft
    ensures DecimalValue(r[|r| - 2..]) < 60
    ensures |r| == 5 <==> secondsLeft < 6000
  {
    Clock(secondsLeft / 60, secondsLeft % 60)
  }

  /** Below 100, the padded text is the tens digit followed by the units digit. */
  lemma TwoDigitsChars(n: nat)
    requires n < 100
    ensures TwoDigits(n) == [DigitChar(n / 10), DigitChar(n % 10)]
  {
    if n >= 10 {
      assert Decimal(n) == Decimal(n / 10) + [DigitChar(n % 10)];
      assert Decimal(n / 10) == [DigitChar(n / 10)];
    } else {
      assert Decimal(n) == [DigitChar(n)];
      assert DigitChar(0) == '0';
    }
  }

  /** `HH:MM` below 24 hours and 60 minutes is five characters of digits around a colon. */
  lemma ClockChars(a: nat, b: nat)
    requires a < 100 && b < 60
    ensures Clock(a, b) == [DigitChar(a / 10), DigitChar(a % 10), ':', DigitChar(b / 10), DigitChar(b % 10)]
  {
    TwoDigitsChars(a);
    TwoDigitsChars(b);
    JoinFields(TwoDigits(a), TwoDigits(b), DigitChar(a / 10), DigitChar(a % 10), DigitChar(b / 10), DigitChar(b % 10));
  }

  lemma JoinFields(x: string, y: string, p: char, q: char, u: char, v: char)
    requires x == [p, q] && y == [u, v]
    ensures x + ":" + y == [p, q, ':', u, v]
  {
  }
}
