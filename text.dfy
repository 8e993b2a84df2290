/**
 * String helpers used by the frontend and the backend alike: decimal
 * rendering and its parse, `padStart`, ASCII case mapping, substring search,
 * whitespace trimming and joining.
 */
module Text {
  import opened Results

  // ---------------------------------------------------------------------------
  // Truthiness of optional strings (JavaScript `if (s)`, Python `if s:`)
  // ---------------------------------------------------------------------------

  /** An optional string is truthy when it is present and not empty. */
  predicate Truthy(s: Option<string>) {
    s.Some? && s.value != ""
  }

  // ---------------------------------------------------------------------------
  // Decimal digits
  // ---------------------------------------------------------------------------

  predicate IsDigit(c: char) {
    '0' <= c <= '9'
  }

  predicate AllDigits(s: string) {
    forall i :: 0 <= i < |s| ==> IsDigit(s[i])
  }

  function DigitChar(d: nat): (c: char)
    requires d < 10
    ensures IsDigit(c)
  {
    ('0' as int + d) as char
  }

  /** The value of one decimal digit (meaningful for digits only). */
  function DigitValue(c: char): int {
    c as int - '0' as int
  }

  /** `n.toString()` / `str(n)` for a natural number: no sign, no leading zero. */
  function Decimal(n: nat): (s: string)
    ensures 1 <= |s|
    ensures n < 10 <==> |s| == 1
    ensures n < 100 <==> |s| <= 2
    ensures |s| > 1 ==> s[0] != '0'
    ensures AllDigits(s)
    decreases n
  {
    if n < 10 then [DigitChar(n)] else Decimal(n / 10) + [DigitChar(n % 10)]
  }

  /** The number a string of decimal digits denotes (leading zeros allowed). */
  function DecimalValue(s: string): int
    decreases |s|
  {
    if s == [] then 0 else DecimalValue(s[..|s| - 1]) * 10 + DigitValue(s[|s| - 1])
  }

  /** Reading the decimal rendering of `n` back gives `n`. */
  lemma {:induction false} DecimalRoundTrip(n: nat)
    ensures DecimalValue(Decimal(n)) == n
    decreases n
  {
    if n >= 10 {
      DecimalRoundTrip(n / 10);
      var s := Decimal(n);
      assert s[..|s| - 1] == Decimal(n / 10);
    }
  }

  /** A leading zero does not change the value of a digit string. */
  lemma {:induction false} LeadingZeroValue(s: string)
    ensures DecimalValue(['0'] + s) == DecimalValue(s)
    decreases |s|
  {
    var z := ['0'] + s;
    if s == [] {
      assert z[..0] == [];
    } else {
      LeadingZeroValue(s[..|s| - 1]);
      assert z[..|z| - 1] == ['0'] + s[..|s| - 1];
    }
  }

  /** `s.padStart(width, fill)`: left-pad with `fill` up to `width` characters. */
  function PadStart(s: string, width: nat, fill: char): (r: string)
    ensures |r| == if |s| >= width then |s| else width
    ensures r[|r| - |s|..] == s
    decreases width - |s|
  {
    if |s| >= width then s else PadStart([fill] + s, width, fill)
  }

  /**
   * `String(n).padStart(2, "0")`: a single digit gets one leading zero, longer
   * renderings are kept (`TwoDigitsPads`). At least two digits, same value.
   */
  function TwoDigits(n: nat): (r: string)
    ensures |r| >= 2
    ensures n < 100 <==> |r| == 2
    ensures AllDigits(r) && DecimalValue(r) == n
  {
    DecimalRoundTrip(n);
    LeadingZeroValue(Decimal(n));
    if n < 10 then ['0'] + Decimal(n) else Decimal(n)
  }

  /** The two-digit text is the decimal rendering left-padded with '0' to width 2. */
  lemma TwoDigitsPads(n: nat)
    ensures TwoDigits(n) == PadStart(Decimal(n), 2, '0')
  {
    if n < 10 {
      assert PadStart(Decimal(n), 2, '0') == PadStart(['0'] + Decimal(n), 2, '0');
    }
  }

  // ---------------------------------------------------------------------------
  // Case mapping (ASCII letters; other characters are left as they are)
  // ---------------------------------------------------------------------------

  function LowerChar(c: char): char {
    if 'A' <= c <= 'Z' then (c as int - 'A' as int + 'a' as int) as char else c
  }

  function UpperChar(c: char): char {
    if 'a' <= c <= 'z' then (c as int - 'a' as int + 'A' as int) as char else c
  }

  /** `s.toLowerCase()` restricted to ASCII letters. */
  function Lower(s: string): (r: string)
    ensures |r| == |s|
    ensures forall i :: 0 <= i < |s| ==> r[i] == LowerChar(s[i])
  {
    seq(|s|, i requires 0 <= i < |s| => LowerChar(s[i]))
  }

  /** `s.toUpperCase()` restricted to ASCII letters. */
  function Upper(s: string): (r: string)
    ensures |r| == |s|
    ensures forall i :: 0 <= i < |s| ==> r[i] == UpperChar(s[i])
  {
    seq(|s|, i requires 0 <= i < |s| => UpperChar(s[i]))
  }

  // ---------------------------------------------------------------------------
  // Substrings
  // ---------------------------------------------------------------------------

  predicate StartsWith(s: string, prefix: string) {
    |prefix| <= |s| && s[..|prefix|] == prefix
  }

  /** `s.includes(sub)` / Python `sub in s`. */
  predicate Contains(s: string, sub: string)
    decreases |s|
  {
    StartsWith(s, sub) || (s != [] && Contains(s[1..], sub))
  }

  /** `s` contains `sub` exactly when `sub` occurs at some index of `s`. */
  lemma {:induction false} ContainsAt(s: string, sub: string)
    ensures Contains(s, sub) <==> exists i :: 0 <= i <= |s| - |sub| && StartsWith(s[i..], sub)
    decreases |s|
  {
    assert s[0..] == s;
    if s != [] {
      ContainsAt(s[1..], sub);
      if Contains(s[1..], sub) {
        var i :| 0 <= i <= |s| - 1 - |sub| && StartsWith(s[1..][i..], sub);
        assert s[1..][i..] == s[i + 1..];
      }
      if exists i :: 0 <= i <= |s| - |sub| && StartsWith(s[i..], sub) {
        var i :| 0 <= i <= |s| - |sub| && StartsWith(s[i..], sub);
        if i > 0 {
          assert s[1..][i - 1..] == s[i..];
          assert Contains(s[1..], sub);
        }
      }
    }
  }

  /** A text contains whatever is written in its middle. */
  lemma ContainsMiddle(a: string, b: string, c: string)
    ensures Contains(a + b + c, b)
  {
    var s := a + b + c;
    ContainsAt(s, b);
    assert s[|a|..][..|b|] == b;
  }

  /**
   * A text in which the first three characters of `sub` never occur next to
   * each other does not contain `sub`.
   */
  lemma {:induction false} NoTripleOccurrence(s: string, sub: string)
    requires |sub| >= 3
    requires forall i :: 0 <= i < |s| - 2 ==> s[i] != sub[0] || s[i + 1] != sub[1] || s[i + 2] != sub[2]
    ensures !Contains(s, sub)
    decreases |s|
  {
    if |sub| <= |s| {
      assert s[..|sub|][0] == s[0] && s[..|sub|][1] == s[1] && s[..|sub|][2] == s[2];
    }
    if s != [] {
      var t := s[1..];
      forall i | 0 <= i < |t| - 2
        ensures t[i] != sub[0] || t[i + 1] != sub[1] || t[i + 2] != sub[2]
      {
        assert t[i] == s[i + 1] && t[i + 1] == s[i + 2] && t[i + 2] == s[i + 3];
      }
      NoTripleOccurrence(t, sub);
    }
  }

  // ---------------------------------------------------------------------------
  // Whitespace trimming
  // ---------------------------------------------------------------------------

  /** Whose notion of white space a trim uses. */
  datatype Whitespace = JsWhitespace | PyWhitespace

  /**
   * The characters a trim removes. Both languages strip the Unicode space
   * separators and the ASCII and Unicode line breaks; JavaScript's `trim`
   * also strips the byte-order mark U+FEFF, Python's `str.strip()` also the
   * information separators U+001C..U+001F and NEXT LINE U+0085.
   */
  predicate IsWhitespace(ws: Whitespace, c: char) {
    || c == ' ' || c == '\t' || c == '\n' || c == '\r' || c == '\U{000B}' || c == '\U{000C}'
    || c == '\U{00A0}' || c == '\U{1680}' || ('\U{2000}' <= c <= '\U{200A}')
    || c == '\U{2028}' || c == '\U{2029}' || c == '\U{202F}' || c == '\U{205F}' || c == '\U{3000}'
    || (ws == JsWhitespace && c == '\U{FEFF}')
    || (ws == PyWhitespace && (('\U{001C}' <= c <= '\U{001F}') || c == '\U{0085}'))
  }

  function StripStart(s: string, ws: Whitespace): (r: string)
    ensures |r| <= |s| && r == s[|s| - |r|..]
    ensures forall i :: 0 <= i < |s| - |r| ==> IsWhitespace(ws, s[i])
    ensures r != [] ==> !IsWhitespace(ws, r[0])
    decreases |s|
  {
    if s != [] && IsWhitespace(ws, s[0]) then StripStart(s[1..], ws) else s
  }

  function StripEnd(s: string, ws: Whitespace): (r: string)
    ensures |r| <= |s| && r == s[..|r|]
    ensures forall i :: |r| <= i < |s| ==> IsWhitespace(ws, s[i])
    ensures r != [] ==> !IsWhitespace(ws, r[|r| - 1])
    decreases |s|
  {
    if s != [] && IsWhitespace(ws, s[|s| - 1]) then StripEnd(s[..|s| - 1], ws) else s
  }

  /** `r` is a slice of `s` from which only characters of `ws` were cut, at either end. */
  ghost predicate TrimmedSlice(s: string, r: string, ws: Whitespace) {
    exists i, j :: 0 <= i <= j <= |s| && r == s[i..j]
      && (forall k :: 0 <= k < i ==> IsWhitespace(ws, s[k]))
      && (forall k :: j <= k < |s| ==> IsWhitespace(ws, s[k]))
  }

  /**
   * Remove every leading and trailing character of `ws`. The result is
   * the slice of `s` left after cutting white space only, and it is empty
   * exactly when `s` is all whitespace.
   */
  function Strip(s: string, ws: Whitespace): (r: string)
    ensures TrimmedSlice(s, r, ws)
    ensures r == [] <==> forall i :: 0 <= i < |s| ==> IsWhitespace(ws, s[i])
    ensures r != [] ==> !IsWhitespace(ws, r[0]) && !IsWhitespace(ws, r[|r| - 1])
  {
    StripAllWhitespace(s, ws);
    StripIsSlice(s, ws);
    StripEnd(StripStart(s, ws), ws)
  }

  lemma StripIsSlice(s: string, ws: Whitespace)
    ensures TrimmedSlice(s, StripEnd(StripStart(s, ws), ws), ws)
  {
    var a := StripStart(s, ws);
    var i := |s| - |a|;
    var j := i + |StripEnd(a, ws)|;
    assert StripEnd(a, ws) == s[i..j];
    forall k | j <= k < |s|
      ensures IsWhitespace(ws, s[k])
    {
      assert s[k] == a[k - i];
    }
  }

  lemma StripAllWhitespace(s: string, ws: Whitespace)
    ensures StripEnd(StripStart(s, ws), ws) == [] <==> forall i :: 0 <= i < |s| ==> IsWhitespace(ws, s[i])
  {
    var a := StripStart(s, ws);
    if a != [] {
      assert !IsWhitespace(ws, a[0]);
      assert StripEnd(a, ws) != [];
    }
  }

  /** `s.trim()` in JavaScript. */
  function TrimJs(s: string): (r: string)
    ensures r == [] <==> forall i :: 0 <= i < |s| ==> IsWhitespace(JsWhitespace, s[i])
    ensures r != [] ==> !IsWhitespace(JsWhitespace, r[0]) && !IsWhitespace(JsWhitespace, r[|r| - 1])
  {
    Strip(s, JsWhitespace)
  }

  /** `s.strip()` in Python. */
  function StripPy(s: string): (r: string)
    ensures r == [] <==> forall i :: 0 <= i < |s| ==> IsWhitespace(PyWhitespace, s[i])
    ensures r != [] ==> !IsWhitespace(PyWhitespace, r[0]) && !IsWhitespace(PyWhitespace, r[|r| - 1])
  {
    Strip(s, PyWhitespace)
  }

  /** Both trims cut white space only, at either end of the text. */
  lemma TrimsAreSlices(s: string)
    ensures TrimmedSlice(s, TrimJs(s), JsWhitespace)
    ensures TrimmedSlice(s, StripPy(s), PyWhitespace)
  {
  }

  // ---------------------------------------------------------------------------
  // Joining
  // ---------------------------------------------------------------------------

  /** Python's `sep.join(parts)`. */
  function Join(parts: seq<string>, sep: string): (r: string)
    ensures |parts| == 0 ==> r == ""
    ensures |parts| == 1 ==> r == parts[0]
    ensures |parts| >= 1 ==> StartsWith(r, parts[0])
    decreases |parts|
  {
    if |parts| == 0 then ""
    else if |parts| == 1 then parts[0]
    else parts[0] + sep + Join(parts[1..], sep)
  }

  /** The joined text ends with the last part. */
  lemma {:induction false} JoinEnds(parts: seq<string>, sep: string)
    requires |parts| >= 1
    ensures |Join(parts, sep)| >= |parts[|parts| - 1]|
    ensures Join(parts, sep)[|Join(parts, sep)| - |parts[|parts| - 1]|..] == parts[|parts| - 1]
    decreases |parts|
  {
    if |parts| >= 2 {
      JoinEnds(parts[1..], sep);
      assert parts[1..][|parts[1..]| - 1] == parts[|parts| - 1];
    }
  }
}
