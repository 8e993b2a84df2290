/**
 * The Google Calendar routes of the backend (backend/app/google_calendar.py):
 * the in-memory token store and OAuth state, the connection status, the
 * OAuth callback, and the creation of a study-session event from a date, a
 * start time and a duration. The OAuth library, the Google API client and
 * the HTTP layer are not modelled: their outcomes are parameters.
 */
module GoogleCalendar {
  import opened Results
  import opened Text
  import opened ClockText
  import opened PyDateTime

  const NotConnected: HttpError := HttpError(400, "Google Calendar not connected. Please connect in Settings.")
  const InvalidState: HttpError := HttpError(400, "Invalid OAuth state")

  // ---------------------------------------------------------------------------
  // Token store
  // ---------------------------------------------------------------------------

  const TokenKeys: seq<string> :=
    ["access_token", "refresh_token", "token_uri", "client_id", "client_secret", "scopes", "expiry"]

  /** `CALENDAR_TOKENS`: every key maps to a text or to `None`. */
  type Tokens = map<string, Option<string>>

  /** At start-up every token is `None`. */
  const InitialTokens: Tokens := map k | k in TokenKeys :: None

  /** `tokens_available()`: the access token is present and not empty. */
  predicate TokensAvailable(tokens: Tokens) {
    "access_token" in tokens && Truthy(tokens["access_token"])
  }

  lemma NotConnectedAtStart()
    ensures !TokensAvailable(InitialTokens)
  {
  }

  const DefaultScopes: seq<string> := ["https://www.googleapis.com/auth/calendar.events"]

  /** What the OAuth flow hands back after exchanging the code. */
  datatype Credentials = Credentials(
    token: Option<string>,
    refreshToken: Option<string>,
    tokenUri: Option<string>,
    clientId: Option<string>,
    clientSecret: Option<string>,
    scopes: Option<seq<string>>,
    /** `expiry.isoformat()`, or `None` when there is no expiry. */
    expiry: Option<string>)

  /** The token store the callback writes: scopes joined by single spaces. */
  function StoredTokens(c: Credentials): (t: Tokens)
    ensures t.Keys == set k | k in TokenKeys
    ensures t["access_token"] == c.token && t["refresh_token"] == c.refreshToken
    ensures t["token_uri"] == c.tokenUri && t["client_id"] == c.clientId
    ensures t["client_secret"] == c.clientSecret && t["expiry"] == c.expiry
    ensures t["scopes"] == Some(Join(c.scopes.GetOr([]), " "))
  {
    map["access_token" := c.token, "refresh_token" := c.refreshToken, "token_uri" := c.tokenUri,
        "client_id" := c.clientId, "client_secret" := c.clientSecret,
        "scopes" := Some(Join(c.scopes.GetOr([]), " ")), "expiry" := c.expiry]
  }

  // ---------------------------------------------------------------------------
  // Scopes: stored joined, read back with `str.split()`
  // ---------------------------------------------------------------------------

  predicate IsWord(w: string) {
    w != [] && forall i :: 0 <= i < |w| ==> !IsWhitespace(PyWhitespace, w[i])
  }

  /** The longest prefix without whitespace. */
  function WordPrefix(s: string): (w: string)
    ensures |w| <= |s| && w == s[..|w|]
    ensures forall i :: 0 <= i < |w| ==> !IsWhitespace(PyWhitespace, w[i])
    ensures |w| < |s| ==> IsWhitespace(PyWhitespace, s[|w|])
  {
    if s == [] || IsWhitespace(PyWhitespace, s[0]) then [] else [s[0]] + WordPrefix(s[1..])
  }

  /** Python's `s.split()`: the maximal runs of non-whitespace characters. */
  function SplitWords(s: string): (words: seq<string>)
    ensures forall i :: 0 <= i < |words| ==> IsWord(words[i])
    decreases |s|
  {
    var t := StripStart(s, PyWhitespace);
    if t == [] then []
    else
      var w := WordPrefix(t);
      FirstWordNonEmpty(t);
      var rest := SplitWords(t[|w|..]);
      AllWords(w, rest);
      [w] + rest
  }

  lemma FirstWordNonEmpty(t: string)
    requires t != [] && !IsWhitespace(PyWhitespace, t[0])
    ensures IsWord(WordPrefix(t))
  {
  }

  lemma AllWords(w: string, rest: seq<string>)
    requires IsWord(w) && forall i :: 0 <= i < |rest| ==> IsWord(rest[i])
    ensures forall i :: 0 <= i < |[w] + rest| ==> IsWord(([w] + rest)[i])
  {
  }

  /** A word followed by nothing or by a space and more words is split off whole. */
  lemma WordThenRest(w: string, rest: string)
    requires IsWord(w)
    requires rest == [] || IsWhitespace(PyWhitespace, rest[0])
    ensures SplitWords(w + rest) == [w] + SplitWords(rest)
  {
    var s := w + rest;
    assert StripStart(s, PyWhitespace) == s;
    WordPrefixOf(w, rest);
    assert s[|w|..] == rest;
  }

  lemma {:induction false} WordPrefixOf(w: string, rest: string)
    requires forall i :: 0 <= i < |w| ==> !IsWhitespace(PyWhitespace, w[i])
    requires rest == [] || IsWhitespace(PyWhitespace, rest[0])
    ensures WordPrefix(w + rest) == w
    decreases |w|
  {
    if w == [] {
      assert w + rest == rest;
    } else {
      assert (w + rest)[1..] == w[1..] + rest;
      WordPrefixOf(w[1..], rest);
    }
  }

  /** Splitting a string that starts with one space skips it. */
  lemma SpaceThenWords(rest: string)
    ensures SplitWords(" " + rest) == SplitWords(rest)
  {
    var s := " " + rest;
    assert s[1..] == rest;
    assert StripStart(s, PyWhitespace) == StripStart(rest, PyWhitespace);
  }

  /**
   * Scopes stored by the callback are read back unchanged by the service,
   * as long as each scope is a non-empty text without whitespace.
   */
  lemma {:induction false} ScopesRoundTrip(scopes: seq<string>)
    requires forall i :: 0 <= i < |scopes| ==> IsWord(scopes[i])
    ensures SplitWords(Join(scopes, " ")) == scopes
    decreases |scopes|
  {
    if |scopes| == 0 {
      NothingToSplit();
    } else if |scopes| == 1 {
      LastWord(scopes[0]);
    } else {
      ScopesRoundTrip(scopes[1..]);
      RoundTripStep(scopes);
    }
  }

  lemma RoundTripStep(scopes: seq<string>)
    requires |scopes| >= 2 && IsWord(scopes[0])
    requires SplitWords(Join(scopes[1..], " ")) == scopes[1..]
    ensures SplitWords(Join(scopes, " ")) == scopes
  {
    JoinStep(scopes);
    MoreWords(scopes[0], Join(scopes[1..], " "));
    assert scopes == [scopes[0]] + scopes[1..];
  }

  lemma NothingToSplit()
    ensures SplitWords("") == []
  {
    assert StripStart("", PyWhitespace) == "";
  }

  lemma LastWord(w: string)
    requires IsWord(w)
    ensures SplitWords(w) == [w]
  {
    WordThenRest(w, "");
    assert w + "" == w;
    NothingToSplit();
  }

  lemma JoinStep(parts: seq<string>)
    requires |parts| >= 2
    ensures Join(parts, " ") == parts[0] + (" " + Join(parts[1..], " "))
  {
  }

  lemma MoreWords(w: string, tail: string)
    requires IsWord(w)
    ensures SplitWords(w + (" " + tail)) == [w] + SplitWords(tail)
  {
    WordThenRest(w, " " + tail);
    SpaceThenWords(tail);
  }

  /** The scopes `get_calendar_service` builds credentials with. */
  function ServiceScopes(tokens: Tokens): (scopes: seq<string>)
    ensures "scopes" in tokens && Truthy(tokens["scopes"]) ==> scopes == SplitWords(tokens["scopes"].value)
    ensures !("scopes" in tokens && Truthy(tokens["scopes"])) ==> scopes == DefaultScopes
  {
    if "scopes" in tokens && Truthy(tokens["scopes"]) then SplitWords(tokens["scopes"].value) else DefaultScopes
  }

  /**
   * After a callback, the service asks for the scopes the OAuth flow
   * granted, or for the default calendar scope when none were granted.
   */
  lemma ServiceUsesGrantedScopes(c: Credentials)
    requires c.scopes.Some? ==> forall i :: 0 <= i < |c.scopes.value| ==> IsWord(c.scopes.value[i])
    ensures c.scopes.Some? && c.scopes.value != [] ==> ServiceScopes(StoredTokens(c)) == c.scopes.value
    ensures c.scopes.None? || c.scopes.value == [] ==> ServiceScopes(StoredTokens(c)) == DefaultScopes
  {
    var t := StoredTokens(c);
    var scopes := c.scopes.GetOr([]);
    if scopes != [] {
      ScopesRoundTrip(scopes);
      assert StartsWith(Join(scopes, " "), scopes[0]);
      assert Join(scopes, " ") != "";
    }
  }

  // ---------------------------------------------------------------------------
  // OAuth connection
  // ---------------------------------------------------------------------------

  /** The module-level state of the routes: the token store and `OAUTH_STATE`. */
  datatype Connection = Connection(tokens: Tokens, oauthState: Option<string>)

  const InitialConnection: Connection := Connection(InitialTokens, None)

  /** `GET /status`. */
  function Status(c: Connection): (connected: bool)
    ensures connected <==> TokensAvailable(c.tokens)
  {
    TokensAvailable(c.tokens)
  }

  /** `GET /auth-url`: remembers the state the OAuth flow generated for the URL. */
  function AuthUrlStep(c: Connection, generatedState: string): (next: Connection)
    ensures next.tokens == c.tokens && next.oauthState == Some(generatedState)
  {
    c.(oauthState := Some(generatedState))
  }

  /**
   * `GET /callback`. A remembered, non-empty state must equal the one the
   * request carries; a failed code exchange is an unhandled error; otherwise
   * the tokens are replaced and the remembered state is cleared.
   */
  function Callback(c: Connection, state: string, fetched: Result<Credentials, string>): (r: Result<Connection, HttpError>)
    ensures Truthy(c.oauthState) && state != c.oauthState.value ==> r == Err(InvalidState)
    ensures !(Truthy(c.oauthState) && state != c.oauthState.value) && fetched.Err? ==> r == Err(ServerError)
    ensures !(Truthy(c.oauthState) && state != c.oauthState.value) && fetched.Ok? ==>
      r == Ok(Connection(StoredTokens(fetched.value), None))
  {
    if Truthy(c.oauthState) && state != c.oauthState.value then Err(InvalidState)
    else match fetched
      case Err(_) => Err(ServerError)
      case Ok(creds) => Ok(Connection(StoredTokens(creds), None))
  }

  /** Once an authorisation URL has been handed out, a callback with another state is refused. */
  lemma ForeignStateRejected(c: Connection, generated: string, state: string, fetched: Result<Credentials, string>)
    requires generated != "" && state != generated
    ensures Callback(AuthUrlStep(c, generated), state, fetched) == Err(InvalidState)
  {
  }

  /** The callback for the state that was handed out connects the calendar when a token came back. */
  lemma MatchingStateConnects(c: Connection, generated: string, creds: Credentials)
    requires Truthy(creds.token)
    ensures var r := Callback(AuthUrlStep(c, generated), generated, Ok(creds));
      r.Ok? && Status(r.value) && r.value.oauthState.None?
  {
  }

  /**
   * The state check is skipped when no state is remembered: before any
   * authorisation URL was requested, and again after every successful
   * callback, a callback with any state at all is accepted.
   */
  lemma UncheckedWithoutRememberedState(c: Connection, s1: string, s2: string, fetched: Result<Credentials, string>)
    requires !Truthy(c.oauthState)
    ensures Callback(c, s1, fetched) == Callback(c, s2, fetched)
    ensures fetched.Ok? ==> Callback(c, s1, fetched).Ok?
  {
  }

  lemma StateClearedAfterCallback(c: Connection, state: string, fetched: Result<Credentials, string>)
    requires Callback(c, state, fetched).Ok?
    ensures !Truthy(Callback(c, state, fetched).value.oauthState)
  {
  }

  /** The same routes over the module-level variables they update. */
  class CalendarConnection {
    var tokens: Tokens
    var oauthState: Option<string>

    function State(): Connection
      reads this
    {
      Connection(tokens, oauthState)
    }

    constructor ()
      ensures State() == InitialConnection
    {
      tokens := InitialTokens;
      oauthState := None;
    }

    method GetStatus() returns (connected: bool)
      ensures connected == Status(State())
    {
      connected := TokensAvailable(tokens);
    }

    method RequestAuthUrl(generatedState: string)
      modifies this
      ensures State() == AuthUrlStep(old(State()), generatedState)
    {
      oauthState := Some(generatedState);
    }

    /** On an error nothing changes; on success the state becomes the callback's result. */
    method HandleCallback(state: string, fetched: Result<Credentials, string>) returns (error: Option<HttpError>)
      modifies this
      ensures var r := Callback(old(State()), state, fetched);
        (r.Err? ==> error == Some(r.error) && State() == old(State()))
        && (r.Ok? ==> error.None? && State() == r.value)
    {
      if oauthState.Some? && oauthState.value != "" && state != oauthState.value {
        return Some(InvalidState);
      }
      if fetched.Err? {
        return Some(ServerError);
      }
      tokens := StoredTokens(fetched.value);
      oauthState := None;
      error := None;
    }
  }

  // ---------------------------------------------------------------------------
  // Event creation
  // ---------------------------------------------------------------------------

  /** `CalendarEventCreate`: the date and start time are texts, the duration a whole number. */
  datatype EventRequest = EventRequest(title: string, description: string, date: string, startTime: string,
                                       durationMinutes: int)

  const TimeZone: string := "Asia/Kolkata"
  const OffsetSuffix: string := ":00+05:30"

  /**
   * `build_datetime_rfc3339`: the date, 'T', the time, then seconds and the
   * fixed India offset.
   */
  function BuildRfc3339(date: string, time: string): (r: string)
    ensures |r| == |date| + |time| + 1 + |OffsetSuffix|
    ensures r[..|date|] == date && r[|date|] == 'T'
    ensures r[|date| + 1..|date| + 1 + |time|] == time
    ensures r[|date| + 1 + |time|..] == OffsetSuffix
  {
    var r := date + "T" + time + OffsetSuffix;
    assert r[|date| + 1..|date| + 1 + |time|] == time;
    r
  }

  /** Two date-times built from dates of equal length agree exactly when their dates and times do. */
  lemma BuildRfc3339Injective(d1: string, t1: string, d2: string, t2: string)
    requires |d1| == |d2|
    ensures BuildRfc3339(d1, t1) == BuildRfc3339(d2, t2) <==> d1 == d2 && t1 == t2
  {
    if BuildRfc3339(d1, t1) == BuildRfc3339(d2, t2) {
      assert |t1| == |t2|;
    }
  }

  datatype EventTime = EventTime(dateTime: string, timeZone: string)
  datatype EventBody = EventBody(summary: string, description: string, start: EventTime, end: EventTime)

  /** The fields the route reads from the created event; missing ones are `None`. */
  datatype CreatedEvent = CreatedEvent(id: Option<string>, htmlLink: Option<string>)

  datatype EventResponse = EventResponse(status: string, eventId: Option<string>, eventLink: Option<string>,
                                         start: string, end: string)

  /** The text the route hands to `strptime`. */
  function StartText(event: EventRequest): string {
    event.date + " " + event.startTime
  }

  /**
   * The end date-time as the route writes it: the clock time of the end,
   * but on the date the session STARTED.
   */
  function EndAsWritten(event: EventRequest, endRaw: DateTime): (end: string)
    requires ValidDateTime(endRaw)
    ensures |end| == |event.date| + 15
    ensures end[..|event.date|] == event.date
    ensures end[|event.date| + 1..|event.date| + 6] == Clock(endRaw.hour, endRaw.minute)
  {
    BuildRfc3339(event.date, Clock(endRaw.hour, endRaw.minute))
  }

  /** The end date-time on the date the session ends, in the form `strptime` reads back. */
  function EndOnItsOwnDate(endRaw: DateTime): (end: string)
    requires ValidDateTime(endRaw)
    ensures |end| == 25
    ensures end[..10] == IsoDate(endRaw.year, endRaw.month, endRaw.day)
    ensures end[11..16] == Clock(endRaw.hour, endRaw.minute)
    ensures ParseDateTime(end[..10] + " " + end[11..16]) == Some(endRaw)
  {
    ParseIsoRoundTrip(endRaw.year, endRaw.month, endRaw.day, endRaw.hour, endRaw.minute);
    BuildRfc3339(IsoDate(endRaw.year, endRaw.month, endRaw.day), Clock(endRaw.hour, endRaw.minute))
  }

  /**
   * The event body `create_calendar_event` sends. Without tokens the route
   * answers 400 before anything else; a date and time `strptime` rejects,
   * or an end outside the representable years, is an unhandled error. The
   * end is written as the route writes it: the clock time of the true end,
   * on the date the session started (`EndAsWritten`).
   */
  function EventBodyFor(tokens: Tokens, event: EventRequest): (r: Result<EventBody, HttpError>)
    ensures r.Ok? <==> TokensAvailable(tokens) && ParseDateTime(StartText(event)).Some?
                       && AddMinutes(ParseDateTime(StartText(event)).value, event.durationMinutes).Some?
    ensures !TokensAvailable(tokens) ==> r == Err(NotConnected)
    ensures TokensAvailable(tokens) && ParseDateTime(StartText(event)).None? ==> r == Err(ServerError)
    ensures TokensAvailable(tokens) && ParseDateTime(StartText(event)).Some? ==>
      var start := ParseDateTime(StartText(event)).value;
      && (AddMinutes(start, event.durationMinutes).None? ==> r == Err(ServerError))
      && (AddMinutes(start, event.durationMinutes).Some? ==>
            var endRaw := AddMinutes(start, event.durationMinutes).value;
            && r.Ok?
            && r.value.summary == event.title && r.value.description == event.description
            && r.value.start == EventTime(BuildRfc3339(event.date, event.startTime), TimeZone)
            && r.value.end == EventTime(BuildRfc3339(event.date, Clock(endRaw.hour, endRaw.minute)), TimeZone))
  {
    if !TokensAvailable(tokens) then Err(NotConnected)
    else
      var startText := BuildRfc3339(event.date, event.startTime);
      match ParseDateTime(StartText(event))
      case None => Err(ServerError)
      case Some(start) =>
        match AddMinutes(start, event.durationMinutes)
        case None => Err(ServerError)
        case Some(endRaw) =>
          Ok(EventBody(event.title, event.description, EventTime(startText, TimeZone),
                       EventTime(EndAsWritten(event, endRaw), TimeZone)))
  }

  /**
   * The event body with the end written on the date it falls on: the same
   * outcome as `EventBodyFor` in every case, and the same body but for
   * the end.
   */
  function EventBodyCorrected(tokens: Tokens, event: EventRequest): (r: Result<EventBody, HttpError>)
    ensures EventBodyFor(tokens, event).Err? ==> r == EventBodyFor(tokens, event)
    ensures EventBodyFor(tokens, event).Ok? ==>
      var endRaw := AddMinutes(ParseDateTime(StartText(event)).value, event.durationMinutes).value;
      r == Ok(EventBodyFor(tokens, event).value.(end := EventTime(EndOnItsOwnDate(endRaw), TimeZone)))
  {
    match EventBodyFor(tokens, event)
    case Err(e) => Err(e)
    case Ok(body) =>
      var endRaw := AddMinutes(ParseDateTime(StartText(event)).value, event.durationMinutes).value;
      Ok(body.(end := EventTime(EndOnItsOwnDate(endRaw), TimeZone)))
  }

  /**
   * `POST /events`. The outcome of the insert call is a parameter; a
   * failed insert is an unhandled error. The answer repeats the start and
   * end the body carried.
   */
  function CreateCalendarEvent(tokens: Tokens, event: EventRequest, insert: Result<CreatedEvent, string>)
    : (r: Result<EventResponse, HttpError>)
    ensures EventBodyFor(tokens, event).Err? ==> r == Err(EventBodyFor(tokens, event).error)
    ensures EventBodyFor(tokens, event).Ok? && insert.Err? ==> r == Err(ServerError)
    ensures EventBodyFor(tokens, event).Ok? && insert.Ok? ==>
      var body := EventBodyFor(tokens, event).value;
      r == Ok(EventResponse("success", insert.value.id, insert.value.htmlLink,
                            body.start.dateTime, body.end.dateTime))
  {
    match EventBodyFor(tokens, event)
    case Err(e) => Err(e)
    case Ok(body) =>
      match insert
      case Err(_) => Err(ServerError)
      case Ok(created) =>
        Ok(EventResponse("success", created.id, created.htmlLink, body.start.dateTime, body.end.dateTime))
  }

  /**
   * With the end on its own date, the end written into the event is read
   * back as exactly `durationMinutes` after the start, so a session of
   * non-negative length never ends before it starts.
   */
  lemma EndFollowsStart(tokens: Tokens, event: EventRequest)
    requires EventBodyCorrected(tokens, event).Ok?
    ensures var start := ParseDateTime(StartText(event)).value;
      var end := EventBodyCorrected(tokens, event).value.end.dateTime;
      && |end| == 25
      && ParseDateTime(end[..10] + " " + end[11..16]).Some?
      && MinutesSinceMin(ParseDateTime(end[..10] + " " + end[11..16]).value)
         == MinutesSinceMin(start) + event.durationMinutes
  {
    var start := ParseDateTime(StartText(event)).value;
    var endRaw := AddMinutes(start, event.durationMinutes).value;
    assert EventBodyCorrected(tokens, event).value.end.dateTime == EndOnItsOwnDate(endRaw);
  }

  /**
   * As written, a session that runs past midnight is given an end on its
   * start date (see `EndAsWritten`) whose clock time is earlier than the
   * start's: the instant it names lies before the start. `endRaw` is the
   * true end, whose time of day `SumTimeOfDay` gives.
   */
  lemma AsWrittenEndBeforeStart(start: DateTime, duration: int, endRaw: DateTime)
    requires ValidDateTime(start) && ValidDateTime(endRaw)
    requires endRaw.hour * 60 + endRaw.minute == (start.hour * 60 + start.minute + duration) % 1440
    requires 0 <= duration < 1440 && start.hour * 60 + start.minute + duration >= 1440
    ensures var written := start.(hour := endRaw.hour, minute := endRaw.minute);
      && ValidDateTime(written)
      && MinutesSinceMin(written) < MinutesSinceMin(start)
  {
    PastMidnight(start.hour * 60 + start.minute + duration);
    EarlierSameDay(start, endRaw.hour, endRaw.minute);
  }

  /** An earlier clock time on the same day is an earlier instant. */
  lemma EarlierSameDay(start: DateTime, hour: int, minute: int)
    requires ValidDateTime(start) && 0 <= hour <= 23 && 0 <= minute <= 59
    requires hour * 60 + minute < start.hour * 60 + start.minute
    ensures ValidDateTime(start.(hour := hour, minute := minute))
    ensures MinutesSinceMin(start.(hour := hour, minute := minute)) < MinutesSinceMin(start)
  {
    EarlierSameDayBy(start, hour, minute);
  }

  /** The session started at 23:50 on 10 March 2025 for 25 minutes. */
  const LateSession: EventRequest := EventRequest("Revise", "", "2025-03-10", "23:50", 25)

  /** A request whose date and start time are canonical texts reads back as that instant. */
  lemma StartReads(event: EventRequest, y: nat, m: nat, d: nat, h: nat, mi: nat)
    requires ValidDate(y, m, d) && h < 24 && mi < 60
    requires event.date == IsoDate(y, m, d) && event.startTime == Clock(h, mi)
    ensures ParseDateTime(StartText(event)) == Some(DateTime(y, m, d, h, mi))
  {
    ParseIsoRoundTrip(y, m, d, h, mi);
  }

  /**
   * As written, a session dated 10 March 2025 that starts at 23:50 and
   * lasts 25 minutes is sent with an end of 00:15 on 10 March: read on
   * the start's date, that end lies 1415 minutes before the start.
   */
  lemma LateSessionAsWritten(tokens: Tokens, event: EventRequest)
    requires TokensAvailable(tokens)
    requires event.date == IsoDate(2025, 3, 10) && event.startTime == Clock(23, 50) && event.durationMinutes == 25
    ensures ParseDateTime(StartText(event)) == Some(DateTime(2025, 3, 10, 23, 50))
    ensures EventBodyFor(tokens, event).Ok?
    ensures EventBodyFor(tokens, event).value.end.dateTime == "2025-03-10T00:15:00+05:30"
    ensures var start := ParseDateTime(StartText(event)).value;
      MinutesSinceMin(start.(hour := 0, minute := 15)) == MinutesSinceMin(start) - 1415
  {
    var start := DateTime(2025, 3, 10, 23, 50);
    StartReads(event, 2025, 3, 10, 23, 50);
    LateStartInRange(start);
    var endRaw := AddMinutes(start, event.durationMinutes).value;
    LateSessionEndsQuarterPast(start, endRaw);
    assert EventBodyFor(tokens, event).value.end.dateTime == EndAsWritten(event, endRaw);
    MarchTenth(2025, 3, 10);
    QuarterPastOn(event.date, endRaw);
    QuarterPastIsEarlier(start, endRaw);
  }

  /** The session `LateSession` is one such session. */
  lemma LateSessionFields()
    ensures LateSession.date == IsoDate(2025, 3, 10) && LateSession.startTime == Clock(23, 50)
    ensures LateSession.durationMinutes == 25
  {
    MarchTenth(2025, 3, 10);
    TenToMidnight(23, 50);
  }

  /** 23:50 plus 25 minutes is 00:15 on the clock. */
  lemma LateSessionEndsQuarterPast(start: DateTime, endRaw: DateTime)
    requires ValidDateTime(start) && start.hour == 23 && start.minute == 50
    requires AddMinutes(start, 25) == Some(endRaw)
    ensures endRaw.hour == 0 && endRaw.minute == 15
  {
    ClockOfSum(start, 25, endRaw);
    QuarterPastClock(start.hour * 60 + start.minute + 25, endRaw.hour, endRaw.minute);
  }

  /** `SumTimeOfDay` for a sum already known by name. */
  lemma ClockOfSum(start: DateTime, k: int, endRaw: DateTime)
    requires ValidDateTime(start) && AddMinutes(start, k) == Some(endRaw)
    ensures endRaw.hour * 60 + endRaw.minute == (start.hour * 60 + start.minute + k) % 1440
  {
    SumTimeOfDay(start, k);
  }

  lemma QuarterPastClock(total: int, h: int, mi: int)
    requires total == 23 * 60 + 50 + 25 && 0 <= mi < 60
    requires h * 60 + mi == total % 1440
    ensures h == 0 && mi == 15
  {
  }

  /** A start on 10 March 2025 is far from the last representable minute. */
  lemma LateStartInRange(start: DateTime)
    requires start == DateTime(2025, 3, 10, 23, 50)
    ensures ValidDateTime(start) && AddMinutes(start, 25).Some?
  {
    MinutesAtOrdinal(start, Ordinal(2025, 3, 10));
  }

  lemma MarchTenth(y: nat, m: nat, d: nat)
    requires y == 2025 && m == 3 && d == 10
    ensures IsoDate(y, m, d) == "2025-03-10"
  {
  }

  lemma TenToMidnight(h: nat, mi: nat)
    requires h == 23 && mi == 50
    ensures Clock(h, mi) == "23:50"
  {
    TwoDigitsChars(h);
    TwoDigitsChars(mi);
  }

  lemma QuarterPastIsEarlier(start: DateTime, endRaw: DateTime)
    requires ValidDateTime(start) && start.hour == 23 && start.minute == 50
    requires ValidDateTime(endRaw) && endRaw.hour == 0 && endRaw.minute == 15
    ensures MinutesSinceMin(start.(hour := endRaw.hour, minute := endRaw.minute)) == MinutesSinceMin(start) - 1415
  {
    EarlierSameDayBy(start, endRaw.hour, endRaw.minute);
  }

  lemma QuarterPastOn(date: string, endRaw: DateTime)
    requires ValidDateTime(endRaw) && endRaw.hour == 0 && endRaw.minute == 15 && date == "2025-03-10"
    ensures BuildRfc3339(date, Clock(endRaw.hour, endRaw.minute)) == "2025-03-10T00:15:00+05:30"
  {
    QuarterPast(endRaw.hour, endRaw.minute);
    RfcAt(date, Clock(endRaw.hour, endRaw.minute));
  }

  lemma QuarterPast(h: nat, mi: nat)
    requires h == 0 && mi == 15
    ensures Clock(h, mi) == "00:15"
  {
    TwoDigitsChars(h);
    TwoDigitsChars(mi);
    QuarterPastDigits(TwoDigits(h), TwoDigits(mi), h, mi);
  }

  lemma QuarterPastDigits(x: string, y: string, h: nat, mi: nat)
    requires h == 0 && mi == 15
    requires x == [DigitChar(h / 10), DigitChar(h % 10)] && y == [DigitChar(mi / 10), DigitChar(mi % 10)]
    ensures x + ":" + y == "00:15"
  {
  }

  lemma RfcAt(date: string, c: string)
    requires date == "2025-03-10" && c == "00:15"
    ensures BuildRfc3339(date, c) == "2025-03-10T00:15:00+05:30"
  {
  }

  /** Moving the clock on the same day moves the instant by the same number of minutes. */
  lemma EarlierSameDayBy(start: DateTime, hour: int, minute: int)
    requires ValidDateTime(start) && 0 <= hour <= 23 && 0 <= minute <= 59
    ensures ValidDateTime(start.(hour := hour, minute := minute))
    ensures MinutesSinceMin(start.(hour := hour, minute := minute))
            == MinutesSinceMin(start) + (hour * 60 + minute) - (start.hour * 60 + start.minute)
  {
    var written := start.(hour := hour, minute := minute);
    var day := Ordinal(start.year, start.month, start.day);
    MinutesAtOrdinal(start, day);
    MinutesAtOrdinal(written, day);
  }
}
