/** The conversation relay: the per-user session map kept by the bot, the
    handlers that change it, and the decision each handler takes about the
    one request it may send to the report store. */
module Relay {
  import opened Common

  /** The four choices of the category keyboard; the callback handler only
      receives these. */
  const Categories: seq<string> := ["fire", "volunteer", "brigade", "plane"]

  datatype Location = Location(lat: real, lon: real)

  /** The sender of a message: numeric id and optional username. */
  datatype User = User(id: int, username: Option<string>)

  /** One user's session. An absent `live_active` key and `False` are read
      alike (only through truthiness), so `liveActive` is a plain flag. */
  datatype Session = Session(
    lastLocation: Option<Location>,
    category: Option<string>,
    liveId: Option<string>,
    liveActive: bool)

  const NewSession := Session(None, None, None, false)

  /** The outbound request a handler decides on. */
  datatype Request =
    | NoRequest
    | Post(payload: Payload)                   // POST /report
    | Put(liveId: string, payload: Payload)    // PUT /report/{liveId}

  /** What came back from the report store: a status code, or an exception
      (timeout, connection refused, ...). */
  datatype HttpOutcome = Responded(status: int) | TransportFailure

  /** How the category prompt is edited after a submission. */
  datatype Notice =
    | Saved(live: bool, emoji: string, category: string)
    | SaveFailed(live: bool)
    | SaveError

  /* ---------------------------------------------------------------------
     Identifiers
     --------------------------------------------------------------------- */

  /** The text of `str(uuid.uuid4())`: 36 characters, dashes at positions
      8, 13, 18 and 23 and a lower-case hex digit everywhere else, with the
      version digit '4' at position 14 and the variant digit (one of 8, 9,
      a, b) at position 19. */
  predicate IsUuidText(s: string) {
    && |s| == 36
    && (forall i :: 0 <= i < |s| ==>
          if i == 8 || i == 13 || i == 18 || i == 23 then s[i] == '-'
          else s[i] in "0123456789abcdef")
    && s[14] == '4'
    && s[19] in "89ab"
  }

  /** A uuid text splits into groups of 8, 4, 4, 4 and 12 characters at
      exactly four dashes. */
  lemma UuidDashes(s: string)
    requires IsUuidText(s)
    ensures (set i | 0 <= i < |s| && s[i] == '-') == {8, 13, 18, 23}
  {
  }

  /** The format admits what `uuid4()` prints. */
  lemma SampleUuid()
    ensures IsUuidText("123e4567-e89b-42d3-a456-426614174000")
  {
  }

  predicate AllDigits(s: string) {
    forall i :: 0 <= i < |s| ==> '0' <= s[i] <= '9'
  }

  function DigitChar(d: nat): (c: char)
    requires d < 10
    ensures '0' <= c <= '9'
  {
    ('0' as int + d) as char
  }

  function DigitValue(c: char): (d: nat)
    requires '0' <= c <= '9'
    ensures d < 10 && DigitChar(d) == c
  {
    c as int - '0' as int
  }

  /** Decimal digits in canonical form: at least one, and no leading zero
      unless the number is zero itself. */
  predicate IsCanonicalDigits(s: string) {
    s != [] && AllDigits(s) && (|s| == 1 || s[0] != '0')
  }

  /** The decimal digits of `n`, without leading zeros. */
  function NatToString(n: nat): (s: string)
    ensures IsCanonicalDigits(s)
    ensures s[0] == '0' <==> n == 0
  {
    if n < 10 then [DigitChar(n)] else NatToString(n / 10) + [DigitChar(n % 10)]
  }

  /** The number a non-empty run of decimal digits denotes. */
  function ParseDigits(s: string): nat
    requires s != [] && AllDigits(s)
  {
    if |s| == 1 then DigitValue(s[0])
    else 10 * ParseDigits(s[..|s| - 1]) + DigitValue(s[|s| - 1])
  }

  lemma {:induction false} ParseNatToString(n: nat)
    ensures ParseDigits(NatToString(n)) == n
  {
    var s := NatToString(n);
    if n >= 10 {
      ParseNatToString(n / 10);
      assert s[..|s| - 1] == NatToString(n / 10);
      assert DigitValue(DigitChar(n % 10)) == n % 10;
    } else {
      assert DigitValue(DigitChar(n)) == n;
    }
  }

  /** Decimal text of an integer: digits, after an optional '-'. */
  predicate IsIntText(s: string) {
    if s != [] && s[0] == '-' then |s| > 1 && AllDigits(s[1..]) else s != [] && AllDigits(s)
  }

  /** The integer a decimal text denotes. */
  function ParseInt(s: string): int
    requires IsIntText(s)
  {
    if s[0] == '-' then -(ParseDigits(s[1..]) as int) else ParseDigits(s)
  }

  /** Canonical decimal text of an integer, the form Python's `str` gives:
      canonical digits, after a '-' only when the number is negative (so no
      "-0" and no leading zeros). */
  predicate IsCanonicalIntText(s: string) {
    if s != [] && s[0] == '-' then IsCanonicalDigits(s[1..]) && s[1] != '0'
    else IsCanonicalDigits(s)
  }

  /** Python's `str(i)` for an integer: its canonical decimal text, which
      reads back as `i`. */
  function IntToString(i: int): (s: string)
    ensures IsIntText(s) && ParseInt(s) == i
    ensures IsCanonicalIntText(s)
    ensures s[0] == '-' <==> i < 0
  {
    if i < 0 then
      var digits := NatToString(-i);
      ParseNatToString(-i);
      assert ("-" + digits)[1..] == digits;
      "-" + digits
    else
      var digits := NatToString(i);
      ParseNatToString(i);
      assert '0' <= digits[0] <= '9';
      digits
  }

  lemma {:induction false} ParseDigitsPositive(s: string)
    requires s != [] && AllDigits(s) && s[0] != '0'
    ensures ParseDigits(s) > 0
  {
    if |s| > 1 {
      ParseDigitsPositive(s[..|s| - 1]);
    }
  }

  /** Canonical digits are exactly the text of the number they denote. */
  lemma {:induction false} NatToStringParseDigits(s: string)
    requires IsCanonicalDigits(s)
    ensures NatToString(ParseDigits(s)) == s
  {
    if |s| > 1 {
      var prefix := s[..|s| - 1];
      var d := DigitValue(s[|s| - 1]);
      assert prefix[0] == s[0];
      ParseDigitsPositive(prefix);
      NatToStringParseDigits(prefix);
      var n := ParseDigits(s);
      assert n / 10 == ParseDigits(prefix) && n % 10 == d;
      assert s == prefix + [s[|s| - 1]];
    }
  }

  /** Every canonical decimal text is the text of the integer it denotes:
      with the ensures of `IntToString`, the two are inverse bijections
      between the integers and the canonical texts. */
  lemma IntToStringParseInt(s: string)
    requires IsCanonicalIntText(s)
    ensures IsIntText(s) && IntToString(ParseInt(s)) == s
  {
    if s[0] == '-' {
      var digits := s[1..];
      NatToStringParseDigits(digits);
      ParseDigitsPositive(digits);
      assert s == "-" + digits;
    } else {
      NatToStringParseDigits(s);
    }
  }

  predicate HasUsername(u: User) {
    u.username.Some? && u.username.value != ""
  }

  /** The `user` field of a report: the username when it is set and
      non-empty, otherwise `id_` followed by the decimal id, from which the
      id reads back. */
  function UserLabel(u: User): (name: string)
    ensures name != ""
    ensures HasUsername(u) ==> name == u.username.value
    ensures !HasUsername(u) ==>
              && |name| > 3 && name[..3] == "id_"
              && IsIntText(name[3..]) && ParseInt(name[3..]) == u.id
              && IsCanonicalIntText(name[3..])
    ensures !HasUsername(u) ==> name == "id_" + IntToString(u.id)
  {
    if u.username.Some? && u.username.value != "" then u.username.value
    else
      var digits := IntToString(u.id);
      assert ("id_" + digits)[3..] == digits;
      "id_" + digits
  }

  /** Two users without a username never share a label. */
  lemma FallbackLabelsDistinct(u: User, v: User)
    requires !HasUsername(u) && !HasUsername(v)
    requires u.id != v.id
    ensures UserLabel(u) != UserLabel(v)
  {
  }

  /* ---------------------------------------------------------------------
     Reports
     --------------------------------------------------------------------- */

  /** The emoji shown on confirmation: one per category, a pin otherwise. */
  function CategoryEmoji(category: string): (emoji: string)
    ensures emoji != ""
    ensures emoji == "📍" <==> category !in Categories
  {
    if category == "fire" then "🔥"
    else if category == "volunteer" then "👤"
    else if category == "brigade" then "🚒"
    else if category == "plane" then "✈️"
    else "📍"
  }

  /** The report body the relay sends: exactly the six required fields,
      the coordinates of the stored location, and the action "active". */
  function ReportPayload(category: string, loc: Location, user: string, timestamp: string): (p: Payload)
    ensures forall k :: k in p <==> k in Required
    ensures p["category"] == Str(category) && p["user"] == Str(user) && p["timestamp"] == Str(timestamp)
    ensures p["lat"] == Num(loc.lat) && p["lon"] == Num(loc.lon)
    ensures p["action"] == Str("active")
  {
    map[
      "category" := Str(category),
      "lat" := Num(loc.lat),
      "lon" := Num(loc.lon),
      "user" := Str(user),
      "timestamp" := Str(timestamp),
      "action" := Str("active")]
  }

  /** The status the relay counts as success: 200 for a PUT, 201 for a POST. */
  function SuccessStatus(request: Request): (status: int)
    requires !request.NoRequest?
    ensures status == 200 <==> request.Put?
    ensures status == 201 <==> request.Post?
  {
    if request.Put? then 200 else 201
  }

  /** How the prompt is edited once the store has answered `request`. */
  function Verdict(request: Request, outcome: HttpOutcome, category: string): (notice: Notice)
    requires !request.NoRequest?
    ensures notice.Saved? <==> outcome == Responded(SuccessStatus(request))
    ensures notice.SaveError? <==> outcome == TransportFailure
    ensures notice.Saved? ==>
              notice.live == request.Put? && notice.category == category &&
              notice.emoji == CategoryEmoji(category)
    ensures notice.SaveFailed? ==> notice.live == request.Put?
  {
    match outcome
    case TransportFailure => SaveError
    case Responded(status) =>
      if status == SuccessStatus(request) then Saved(request.Put?, CategoryEmoji(category), category)
      else SaveFailed(request.Put?)
  }

  /** Python's truth value of `location.live_period`, an optional number
      of seconds: a location is live unless the period is absent or zero. */
  function IsLive(livePeriod: Option<int>): (live: bool)
    ensures !live <==> livePeriod == None || livePeriod == Some(0)
  {
    livePeriod.Some? && livePeriod.value != 0
  }

  /* ---------------------------------------------------------------------
     Sessions
     --------------------------------------------------------------------- */

  /** What every stored session satisfies: it has a location (sessions are
      only created by a location message), live tracking implies a live id,
      a live id is a uuid text, and a recorded category is one of the four. */
  predicate SessionOk(s: Session) {
    && s.lastLocation.Some?
    && (s.liveActive ==> s.liveId.Some?)
    && (s.liveId.Some? ==> IsUuidText(s.liveId.value))
    && (s.category.Some? ==> s.category.value in Categories)
  }

  /** A live id, once assigned, stays and is never replaced. */
  ghost predicate LiveIdsKept(before: map<int, Session>, after: map<int, Session>) {
    forall u :: u in before && before[u].liveId.Some? ==>
      u in after && after[u].liveId == before[u].liveId
  }

  /** No session but `user`'s is created, removed or changed. */
  ghost predicate OthersUnchanged(before: map<int, Session>, after: map<int, Session>, user: int) {
    forall u :: u != user ==>
      (u in after <==> u in before) && (u in before ==> after[u] == before[u])
  }

  /** The session `user` has, or the empty one `handle_location` creates. */
  function Prior(sessions: map<int, Session>, user: int): (s: Session)
    ensures user in sessions ==> s == sessions[user]
    ensures user !in sessions ==>
              s.lastLocation.None? && s.category.None? && s.liveId.None? && !s.liveActive
  {
    if user in sessions then sessions[user] else NewSession
  }

  /** The process-wide `user_data` map and the handlers that change it. */
  class SessionStore {
    var sessions: map<int, Session>

    ghost predicate Valid()
      reads this
    {
      forall u :: u in sessions ==> SessionOk(sessions[u])
    }

    constructor ()
      ensures Valid() && sessions == map[]
    {
      sessions := map[];
    }

    /** /cancel: drop the caller's session, if any. */
    method Cancel(user: int) returns (request: Request)
      requires Valid()
      modifies this
      ensures Valid()
      ensures request == NoRequest
      ensures user !in sessions
      ensures OthersUnchanged(old(sessions), sessions, user)
    {
      sessions := sessions - {user};
      request := NoRequest;
    }

    /** /stop_live: clear the live flag of an existing session; nothing else. */
    method StopLive(user: int) returns (request: Request)
      requires Valid()
      modifies this
      ensures Valid()
      ensures request == NoRequest
      ensures user in sessions <==> user in old(sessions)
      ensures user in old(sessions) ==> sessions[user] == old(sessions)[user].(liveActive := false)
      ensures OthersUnchanged(old(sessions), sessions, user)
      ensures LiveIdsKept(old(sessions), sessions)
    {
      if user in sessions {
        sessions := sessions[user := sessions[user].(liveActive := false)];
      }
      request := NoRequest;
    }

    /** A location message: create the session if needed and store the
        location; a live location also gets a live id (kept if it has one,
        `freshId` from `uuid4()` otherwise) and turns live tracking on. */
    method HandleLocation(user: int, loc: Location, livePeriod: Option<int>, freshId: string)
      returns (request: Request)
      requires Valid()
      requires IsUuidText(freshId)
      modifies this
      ensures Valid()
      ensures request == NoRequest
      ensures user in sessions && sessions[user].lastLocation == Some(loc)
      ensures sessions[user].category == Prior(old(sessions), user).category
      ensures IsLive(livePeriod) ==>
                && sessions[user].liveActive
                && sessions[user].liveId ==
                     if Prior(old(sessions), user).liveId.Some? then Prior(old(sessions), user).liveId
                     else Some(freshId)
      ensures !IsLive(livePeriod) ==>
                && sessions[user].liveId == Prior(old(sessions), user).liveId
                && sessions[user].liveActive == Prior(old(sessions), user).liveActive
      ensures OthersUnchanged(old(sessions), sessions, user)
      ensures LiveIdsKept(old(sessions), sessions)
    {
      if user !in sessions {
        sessions := sessions[user := NewSession];
      }
      sessions := sessions[user := sessions[user].(lastLocation := Some(loc))];
      if IsLive(livePeriod) {
        var current := sessions[user].liveId;
        var id := if current.Some? && current.value != "" then current.value else freshId;
        sessions := sessions[user := sessions[user].(liveId := Some(id))];
        sessions := sessions[user := sessions[user].(liveActive := true)];
      }
      request := NoRequest;
    }

    /** The live-update request for `sender`'s session: a PUT of the stored
        location under the session's live id. The source indexes the
        category and the live id, so a session must have both. */
    method SendLocationUpdate(sender: User, now: string) returns (request: Request)
      requires Valid()
      requires sender.id in sessions ==>
                 sessions[sender.id].category.Some? && sessions[sender.id].liveId.Some?
      ensures sender.id !in sessions ==> request == NoRequest
      ensures sender.id in sessions ==>
                var s := sessions[sender.id];
                && request.Put?
                && request.liveId == s.liveId.value
                && request.payload ==
                     ReportPayload(s.category.value, s.lastLocation.value, UserLabel(sender), now)
    {
      if sender.id !in sessions {
        return NoRequest;
      }
      var s := sessions[sender.id];
      var payload := ReportPayload(s.category.value, s.lastLocation.value, UserLabel(sender), now);
      request := Put(s.liveId.value, payload);
    }

    /** An edited (live) location: ignored without a session; otherwise the
        location is stored, and re-sent by PUT when tracking is on and a
        category has been chosen. */
    method HandleEditedLocation(sender: User, loc: Location, now: string) returns (request: Request)
      requires Valid()
      modifies this
      ensures Valid()
      ensures sender.id !in old(sessions) ==> sessions == old(sessions) && request == NoRequest
      ensures sender.id in old(sessions) ==>
                sessions == old(sessions)[sender.id := old(sessions)[sender.id].(lastLocation := Some(loc))]
      ensures !request.Post?
      ensures request.Put? <==>
                && sender.id in old(sessions)
                && old(sessions)[sender.id].liveActive
                && old(sessions)[sender.id].category.Some?
      ensures request.Put? ==>
                && request.liveId == old(sessions)[sender.id].liveId.value
                && request.payload ==
                     ReportPayload(old(sessions)[sender.id].category.value, loc, UserLabel(sender), now)
      ensures OthersUnchanged(old(sessions), sessions, sender.id)
      ensures LiveIdsKept(old(sessions), sessions)
    {
      if sender.id !in sessions {
        return NoRequest;
      }
      sessions := sessions[sender.id := sessions[sender.id].(lastLocation := Some(loc))];
      var s := sessions[sender.id];
      if s.liveActive && s.category.Some? {
        request := SendLocationUpdate(sender, now);
      } else {
        request := NoRequest;
      }
    }

    /** A category choice: rejected (no request, no change) without a
        stored location; otherwise the category is recorded and the report
        goes out by PUT under the live id when tracking is on, by POST
        otherwise. */
    method HandleCategorySelection(sender: User, category: string, now: string) returns (request: Request)
      requires Valid()
      requires category in Categories
      modifies this
      ensures Valid()
      ensures request == NoRequest <==> sender.id !in old(sessions)
      ensures sender.id !in old(sessions) ==> sessions == old(sessions)
      ensures sender.id in old(sessions) ==>
                var s := old(sessions)[sender.id];
                var payload := ReportPayload(category, s.lastLocation.value, UserLabel(sender), now);
                && sessions == old(sessions)[sender.id := s.(category := Some(category))]
                && request == if s.liveActive then Put(s.liveId.value, payload) else Post(payload)
      ensures OthersUnchanged(old(sessions), sessions, sender.id)
      ensures LiveIdsKept(old(sessions), sessions)
    {
      var user := sender.id;
      if user !in sessions || sessions[user].lastLocation.None? {
        return NoRequest;
      }
      sessions := sessions[user := sessions[user].(category := Some(category))];
      var location := sessions[user].lastLocation.value;
      var payload := ReportPayload(category, location, UserLabel(sender), now);
      if sessions[user].liveActive {
        request := Put(sessions[user].liveId.value, payload);
      } else {
        request := Post(payload);
      }
    }
  }
}
