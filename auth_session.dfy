/**
 * Sessions (Models/AuthSession.php): signing in either refreshes the
 * session of the same user, IP and user agent, or inserts a new session
 * with a fresh token that the browser keeps in a cookie.
 *
 * The request (IP, user agent), the clock and the token lifetime are
 * parameters; the cookie write is returned as the value written.
 */
module AuthSession {
  import opened Wrappers
  import opened Php
  import opened Errors
  import opened Records
  import opened Database
  import opened Tokens

  const SessionTable: string := "auth_sessions"
  const SecondsPerDay: int := 86400
  const SecondsPerHour: int := 3600

  /** findByToken: the session with that token, whatever its end time. */
  function FindByToken(sessions: seq<Session>, token: string): (r: Option<nat>)
    ensures r.Some? ==> r.value < |sessions| && sessions[r.value].token == token
    ensures r.None? <==> forall j :: 0 <= j < |sessions| ==> sessions[j].token != token
  {
    FirstIndex(sessions, (s: Session) => s.token == token)
  }

  /** With unique tokens, findByToken returns exactly the session holding
      the token, expired or not. */
  lemma FindByTokenIsExact(sessions: seq<Session>, k: nat)
    requires TokensUnique(sessions) && k < |sessions|
    ensures FindByToken(sessions, sessions[k].token) == Some(k)
  {
  }

  /** The session make refreshes instead of inserting one: same user, IP and
      user agent. The grant id is not part of the match. */
  function FindReusable(sessions: seq<Session>, userId: int, ip: string, agent: string): (r: Option<nat>)
    ensures r.Some? ==>
      r.value < |sessions| && sessions[r.value].userId == userId && sessions[r.value].userIp == ip && sessions[r.value].userAgent == agent
    ensures r.None? <==> forall j :: 0 <= j < |sessions| ==>
      !(sessions[j].userId == userId && sessions[j].userIp == ip && sessions[j].userAgent == agent)
  {
    FirstIndex(sessions, (s: Session) => s.userId == userId && s.userIp == ip && s.userAgent == agent)
  }

  /** The hour of day (UTC) of a timestamp. */
  function HourOfDay(t: int): (h: int)
    ensures 0 <= h < 24
  {
    (t % SecondsPerDay) / SecondsPerHour
  }

  /** The end time make stores AS WRITTEN: `date('Y-m-d h:i:s', t)` prints
      the hour on a 12-hour clock without AM/PM, and the stored string is
      read back as a 24-hour time. */
  function EndTimeAsWritten(now: int, alive: int): int
  {
    var t := now + alive;
    var h := HourOfDay(t);
    var h12 := if h % 12 == 0 then 12 else h % 12;
    t - h * SecondsPerHour + h12 * SecondsPerHour
  }

  /** As written, an end time from 13:00 on is stored twelve hours early
      and one in the hour after midnight twelve hours late. */
  lemma EndTimeAsWrittenShift(now: int, alive: int)
    ensures HourOfDay(now + alive) >= 13 ==> EndTimeAsWritten(now, alive) == now + alive - 12 * SecondsPerHour
    ensures HourOfDay(now + alive) == 0 ==> EndTimeAsWritten(now, alive) == now + alive + 12 * SecondsPerHour
    ensures 1 <= HourOfDay(now + alive) <= 12 ==> EndTimeAsWritten(now, alive) == now + alive
  {
  }

  /** A session opened at 13:00 (UTC) with a one-hour lifetime is stored as
      ending at 02:00 the same day, before it was opened. */
  lemma EndTimeAsWrittenIsInThePast()
    ensures EndTimeAsWritten(13 * SecondsPerHour, SecondsPerHour) == 2 * SecondsPerHour
    ensures EndTimeAsWritten(13 * SecondsPerHour, SecondsPerHour) < 13 * SecondsPerHour
  {
  }

  /** The corrected end time make stores: now plus the token lifetime, as
      the 24-hour 'H' used for confirmations keeps it. The 12-hour 'h' make
      is written with is EndTimeAsWritten. */
  function EndTime(now: int, alive: int): int
  {
    now + alive
  }

  /** A session is expired once the clock is strictly past its end time. */
  predicate Expired(s: Session, at: int)
  {
    at > s.endTime
  }

  /** With the corrected end time a session made at `now` is live for
      exactly `alive` seconds, whatever the hour of day. */
  lemma SessionLivesForItsLifetime(s: Session, now: int, alive: int)
    requires s.endTime == EndTime(now, alive) && alive >= 0
    ensures forall at :: now <= at <= now + alive ==> !Expired(s, at)
    ensures Expired(s, now + alive + 1)
  {
  }

  /** The cookie value make writes AS WRITTEN: the token of `$auth`, the
      result of the lookup for a session to prolong. */
  function InsertCookieAsWritten(sessions: seq<Session>, found: Option<nat>): Value
    requires found.Some? ==> found.value < |sessions|
  {
    match found
    case Some(k) => Str(sessions[k].token)
    case None => Null
  }

  /** As written, the insert path is taken exactly when the lookup found
      nothing, so its cookie is null and never carries the new token. */
  lemma InsertCookieAsWrittenLosesToken(sessions: seq<Session>, ip: string, agent: string, userId: int, token: string)
    ensures var found := FindReusable(sessions, userId, ip, agent);
      found.None? ==> InsertCookieAsWritten(sessions, found) == Null && InsertCookieAsWritten(sessions, found) != InsertCookie(token)
  {
  }

  /** The cookie value the insert path writes: the new session's token. */
  function InsertCookie(token: string): Value
  {
    Str(token)
  }

  lemma AppendKeepsTokensUnique(sessions: seq<Session>, s: Session)
    requires TokensUnique(sessions)
    requires forall j :: 0 <= j < |sessions| ==> sessions[j].token != s.token
    ensures TokensUnique(sessions + [s])
  {
  }

  /** Session tokens are drawn with the default generator: 30 characters
      out of 62, at most 20 tries. */
  ghost predicate TokenDraws(draws: (nat, nat) -> int)
  {
    forall t, i :: 1 <= draws(t, i) <= |DefaultSymbols|
  }

  /** The token column of the session table. */
  function TokensOf(sessions: seq<Session>): set<string>
  {
    set s | s in sessions :: s.token
  }

  /** Every one of the 20 candidate tokens is already held by a session:
      generateUniqueIn gives up. */
  predicate TokensExhausted(sessions: seq<Session>, draws: (nat, nat) -> int)
    requires TokenDraws(draws)
  {
    forall t :: 0 <= t < DefaultMaxTries ==> Candidate(DefaultSymbols, DefaultTokenLength, draws, t) in TokensOf(sessions)
  }

  /** generateUniqueIn on the session table: a token no session holds, or
      the exhaustion error exactly when every candidate is taken. */
  method GenerateToken(sessions: seq<Session>, draws: (nat, nat) -> int) returns (r: Result<string, AuthError>)
    requires TokenDraws(draws)
    ensures r.Ok? ==> forall j :: 0 <= j < |sessions| ==> sessions[j].token != r.value
    ensures r.Err? ==> r.error == Build("token_exceeed_max_try_generated", [])
    ensures r.Err? <==> TokensExhausted(sessions, draws)
  {
    var tokens := TokensOf(sessions);
    var generator := new Token(Props(None, None, None));
    var taken := (t: string, f: string, v: string) => t == SessionTable && f == "token" && v in tokens;
    r := generator.GenerateUniqueIn(TableName(SessionTable), None, draws, taken);
    if r.Ok? {
      var k := FirstUniqueFound(DefaultSymbols, DefaultTokenLength, draws, DefaultMaxTries, taken, SessionTable, "token", 0);
      assert r.value !in tokens;
      assert forall j :: 0 <= j < |sessions| ==> sessions[j].token in tokens;
    }
  }

  /** What make leaves in the session table, and whether it succeeds, for
      a grant signing in from `ip` with user agent `agent`:
      - a session of the same user, IP and agent is prolonged to the new
        end time, nothing else changes, and make succeeds;
      - otherwise make fails exactly when every candidate token is taken,
        and then with the exhaustion error and the table as it was;
      - on success one session is appended: the next id, the grant's user
        and id, the IP, the agent, the new end time and a token no earlier
        session holds. */
  predicate SessionMade<T>(before: seq<Session>, after: seq<Session>, grant: Grant, ip: string, agent: string,
                           now: int, alive: int, draws: (nat, nat) -> int, r: Result<T, AuthError>)
    requires TokenDraws(draws)
  {
    match FindReusable(before, grant.userId, ip, agent)
    case Some(k) => r.Ok? && after == before[k := before[k].(endTime := EndTime(now, alive))]
    case None =>
      (r.Err? <==> TokensExhausted(before, draws))
      && (r.Err? ==> r.error == Build("token_exceeed_max_try_generated", []) && after == before)
      && (r.Ok? ==>
            |after| == |before| + 1 && after == before + [after[|before|]]
            && after[|before|] == Session(|before| + 1, grant.userId, grant.id, after[|before|].token, ip, agent, EndTime(now, alive))
            && after[|before|].token !in TokensOf(before))
  }

  /** A sign-in that succeeded leaves a session of the same user, IP and
      agent, so a second sign-in from there prolongs it: it cannot fail and
      appends nothing, whatever the draws. */
  lemma {:induction false} SignInAgainProlongs<T, U>(before: seq<Session>, after: seq<Session>, after2: seq<Session>,
                                                      grant: Grant, ip: string, agent: string, now: int, now2: int,
                                                      alive: int, draws: (nat, nat) -> int, draws2: (nat, nat) -> int,
                                                      r: Result<T, AuthError>, r2: Result<U, AuthError>)
    requires TokenDraws(draws) && TokenDraws(draws2)
    requires SessionMade(before, after, grant, ip, agent, now, alive, draws, r) && r.Ok?
    requires SessionMade(after, after2, grant, ip, agent, now2, alive, draws2, r2)
    ensures r2.Ok? && |after2| == |after|
    ensures FindReusable(after, grant.userId, ip, agent).Some?
  {
    match FindReusable(before, grant.userId, ip, agent)
    case Some(k) =>
      assert after[k].userId == grant.userId && after[k].userIp == ip && after[k].userAgent == agent;
    case None =>
      var n := |before|;
      assert after[n].userId == grant.userId && after[n].userIp == ip && after[n].userAgent == agent;
  }

  /** A sign-in keeps the tokens unique, and the session it inserts is the
      one its token finds, so the cookie it sets logs in its user. */
  lemma {:induction false} SessionMadeKeepsTokensUnique<T>(before: seq<Session>, after: seq<Session>, grant: Grant,
                                                           ip: string, agent: string, now: int, alive: int,
                                                           draws: (nat, nat) -> int, r: Result<T, AuthError>)
    requires TokenDraws(draws) && TokensUnique(before)
    requires SessionMade(before, after, grant, ip, agent, now, alive, draws, r)
    ensures TokensUnique(after)
    ensures FindReusable(before, grant.userId, ip, agent).None? && r.Ok? ==>
      FindByToken(after, after[|before|].token) == Some(|before|) && after[|before|].userId == grant.userId
  {
    match FindReusable(before, grant.userId, ip, agent)
    case Some(k) =>
      forall i, j | 0 <= i < j < |after| ensures after[i].token != after[j].token {
        assert after[i].token == before[i].token && after[j].token == before[j].token;
      }
    case None =>
      if r.Ok? {
        var s := after[|before|];
        assert forall j :: 0 <= j < |before| ==> before[j].token in TokensOf(before);
        AppendKeepsTokensUnique(before, s);
        FindByTokenIsExact(after, |before|);
      }
  }

  /** make, corrected in two places: the end time uses the 24-hour clock
      (EndTime rather than EndTimeAsWritten), and the cookie takes the new
      session's token (not the null one of InsertCookieAsWrittenLosesToken).
      A session for the grant's user on this IP and user agent.
      - A matching session gets the new end time and keeps its token and
        grant id; no row is inserted and no cookie is written.
      - Otherwise one session is inserted with the grant's user and id, the
        request's IP and agent, the new end time and a token no session
        holds; the cookie carries that token. A token that cannot be
        generated raises and changes nothing. */
  method Make(db: Db, grant: Grant, ip: string, agent: string, now: int, alive: int, draws: (nat, nat) -> int)
    returns (r: Result<Session, AuthError>, cookie: Option<Value>)
    requires db.Valid() && TokenDraws(draws)
    modifies db`sessions
    ensures db.Valid()
    ensures var found := FindReusable(old(db.sessions), grant.userId, ip, agent);
      found.Some? ==>
        r == Ok(old(db.sessions)[found.value].(endTime := EndTime(now, alive)))
        && db.sessions == old(db.sessions)[found.value := r.value] && cookie == None
    ensures FindReusable(old(db.sessions), grant.userId, ip, agent).None? && r.Err? ==>
      db.sessions == old(db.sessions) && cookie == None && r.error == Build("token_exceeed_max_try_generated", [])
    ensures FindReusable(old(db.sessions), grant.userId, ip, agent).None? && r.Ok? ==>
      db.sessions == old(db.sessions) + [r.value]
        && r.value == Session(|old(db.sessions)| + 1, grant.userId, grant.id, r.value.token, ip, agent, EndTime(now, alive))
        && (forall j :: 0 <= j < |old(db.sessions)| ==> old(db.sessions)[j].token != r.value.token)
        && cookie == Some(InsertCookie(r.value.token))
        && FindByToken(db.sessions, r.value.token) == Some(|old(db.sessions)|)
    ensures SessionMade(old(db.sessions), db.sessions, grant, ip, agent, now, alive, draws, r)
  {
    var endTime := EndTime(now, alive);
    var found := FindReusable(db.sessions, grant.userId, ip, agent);
    if found.Some? {
      var s := db.sessions[found.value].(endTime := endTime);
      db.sessions := db.sessions[found.value := s];
      assert forall i :: 0 <= i < |db.sessions| ==> db.sessions[i].token == old(db.sessions)[i].token;
      return Ok(s), None;
    }
    var token := GenerateToken(db.sessions, draws);
    if token.Err? {
      return Err(token.error), None;
    }
    var s := Session(|db.sessions| + 1, grant.userId, grant.id, token.value, ip, agent, endTime);
    AppendKeepsTokensUnique(db.sessions, s);
    db.sessions := db.sessions + [s];
    FindByTokenIsExact(db.sessions, |db.sessions| - 1);
    r, cookie := Ok(s), Some(InsertCookie(token.value));
  }
}
