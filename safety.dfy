/**
 * The request safety of `web/safety.py`: a per-client, per-endpoint table of failed attempts that
 * blocks a client from an endpoint for 15 minutes after 5 failures, and the table of active login
 * sessions with the token checks in front of protected endpoints.
 *
 * Instants are whole seconds of UTC time. The request is reduced to what the code reads from it:
 * the Authorization header, the "token" cookie, the client IP (`get_ip_address`), the hash of the
 * User-Agent header and the API path (`get_api_url`). The user configuration file is an optional
 * dictionary (absent when the file does not exist); JWT decoding, JWT encoding and argon2
 * verification are parameters.
 */
module Safety {
  import opened Wrappers
  import opened Values
  import opened Strings
  import WebValidation

  const MaxRequestAttempts: int := 5
  /** `BLOCK_TIME`: 15 minutes, in seconds. */
  const BlockTime: int := 900

  /** The exception classes raised by and around the safety layer. */
  datatype ExcClass =
    | TokenNotInRequest
    | TokenInRequestInvalid
    | UserConfigurationExists
    | InvalidCredentials
    | FileNotFound
    | ValueErr
    | JsonDecodeErr
    | KeyErr
    | JwtErr
    | OtherErr

  /** `isinstance(e, c)`: `json.JSONDecodeError` is the one subclass here (of `ValueError`). */
  predicate IsInstance(e: ExcClass, c: ExcClass)
  {
    e == c || (e == JsonDecodeErr && c == ValueErr)
  }

  /** `RequestsSafety`: the failed-attempt record of one client on one endpoint. */
  datatype RequestsSafety = RequestsSafety(endpoint: string, count: int, lastAttempt: Option<int>, blockedUntil: Option<int>)

  /** `LoginToken`: an active session (`keep_session_until` is always `None` and is not kept). */
  datatype LoginToken = LoginToken(token: string, user: string, ip: string, autoLogin: Value)

  datatype Request = Request(authorization: Option<string>, cookieToken: Option<string>, ip: string, userAgentHash: int, url: string)

  datatype SafetyState = SafetyState(failed: map<string, map<string, RequestsSafety>>, tokens: map<string, LoginToken>)

  /** The result of an operation that may raise, with the state it leaves. */
  datatype Step<T> = Step(result: Result<T, ExcClass>, after: SafetyState)

  // ---------------------------------------------------------------- tokens in requests

  /** `authorization.split(" ")[1]` on a header that starts with "Bearer ". */
  function BearerToken(auth: string): string
    requires StartsWith(auth, "Bearer ")
  {
    BearerSplit(auth);
    Split(auth, ' ')[1]
  }

  lemma BearerSplit(auth: string)
    requires StartsWith(auth, "Bearer ")
    ensures |Split(auth, ' ')| >= 2 && Split(auth, ' ')[1] == Split(auth[7..], ' ')[0]
  {
    assert auth == "Bearer" + [' '] + auth[7..];
    SplitAfterToken("Bearer", ' ', auth[7..]);
  }

  /** The bearer token is the text after "Bearer " up to the next space. */
  lemma BearerTokenIsNextWord(t: string, rest: string)
    requires ' ' !in t
    ensures BearerToken("Bearer " + t) == t
    ensures BearerToken("Bearer " + t + " " + rest) == t
  {
    BearerSplit("Bearer " + t);
    assert ("Bearer " + t)[7..] == t;
    SplitWithoutSeparator(t, ' ');
    var s := "Bearer " + t + " " + rest;
    BearerSplit(s);
    assert s[7..] == t + [' '] + rest;
    SplitAfterToken(t, ' ', rest);
  }

  /** The token `get_client_identifier` looks at: a Bearer header, else the cookie. */
  function IdentifierToken(req: Request): (r: Option<string>)
    ensures r != req.cookieToken ==> req.authorization.Some? && StartsWith(req.authorization.value, "Bearer ")
  {
    if req.authorization.Some? && StartsWith(req.authorization.value, "Bearer ") then Some(BearerToken(req.authorization.value))
    else req.cookieToken
  }

  /** The token `check_authorization_token` looks at: any non-empty header that is not a Bearer header means no token. */
  function AuthorizationToken(req: Request): (r: Option<string>)
    ensures r != req.cookieToken ==> req.authorization.Some? && req.authorization.value != ""
    ensures r.Some? && req.authorization.Some? && req.authorization.value != "" ==> StartsWith(req.authorization.value, "Bearer ")
  {
    if req.authorization.Some? && req.authorization.value != "" then
      if StartsWith(req.authorization.value, "Bearer ") then Some(BearerToken(req.authorization.value)) else None
    else req.cookieToken
  }

  /** The `ip:hash(user_agent)` fingerprint of an unauthenticated client. */
  function Fingerprint(req: Request): (r: string)
    ensures |r| > |req.ip| && r[..|req.ip|] == req.ip && r[|req.ip|] == ':'
  {
    req.ip + ":" + IntToString(req.userAgentHash)
  }

  /** `get_client_identifier`: an active session token in the request, else the fingerprint. */
  function ClientIdentifier(st: SafetyState, req: Request): (id: string)
    ensures id == Fingerprint(req) || id in st.tokens
  {
    var t := IdentifierToken(req);
    if t.Some? && t.value != "" && t.value in st.tokens then t.value else Fingerprint(req)
  }

  /** Only the session table decides the identifier: a token that is not active falls back to the fingerprint. */
  lemma ClientIdentifierCases(st: SafetyState, req: Request)
    ensures var t := IdentifierToken(req);
      ClientIdentifier(st, req) == (if t.Some? && t.value != "" && t.value in st.tokens then t.value else Fingerprint(req))
    ensures IdentifierToken(req).None? ==> ClientIdentifier(st, req) == Fingerprint(req)
    ensures forall st': SafetyState :: st'.tokens == st.tokens ==> ClientIdentifier(st', req) == ClientIdentifier(st, req)
  {
  }

  // ---------------------------------------------------------------- the failed-attempt table

  /** The record for this client and endpoint, if any. */
  function RecordOf(st: SafetyState, req: Request, endpoint: string): Option<RequestsSafety>
  {
    var id := ClientIdentifier(st, req);
    if id in st.failed && endpoint in st.failed[id] then Some(st.failed[id][endpoint]) else None
  }

  /**
   * The invariant of the table: no client maps to an empty dictionary, every record has counted
   * at least one failure, and a record is blocked only once it has reached the maximum.
   */
  ghost predicate TableValid(failed: map<string, map<string, RequestsSafety>>)
  {
    forall id :: id in failed ==>
      failed[id] != map[] &&
      forall ep :: ep in failed[id] ==>
        failed[id][ep].count >= 1 && (failed[id][ep].blockedUntil.Some? ==> failed[id][ep].count >= MaxRequestAttempts)
  }

  /** `clean_failed_requests`: removes this endpoint's record, then the client entry once it is empty. */
  function AfterClean(st: SafetyState, req: Request, endpoint: string): (r: SafetyState)
    ensures r.tokens == st.tokens
  {
    st.(failed := RemoveRecord(st.failed, ClientIdentifier(st, req), endpoint))
  }

  /** The table without the record of `id` for `endpoint`, and without `id` once it has no record left. */
  function RemoveRecord(failed: map<string, map<string, RequestsSafety>>, id: string, endpoint: string): map<string, map<string, RequestsSafety>>
  {
    var f := if id in failed && endpoint in failed[id] then failed[id := failed[id] - {endpoint}] else failed;
    if id in f && f[id] == map[] then f - {id} else f
  }

  /** Removing a record drops exactly that record and keeps the invariant. */
  lemma RemoveRecordSpec(failed: map<string, map<string, RequestsSafety>>, id: string, endpoint: string)
    ensures var f := RemoveRecord(failed, id, endpoint); !(id in f && endpoint in f[id])
    ensures var f := RemoveRecord(failed, id, endpoint);
      forall c, ep :: (c != id || ep != endpoint) ==>
        ((c in failed && ep in failed[c]) <==> (c in f && ep in f[c])) &&
        (c in failed && ep in failed[c] ==> f[c][ep] == failed[c][ep])
    ensures TableValid(failed) ==> TableValid(RemoveRecord(failed, id, endpoint))
  {
    var f := RemoveRecord(failed, id, endpoint);
    forall c, ep | (c != id || ep != endpoint)
      ensures (c in failed && ep in failed[c]) <==> (c in f && ep in f[c])
      ensures c in failed && ep in failed[c] ==> f[c][ep] == failed[c][ep]
    {
      if c == id && id in failed && ep in failed[id] {
        assert ep in (failed[id] - {endpoint});
      }
    }
  }

  /**
   * Cleaning removes exactly this client's record for the endpoint: every other record stays as
   * it was, and the invariant is kept.
   */
  lemma CleanSpec(st: SafetyState, req: Request, endpoint: string)
    ensures RecordOf(AfterClean(st, req, endpoint), req, endpoint).None?
    ensures var id := ClientIdentifier(st, req); var f := AfterClean(st, req, endpoint).failed;
      forall c, ep :: (c != id || ep != endpoint) ==>
        ((c in st.failed && ep in st.failed[c]) <==> (c in f && ep in f[c])) &&
        (c in st.failed && ep in st.failed[c] ==> f[c][ep] == st.failed[c][ep])
    ensures TableValid(st.failed) ==> TableValid(AfterClean(st, req, endpoint).failed)
  {
    RemoveRecordSpec(st.failed, ClientIdentifier(st, req), endpoint);
  }

  /** `increment_failed_requests` at instant `now`. */
  function AfterIncrement(st: SafetyState, req: Request, endpoint: string, now: int): (r: SafetyState)
    ensures r.tokens == st.tokens
  {
    var id := ClientIdentifier(st, req);
    var client := if id in st.failed then st.failed[id] else map[];
    var blank := RequestsSafety(endpoint, 0, None, None);
    var found := if endpoint in client then client[endpoint] else blank;
    var record := if found.blockedUntil.Some? && now >= found.blockedUntil.value then blank else found;
    var count := record.count + 1;
    var blocked := if count >= MaxRequestAttempts then Some(now + BlockTime) else record.blockedUntil;
    st.(failed := st.failed[id := client[endpoint := record.(count := count, lastAttempt := Some(now), blockedUntil := blocked)]])
  }

  /**
   * An increment restarts a record whose block has expired, then counts one more failure at `now`
   * and blocks the client for `BLOCK_TIME` from the fifth failure on.
   */
  lemma IncrementSpec(st: SafetyState, req: Request, endpoint: string, now: int)
    ensures var old_ := RecordOf(st, req, endpoint);
      var restarted := old_.None? || (old_.value.blockedUntil.Some? && now >= old_.value.blockedUntil.value);
      var base := if restarted then 0 else old_.value.count;
      var r := RecordOf(AfterIncrement(st, req, endpoint, now), req, endpoint);
      && r.Some?
      && r.value.count == base + 1
      && r.value.lastAttempt == Some(now)
      && (base + 1 >= MaxRequestAttempts ==> r.value.blockedUntil == Some(now + BlockTime))
      && (base + 1 < MaxRequestAttempts ==> r.value.blockedUntil == (if restarted then None else old_.value.blockedUntil))
  {
  }

  /** An increment changes no other record. */
  lemma IncrementLeavesOthers(st: SafetyState, req: Request, endpoint: string, now: int)
    ensures var id := ClientIdentifier(st, req); var f := AfterIncrement(st, req, endpoint, now).failed;
      forall c, ep :: (c != id || ep != endpoint) && c in st.failed && ep in st.failed[c] ==>
        c in f && ep in f[c] && f[c][ep] == st.failed[c][ep]
  {
  }

  /** An increment keeps the invariant of the table. */
  lemma IncrementKeepsTableValid(st: SafetyState, req: Request, endpoint: string, now: int)
    requires TableValid(st.failed)
    ensures TableValid(AfterIncrement(st, req, endpoint, now).failed)
  {
  }

  /** `is_blocked` at instant `now`: the answer, and the table after its clean-up of a stale record. */
  function IsBlocked(st: SafetyState, req: Request, now: int): (r: (bool, SafetyState))
    ensures r.1.tokens == st.tokens
  {
    var a := RecordOf(st, req, req.url);
    if a.None? then (false, st)
    else if a.value.blockedUntil.Some? && now < a.value.blockedUntil.value then (true, st)
    else if a.value.lastAttempt.Some? && now - a.value.lastAttempt.value > BlockTime then (false, AfterClean(st, req, req.url))
    else (false, st)
  }

  /**
   * A client is blocked exactly when its record for the endpoint has a block still in the future;
   * otherwise a record whose last attempt is older than `BLOCK_TIME` is deleted and nothing else
   * changes.
   */
  lemma IsBlockedSpec(st: SafetyState, req: Request, now: int)
    ensures var a := RecordOf(st, req, req.url);
      IsBlocked(st, req, now).0 <==> a.Some? && a.value.blockedUntil.Some? && now < a.value.blockedUntil.value
    ensures IsBlocked(st, req, now).0 ==> IsBlocked(st, req, now).1 == st
    ensures var a := RecordOf(st, req, req.url);
      !IsBlocked(st, req, now).0 ==>
        IsBlocked(st, req, now).1 ==
          (if a.Some? && a.value.lastAttempt.Some? && now - a.value.lastAttempt.value > BlockTime
           then AfterClean(st, req, req.url) else st)
    ensures TableValid(st.failed) ==> TableValid(IsBlocked(st, req, now).1.failed)
  {
    CleanSpec(st, req, req.url);
  }

  /** `get_unlocked_date`: the end of the block, if the record has one. */
  function UnlockedDate(st: SafetyState, req: Request): (r: Option<int>)
    ensures r.Some? <==> RecordOf(st, req, req.url).Some? && RecordOf(st, req, req.url).value.blockedUntil.Some?
  {
    var a := RecordOf(st, req, req.url);
    if a.Some? then a.value.blockedUntil else None
  }

  /** `get_remaining_requests`. */
  function RemainingRequests(st: SafetyState, req: Request): (r: int)
    ensures RecordOf(st, req, req.url).None? ==> r == MaxRequestAttempts
    ensures RecordOf(st, req, req.url).Some? && RecordOf(st, req, req.url).value.count != 0 ==>
      r == MaxRequestAttempts - RecordOf(st, req, req.url).value.count
  {
    var a := RecordOf(st, req, req.url);
    var count := if a.Some? then a.value.count else 0;
    if count != 0 then MaxRequestAttempts - count else MaxRequestAttempts
  }

  /** `increment_failed_requests` at each instant of `times` in turn. */
  function IncrementAt(st: SafetyState, req: Request, endpoint: string, times: seq<int>): (r: SafetyState)
    ensures r.tokens == st.tokens
    decreases |times|
  {
    if times == [] then st else IncrementAt(AfterIncrement(st, req, endpoint, times[0]), req, endpoint, times[1..])
  }

  predicate NonDecreasing(times: seq<int>)
  {
    forall i, j :: 0 <= i <= j < |times| ==> times[i] <= times[j]
  }

  /**
   * From no record, failures at non-decreasing instants spanning less than `BLOCK_TIME` are all
   * counted, and from the fifth on the client is blocked until `BLOCK_TIME` after the last one.
   */
  lemma {:induction false} RepeatedFailures(st: SafetyState, req: Request, endpoint: string, times: seq<int>, first: int, count0: int)
    requires NonDecreasing(times) && (forall i :: 0 <= i < |times| ==> first <= times[i] < first + BlockTime)
    requires 0 <= count0
    requires count0 == 0 ==> RecordOf(st, req, endpoint).None?
    requires count0 > 0 ==> RecordOf(st, req, endpoint).Some? && RecordOf(st, req, endpoint).value.count == count0
    requires count0 > 0 ==> (RecordOf(st, req, endpoint).value.blockedUntil.Some? <==> count0 >= MaxRequestAttempts)
    requires count0 >= MaxRequestAttempts ==> RecordOf(st, req, endpoint).value.blockedUntil.value >= first + BlockTime
    decreases |times|
    ensures times != [] ==>
      var r := RecordOf(IncrementAt(st, req, endpoint, times), req, endpoint);
      && r.Some? && r.value.count == count0 + |times|
      && (count0 + |times| >= MaxRequestAttempts ==> r.value.blockedUntil == Some(times[|times| - 1] + BlockTime))
      && (count0 + |times| < MaxRequestAttempts ==> r.value.blockedUntil.None?)
  {
    if times != [] {
      var st1 := AfterIncrement(st, req, endpoint, times[0]);
      IncrementSpec(st, req, endpoint, times[0]);
      assert ClientIdentifier(st1, req) == ClientIdentifier(st, req);
      var r1 := RecordOf(st1, req, endpoint);
      assert r1.Some? && r1.value.count == count0 + 1;
      if count0 + 1 >= MaxRequestAttempts {
        assert r1.value.blockedUntil == Some(times[0] + BlockTime);
      }
      if |times| > 1 {
        assert NonDecreasing(times[1..]);
        RepeatedFailures(st1, req, endpoint, times[1..], times[0], count0 + 1);
        assert times[1..][|times[1..]| - 1] == times[|times| - 1];
      }
    }
  }

  // ---------------------------------------------------------------- sessions

  /**
   * `check_authorization_token`: the token of the request, checked against the user
   * configuration (decoded with `decode`) and the session table; it returns the user name from
   * the token, the token and the JWT secret.
   */
  function CheckAuthorizationToken(st: SafetyState, req: Request, config: Option<map<string, Value>>,
                                   decode: (string, Value) -> Option<map<string, Value>>): (r: Result<(Value, string, Value), ExcClass>)
    ensures r.Ok? ==> r.value.1 in st.tokens && Str(st.tokens[r.value.1].user) == r.value.0
                      && st.tokens[r.value.1].ip == req.ip && Some(r.value.1) == AuthorizationToken(req)
  {
    var token := AuthorizationToken(req);
    if token.None? || token.value == "" then Err(TokenNotInRequest)
    else if config.None? then Err(FileNotFound)
    else if "jwt_secret" !in config.value then Err(KeyErr)
    else
      var payload := decode(token.value, config.value["jwt_secret"]);
      if payload.None? then Err(JwtErr)
      else if "user" !in payload.value then Err(KeyErr)
      else
        var username := payload.value["user"];
        if token.value !in st.tokens || st.tokens[token.value].token != token.value then Err(TokenNotInRequest)
        else if Str(st.tokens[token.value].user) != username || st.tokens[token.value].ip != req.ip then Err(TokenInRequestInvalid)
        else Ok((username, token.value, config.value["jwt_secret"]))
  }

  /**
   * A token is accepted only when it is an active session opened by the same user from the same
   * IP; a request without a token, or with a non-Bearer Authorization header (whatever its
   * cookie), is rejected with `TokenNotInRequest`; an active session whose user or IP differs
   * from the token's user or the request's IP is rejected with `TokenInRequestInvalid`, and one
   * where both match is accepted.
   */
  lemma CheckAuthorizationTokenSpec(st: SafetyState, req: Request, config: Option<map<string, Value>>,
                                    decode: (string, Value) -> Option<map<string, Value>>)
    ensures req.authorization.Some? && req.authorization.value != "" && !StartsWith(req.authorization.value, "Bearer ") ==>
      CheckAuthorizationToken(st, req, config, decode) == Err(TokenNotInRequest)
    ensures var t := AuthorizationToken(req);
      t.Some? && t.value != "" && config.Some? && "jwt_secret" in config.value
      && decode(t.value, config.value["jwt_secret"]).Some? && "user" in decode(t.value, config.value["jwt_secret"]).value
      && t.value !in st.tokens ==>
      CheckAuthorizationToken(st, req, config, decode) == Err(TokenNotInRequest)
    ensures var t := AuthorizationToken(req);
      t.Some? && t.value != "" && config.Some? && "jwt_secret" in config.value
      && decode(t.value, config.value["jwt_secret"]).Some? && "user" in decode(t.value, config.value["jwt_secret"]).value
      && t.value in st.tokens && st.tokens[t.value].token == t.value ==>
      var username := decode(t.value, config.value["jwt_secret"]).value["user"];
      if Str(st.tokens[t.value].user) != username || st.tokens[t.value].ip != req.ip then
        CheckAuthorizationToken(st, req, config, decode) == Err(TokenInRequestInvalid)
      else
        CheckAuthorizationToken(st, req, config, decode) == Ok((username, t.value, config.value["jwt_secret"]))
  {
  }

  /** `require_field(d, key, str)`. */
  function RequireStr(d: map<string, Value>, key: string): (r: Result<string, ExcClass>)
    ensures r.Ok? <==> key in d && d[key].Str?
    ensures r.Ok? ==> r.value == d[key].s
    ensures r.Err? ==> r.error == ValueErr
  {
    if key in d && d[key].Str? then Ok(d[key].s) else Err(ValueErr)
  }

  /**
   * `create_jwt_token`: checks the request payload and the stored credentials (`verify` stands for
   * the argon2 check), then opens a session under `newToken`, the encoded JWT.
   */
  function CreateJwtToken(st: SafetyState, req: Request, payload: map<string, Value>, config: Option<map<string, Value>>,
                          verify: (string, string) -> bool, newToken: string): (r: Step<(string, string)>)
    ensures r.result.Err? ==> r.after == st
    ensures r.result.Ok? ==> r.after.failed == st.failed
    ensures r.result.Ok? ==> r.after.tokens == st.tokens[newToken := LoginToken(newToken, r.result.value.0, req.ip,
                                                   if "auto_login" in payload then payload["auto_login"] else Bool(false))]
    ensures r.result.Ok? ==>
      (r.result.value.1 == newToken && config.Some? && "username" in config.value
       && config.value["username"] == Str(r.result.value.0))
  {
    match RequireStr(payload, "username")
    case Err(e) => Step(Err(e), st)
    case Ok(username) =>
      match RequireStr(payload, "password")
      case Err(e) => Step(Err(e), st)
      case Ok(password) =>
        var autoLogin := if "auto_login" in payload then payload["auto_login"] else Bool(false);
        if config.None? then Step(Err(FileNotFound), st)
        else if "username" !in config.value || config.value["username"] != Str(username) || !WebValidation.ValidatePassword(password) then
          Step(Err(InvalidCredentials), st)
        else
          match RequireStr(config.value, "password_hash")
          case Err(e) => Step(Err(e), st)
          case Ok(hash) =>
            if !verify(hash, password) then Step(Err(InvalidCredentials), st)
            else if "jwt_secret" !in config.value then Step(Err(KeyErr), st)
            else
              Step(Ok((username, newToken)), st.(tokens := st.tokens[newToken := LoginToken(newToken, username, req.ip, autoLogin)]))
  }

  /** A password the validation rejects never opens a session, whatever the stored hash. */
  lemma LoginRejectsWeakPassword(st: SafetyState, req: Request, payload: map<string, Value>, config: Option<map<string, Value>>,
                                 verify: (string, string) -> bool, newToken: string)
    requires "username" in payload && payload["username"].Str? && "password" in payload && payload["password"].Str?
    requires !WebValidation.ValidatePassword(payload["password"].s)
    requires config.Some?
    ensures CreateJwtToken(st, req, payload, config, verify, newToken) == Step(Err(InvalidCredentials), st)
  {
  }

  /** `update_jwt_token`: replaces the request's session by one under `newToken` with the same `auto_login`. */
  function UpdateJwtToken(st: SafetyState, req: Request, config: Option<map<string, Value>>,
                          decode: (string, Value) -> Option<map<string, Value>>, newToken: string): (r: Step<(Value, string)>)
    ensures r.result.Err? ==> r.after == st
    ensures r.result.Ok? ==> r.after.failed == st.failed
  {
    match CheckAuthorizationToken(st, req, config, decode)
    case Err(e) => Step(Err(e), st)
    case Ok((username, token, secret)) =>
      if !Truthy(username) then Step(Err(ValueErr), st)
      else
        var current := st.tokens[token];
        var tokens := (st.tokens - {token})[newToken := LoginToken(newToken, username.s, req.ip, current.autoLogin)];
        Step(Ok((username, newToken)), st.(tokens := tokens))
  }

  /** A refresh removes the old session and adds the new one for the same user and `auto_login`; no other session changes. */
  lemma UpdateJwtTokenSpec(st: SafetyState, req: Request, config: Option<map<string, Value>>,
                           decode: (string, Value) -> Option<map<string, Value>>, newToken: string)
    ensures var c := CheckAuthorizationToken(st, req, config, decode);
      var r := UpdateJwtToken(st, req, config, decode, newToken);
      r.result.Ok? ==>
        c.Ok? && var old_ := st.tokens[c.value.1];
        && newToken in r.after.tokens
        && r.after.tokens[newToken] == LoginToken(newToken, old_.user, req.ip, old_.autoLogin)
        && (c.value.1 != newToken ==> c.value.1 !in r.after.tokens)
        && (forall t :: t != c.value.1 && t != newToken ==> (t in r.after.tokens <==> t in st.tokens))
  {
  }

  /** `delete_jwt_token`: ends the request's session. */
  function DeleteJwtToken(st: SafetyState, req: Request, config: Option<map<string, Value>>,
                          decode: (string, Value) -> Option<map<string, Value>>): (r: Step<()>)
    ensures r.result.Err? ==> r.after == st
    ensures r.result.Ok? ==> r.after.failed == st.failed
    ensures r.result.Ok? ==> var c := CheckAuthorizationToken(st, req, config, decode);
      c.Ok? && r.after.tokens == st.tokens - {c.value.1}
  {
    match CheckAuthorizationToken(st, req, config, decode)
    case Err(e) => Step(Err(e), st)
    case Ok((username, token, secret)) =>
      if !Truthy(username) then Step(Err(ValueErr), st) else Step(Ok(()), st.(tokens := st.tokens - {token}))
  }

  /** A session ended by logout no longer authorises anything. */
  lemma LogoutEndsSession(st: SafetyState, req: Request, config: Option<map<string, Value>>,
                          decode: (string, Value) -> Option<map<string, Value>>)
    requires DeleteJwtToken(st, req, config, decode).result.Ok?
    ensures CheckAuthorizationToken(DeleteJwtToken(st, req, config, decode).after, req, config, decode) == Err(TokenNotInRequest)
  {
  }

  // ---------------------------------------------------------------- the object

  /** `HTTPSafety`: the two tables, changed in place. */
  class HTTPSafety {
    var failed: map<string, map<string, RequestsSafety>>
    var tokens: map<string, LoginToken>

    function State(): SafetyState
      reads this
    {
      SafetyState(failed, tokens)
    }

    constructor ()
      ensures failed == map[] && tokens == map[]
    {
      failed := map[];
      tokens := map[];
    }

    method CleanFailedRequests(req: Request, endpoint: string)
      modifies this
      ensures State() == AfterClean(old(State()), req, endpoint)
    {
      var id := ClientIdentifier(State(), req);
      if id in failed && endpoint in failed[id] {
        failed := failed[id := failed[id] - {endpoint}];
      }
      if id in failed && failed[id] == map[] {
        failed := failed - {id};
      }
    }

    method IncrementFailedRequests(req: Request, endpoint: string, now: int)
      modifies this
      ensures State() == AfterIncrement(old(State()), req, endpoint, now)
    {
      var id := ClientIdentifier(State(), req);
      if id !in failed {
        failed := failed[id := map[]];
      }
      var record := if endpoint in failed[id] then failed[id][endpoint] else RequestsSafety(endpoint, 0, None, None);
      if record.blockedUntil.Some? && now >= record.blockedUntil.value {
        record := RequestsSafety(endpoint, 0, None, None);
      }
      record := record.(count := record.count + 1);
      record := record.(lastAttempt := Some(now));
      if record.count >= MaxRequestAttempts {
        record := record.(blockedUntil := Some(now + BlockTime));
      }
      failed := failed[id := failed[id][endpoint := record]];
    }

    method IsBlockedNow(req: Request, now: int) returns (blocked: bool)
      modifies this
      ensures (blocked, State()) == IsBlocked(old(State()), req, now)
    {
      var a := RecordOf(State(), req, req.url);
      if a.None? {
        return false;
      }
      if a.value.blockedUntil.Some? && now < a.value.blockedUntil.value {
        return true;
      }
      if a.value.lastAttempt.Some? && now - a.value.lastAttempt.value > BlockTime {
        CleanFailedRequests(req, req.url);
      }
      return false;
    }

    method GetUnlockedDate(req: Request) returns (r: Option<int>)
      ensures r == UnlockedDate(State(), req)
    {
      r := UnlockedDate(State(), req);
    }

    method GetRemainingRequests(req: Request) returns (r: int)
      ensures r == RemainingRequests(State(), req)
    {
      r := RemainingRequests(State(), req);
    }

    method CheckToken(req: Request, config: Option<map<string, Value>>, decode: (string, Value) -> Option<map<string, Value>>)
      returns (r: Result<(Value, string, Value), ExcClass>)
      ensures r == CheckAuthorizationToken(State(), req, config, decode)
    {
      r := CheckAuthorizationToken(State(), req, config, decode);
    }

    method Login(req: Request, payload: map<string, Value>, config: Option<map<string, Value>>,
                 verify: (string, string) -> bool, newToken: string) returns (r: Result<(string, string), ExcClass>)
      modifies this
      ensures Step(r, State()) == CreateJwtToken(old(State()), req, payload, config, verify, newToken)
    {
      r := CreateJwtToken(State(), req, payload, config, verify, newToken).result;
      if r.Ok? {
        var autoLogin := if "auto_login" in payload then payload["auto_login"] else Bool(false);
        tokens := tokens[newToken := LoginToken(newToken, r.value.0, req.ip, autoLogin)];
      }
    }

    method Refresh(req: Request, config: Option<map<string, Value>>, decode: (string, Value) -> Option<map<string, Value>>,
                   newToken: string) returns (r: Result<(Value, string), ExcClass>)
      modifies this
      ensures Step(r, State()) == UpdateJwtToken(old(State()), req, config, decode, newToken)
    {
      var checked := CheckAuthorizationToken(State(), req, config, decode);
      if checked.Err? {
        return Err(checked.error);
      }
      var (username, token, _) := checked.value;
      if !Truthy(username) {
        return Err(ValueErr);
      }
      var autoLogin := tokens[token].autoLogin;
      tokens := tokens - {token};
      tokens := tokens[newToken := LoginToken(newToken, username.s, req.ip, autoLogin)];
      r := Ok((username, newToken));
    }

    method Logout(req: Request, config: Option<map<string, Value>>, decode: (string, Value) -> Option<map<string, Value>>)
      returns (r: Result<(), ExcClass>)
      modifies this
      ensures Step(r, State()) == DeleteJwtToken(old(State()), req, config, decode)
    {
      var checked := CheckAuthorizationToken(State(), req, config, decode);
      if checked.Err? {
        return Err(checked.error);
      }
      if !Truthy(checked.value.0) {
        return Err(ValueErr);
      }
      tokens := tokens - {checked.value.1};
      r := Ok(());
    }
  }
}
