/**
 * The `auth_endpoint` wrapper of `web/api/decorator.py`: it refuses a blocked client, checks the
 * session token when the endpoint requires one, runs the endpoint, and turns what the endpoint
 * raised into a 401, 429 or 500 response, counting failed attempts as the endpoint's
 * configuration says.
 *
 * The endpoint is a function from the safety state it is called with to its outcome and the
 * state it leaves (a login endpoint opens a session, say). One instant `now` stands for every
 * clock reading made while handling the request.
 */
module Decorator {
  import opened Wrappers
  import opened Values
  import opened Safety

  /** `APIMethodConfig`. */
  datatype MethodConfig = MethodConfig(requiresAuth: bool, increment: seq<ExcClass>, noIncrement: seq<ExcClass>)

  const DefaultIncrement: seq<ExcClass> := [TokenInRequestInvalid, FileNotFound]
  const DefaultNoIncrement: seq<ExcClass> := [TokenNotInRequest]

  /** The `AuthConfigs` presets. */
  const LoginConfig: MethodConfig := MethodConfig(false, [ValueErr, InvalidCredentials], [])
  const AutoLoginConfig: MethodConfig := MethodConfig(false, [ValueErr], [])
  const LogoutConfig: MethodConfig := MethodConfig(true, [ValueErr], [])
  const CreateLoginConfig: MethodConfig := MethodConfig(false, [ValueErr, UserConfigurationExists, InvalidCredentials], [])
  const ChangePasswordConfig: MethodConfig := MethodConfig(true, [ValueErr, InvalidCredentials], [])
  const ProtectedConfig: MethodConfig := MethodConfig(true, [ValueErr], [])

  /** The responses: the endpoint's own result, 429 with the unlock instant, 401 (with the remaining attempts, when counted) or 500. */
  datatype Response<T> = Success(result: T) | TooManyAttempts(unlocked: Option<int>) | Unauthorized(remaining: Option<int>) | ServerError

  /** `any(isinstance(e, exc) for exc in classes)`. */
  predicate AnyInstance(e: ExcClass, classes: seq<ExcClass>)
  {
    exists i :: 0 <= i < |classes| && IsInstance(e, classes[i])
  }

  /** The `except` branch of the wrapper, for an exception of class `e` raised with the state at `st`. */
  function Handle<T>(config: MethodConfig, st: SafetyState, req: Request, now: int, e: ExcClass): (r: (Response<T>, SafetyState))
    ensures !r.0.Success?
    ensures r.0.ServerError? <==> !AnyInstance(e, DefaultNoIncrement + config.noIncrement) && !AnyInstance(e, DefaultIncrement + config.increment)
    ensures r.0.Unauthorized? && r.0.remaining.None? ==> r.1 == st
  {
    if AnyInstance(e, DefaultNoIncrement + config.noIncrement) then (Unauthorized(None), st)
    else if AnyInstance(e, DefaultIncrement + config.increment) then
      var counted := AfterIncrement(st, req, req.url, now);
      var (blocked, after) := IsBlocked(counted, req, now);
      if blocked then (TooManyAttempts(UnlockedDate(after, req)), after)
      else (Unauthorized(Some(RemainingRequests(after, req))), after)
    else (ServerError, st)
  }

  /** The wrapper, from the state before the request to the response and the state after it. */
  function Wrapped<T>(config: MethodConfig, st: SafetyState, req: Request, now: int, userConfig: Option<map<string, Value>>,
                      decode: (string, Value) -> Option<map<string, Value>>, endpoint: SafetyState -> Step<T>): (r: (Response<T>, SafetyState))
    ensures IsBlocked(st, req, now).0 ==> r.0.TooManyAttempts?
    ensures r.0.Success? ==> !IsBlocked(st, req, now).0 && endpoint(IsBlocked(st, req, now).1).result.Ok?
  {
    var (blocked, st1) := IsBlocked(st, req, now);
    if blocked then (TooManyAttempts(UnlockedDate(st1, req)), st1)
    else
      var auth := if config.requiresAuth then CheckAuthorizationToken(st1, req, userConfig, decode) else Ok((Null, "", Null));
      if auth.Err? then Handle(config, st1, req, now, auth.error)
      else
        var run := endpoint(st1);
        match run.result
        case Ok(v) => (Success(v), AfterClean(run.after, req, req.url))
        case Err(e) => Handle(config, run.after, req, now, e)
  }

  /** A blocked client gets 429 with its unlock instant; the endpoint is not run and nothing changes. */
  lemma BlockedShortCircuits<T>(config: MethodConfig, st: SafetyState, req: Request, now: int, userConfig: Option<map<string, Value>>,
                                decode: (string, Value) -> Option<map<string, Value>>, endpoint: SafetyState -> Step<T>)
    requires IsBlocked(st, req, now).0
    ensures Wrapped(config, st, req, now, userConfig, decode, endpoint) == (TooManyAttempts(UnlockedDate(st, req)), st)
    ensures UnlockedDate(st, req).Some? && UnlockedDate(st, req).value > now
  {
    IsBlockedSpec(st, req, now);
  }

  /** On success, the endpoint's result is returned and the client's record for the URL is cleared. */
  lemma SuccessCleans<T>(config: MethodConfig, st: SafetyState, req: Request, now: int, userConfig: Option<map<string, Value>>,
                         decode: (string, Value) -> Option<map<string, Value>>, endpoint: SafetyState -> Step<T>)
    requires !IsBlocked(st, req, now).0
    requires config.requiresAuth ==> CheckAuthorizationToken(IsBlocked(st, req, now).1, req, userConfig, decode).Ok?
    requires endpoint(IsBlocked(st, req, now).1).result.Ok?
    ensures var run := endpoint(IsBlocked(st, req, now).1);
      Wrapped(config, st, req, now, userConfig, decode, endpoint) == (Success(run.result.value), AfterClean(run.after, req, req.url))
    ensures var after := Wrapped(config, st, req, now, userConfig, decode, endpoint).1;
      RecordOf(after, req, req.url).None?
  {
    var run := endpoint(IsBlocked(st, req, now).1);
    CleanSpec(run.after, req, req.url);
  }

  /** A protected endpoint is not run when the token check fails; the token check's error is handled instead. */
  lemma AuthBeforeEndpoint<T>(config: MethodConfig, st: SafetyState, req: Request, now: int, userConfig: Option<map<string, Value>>,
                              decode: (string, Value) -> Option<map<string, Value>>, endpoint: SafetyState -> Step<T>)
    requires !IsBlocked(st, req, now).0 && config.requiresAuth
    requires CheckAuthorizationToken(IsBlocked(st, req, now).1, req, userConfig, decode).Err?
    ensures var st1 := IsBlocked(st, req, now).1;
      Wrapped(config, st, req, now, userConfig, decode, endpoint) ==
        Handle(config, st1, req, now, CheckAuthorizationToken(st1, req, userConfig, decode).error)
  {
  }

  /**
   * The classification of an exception: a no-increment class (checked first) gives 401 without
   * counting; an increment class counts one failure and gives 429 when that blocks the client,
   * else 401 with the remaining attempts; anything else gives 500 without counting.
   */
  lemma HandleSpec<T>(config: MethodConfig, st: SafetyState, req: Request, now: int, e: ExcClass)
    ensures AnyInstance(e, DefaultNoIncrement + config.noIncrement) ==>
      Handle<T>(config, st, req, now, e) == (Unauthorized(None), st)
    ensures !AnyInstance(e, DefaultNoIncrement + config.noIncrement) && !AnyInstance(e, DefaultIncrement + config.increment) ==>
      Handle<T>(config, st, req, now, e) == (ServerError, st)
    ensures !AnyInstance(e, DefaultNoIncrement + config.noIncrement) && AnyInstance(e, DefaultIncrement + config.increment) ==>
      var counted := AfterIncrement(st, req, req.url, now);
      && Handle<T>(config, st, req, now, e).1 == counted
      && (Handle<T>(config, st, req, now, e).0.TooManyAttempts? <==> IsBlocked(counted, req, now).0)
  {
    var counted := AfterIncrement(st, req, req.url, now);
    IncrementSpec(st, req, req.url, now);
    IsBlockedSpec(counted, req, now);
    assert ClientIdentifier(counted, req) == ClientIdentifier(st, req);
  }

  /**
   * On a valid table, a counted 401 reports between 1 and 4 remaining attempts: a fifth failure
   * always blocks, so the client is never told that no attempts remain.
   */
  lemma CountedUnauthorizedRemaining<T>(config: MethodConfig, st: SafetyState, req: Request, now: int, e: ExcClass)
    requires !AnyInstance(e, DefaultNoIncrement + config.noIncrement) && AnyInstance(e, DefaultIncrement + config.increment)
    requires Handle<T>(config, st, req, now, e).0.Unauthorized?
    requires TableValid(st.failed)
    ensures var r := Handle<T>(config, st, req, now, e).0;
      r.remaining.Some? && 1 <= r.remaining.value < MaxRequestAttempts
  {
    var counted := AfterIncrement(st, req, req.url, now);
    IncrementSpec(st, req, req.url, now);
    IsBlockedSpec(counted, req, now);
    assert ClientIdentifier(counted, req) == ClientIdentifier(st, req);
  }

  /**
   * The presets: each counts `TokenInRequestInvalid` and a missing user configuration, never
   * counts `TokenNotInRequest`, and answers a `KeyError` with 500. Only the protected ones require
   * a token; the login preset also counts invalid credentials, and every preset counts a
   * `ValueError`, including a malformed JSON body.
   */
  lemma PresetClassification<T>(st: SafetyState, req: Request, now: int)
    ensures forall c :: c in {LoginConfig, AutoLoginConfig, LogoutConfig, CreateLoginConfig, ChangePasswordConfig, ProtectedConfig} ==>
      && AnyInstance(TokenInRequestInvalid, DefaultIncrement + c.increment)
      && AnyInstance(FileNotFound, DefaultIncrement + c.increment)
      && AnyInstance(TokenNotInRequest, DefaultNoIncrement + c.noIncrement)
      && AnyInstance(JsonDecodeErr, DefaultIncrement + c.increment)
      && !AnyInstance(KeyErr, DefaultNoIncrement + c.noIncrement) && !AnyInstance(KeyErr, DefaultIncrement + c.increment)
    ensures LogoutConfig.requiresAuth && ChangePasswordConfig.requiresAuth && ProtectedConfig.requiresAuth
    ensures !LoginConfig.requiresAuth && !AutoLoginConfig.requiresAuth && !CreateLoginConfig.requiresAuth
    ensures AnyInstance(InvalidCredentials, DefaultIncrement + LoginConfig.increment)
    ensures !AnyInstance(InvalidCredentials, DefaultIncrement + ProtectedConfig.increment)
    ensures Handle<T>(ProtectedConfig, st, req, now, KeyErr) == (ServerError, st)
  {
    forall c | c in {LoginConfig, AutoLoginConfig, LogoutConfig, CreateLoginConfig, ChangePasswordConfig, ProtectedConfig}
      ensures AnyInstance(TokenInRequestInvalid, DefaultIncrement + c.increment)
      ensures AnyInstance(FileNotFound, DefaultIncrement + c.increment)
      ensures AnyInstance(TokenNotInRequest, DefaultNoIncrement + c.noIncrement)
      ensures AnyInstance(JsonDecodeErr, DefaultIncrement + c.increment)
      ensures !AnyInstance(KeyErr, DefaultNoIncrement + c.noIncrement) && !AnyInstance(KeyErr, DefaultIncrement + c.increment)
    {
      assert (DefaultIncrement + c.increment)[0] == TokenInRequestInvalid;
      assert (DefaultIncrement + c.increment)[1] == FileNotFound;
      assert (DefaultNoIncrement + c.noIncrement)[0] == TokenNotInRequest;
      assert c.increment[0] == ValueErr;
      assert (DefaultIncrement + c.increment)[2] == ValueErr;
    }
    assert (DefaultIncrement + LoginConfig.increment)[3] == InvalidCredentials;
  }

  /** The wrapper as it runs against an `HTTPSafety` object. */
  method AuthEndpoint<T>(safety: HTTPSafety, config: MethodConfig, req: Request, now: int,
                         userConfig: Option<map<string, Value>>, decode: (string, Value) -> Option<map<string, Value>>,
                         endpoint: SafetyState -> Step<T>) returns (resp: Response<T>)
    modifies safety
    ensures (resp, safety.State()) == Wrapped(config, old(safety.State()), req, now, userConfig, decode, endpoint)
  {
    var blocked := safety.IsBlockedNow(req, now);
    if blocked {
      var unlocked := safety.GetUnlockedDate(req);
      return TooManyAttempts(unlocked);
    }
    var failure: Option<ExcClass> := None;
    if config.requiresAuth {
      var auth := safety.CheckToken(req, userConfig, decode);
      if auth.Err? {
        failure := Some(auth.error);
      }
    }
    if failure.None? {
      var run := endpoint(safety.State());
      safety.failed, safety.tokens := run.after.failed, run.after.tokens;
      if run.result.Ok? {
        safety.CleanFailedRequests(req, req.url);
        return Success(run.result.value);
      }
      failure := Some(run.result.error);
    }
    var e := failure.value;
    if AnyInstance(e, DefaultNoIncrement + config.noIncrement) {
      return Unauthorized(None);
    }
    if AnyInstance(e, DefaultIncrement + config.increment) {
      safety.IncrementFailedRequests(req, req.url, now);
      var nowBlocked := safety.IsBlockedNow(req, now);
      if nowBlocked {
        var unlocked := safety.GetUnlockedDate(req);
        return TooManyAttempts(unlocked);
      }
      var remaining := safety.GetRemainingRequests(req);
      return Unauthorized(Some(remaining));
    }
    return ServerError;
  }
}
