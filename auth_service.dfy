/** The console's authentication service (src/app/auth.service.ts): the token and
    driver id it keeps, the login pipeline, role routing and error messages.

    Decoding a JWT (`JSON.parse(atob(token.split('.')[1]))`) is a parameter
    `decode` that gives `None` when decoding throws. The browser's
    `localStorage` entry `token` is the field `stored`; the router's last
    navigation is `route`. */
module AuthService {
  import opened Common
  import opened Http
  import opened AdminModels

  // ---------------------------------------------------------------------------
  // handleError

  const Unreachable: string := "Impossible de contacter le serveur (CORS ou serveur arrêté)"
  const BadCredentials: string := "Non autorisé : identifiants incorrects"
  const Forbidden: string := "Accès interdit"
  const NotFound: string := "Endpoint non trouvé"
  const BadRequest: string := "Requête invalide"
  const ServerError: string := "Erreur serveur"

  /** The message `handleError` builds: a fixed text for 0, 401, 403 and 404; the
      body's message or `Requête invalide` for 400; otherwise the body's message,
      the error's own message or `Erreur serveur`. It is never empty. */
  function ErrorMessage(e: HttpError): (m: string)
    ensures m != ""
    ensures e.status == Some(0) ==> m == Unreachable
    ensures e.status == Some(401) ==> m == BadCredentials
    ensures e.status == Some(403) ==> m == Forbidden
    ensures e.status == Some(404) ==> m == NotFound
    ensures e.status == Some(400) ==> m == (if BodyMessage(e.body) != "" then BodyMessage(e.body) else BadRequest)
    ensures (e.status.None? || e.status.value !in {0, 400, 401, 403, 404}) ==>
      m == (if BodyMessage(e.body) != "" then BodyMessage(e.body) else if e.message != "" then e.message else ServerError)
  {
    if e.status == Some(0) then Unreachable
    else if e.status == Some(401) then BadCredentials
    else if e.status == Some(403) then Forbidden
    else if e.status == Some(404) then NotFound
    else if e.status == Some(400) then OrElse(BodyMessage(e.body), BadRequest)
    else OrElse(BodyMessage(e.body), OrElse(e.message, ServerError))
  }

  /** The four fixed texts are distinct, so each such status can be told apart. */
  lemma FixedMessagesDistinct(e: HttpError, f: HttpError)
    requires e.status.Some? && e.status.value in {0, 401, 403, 404}
    requires f.status.Some? && f.status.value in {0, 401, 403, 404}
    ensures ErrorMessage(e) == ErrorMessage(f) <==> e.status == f.status
  {
    assert |Unreachable| != |BadCredentials| && |Unreachable| != |Forbidden| && |Unreachable| != |NotFound|;
    assert |BadCredentials| != |Forbidden| && |BadCredentials| != |NotFound| && |Forbidden| != |NotFound|;
  }

  /** An `Error` thrown inside the pipeline has no status: its own message, when
      it has one, is what the caller gets. */
  lemma PlainErrorKeepsMessage(message: string)
    requires message != ""
    ensures ErrorMessage(PlainError(message)) == message
  {
  }

  /** `catchError(this.handleError)` hands the method over without its object, so
      `this` is undefined inside it and `this.toastr.error(...)` throws a
      `TypeError` before the mapped error is returned: every failure reaches the
      caller as that `TypeError`, whose message (as a V8 engine words it) is this. */
  const UnboundThisError: string := "Cannot read properties of undefined (reading 'toastr')"

  function ErrorSeenAsWritten(e: HttpError): string {
    UnboundThisError
  }

  /** A 401 reaches the caller as the `TypeError`, not as the bad-credentials message. */
  lemma AsWrittenHidesStatus(e: HttpError)
    requires e.status == Some(401)
    ensures ErrorSeenAsWritten(e) != ErrorMessage(e)
  {
    assert |UnboundThisError| != |BadCredentials|;
  }

  // ---------------------------------------------------------------------------
  // login

  /** The login body's `token` and `error` fields ("" when missing). */
  datatype RawLogin = RawLogin(token: string, error: string)

  datatype LoginResponse = LoginResponse(token: Option<string>, error: Option<string>)

  /** The `map` step: the token if there is one, else the error, else nothing;
      never both. */
  function NormaliseLogin(raw: RawLogin): (r: LoginResponse)
    ensures !(r.token.Some? && r.error.Some?)
    ensures r.token.Some? <==> raw.token != ""
    ensures r.token.Some? ==> r.token.value == raw.token
    ensures r.error.Some? <==> raw.token == "" && raw.error != ""
    ensures r.error.Some? ==> r.error.value == raw.error
  {
    if raw.token != "" then LoginResponse(Some(raw.token), None)
    else if raw.error != "" then LoginResponse(None, Some(raw.error))
    else LoginResponse(None, None)
  }

  const NoTokenMessage: string := "Aucun token ou erreur non définie"
  /** The message of the `TypeError` that reading `.token` of a null body throws. */
  const NullBodyError: string := "Cannot read properties of null (reading 'token')"

  /** What reaches the end of the pipeline: the token, or the error handed to
      `catchError`. */
  datatype LoginAttempt = Token(value: string) | Failure(error: HttpError)

  /** The `tap` step: a token without an error is kept; an error in the response,
      or neither, is thrown as an `Error` without a status. */
  function CheckLogin(r: LoginResponse): (a: LoginAttempt)
    ensures a.Token? <==> r.token.Some? && r.token.value != "" && r.error.None?
    ensures a.Token? ==> a.value == r.token.value
    ensures a.Failure? ==> a.error.status.None?
  {
    if r.token.Some? && r.token.value != "" && r.error.None? then Token(r.token.value)
    else if r.error.Some? && r.error.value != "" then Failure(PlainError(r.error.value))
    else Failure(PlainError(NoTokenMessage))
  }

  /** The call, the `map` step and the `tap` step on a call's outcome. */
  function Attempt(outcome: Outcome<RawLogin>): LoginAttempt {
    match outcome
    case Failed(e) => Failure(e)
    case Received(None) => Failure(PlainError(NullBodyError))
    case Received(Some(raw)) => CheckLogin(NormaliseLogin(raw))
  }

  /** The whole login pipeline as written: every failure reaches the caller as
      the `TypeError` of the unbound handler. */
  function LoginResult(outcome: Outcome<RawLogin>): (r: Result<string>)
    ensures Attempt(outcome).Token? ==> r == Ok(Attempt(outcome).value)
    ensures Attempt(outcome).Failure? ==> r == Err(ErrorSeenAsWritten(Attempt(outcome).error))
  {
    match Attempt(outcome)
    case Token(t) => Ok(t)
    case Failure(e) => Err(ErrorSeenAsWritten(e))
  }

  /** The pipeline with the handler bound to the service: a failure reaches the
      caller with the message `handleError` builds. */
  function LoginResultBound(outcome: Outcome<RawLogin>): (r: Result<string>)
    ensures Attempt(outcome).Token? ==> r == Ok(Attempt(outcome).value)
    ensures Attempt(outcome).Failure? ==> r == Err(ErrorMessage(Attempt(outcome).error))
  {
    match Attempt(outcome)
    case Token(t) => Ok(t)
    case Failure(e) => Err(ErrorMessage(e))
  }

  /** As written, a token wins over an error, and every other answer, whatever
      it says, fails with the same `TypeError` text; a failed call does too. */
  lemma LoginOutcomes(raw: RawLogin, e: HttpError)
    ensures raw.token != "" ==> LoginResult(Received(Some(raw))) == Ok(raw.token)
    ensures raw.token == "" ==> LoginResult(Received(Some(raw))) == Err(UnboundThisError)
    ensures LoginResult(Received(None)) == Err(UnboundThisError)
    ensures LoginResult(Failed(e)) == Err(UnboundThisError)
  {
  }

  /** With the handler bound, an error alone fails with its text, a body with
      neither fails with the fixed message, a null body with the `TypeError`'s
      message, and a failed call with the status's message. */
  lemma LoginOutcomesBound(raw: RawLogin, e: HttpError)
    ensures raw.token != "" ==> LoginResultBound(Received(Some(raw))) == Ok(raw.token)
    ensures raw.token == "" && raw.error != "" ==> LoginResultBound(Received(Some(raw))) == Err(raw.error)
    ensures raw.token == "" && raw.error == "" ==> LoginResultBound(Received(Some(raw))) == Err(NoTokenMessage)
    ensures LoginResultBound(Received(None)) == Err(NullBodyError)
    ensures LoginResultBound(Failed(e)) == Err(ErrorMessage(e))
  {
    if raw.token == "" && raw.error != "" {
      PlainErrorKeepsMessage(raw.error);
    }
    PlainErrorKeepsMessage(NoTokenMessage);
    PlainErrorKeepsMessage(NullBodyError);
  }

  // ---------------------------------------------------------------------------
  // The JWT's claims

  /** The claims the service reads; a missing text claim is "". */
  datatype JwtPayload = JwtPayload(role: string, sub: Option<int>, id: Option<int>)

  /** `getUserRole` on a token: nothing without a token, when decoding fails or
      when there is no role; otherwise the role with every `ROLE_` removed. */
  function UserRole(token: Option<string>, decode: string -> Option<JwtPayload>): (r: Option<string>)
    ensures r.Some? <==> token.Some? && token.value != "" && decode(token.value).Some?
                         && decode(token.value).value.role != ""
    ensures r.Some? ==> |r.value| <= |decode(token.value).value.role|
  {
    if token.None? || token.value == "" then None
    else match decode(token.value)
      case None => None
      case Some(p) => if p.role == "" then None else Some(RemoveAll(p.role, "ROLE_"))
  }

  /** A role written `ROLE_X` is read as `X`. */
  lemma RolePrefixStripped(x: string)
    requires !Contains(x, "ROLE_")
    ensures RemoveAll("ROLE_" + x, "ROLE_") == x
  {
    assert StartsWith("ROLE_" + x, "ROLE_");
    assert ("ROLE_" + x)[5..] == x;
    RemoveAllAbsent(x, "ROLE_");
  }

  lemma UserRoleOfPrefixedRole(token: string, decode: string -> Option<JwtPayload>, x: string)
    requires token != "" && decode(token).Some? && decode(token).value.role == "ROLE_" + x
    requires !Contains(x, "ROLE_")
    ensures UserRole(Some(token), decode) == Some(x)
  {
    RolePrefixStripped(x);
  }

  /** The driver id claim: `payload.sub || payload.id || null`. */
  function DriverClaim(p: JwtPayload): (r: Option<int>)
    ensures r.None? || TruthyInt(r)
    ensures TruthyInt(p.sub) ==> r == p.sub
    ensures !TruthyInt(p.sub) && TruthyInt(p.id) ==> r == p.id
  {
    if TruthyInt(p.sub) then p.sub else if TruthyInt(p.id) then p.id else None
  }

  /** Where a role is sent after login; `None` means an unknown role. */
  function RouteFor(role: Option<string>): (r: Option<string>)
    ensures r.Some? <==> role == Some("ADMIN") || role == Some("MANAGER")
    ensures r.Some? ==> r.value != "/login"
    ensures role == Some("ADMIN") ==> r == Some("/admin/dashboard")
    ensures role == Some("MANAGER") ==> r == Some("/manager/dashboard")
  {
    if role == Some("ADMIN") then Some("/admin/dashboard")
    else if role == Some("MANAGER") then Some("/manager/dashboard")
    else None
  }

  /** The cached driver id once `getCurrentDriverId` has run on token `t`: a
      truthy cached id stays; otherwise the token's claim, when it decodes. */
  function DriverIdFor(cached: Option<int>, t: string, decode: string -> Option<JwtPayload>): Option<int> {
    if TruthyInt(cached) then cached
    else if t != "" && decode(t).Some? then DriverClaim(decode(t).value)
    else cached
  }

  const UnknownRole: string := "Rôle inconnu. Veuillez contacter l'administrateur."

  /** `registerDriver`: the user account made for a driver. */
  function DriverUser(d: DriverRequest): (u: User)
    ensures u.username == d.email && u.email == d.email && u.role == "DRIVER"
    ensures u.password != ""
    ensures d.password != "" ==> u.password == d.password
  {
    User(d.email, OrElse(d.password, "defaultPassword"), d.email, "DRIVER")
  }

  class Auth {
    var token: Option<string>
    var stored: Option<string>
    var currentDriverId: Option<int>
    var route: string
    var toasts: seq<string>

    /** The service starts from the stored token. */
    constructor(storedToken: Option<string>)
      ensures token == storedToken && stored == storedToken && currentDriverId == None
      ensures route == "" && toasts == []
    {
      token, stored, currentDriverId := storedToken, storedToken, None;
      route, toasts := "", [];
    }

    /** `isLoggedIn`: re-reads the stored token; logged in when it is non-empty. */
    method IsLoggedIn() returns (b: bool)
      modifies this`token
      ensures token == stored
      ensures b <==> stored.Some? && stored.value != ""
    {
      token := stored;
      b := token.Some? && token.value != "";
    }

    /** `logout`: the token, its stored copy and the cached driver id are gone. */
    method Logout()
      modifies this`token, this`stored, this`currentDriverId, this`route
      ensures token == None && stored == None && currentDriverId == None && route == "/login"
    {
      token, currentDriverId, stored, route := None, None, None, "/login";
    }

    /** `getCurrentDriverId`: a cached id is returned without decoding; otherwise
        the token's claim is cached and returned. */
    method GetCurrentDriverId(decode: string -> Option<JwtPayload>) returns (r: Option<int>)
      modifies this`currentDriverId
      ensures TruthyInt(old(currentDriverId)) ==> r == old(currentDriverId) && currentDriverId == old(currentDriverId)
      ensures !TruthyInt(old(currentDriverId)) && token.Some? && token.value != "" && decode(token.value).Some? ==>
        currentDriverId == DriverClaim(decode(token.value).value) && r == currentDriverId
      ensures !TruthyInt(old(currentDriverId)) && !(token.Some? && token.value != "" && decode(token.value).Some?) ==>
        currentDriverId == old(currentDriverId) && r == None
      ensures r.None? || TruthyInt(r)
    {
      if TruthyInt(currentDriverId) {
        return currentDriverId;
      }
      r := None;
      if token.Some? && token.value != "" {
        var payload := decode(token.value);
        if payload.Some? {
          currentDriverId := DriverClaim(payload.value);
          r := currentDriverId;
        }
      }
    }

    /** `redirectBasedOnRole`: an unknown role is reported and logged out. */
    method RedirectBasedOnRole(decode: string -> Option<JwtPayload>)
      modifies this`token, this`stored, this`currentDriverId, this`route, this`toasts
      ensures RouteFor(UserRole(old(token), decode)).Some? ==>
        route == RouteFor(UserRole(old(token), decode)).value
        && token == old(token) && stored == old(stored) && currentDriverId == old(currentDriverId) && toasts == old(toasts)
      ensures RouteFor(UserRole(old(token), decode)).None? ==>
        route == "/login" && token == None && stored == None && currentDriverId == None
        && toasts == old(toasts) + [UnknownRole]
    {
      var target := RouteFor(UserRole(token, decode));
      if target.Some? {
        route := target.value;
      } else {
        toasts := toasts + [UnknownRole];
        Logout();
      }
    }

    /** The success branch of `tap`: keep and store the token, cache the driver
        id and route by role. */
    method KeepToken(t: string, decode: string -> Option<JwtPayload>)
      modifies this`token, this`stored, this`currentDriverId, this`route, this`toasts
      ensures RouteFor(UserRole(Some(t), decode)).Some? ==>
        token == Some(t) && stored == Some(t) && route == RouteFor(UserRole(Some(t), decode)).value
        && currentDriverId == DriverIdFor(old(currentDriverId), t, decode) && toasts == old(toasts)
      ensures RouteFor(UserRole(Some(t), decode)).None? ==>
        token == None && stored == None && currentDriverId == None && route == "/login"
        && toasts == old(toasts) + [UnknownRole]
    {
      token, stored := Some(t), Some(t);
      var _ := GetCurrentDriverId(decode);
      RedirectBasedOnRole(decode);
    }

    /** `login` as written: on a token, keep it; on any failure the handler
        throws before its toast, so nothing is kept or shown. */
    method Login(outcome: Outcome<RawLogin>, decode: string -> Option<JwtPayload>) returns (r: Result<string>)
      modifies this`token, this`stored, this`currentDriverId, this`route, this`toasts
      ensures r == LoginResult(outcome)
      ensures r.Err? ==> (r.message == UnboundThisError && token == old(token) && stored == old(stored)
        && route == old(route) && currentDriverId == old(currentDriverId) && toasts == old(toasts))
      ensures r.Ok? && RouteFor(UserRole(Some(r.value), decode)).Some? ==>
        token == Some(r.value) && stored == Some(r.value)
        && route == RouteFor(UserRole(Some(r.value), decode)).value && toasts == old(toasts)
        && currentDriverId == DriverIdFor(old(currentDriverId), r.value, decode)
      ensures r.Ok? && RouteFor(UserRole(Some(r.value), decode)).None? ==>
        token == None && stored == None && currentDriverId == None && route == "/login"
        && toasts == old(toasts) + [UnknownRole]
    {
      r := LoginResult(outcome);
      if r.Ok? {
        KeepToken(r.value, decode);
      }
    }

    /** `login` with the handler bound: the same on a token; a failure is
        toasted with the handler's message and reaches the caller with it. */
    method LoginBound(outcome: Outcome<RawLogin>, decode: string -> Option<JwtPayload>) returns (r: Result<string>)
      modifies this`token, this`stored, this`currentDriverId, this`route, this`toasts
      ensures r == LoginResultBound(outcome)
      ensures r.Err? ==> (r.message == ErrorMessage(Attempt(outcome).error) && token == old(token)
        && stored == old(stored) && route == old(route) && currentDriverId == old(currentDriverId)
        && toasts == old(toasts) + [ErrorMessage(Attempt(outcome).error)])
      ensures r.Ok? && RouteFor(UserRole(Some(r.value), decode)).Some? ==>
        token == Some(r.value) && stored == Some(r.value)
        && route == RouteFor(UserRole(Some(r.value), decode)).value && toasts == old(toasts)
        && currentDriverId == DriverIdFor(old(currentDriverId), r.value, decode)
      ensures r.Ok? && RouteFor(UserRole(Some(r.value), decode)).None? ==>
        token == None && stored == None && currentDriverId == None && route == "/login"
        && toasts == old(toasts) + [UnknownRole]
    {
      r := LoginResultBound(outcome);
      if r.Ok? {
        KeepToken(r.value, decode);
      } else {
        toasts := toasts + [r.message];
      }
    }
  }
}
