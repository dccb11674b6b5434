/**
 * The request gate run before every route (`auth_handler`) and the
 * catch-all error handler, as pure decisions over the request.
 */
module Middleware {
  import opened Wrappers
  import opened Json
  import opened Text

  /** The parts of an HTTP request the gate reads; a header is `None` when absent. */
  datatype Request = Request(
    verb: string,                    // the HTTP method
    path: string,
    email: Option<string>,           // Mivro-Email
    password: Option<string>,        // Mivro-Password
    authorization: Option<string>)   // Authorization

  /** What the credential check does: return a result dict, or raise with a message. */
  datatype Validation = Returned(result: Fields) | Raised(message: string)

  /** A JSON response body. */
  datatype Body =
    | Error(text: string)               // {"error": text}
    | Echo(result: Fields)              // the validator's result dict as is
    | Message(text: string)             // {"message": text}
    | ContainmentError(operand: Value)  // {"error": ...} of the TypeError `in` raises on a non-container

  /** `None` lets the request through; otherwise the response and status code. */
  datatype Decision = Pass | Reject(status: int, body: Body)

  const UnrestrictedRoutes: seq<string> := [
    "/health",
    "/metrics",
    "/api/v1/auth/signup",
    "/api/v1/auth/verify-email",
    "/api/v1/auth/signin",
    "/api/v1/auth/reset-password"
  ]

  const IncorrectPassword := "Incorrect password."

  /** A header that is present and not empty (truthy). */
  predicate Given(h: Option<string>) {
    h.Some? && h.value != ""
  }

  predicate HasBearer(req: Request) {
    Given(req.authorization) && StartsWith(req.authorization.value, "Bearer ")
  }

  /** The requests for which the gate calls the credential validator. */
  predicate ConsultsValidator(req: Request) {
    && req.verb != "OPTIONS"
    && req.path !in UnrestrictedRoutes
    && !HasBearer(req)
    && Given(req.email)
    && Given(req.password)
  }

  /**
   * `"Incorrect password." in error`: a substring test on a string, a
   * membership test on a list, a key test on a dict; `None` when `in`
   * raises because the value is no container.
   */
  function MentionsIncorrectPassword(error: Value): Option<bool> {
    match error
    case Str(s) => Some(Contains(s, IncorrectPassword))
    case List(xs) => Some(Str(IncorrectPassword) in xs)
    case Dict(fs) => Some(HasKey(fs, IncorrectPassword))
    case _ => None
  }

  /** The response for a validator outcome. */
  function Judge(outcome: Validation): (d: Decision)
    ensures outcome.Raised? ==> d == Reject(500, Error(outcome.message))
    ensures outcome.Returned? && !HasKey(outcome.result, "error") ==> d == Pass
    ensures outcome.Returned? && HasKey(outcome.result, "error") ==>
      var e := GetOr(outcome.result, "error", Null);
      && (e.Str? && Contains(e.s, IncorrectPassword) ==> d == Reject(401, Echo(outcome.result)))
      && (e.Str? && !Contains(e.s, IncorrectPassword) ==> d == Reject(404, Echo(outcome.result)))
      && (e.List? ==> d == Reject(if Str(IncorrectPassword) in e.items then 401 else 404, Echo(outcome.result)))
      && (e.Dict? ==> d == Reject(if HasKey(e.fields, IncorrectPassword) then 401 else 404, Echo(outcome.result)))
      && (e.Null? || e.Bool? || e.Num? ==> d == Reject(500, ContainmentError(e)))
  {
    match outcome
    case Raised(msg) => Reject(500, Error(msg))
    case Returned(result) =>
      if !HasKey(result, "error") then Pass
      else
        var e := GetOr(result, "error", Null);
        match MentionsIncorrectPassword(e)
        case None => Reject(500, ContainmentError(e))
        case Some(incorrect) => Reject(if incorrect then 401 else 404, Echo(result))
  }

  /** `auth_handler`, with the credential check passed in as `validate`. */
  function AuthHandler(req: Request, validate: (string, string) -> Validation): (d: Decision)
    ensures req.verb == "OPTIONS" ==> d == Pass
    ensures req.path in UnrestrictedRoutes ==> d == Pass
    ensures req.verb != "OPTIONS" && req.path !in UnrestrictedRoutes && HasBearer(req) ==>
      && (d == Pass <==> Given(req.email))
      && (d != Pass ==> d == Reject(401, Error("Email is required.")))
    ensures
      (&& req.verb != "OPTIONS"
       && req.path !in UnrestrictedRoutes
       && !HasBearer(req)
       && !(Given(req.email) && Given(req.password)))
      ==> d == Reject(401, Error("Email and password are required."))
    ensures ConsultsValidator(req) ==> d == Judge(validate(req.email.value, req.password.value))
    ensures d.Reject? ==> d.status in {401, 404, 500}
  {
    if req.verb == "OPTIONS" then Pass
    else if req.path in UnrestrictedRoutes then Pass
    else if HasBearer(req) then
      if !Given(req.email) then Reject(401, Error("Email is required.")) else Pass
    else if !Given(req.email) || !Given(req.password) then
      Reject(401, Error("Email and password are required."))
    else Judge(validate(req.email.value, req.password.value))
  }

  /**
   * The validator is consulted only with a non-empty email and password
   * and no bearer token: outside those requests any two validators give
   * the same decision.
   */
  lemma ValidatorOnlyWithCredentials(req: Request, v1: (string, string) -> Validation, v2: (string, string) -> Validation)
    requires !ConsultsValidator(req)
    ensures AuthHandler(req, v1) == AuthHandler(req, v2)
  {
  }

  /** A rejection with 404 only ever comes from a validator error other than a wrong password. */
  lemma NotFoundOnlyFromValidator(req: Request, validate: (string, string) -> Validation)
    requires AuthHandler(req, validate).Reject? && AuthHandler(req, validate).status == 404
    ensures ConsultsValidator(req)
    ensures var outcome := validate(req.email.value, req.password.value);
      && outcome.Returned?
      && HasKey(outcome.result, "error")
      && MentionsIncorrectPassword(GetOr(outcome.result, "error", Null)) == Some(false)
  {
  }

  /** `error_handler`: every exception becomes the same 500 response. */
  function ErrorHandler<E>(exception: E): (d: Decision)
    ensures d == Reject(500, Message("Error with request path. Check and try again."))
  {
    Reject(500, Message("Error with request path. Check and try again."))
  }
}
