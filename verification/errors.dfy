/** The two error-to-response maps: `handleErrors`, which every account
    handler calls from its `catch`, and the framework-level
    `ErrorMiddleware`, which classifies by error name and code. */
module Errors {
  import opened Values
  import opened Jws
  import opened Http

  /** What `jwt.verify` throws, as a `Thrown`. */
  function VerifyFailure(v: Verified): (e: Thrown)
    requires !v.Valid?
    ensures e.kind.TokenExpired? <==> v.Expired?
    ensures e.kind.JsonWebToken? <==> v.Invalid?
  {
    if v.Expired? then Thrown(TokenExpired, "jwt expired") else Thrown(JsonWebToken, "invalid signature")
  }

  /** A thrown error that is neither a token error nor a local `ErrorHandler`. */
  function Failed(message: string): Thrown {
    Thrown(Plain, message)
  }

  /** `handleErrors`: an expired token gives 401, a local `ErrorHandler`
      its own status (500 when the status is 0) and message, and anything
      else 500 with a fixed message that hides the original one. */
  function HandleErrors(e: Thrown): (r: Reply)
    ensures r.Msg? && !r.success
    ensures e.kind.TokenExpired? ==> r.status == 401 && r.message == "Activation token has expired"
    ensures e.kind.LocalHandler? ==>
              r.message == e.message && r.status == (if e.kind.statusCode == 0 then 500 else e.kind.statusCode)
    ensures e.kind.JsonWebToken? || e.kind.Plain? ==> r.status == 500 && r.message == "Internal Server Error"
  {
    match e.kind
    case TokenExpired => Msg(401, false, "Activation token has expired")
    case LocalHandler(code) => Msg(if code == 0 then 500 else code, false, e.message)
    case _ => Msg(500, false, "Internal Server Error")
  }

  /** The only way a handler's own message reaches the client through
      `handleErrors` is a local `ErrorHandler`; the other `ErrorHandler`
      class, which is what the controllers construct, is reported as 500. */
  lemma HandleErrorsHidesMessages(e: Thrown)
    requires !e.kind.LocalHandler?
    ensures HandleErrors(e).status in {401, 500}
    ensures HandleErrors(e).message in {"Activation token has expired", "Internal Server Error"}
  {
  }

  /** An error as `ErrorMiddleware` inspects it. `keyValue` lists the keys of
      the `keyValue` object, `None` when it is missing. */
  datatype MwError = MwError(statusCode: int, message: string, code: Option<int>,
                             keyValue: Option<seq<string>>, name: string)

  /** The outcome of `ErrorMiddleware`: a response, or a `TypeError` thrown
      by the middleware itself (reading the keys of a missing `keyValue`). */
  datatype MwOutcome = Responded(status: int, message: string) | Crashed

  /** `Array.prototype.join(",")`. */
  function JoinComma(s: seq<string>): string {
    if s == [] then "" else if |s| == 1 then s[0] else s[0] + "," + JoinComma(s[1..])
  }

  /** `ErrorMiddleware`. Each rule replaces the error by a new `ErrorHandler`
      whose name is "Error", so a later rule can no longer match: the first
      matching rule wins. */
  function ErrorMiddleware(err: MwError): (r: MwOutcome)
    ensures r.Crashed? <==> err.code == Some(11000) && err.keyValue.None?
    ensures err.code == Some(11000) && err.keyValue.Some? ==>
              r == Responded(400, "Duplicate " + JoinComma(err.keyValue.value) + " entered")
    ensures err.code != Some(11000) && err.name == "JsonWebTokenError" ==>
              r == Responded(400, "Json web token is invalid, try again")
    ensures err.code != Some(11000) && err.name == "TokenExpiredError" ==>
              r == Responded(400, "Json web token is expired, try again")
    ensures err.code != Some(11000) && err.name != "JsonWebTokenError" && err.name != "TokenExpiredError" ==>
              r == Responded(if err.statusCode == 0 then 500 else err.statusCode,
                             if err.message == "" then "Internal Server Error" else err.message)
  {
    var status := if err.statusCode == 0 then 500 else err.statusCode;
    var message := if err.message == "" then "Internal Server Error" else err.message;
    if err.code == Some(11000) then
      match err.keyValue
      case None => Crashed
      case Some(keys) => Responded(400, "Duplicate " + JoinComma(keys) + " entered")
    else if err.name == "JsonWebTokenError" then Responded(400, "Json web token is invalid, try again")
    else if err.name == "TokenExpiredError" then Responded(400, "Json web token is expired, try again")
    else Responded(status, message)
  }

  /** Every response names a status (400 for a matched rule, else the
      error's own non-zero one, else 500) and a non-empty message; and
      the `ErrorHandler` a rule builds, passed through the middleware
      again, gets the same response. */
  lemma ErrorMiddlewareSettles(err: MwError)
    requires ErrorMiddleware(err).Responded?
    ensures var r := ErrorMiddleware(err);
            r.message != "" && (r.status == 400 || r.status == 500 || r.status == err.statusCode) && r.status != 0
            && ErrorMiddleware(MwError(r.status, r.message, None, None, "Error")) == r
  {
  }
}
