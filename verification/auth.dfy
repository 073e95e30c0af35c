/**
 The API gateway's `authMiddleware` (`middleware/auth.ts`): a request needs
 an `Authorization: Bearer <token>` header; the token is checked by
 `jwt.verify` (an oracle here); on success the decoded claims are forwarded
 as `x-user-*` headers and the request continues (`next()`), otherwise the
 middleware answers with an error, so exactly one of the two happens.

 In `jsonwebtoken`, `TokenExpiredError` and `NotBeforeError` extend
 `JsonWebTokenError`. The source tests `instanceof JsonWebTokenError` first,
 so its "Token expired" branch can never run: `ClassifyAsWritten` models the
 code as written and `TokenExpiredNeverReported` exhibits the dead branch;
 `Classify` tests the subclass first. The middleware and the gateway take
 the variant as a parameter, so both behaviours are stated.
 */
module Auth {
  import opened Common
  import Http

  const BearerPrefix: string := "Bearer "
  const DefaultSecret: string := "your-secret-key-change-in-production"

  /** Request headers, keyed by lower-case name as Node delivers them. */
  type Headers = map<string, string>

  /** `process.env.JWT_SECRET || DefaultSecret` */
  function JwtSecret(env: Env): string {
    EnvOr(env, "JWT_SECRET", DefaultSecret)
  }

  /** The claims `jwt.verify` decodes. */
  datatype Claims = Claims(id: string, email: string, role: string)

  /** What `jwt.verify` throws. */
  datatype VerifyError =
    | JsonWebTokenError(message: string)
    | TokenExpiredError(message: string)
    | NotBeforeError(message: string)
    | OtherError(error: Error)

  /** `error instanceof jwt.JsonWebTokenError`: true of the class and its two subclasses. */
  predicate InstanceOfJsonWebTokenError(e: VerifyError) {
    e.JsonWebTokenError? || e.TokenExpiredError? || e.NotBeforeError?
  }

  /** `error instanceof jwt.TokenExpiredError` */
  predicate InstanceOfTokenExpiredError(e: VerifyError) {
    e.TokenExpiredError?
  }

  datatype Verified = Decoded(claims: Claims) | Failed(error: VerifyError)

  /** `jwt.verify(token, secret)` as an oracle. */
  type Verifier = (string, string) -> Verified

  /** The header the client sends for a stored token. */
  function BearerHeader(token: string): string {
    BearerPrefix + token
  }

  /** The token of an `Authorization` header: present only when the header
      starts with exactly "Bearer "; it is the header without those 7 characters. */
  function Token(authorization: Option<string>): (r: Option<string>)
    ensures r.Some? <==> authorization.Some? && StartsWith(authorization.value, BearerPrefix)
    ensures r.Some? ==> BearerHeader(r.value) == authorization.value
  {
    if authorization.Some? && StartsWith(authorization.value, BearerPrefix)
    then
      var h := authorization.value;
      assert h == h[..7] + h[7..];
      Some(h[7..])
    else None
  }

  /** Round trip: the gateway reads back exactly the token the client put in
      the header, including an empty one. */
  lemma TokenOfBearerHeader(token: string)
    ensures Token(Some(BearerHeader(token))) == Some(token)
  {
    var h := BearerHeader(token);
    assert h[..7] == BearerPrefix;
    assert h[7..] == token;
  }

  const NoToken: Http.Response := Http.Response(401, Http.Failure("Unauthorized", Some("No token provided")))
  const InvalidToken: Http.Response := Http.Response(401, Http.Failure("Unauthorized", Some("Invalid token")))
  const ExpiredToken: Http.Response := Http.Response(401, Http.Failure("Unauthorized", Some("Token expired")))
  const AuthFailed: Http.Response := Http.Response(500, Http.Failure("Internal Server Error", Some("Authentication failed")))

  /** The middleware either answers or calls `next()` with the forwarded headers. */
  datatype Decision = Reject(response: Http.Response) | Next(headers: Headers)

  /** The claims forwarded downstream as headers. */
  function Forward(headers: Headers, c: Claims): Headers {
    headers["x-user-id" := c.id]["x-user-email" := c.email]["x-user-role" := c.role]
  }

  /** The `catch` block as written: first matching `instanceof` test wins. */
  function ClassifyAsWritten(e: VerifyError): (r: Http.Response)
    ensures r == InvalidToken <==> InstanceOfJsonWebTokenError(e)
    ensures r == AuthFailed <==> !InstanceOfJsonWebTokenError(e)
  {
    if InstanceOfJsonWebTokenError(e) then InvalidToken
    else if InstanceOfTokenExpiredError(e) then ExpiredToken
    else AuthFailed
  }

  /** As written, an expired token is reported as invalid, and no error at
      all yields "Token expired". */
  lemma TokenExpiredNeverReported(e: VerifyError)
    ensures ClassifyAsWritten(e) != ExpiredToken
    ensures e.TokenExpiredError? ==> ClassifyAsWritten(e) == InvalidToken
  {
  }

  /** The `catch` block with the subclass tested before its superclass. */
  function Classify(e: VerifyError): (r: Http.Response)
    ensures r == ExpiredToken <==> e.TokenExpiredError?
    ensures r == InvalidToken <==> e.JsonWebTokenError? || e.NotBeforeError?
    ensures r == AuthFailed <==> e.OtherError?
  {
    if InstanceOfTokenExpiredError(e) then ExpiredToken
    else if InstanceOfJsonWebTokenError(e) then InvalidToken
    else AuthFailed
  }

  /** Classification only differs from the code as written on expired tokens. */
  lemma ClassifyAgreesElsewhere(e: VerifyError)
    ensures !e.TokenExpiredError? ==> Classify(e) == ClassifyAsWritten(e)
  {
  }

  function AuthorizationOf(headers: Headers): Option<string> {
    if "authorization" in headers then Some(headers["authorization"]) else None
  }

  /** Which `catch` block the middleware runs: the source's, or the one
      with the subclass tested first. */
  datatype Variant = AsWritten | Corrected

  /** The answer to a verification error under each variant. */
  function Answer(v: Variant, e: VerifyError): Http.Response {
    match v
    case AsWritten => ClassifyAsWritten(e)
    case Corrected => Classify(e)
  }

  /** `authMiddleware`: no usable header gives 401 "No token provided";
      otherwise `next()` runs exactly when `jwt.verify` succeeds, with the
      claims added as `x-user-*` headers and every other header kept; a
      verification error is answered by the variant's `catch` block. */
  function AuthMiddleware(v: Variant, headers: Headers, secret: string, verify: Verifier): (r: Decision)
    ensures Token(AuthorizationOf(headers)).None? ==> r == Reject(NoToken)
    ensures r.Next? <==> Token(AuthorizationOf(headers)).Some?
                         && verify(Token(AuthorizationOf(headers)).value, secret).Decoded?
    ensures r.Next? ==>
      var c := verify(Token(AuthorizationOf(headers)).value, secret).claims;
      && "x-user-id" in r.headers && r.headers["x-user-id"] == c.id
      && "x-user-email" in r.headers && r.headers["x-user-email"] == c.email
      && "x-user-role" in r.headers && r.headers["x-user-role"] == c.role
      && r.headers.Keys == headers.Keys + {"x-user-id", "x-user-email", "x-user-role"}
      && forall k :: k in headers && k !in {"x-user-id", "x-user-email", "x-user-role"} ==> k in r.headers && r.headers[k] == headers[k]
    ensures r.Reject? ==> r.response.status == 401 || r.response == AuthFailed
    ensures r.Reject? && Token(AuthorizationOf(headers)).Some? ==>
      var e := verify(Token(AuthorizationOf(headers)).value, secret).error;
      && (v == AsWritten ==> r.response == ClassifyAsWritten(e))
      && (v == Corrected ==> r.response == Classify(e))
  {
    match Token(AuthorizationOf(headers))
    case None => Reject(NoToken)
    case Some(token) =>
      match verify(token, secret)
      case Decoded(c) => Next(Forward(headers, c))
      case Failed(e) => Reject(Answer(v, e))
  }

  /** The middleware as written answers every JWT error, expired tokens
      included, with "Invalid token", and only other errors with the 500. */
  lemma AsWrittenRejections(headers: Headers, secret: string, verify: Verifier, e: VerifyError)
    requires Token(AuthorizationOf(headers)).Some?
    requires verify(Token(AuthorizationOf(headers)).value, secret) == Failed(e)
    ensures AuthMiddleware(AsWritten, headers, secret, verify) == Reject(InvalidToken) <==> InstanceOfJsonWebTokenError(e)
    ensures AuthMiddleware(AsWritten, headers, secret, verify) == Reject(AuthFailed) <==> e.OtherError?
  {
  }

  /** The corrected middleware answers "Token expired" exactly for expired
      tokens, "Invalid token" for the other two JWT errors, and the 500
      otherwise. */
  lemma CorrectedRejections(headers: Headers, secret: string, verify: Verifier, e: VerifyError)
    requires Token(AuthorizationOf(headers)).Some?
    requires verify(Token(AuthorizationOf(headers)).value, secret) == Failed(e)
    ensures AuthMiddleware(Corrected, headers, secret, verify) == Reject(ExpiredToken) <==> e.TokenExpiredError?
    ensures AuthMiddleware(Corrected, headers, secret, verify) == Reject(InvalidToken) <==> e.JsonWebTokenError? || e.NotBeforeError?
    ensures AuthMiddleware(Corrected, headers, secret, verify) == Reject(AuthFailed) <==> e.OtherError?
  {
  }

  /** Finding: with the middleware as written, a request whose token has
      expired is answered "Invalid token". */
  lemma ExpiredTokenAnsweredInvalid(headers: Headers, secret: string, verify: Verifier, message: string)
    requires Token(AuthorizationOf(headers)).Some?
    requires verify(Token(AuthorizationOf(headers)).value, secret) == Failed(TokenExpiredError(message))
    ensures AuthMiddleware(AsWritten, headers, secret, verify) == Reject(InvalidToken)
    ensures AuthMiddleware(Corrected, headers, secret, verify) == Reject(ExpiredToken)
  {
  }
}
