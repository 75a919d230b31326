/** Token issue and verification, and the login check. The signing and decoding of the JWT
    (HS256 with a fixed secret) happen inside the JWT library: a token is modelled by the claims
    it carries, and decoding by its outcome. Time is whole seconds since the epoch. */
module Auth {
  import opened Wrappers
  import opened JsonModel
  import opened Errors
  import Decimal

  const AccessTokenExpireMinutes: nat := 30

  /** The claims of a token: the JSON object the library signs and decodes. */
  type Claims = map<string, Json>

  /** The library's verdict on a presented token: its claims when the signature and the expiry
      claim ("exp", section 4.1.4 of RFC 7519) check out, or which of its errors it raised. */
  datatype DecodeOutcome =
    | Decoded(claims: Claims)
    | ExpiredSignature
    | InvalidTokenError

  /** `create_access_token(data)` at time `now`: the given claims plus an expiry 30 minutes on. */
  function CreateAccessToken(data: Claims, now: int): (token: Claims)
    ensures token.Keys == data.Keys + {"exp"}
    ensures token["exp"] == JInt(now + AccessTokenExpireMinutes * 60)
    ensures forall k :: k in data && k != "exp" ==> token[k] == data[k]
  {
    data["exp" := JInt(now + AccessTokenExpireMinutes * 60)]
  }

  /** `verify_token`: the subject of a decoded token, or a 401 envelope. `payload.get("sub")`
      is Python's `None` both for a missing claim and for a JSON null one. */
  function VerifyToken(outcome: DecodeOutcome): (r: Result<Json, ErrorEnvelope>)
    ensures r.Success? <==> outcome.Decoded? && "sub" in outcome.claims && outcome.claims["sub"] != JNull
    ensures r.Success? ==> r.value == outcome.claims["sub"]
    ensures r.Failure? ==> r.error.status == 401 && r.error.detail == NoDetail && WellFormed(r.error)
    ensures r.Failure? ==> (r.error.code == TokenExpired <==> outcome.ExpiredSignature?)
    ensures r.Failure? ==> r.error.code in {TokenExpired, InvalidToken}
  {
    match outcome
    case Decoded(claims) =>
      var username := if "sub" in claims then claims["sub"] else JNull;
      if username == JNull then Failure(Envelope(InvalidToken, 401, NoDetail))
      else Success(username)
    case ExpiredSignature =>
      Failure(Envelope(TokenExpired, 401, NoDetail))
    case InvalidTokenError =>
      Failure(Envelope(InvalidToken, 401, NoDetail))
  }

  /** The fixed user table: user name to password. */
  const Users: map<string, string> := map["admin" := "password123", "student" := "student123"]

  /** The body of a successful login. */
  datatype LoginReply = LoginReply(accessToken: Claims, tokenType: string, expiresIn: string)

  /** `login`: a token for a known user whose stored password matches, else a 401. */
  function Login(username: string, password: string, now: int): (r: Result<LoginReply, ErrorEnvelope>)
    ensures r.Success? <==>
      (username == "admin" && password == "password123") || (username == "student" && password == "student123")
    ensures r.Failure? ==> r.error == Envelope(InvalidCredentials, 401, NoDetail) && WellFormed(r.error)
    ensures r.Success? ==>
      && r.value.accessToken == map["sub" := JStr(username), "exp" := JInt(now + 1800)]
      && r.value.tokenType == "bearer"
      && r.value.expiresIn == "30 minutes"
  {
    if username !in Users || Users[username] != password then
      Failure(Envelope(InvalidCredentials, 401, NoDetail))
    else
      Success(LoginReply(
        CreateAccessToken(map["sub" := JStr(username)], now),
        "bearer",
        Decimal.NatToString(AccessTokenExpireMinutes) + " minutes"))
  }

  /** A token issued at login, once the library decodes it back to the claims it signed, is
      accepted and identifies the user who logged in; it expires strictly after issue time. */
  lemma IssuedTokenVerifies(username: string, password: string, now: int)
    requires Login(username, password, now).Success?
    ensures var token := Login(username, password, now).value.accessToken;
      && VerifyToken(Decoded(token)) == Success(JStr(username))
      && token["exp"].JInt? && token["exp"].i > now
  {
  }

  /** Whatever its claims said, a token the library reports expired is refused as expired, and
      any other decoding failure as invalid. */
  lemma RejectedTokens()
    ensures VerifyToken(ExpiredSignature) == Failure(Envelope(TokenExpired, 401, NoDetail))
    ensures VerifyToken(InvalidTokenError) == Failure(Envelope(InvalidToken, 401, NoDetail))
    ensures forall claims: Claims :: "sub" !in claims ==> VerifyToken(Decoded(claims)) == Failure(Envelope(InvalidToken, 401, NoDetail))
  {
  }
}
