/**
 * Access tokens: the claims `create_access_token` signs and the decision
 * `verify_token` takes on a decoded token. Signing and decoding are jose's
 * and appear only as their outcome: the signed string from an encoder, and
 * the claims a decode yields, or None when it raises JWTError.
 */
module Tokens {
  import opened Wrappers
  import opened Http

  /** A token payload: the JSON object the JWT carries. */
  type Claims = map<string, Json>

  const AccessTokenExpireMinutes := 30

  /** The lifetime in seconds; times are whole seconds since the epoch, as the `exp` claim is encoded. */
  const AccessTokenLifetime := AccessTokenExpireMinutes * 60

  /**
   * `create_access_token(data, expires_delta)`: a copy of data with `exp` set
   * to now + expires_delta, or to now + 30 minutes when the delta is absent or
   * zero (`if expires_delta:` is false for a zero timedelta). The caller's
   * map is a value and cannot change.
   */
  function CreateAccessToken(data: Claims, expiresDelta: Option<int>, now: int): (payload: Claims)
    ensures payload.Keys == data.Keys + {"exp"}
    ensures forall k :: k in data && k != "exp" ==> payload[k] == data[k]
    ensures expiresDelta.Some? && expiresDelta.value != 0 ==> payload["exp"] == JNum(now + expiresDelta.value)
    ensures expiresDelta.None? || expiresDelta.value == 0 ==> payload["exp"] == JNum(now + AccessTokenLifetime)
  {
    var toEncode := data;
    var expire :=
      match expiresDelta
      case Some(delta) => if delta != 0 then now + delta else now + AccessTokenExpireMinutes * 60
      case None => now + AccessTokenExpireMinutes * 60;
    toEncode["exp" := JNum(expire)]
  }

  /** The one 401 every token failure collapses to. */
  const CredentialsError :=
    Response(401, map["detail" := JStr("Could not validate credentials")], map["WWW-Authenticate" := "Bearer"])

  /**
   * `verify_token`: the `sub` claim of a decoded token; a decode failure, a
   * missing `sub` and a null `sub` all give the identical 401.
   */
  function VerifyToken(decoded: Option<Claims>): (r: Result<Json, Response>)
    ensures r.Success? <==> decoded.Some? && "sub" in decoded.value && decoded.value["sub"] != JNull
    ensures r.Success? ==> r.value == decoded.value["sub"]
    ensures r.Failure? ==> r.error == CredentialsError
  {
    match decoded
    case None => Failure(CredentialsError)
    case Some(payload) =>
      var username := if "sub" in payload then payload["sub"] else JNull;
      if username == JNull then Failure(CredentialsError) else Success(username)
  }

  /** The /verify-token endpoint: the subject and a fixed message, or the 401. */
  function VerifyUserToken(decoded: Option<Claims>): (r: Response)
    ensures r.status == 200 <==> VerifyToken(decoded).Success?
    ensures r.status == 200 ==> r.body == map["username" := VerifyToken(decoded).value, "message" := JStr("Token is valid")]
    ensures r.status != 200 ==> r == CredentialsError
  {
    match VerifyToken(decoded)
    case Success(currentUser) => Ok(map["username" := currentUser, "message" := JStr("Token is valid")])
    case Failure(e) => e
  }

  /**
   * What `jwt.decode` yields for a token whose HS256 signature checks out
   * under the service's secret: the claims, unless `exp` is not a number or
   * already lies before `now`, or `sub` is present and not a string; those
   * raise JWTError. This reference is used only to state the round trip.
   */
  function DecodeVerified(claims: Claims, now: int): Option<Claims>
  {
    if "exp" in claims && (!claims["exp"].JNum? || claims["exp"].n < now) then None
    else if "sub" in claims && !claims["sub"].JStr? then None
    else Some(claims)
  }

  /**
   * A token issued for a user at `issued` with the login lifetime verifies
   * to that user exactly until it expires, thirty minutes later; after that,
   * and for a token whose signature fails (decoded as None), the 401.
   */
  lemma IssueThenVerify(username: string, issued: int, now: int)
    ensures var payload := CreateAccessToken(map["sub" := JStr(username)], Some(AccessTokenLifetime), issued);
      VerifyToken(DecodeVerified(payload, now)) ==
        if now <= issued + AccessTokenLifetime then Success(JStr(username)) else Failure(CredentialsError)
    ensures VerifyToken(None) == Failure(CredentialsError)
  {
    var payload := CreateAccessToken(map["sub" := JStr(username)], Some(AccessTokenLifetime), issued);
    assert payload["sub"] == JStr(username);
  }
}
