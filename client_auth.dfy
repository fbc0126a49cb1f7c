/** The browser's own token check, frontend/src/utility/auth.js: the token
    kept in local storage is read as expired when its `exp` claim (section
    4.1.4 of RFC 7519) is strictly below the current whole second. Base64
    decoding and JSON parsing of the payload segment are an oracle. */
module ClientAuth {
  import opened Js
  import Jwt

  const AuthenticationFailed: string := "Authentication failed"

  /** `token.split(".")[1]`: the payload segment, `undefined` when the token
      has no dot. */
  function PayloadSegment(token: string): Value
  {
    var parts := Split(token, '.');
    if |parts| < 2 then Undefined else Str(parts[1])
  }

  /** `decodedToken.exp < currentTime` for a JavaScript value `exp`: the
      value is converted to a number, and `NaN` compares false. */
  predicate ExpBefore(exp: Value, seconds: int)
  {
    var e := ToNumber(exp);
    e.Num? && e.n < seconds
  }

  /** `isTokenExpired(token)` at time `nowMs`. `expOf` stands for
      `JSON.parse(atob(segment)).exp`, which may throw. */
  function IsTokenExpired(token: string, expOf: Value -> Outcome<Value>, nowMs: int): Outcome<bool>
  {
    match expOf(PayloadSegment(token))
    case Threw(m) => Threw(m)
    case Returned(exp) => Returned(ExpBefore(exp, Jwt.Seconds(nowMs)))
  }

  /** `checkAuthentication()` with `stored` the value of
      `localStorage.getItem("token")`: resolves to true for a stored token
      that has not expired, and rejects otherwise; a decoding error rejects
      with its own message. */
  function CheckAuthentication(stored: Option<string>, expOf: Value -> Outcome<Value>, nowMs: int): (r: Outcome<bool>)
    ensures r.Returned? ==> r.value
  {
    if stored.None? || stored.value == "" then Threw(AuthenticationFailed)
    else match IsTokenExpired(stored.value, expOf, nowMs)
      case Threw(m) => Threw(m)
      case Returned(expired) => if expired then Threw(AuthenticationFailed) else Returned(true)
  }

  /** Expiry compares whole seconds strictly: a token whose `exp` is the
      current second is not expired, one a second older is. */
  lemma ExpiryBoundary(token: string, expOf: Value -> Outcome<Value>, nowMs: int, e: int)
    requires expOf(PayloadSegment(token)) == Returned(Num(e))
    ensures IsTokenExpired(token, expOf, nowMs) == Returned(e < nowMs / 1000)
    ensures e == nowMs / 1000 ==> IsTokenExpired(token, expOf, nowMs) == Returned(false)
    ensures e == nowMs / 1000 - 1 ==> IsTokenExpired(token, expOf, nowMs) == Returned(true)
    ensures 0 <= nowMs ==> (IsTokenExpired(token, expOf, nowMs) == Returned(true) <==> (e + 1) * 1000 <= nowMs)
  {
  }

  /** A token without an `exp` claim never expires on the client. */
  lemma NoExpNeverExpires(token: string, expOf: Value -> Outcome<Value>, nowMs: int)
    requires expOf(PayloadSegment(token)) == Returned(Undefined)
    ensures CheckAuthentication(Some(token), expOf, nowMs) == Returned(true) <==> token != ""
  {
  }

  /** The payload is the segment between the first and the second dot. */
  lemma PayloadIsSecondSegment(header: string, payload: string, signature: string)
    requires '.' !in header && '.' !in payload
    ensures PayloadSegment(header + "." + payload + "." + signature) == Str(payload)
  {
    SplitAfterWord(header, '.', payload + "." + signature);
    SplitAfterWord(payload, '.', signature);
    assert header + "." + payload + "." + signature == header + ['.'] + (payload + ['.'] + signature);
  }

  /** Authentication holds iff a token is stored, decodes, and is not
      expired; without a stored token nothing is decoded, so the outcome is
      the same whatever the decoder does. */
  lemma CheckAuthenticationIff(stored: Option<string>, expOf: Value -> Outcome<Value>,
                               otherDecoder: Value -> Outcome<Value>, nowMs: int)
    ensures CheckAuthentication(stored, expOf, nowMs) == Returned(true) <==>
      stored.Some? && stored.value != "" && IsTokenExpired(stored.value, expOf, nowMs) == Returned(false)
    ensures stored.None? ==>
      CheckAuthentication(stored, expOf, nowMs) == CheckAuthentication(stored, otherDecoder, nowMs) == Threw(AuthenticationFailed)
  {
  }

  /** In the second a token's `exp` names, the browser still counts it as
      valid while the server's gate already refuses it. */
  lemma ExpirySecondDisagrees(token: string, expOf: Value -> Outcome<Value>, c: Jwt.Claims,
                              signedClaims: string -> Option<Jwt.Claims>, nowMs: int)
    requires token != "" && signedClaims(token) == Some(c) && c.exp == Some(nowMs / 1000)
    requires expOf(PayloadSegment(token)) == Returned(Num(c.exp.value))
    ensures CheckAuthentication(Some(token), expOf, nowMs) == Returned(true)
    ensures Jwt.Verify(signedClaims, token, nowMs).None?
  {
  }
}
