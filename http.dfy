/** Bearer-credential claims (a JSON Web Token payload, section 4.1 of RFC 7519).
    Signing, verifying and base64-decoding a token are oracles of the code that
    uses them; only the claims are modelled. */
module Jwt {
  import opened Js

  /** `expiresIn: "1h"`, in seconds. */
  const Lifetime: int := 3600

  /** `{address}` as signed, with the `iat` and `exp` times (in seconds) that
      the signing library adds. */
  datatype Claims = Claims(address: string, iat: int, exp: Option<int>)

  /** `Math.floor(ms / 1000)`: whole seconds (Dafny's division by a positive
      divisor rounds down). */
  function Seconds(ms: int): int
  {
    ms / 1000
  }

  /** The claims `jwt.sign({address}, secret, {expiresIn: "1h"})` signs at
      time `nowMs`. */
  function Issue(address: string, nowMs: int): Claims
  {
    Claims(address, Seconds(nowMs), Some(Seconds(nowMs) + Lifetime))
  }

  /** The signing library's expiry rule: a token is refused from its `exp`
      second on. */
  predicate ExpiredAt(c: Claims, nowMs: int)
  {
    c.exp.Some? && Seconds(nowMs) >= c.exp.value
  }

  /** `jwt.verify(token, secret)`: `signedClaims` is the signature check and
      payload decoding (`None` when the signature is bad or the token
      malformed); an expired token is refused as well. */
  function Verify(signedClaims: string -> Option<Claims>, token: string, nowMs: int): (r: Option<Claims>)
    ensures r.Some? <==> signedClaims(token).Some? && !ExpiredAt(signedClaims(token).value, nowMs)
    ensures r.Some? ==> r == signedClaims(token)
  {
    match signedClaims(token)
    case None => None
    case Some(c) => if ExpiredAt(c, nowMs) then None else Some(c)
  }
}

/** One HTTP exchange as an Express handler sees it. */
module Http {
  import opened Js
  import Jwt

  datatype Response = Response(status: int, body: Json)

  /** The mutable parts of `req` and `res` that the handlers touch: `req.user`,
      the reply, how many times `next` was called, and the errors of promises
      that nobody awaits. */
  class Exchange {
    var user: Option<Jwt.Claims>
    var response: Option<Response>
    var nextCalls: nat
    var unhandled: seq<string>

    constructor ()
      ensures user == None && response == None && nextCalls == 0 && unhandled == []
    {
      user := None;
      response := None;
      nextCalls := 0;
      unhandled := [];
    }

    /** `res.status(status).json(body)`; `res.json(body)` is status 200. */
    method Reply(status: int, body: Json)
      modifies this
      ensures response == Some(Response(status, body))
      ensures user == old(user) && nextCalls == old(nextCalls) && unhandled == old(unhandled)
    {
      response := Some(Response(status, body));
    }
  }
}
