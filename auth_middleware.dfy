/** `authenticateToken`, backend/middleware/authMiddleware.js: the gate in
    front of every task and advice route. The token is the second
    space-separated word of the `Authorization` header (the scheme word, as in
    section 2.1 of RFC 6750, is not checked); a missing token is refused with
    401, a token the signing library refuses with 403, and an accepted token's
    claims are attached to the request before `next` runs. */
module AuthMiddleware {
  import opened Js
  import opened Jwt
  import opened Http

  const NoTokenMessage: string := "Access denied. No token provided."
  const BadTokenMessage: string := "Invalid or expired token."

  /** `req.headers.authorization?.split(" ")[1]`. */
  function ExtractToken(header: Option<string>): (t: Option<string>)
  {
    if header.None? then None
    else
      var parts := Split(header.value, ' ');
      if |parts| < 2 then None else Some(parts[1])
  }

  /** How a request leaves the gate. */
  datatype Gate = Unauthenticated | Forbidden | Admit(claims: Claims)

  /** The gate's decision for a request with the given header at time
      `nowMs`; an empty token counts as missing. */
  function Decide(header: Option<string>, signedClaims: string -> Option<Claims>, nowMs: int): Gate
  {
    var token := ExtractToken(header);
    if token.None? || token.value == "" then Unauthenticated
    else match Verify(signedClaims, token.value, nowMs)
      case None => Forbidden
      case Some(c) => Admit(c)
  }

  /** `authenticateToken(req, res, next)`: every request ends in exactly one
      of a 401 reply, a 403 reply, or `req.user` set and `next` called once;
      `proceed` says whether the route handler runs. */
  method AuthenticateToken(ex: Exchange, header: Option<string>, signedClaims: string -> Option<Claims>, nowMs: int)
    returns (proceed: bool)
    modifies ex
    ensures proceed <==> Decide(header, signedClaims, nowMs).Admit?
    ensures Decide(header, signedClaims, nowMs) == Unauthenticated ==>
      ex.response == Some(Response(401, MessageJson(NoTokenMessage))) && ex.user == old(ex.user)
      && ex.nextCalls == old(ex.nextCalls)
    ensures Decide(header, signedClaims, nowMs) == Forbidden ==>
      ex.response == Some(Response(403, MessageJson(BadTokenMessage))) && ex.user == old(ex.user)
      && ex.nextCalls == old(ex.nextCalls)
    ensures Decide(header, signedClaims, nowMs).Admit? ==>
      ex.user == Some(Decide(header, signedClaims, nowMs).claims) && ex.nextCalls == old(ex.nextCalls) + 1
      && ex.response == old(ex.response)
    ensures ex.unhandled == old(ex.unhandled)
  {
    var token := ExtractToken(header);
    if token.None? || token.value == "" {
      ex.Reply(401, MessageJson(NoTokenMessage));
      return false;
    }
    var decoded := Verify(signedClaims, token.value, nowMs);
    if decoded.None? {
      ex.Reply(403, MessageJson(BadTokenMessage));
      return false;
    }
    ex.user := decoded;
    ex.nextCalls := ex.nextCalls + 1;
    proceed := true;
  }

  /** The token is the word after the first space, whatever the scheme word
      is, and whatever follows after a further space. */
  lemma BearerTokenExtracted(scheme: string, token: string, rest: string)
    requires ' ' !in scheme && ' ' !in token
    ensures ExtractToken(Some(scheme + " " + token)) == Some(token)
    ensures ExtractToken(Some(scheme + " " + token + " " + rest)) == Some(token)
  {
    SplitAfterWord(scheme, ' ', token);
    SplitWithoutSeparator(token, ' ');
    assert scheme + " " + token == scheme + [' '] + token;
    SplitAfterWord(scheme, ' ', token + " " + rest);
    SplitAfterWord(token, ' ', rest);
    assert scheme + " " + token + " " + rest == scheme + [' '] + (token + [' '] + rest);
  }

  /** A header without a space carries no token and is refused with 401. */
  lemma HeaderWithoutSpaceRefused(h: string, signedClaims: string -> Option<Claims>, nowMs: int)
    requires ' ' !in h
    ensures Decide(Some(h), signedClaims, nowMs) == Unauthenticated
    ensures Decide(None, signedClaims, nowMs) == Unauthenticated
  {
    SplitWithoutSeparator(h, ' ');
  }

  /** A well-signed bearer token with expiry `e` is admitted while the
      current second is below `e` and refused with 403 from second `e` on. */
  lemma AdmittedUntilExpiry(scheme: string, token: string, signedClaims: string -> Option<Claims>, c: Claims, nowMs: int)
    requires ' ' !in scheme && ' ' !in token && token != ""
    requires signedClaims(token) == Some(c) && c.exp.Some?
    ensures Seconds(nowMs) < c.exp.value ==> Decide(Some(scheme + " " + token), signedClaims, nowMs) == Admit(c)
    ensures Seconds(nowMs) >= c.exp.value ==> Decide(Some(scheme + " " + token), signedClaims, nowMs) == Forbidden
  {
    BearerTokenExtracted(scheme, token, "");
  }
}
