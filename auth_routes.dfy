/** `POST /verify-signature`, backend/routes/authRoutes.js: the wallet proves
    control of `address` by signing `message` (an EIP-191 `personal_sign`
    signature); the address the signature recovers to is compared with the
    claimed one without regard to letter case, and a match earns a token valid
    for an hour. Signature recovery and token signing are oracles. */
module AuthRoutes {
  import opened Js
  import opened Jwt
  import opened Http

  const SuccessMessage: string := "Authentication successful!"
  const FailureMessage: string := "Authentication failed."
  const ErrorMessage: string := "Error verifying signature."

  /** The handler's three outcomes. */
  datatype Decision = Authenticated(token: string) | Mismatch | VerifyError

  /** The decision for body `{address, message, signature}` at time `nowMs`.
      `recover` is `ethers.verifyMessage` (`None` when it throws on a
      malformed signature); `address.toLowerCase()` throws unless the address
      is a string; `sign` is `jwt.sign` with the server's secret. */
  function Decide(address: Value, message: Value, signature: Value, recover: (Value, Value) -> Option<string>,
                  sign: Claims -> string, nowMs: int): Decision
  {
    var signer := recover(message, signature);
    if signer.None? || !address.Str? then VerifyError
    else if Lower(signer.value) == Lower(address.s) then Authenticated(sign(Issue(address.s, nowMs)))
    else Mismatch
  }

  function SuccessJson(token: string): Json
  {
    JObject([("success", JValue(Bool(true))), ("message", JValue(Str(SuccessMessage))), ("token", JValue(Str(token)))])
  }

  function FailureJson(message: string): Json
  {
    JObject([("success", JValue(Bool(false))), ("message", JValue(Str(message)))])
  }

  /** The handler itself; it touches no stored state. */
  method VerifySignature(ex: Exchange, address: Value, message: Value, signature: Value,
                         recover: (Value, Value) -> Option<string>, sign: Claims -> string, nowMs: int)
    modifies ex
    ensures match Decide(address, message, signature, recover, sign, nowMs)
      case Authenticated(t) => ex.response == Some(Response(200, SuccessJson(t)))
      case Mismatch => ex.response == Some(Response(401, FailureJson(FailureMessage)))
      case VerifyError => ex.response == Some(Response(500, FailureJson(ErrorMessage)))
    ensures ex.user == old(ex.user) && ex.nextCalls == old(ex.nextCalls) && ex.unhandled == old(ex.unhandled)
  {
    var signerAddress := recover(message, signature);
    if signerAddress.None? || !address.Str? {
      ex.Reply(500, FailureJson(ErrorMessage));
      return;
    }
    if Lower(signerAddress.value) == Lower(address.s) {
      var token := sign(Issue(address.s, nowMs));
      ex.Reply(200, SuccessJson(token));
    } else {
      ex.Reply(401, FailureJson(FailureMessage));
    }
  }

  /** Authentication succeeds iff the recovered and the claimed address agree
      after lower-casing, and then the token is signed over the claimed address
      as sent, with a one-hour expiry. */
  lemma AuthenticatedIff(address: string, message: Value, signature: Value, recover: (Value, Value) -> Option<string>,
                         sign: Claims -> string, nowMs: int)
    requires recover(message, signature).Some?
    ensures var d := Decide(Str(address), message, signature, recover, sign, nowMs);
      d.Authenticated? <==> Lower(recover(message, signature).value) == Lower(address)
    ensures var d := Decide(Str(address), message, signature, recover, sign, nowMs);
      d.Authenticated? ==> d.token == sign(Claims(address, Seconds(nowMs), Some(Seconds(nowMs) + 3600)))
    ensures var d := Decide(Str(address), message, signature, recover, sign, nowMs);
      !d.Authenticated? ==> d == Mismatch
  {
  }

  lemma LowerIdempotent(s: string)
    ensures Lower(Lower(s)) == Lower(s)
  {
    var l := Lower(s);
    assert forall i :: 0 <= i < |s| ==> LowerChar(l[i]) == l[i];
  }

  /** The letter case of the claimed address never changes the outcome,
      only the address the token carries. */
  lemma CaseOfAddressIrrelevant(address: string, message: Value, signature: Value,
                                recover: (Value, Value) -> Option<string>, sign: Claims -> string, nowMs: int)
    ensures Decide(Str(address), message, signature, recover, sign, nowMs).Authenticated? <==>
      Decide(Str(Lower(address)), message, signature, recover, sign, nowMs).Authenticated?
    ensures Decide(Str(address), message, signature, recover, sign, nowMs) == Mismatch <==>
      Decide(Str(Lower(address)), message, signature, recover, sign, nowMs) == Mismatch
  {
    LowerIdempotent(address);
  }

  /** A token issued at `issuedMs` passes the gate at `nowMs` exactly while
      fewer than 3600 whole seconds have passed since the issuing second,
      provided the signing library reads back the claims it signed. */
  lemma IssuedTokenLastsAnHour(address: string, message: Value, signature: Value,
                               recover: (Value, Value) -> Option<string>, sign: Claims -> string,
                               signedClaims: string -> Option<Claims>, issuedMs: int, nowMs: int)
    requires Decide(Str(address), message, signature, recover, sign, issuedMs).Authenticated?
    requires forall c :: signedClaims(sign(c)) == Some(c)
    ensures var t := Decide(Str(address), message, signature, recover, sign, issuedMs).token;
      Verify(signedClaims, t, nowMs).Some? <==> Seconds(nowMs) < Seconds(issuedMs) + 3600
    ensures var t := Decide(Str(address), message, signature, recover, sign, issuedMs).token;
      Verify(signedClaims, t, nowMs).Some? ==> Verify(signedClaims, t, nowMs).value.address == address
  {
    var c := Issue(address, issuedMs);
    assert signedClaims(sign(c)) == Some(c);
  }
}
