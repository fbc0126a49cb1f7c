/** The seven task routes, backend/routes/TaskRoutes.js. Each runs the
    authentication gate first; past it, each awaits the ledger adapter and
    replies with its result, or with 500 and the error's message when the
    adapter threw. The create and edit routes consult the advisory model; the
    complete and delete routes do not. */
module TaskRoutes {
  import opened Js
  import opened Jwt
  import opened Http
  import opened AuthMiddleware
  import opened Advisory
  import opened TaskContract
  import opened BlockChain

  /** What the gate needs from a request: the `Authorization` header, the
      token check and the current time. */
  datatype Credentials = Credentials(header: Option<string>, signedClaims: string -> Option<Claims>, nowMs: int)

  /** The gate's decision for the request's credentials. */
  function GateOf(cr: Credentials): Gate
  {
    Decide(cr.header, cr.signedClaims, cr.nowMs)
  }

  /** The reply of a request the gate refuses. */
  function Refusal(g: Gate): Response
  {
    if g == Unauthenticated then Response(401, MessageJson(NoTokenMessage)) else Response(403, MessageJson(BadTokenMessage))
  }

  // ---------------------------------------------------------------------------
  // JSON forms

  function TaskJson(f: FormattedTask): Json
  {
    JObject([("id", JValue(Str(f.id))), ("title", JValue(Str(f.title))), ("description", JValue(Str(f.description))),
             ("completed", JValue(Bool(f.completed))), ("priority", JValue(Str(f.priority))),
             ("progress", JValue(Str(f.progress))), ("owner", JValue(Str(f.owner))),
             ("aiAdvice", JValue(Str(f.aiAdvice))), ("deadline", JValue(Str(f.deadline)))])
  }

  function ReceiptJson(rc: Receipt): Json
  {
    JObject([("status", JValue(Num(rc.status))), ("hash", JValue(Str(rc.hash)))])
  }

  /** The receipt, or `{error: "Transaction failed", receipt}`. */
  function WriteResultJson(w: WriteResult): Json
  {
    match w
    case Confirmed(rc) => ReceiptJson(rc)
    case TxFailed(rc) => JObject([("error", JValue(Str(TransactionFailed))), ("receipt", ReceiptJson(rc))])
  }

  /** The reply of a write route: `{message, receipt}` with status 200 when
      the adapter returned, `{error: error.message}` with status 500 when it
      threw. */
  function WriteReply(message: string, r: Outcome<WriteResult>): Response
  {
    match r
    case Threw(m) => Response(500, ErrorJson(m))
    case Returned(w) => Response(200, JObject([("message", JValue(Str(message))), ("receipt", WriteResultJson(w))]))
  }

  /** The reply of a read route: the adapter's result as JSON, or 500. */
  function ReadReply<T>(r: Outcome<T>, json: T -> Json): Response
  {
    match r
    case Threw(m) => Response(500, ErrorJson(m))
    case Returned(v) => Response(200, json(v))
  }

  function TasksJson(ts: seq<FormattedTask>): Json
  {
    JArray(seq(|ts|, i requires 0 <= i < |ts| => TaskJson(ts[i])))
  }

  const Created: string := "Task created"
  const Edited: string := "Task edited"
  const StatusUpdated: string := "Task status updated"
  const Deleted: string := "Task deleted"

  /** A write route replies 500 exactly when the adapter threw; a
      transaction mined with a status other than 1 is still answered 200 with
      the route's success message, the failure record riding along as
      `receipt`. */
  lemma WriteReplyIff(message: string, call: Call, tx: Tx)
    ensures WriteReply(message, Settle(Transacted(call, tx))).status == 500 <==> Settle(Transacted(call, tx)).Threw?
    ensures Encode(call).Some? && tx.Mined? && tx.receipt.status != 1 ==>
      WriteReply(message, Settle(Transacted(call, tx))) ==
      Response(200, JObject([("message", JValue(Str(message))),
                             ("receipt", JObject([("error", JValue(Str("Transaction failed"))),
                                                  ("receipt", ReceiptJson(tx.receipt))]))]))
  {
  }

  // ---------------------------------------------------------------------------
  // Routes

  /** `GET /`: every task. */
  method ListTasks(ex: Exchange, ledger: Ledger, cr: Credentials, fault: Option<string>)
    modifies ex
    ensures GateOf(cr).Admit? ==> ex.response == Some(ReadReply(GetAllTask(ledger.chain, fault), TasksJson))
    ensures !GateOf(cr).Admit? ==> ex.response == Some(Refusal(GateOf(cr)))
    ensures GateOf(cr).Admit? ==> ex.user == Some(GateOf(cr).claims) && ex.nextCalls == old(ex.nextCalls) + 1
    ensures !GateOf(cr).Admit? ==> ex.user == old(ex.user) && ex.nextCalls == old(ex.nextCalls)
    ensures ex.unhandled == old(ex.unhandled)
  {
    var proceed := AuthenticateToken(ex, cr.header, cr.signedClaims, cr.nowMs);
    if !proceed {
      return;
    }
    var tasks := GetAllTask(ledger.chain, fault);
    ex.Reply(ReadReply(tasks, TasksJson).status, ReadReply(tasks, TasksJson).body);
  }

  /** `GET /count`, with the count as intended (see `GetAllTaskCount`). */
  method CountTasks(ex: Exchange, ledger: Ledger, cr: Credentials, fault: Option<string>)
    modifies ex
    ensures GateOf(cr).Admit? ==> ex.response == Some(ReadReply(GetAllTaskCount(ledger.chain, fault), (v: Value) => JValue(v)))
    ensures !GateOf(cr).Admit? ==> ex.response == Some(Refusal(GateOf(cr)))
    ensures GateOf(cr).Admit? ==> ex.user == Some(GateOf(cr).claims) && ex.nextCalls == old(ex.nextCalls) + 1
    ensures !GateOf(cr).Admit? ==> ex.user == old(ex.user) && ex.nextCalls == old(ex.nextCalls)
    ensures ex.unhandled == old(ex.unhandled)
  {
    var proceed := AuthenticateToken(ex, cr.header, cr.signedClaims, cr.nowMs);
    if !proceed {
      return;
    }
    var count := GetAllTaskCount(ledger.chain, fault);
    var reply := ReadReply(count, (v: Value) => JValue(v));
    ex.Reply(reply.status, reply.body);
  }

  /** `POST /create` with body `{title, description, priority, progress,
      deadline}`. */
  method CreateRoute(ex: Exchange, ledger: Ledger, cr: Credentials, model: string -> Completion, title: Value,
                     description: Value, priority: Value, progress: Value, deadline: Value, tx: Tx)
    modifies ex, ledger
    ensures GateOf(cr).Admit? ==>
      var call := CreateCallFor(model, title, description, priority, progress, deadline);
      ex.response == Some(WriteReply(Created, Settle(Transacted(call, tx))))
      && ledger.chain == ChainAfter(old(ledger.chain), call, tx, ledger.wallet)
      && ledger.sent == SentAfter(old(ledger.sent), call, tx)
    ensures !GateOf(cr).Admit? ==>
      ex.response == Some(Refusal(GateOf(cr))) && ledger.chain == old(ledger.chain) && ledger.sent == old(ledger.sent)
    ensures GateOf(cr).Admit? ==> ex.user == Some(GateOf(cr).claims) && ex.nextCalls == old(ex.nextCalls) + 1
    ensures !GateOf(cr).Admit? ==> ex.user == old(ex.user) && ex.nextCalls == old(ex.nextCalls)
    ensures ex.unhandled == old(ex.unhandled)
  {
    var proceed := AuthenticateToken(ex, cr.header, cr.signedClaims, cr.nowMs);
    if !proceed {
      return;
    }
    var receipt := CreateTask(ledger, model, title, description, priority, progress, deadline, tx);
    var reply := WriteReply(Created, receipt);
    ex.Reply(reply.status, reply.body);
  }

  /** The contract call of `PUT /:id`: the path id read by
      `parseInt(id, 10)`, and fresh advice from the new fields (with
      `completed` absent) as the sixth argument. */
  function EditCallFor(model: string -> Completion, idParam: string, title: Value, description: Value,
                       priority: Value, progress: Value, deadline: Value): Call
  {
    var aiAdvice := GetProductivityAdvice(model, TaskFields(title, description, priority, progress, deadline, Undefined));
    EditCall(ParseInt(idParam), title, description, priority, progress, aiAdvice, deadline)
  }

  /** `PUT /:id` with body `{title, description, priority, progress,
      deadline}`. */
  method EditRoute(ex: Exchange, ledger: Ledger, cr: Credentials, model: string -> Completion, idParam: string,
                   title: Value, description: Value, priority: Value, progress: Value, deadline: Value, tx: Tx)
    modifies ex, ledger
    ensures GateOf(cr).Admit? ==>
      var call := EditCallFor(model, idParam, title, description, priority, progress, deadline);
      ex.response == Some(WriteReply(Edited, Settle(Transacted(call, tx))))
      && ledger.chain == ChainAfter(old(ledger.chain), call, tx, ledger.wallet)
      && ledger.sent == SentAfter(old(ledger.sent), call, tx)
    ensures !GateOf(cr).Admit? ==>
      ex.response == Some(Refusal(GateOf(cr))) && ledger.chain == old(ledger.chain) && ledger.sent == old(ledger.sent)
    ensures GateOf(cr).Admit? ==> ex.user == Some(GateOf(cr).claims) && ex.nextCalls == old(ex.nextCalls) + 1
    ensures !GateOf(cr).Admit? ==> ex.user == old(ex.user) && ex.nextCalls == old(ex.nextCalls)
    ensures ex.unhandled == old(ex.unhandled)
  {
    var proceed := AuthenticateToken(ex, cr.header, cr.signedClaims, cr.nowMs);
    if !proceed {
      return;
    }
    var taskId := ParseInt(idParam);
    var aiAdvice := GetProductivityAdvice(model, TaskFields(title, description, priority, progress, deadline, Undefined));
    var receipt := EditTask(ledger, taskId, title, description, priority, progress, aiAdvice, deadline, tx);
    var reply := WriteReply(Edited, receipt);
    ex.Reply(reply.status, reply.body);
  }

  /** `PATCH /:id/complete`: the path id goes to the adapter as text. */
  method CompleteRoute(ex: Exchange, ledger: Ledger, cr: Credentials, idParam: string, tx: Tx)
    modifies ex, ledger
    ensures GateOf(cr).Admit? ==>
      ex.response == Some(WriteReply(StatusUpdated, Settle(Transacted(CompleteCall(Str(idParam)), tx))))
      && ledger.chain == ChainAfter(old(ledger.chain), CompleteCall(Str(idParam)), tx, ledger.wallet)
      && ledger.sent == SentAfter(old(ledger.sent), CompleteCall(Str(idParam)), tx)
    ensures !GateOf(cr).Admit? ==>
      ex.response == Some(Refusal(GateOf(cr))) && ledger.chain == old(ledger.chain) && ledger.sent == old(ledger.sent)
    ensures GateOf(cr).Admit? ==> ex.user == Some(GateOf(cr).claims) && ex.nextCalls == old(ex.nextCalls) + 1
    ensures !GateOf(cr).Admit? ==> ex.user == old(ex.user) && ex.nextCalls == old(ex.nextCalls)
    ensures ex.unhandled == old(ex.unhandled)
  {
    var proceed := AuthenticateToken(ex, cr.header, cr.signedClaims, cr.nowMs);
    if !proceed {
      return;
    }
    var receipt := CompleteTask(ledger, Str(idParam), tx);
    var reply := WriteReply(StatusUpdated, receipt);
    ex.Reply(reply.status, reply.body);
  }

  /** `GET /:id`. */
  method GetTaskRoute(ex: Exchange, ledger: Ledger, cr: Credentials, idParam: string, fault: Option<string>)
    modifies ex
    ensures GateOf(cr).Admit? ==> ex.response == Some(ReadReply(GetTask(ledger.chain, Str(idParam), fault), TaskJson))
    ensures !GateOf(cr).Admit? ==> ex.response == Some(Refusal(GateOf(cr)))
    ensures GateOf(cr).Admit? ==> ex.user == Some(GateOf(cr).claims) && ex.nextCalls == old(ex.nextCalls) + 1
    ensures !GateOf(cr).Admit? ==> ex.user == old(ex.user) && ex.nextCalls == old(ex.nextCalls)
    ensures ex.unhandled == old(ex.unhandled)
  {
    var proceed := AuthenticateToken(ex, cr.header, cr.signedClaims, cr.nowMs);
    if !proceed {
      return;
    }
    var task := GetTask(ledger.chain, Str(idParam), fault);
    var reply := ReadReply(task, TaskJson);
    ex.Reply(reply.status, reply.body);
  }

  /** `DELETE /:id`: the path id goes to the adapter as text. */
  method DeleteRoute(ex: Exchange, ledger: Ledger, cr: Credentials, idParam: string, tx: Tx)
    modifies ex, ledger
    ensures GateOf(cr).Admit? ==>
      ex.response == Some(WriteReply(Deleted, Settle(Transacted(DeleteCall(Str(idParam)), tx))))
      && ledger.chain == ChainAfter(old(ledger.chain), DeleteCall(Str(idParam)), tx, ledger.wallet)
      && ledger.sent == SentAfter(old(ledger.sent), DeleteCall(Str(idParam)), tx)
    ensures !GateOf(cr).Admit? ==>
      ex.response == Some(Refusal(GateOf(cr))) && ledger.chain == old(ledger.chain) && ledger.sent == old(ledger.sent)
    ensures GateOf(cr).Admit? ==> ex.user == Some(GateOf(cr).claims) && ex.nextCalls == old(ex.nextCalls) + 1
    ensures !GateOf(cr).Admit? ==> ex.user == old(ex.user) && ex.nextCalls == old(ex.nextCalls)
    ensures ex.unhandled == old(ex.unhandled)
  {
    var proceed := AuthenticateToken(ex, cr.header, cr.signedClaims, cr.nowMs);
    if !proceed {
      return;
    }
    var receipt := DeleteTask(ledger, Str(idParam), tx);
    var reply := WriteReply(Deleted, receipt);
    ex.Reply(reply.status, reply.body);
  }

  /** The edit route reads the path id with `parseInt`, so text after the
      digits is ignored. */
  lemma EditReadsLeadingDigits(n: nat, rest: string, model: string -> Completion, title: Value, description: Value,
                               priority: Value, progress: Value, deadline: Value)
    requires rest == [] || !IsDigit(rest[0])
    ensures EditCallFor(model, NatText(n) + rest, title, description, priority, progress, deadline).id == Num(n)
  {
    ParseIntReadsDecimal(n, rest);
  }

  /** The complete and delete routes pass the path id through as text, which
      the client library accepts only when it is all digits. */
  lemma CompleteNeedsDigits(n: nat, rest: string)
    requires rest != [] && !IsDigit(rest[0])
    ensures Encode(CompleteCall(Str(NatText(n) + rest))).None?
    ensures Encode(DeleteCall(Str(NatText(n) + rest))).None?
    ensures Encode(CompleteCall(Str(NatText(n)))) == Some(Complete(n))
  {
    var s := NatText(n) + rest;
    assert s[|NatText(n)|] == rest[0];
    assert !AllDigits(s);
  }

  /** The advice sent with an edit is the model's answer for the new field
      values; a failing model sends `undefined`, which the client library
      cannot encode as a string, so the edit throws and the route replies
      500. */
  lemma EditAdviceFromNewFields(model: string -> Completion, idParam: string, title: Value, description: Value,
                                priority: Value, progress: Value, deadline: Value, tx: Tx)
    ensures EditCallFor(model, idParam, title, description, priority, progress, deadline).aiAdvice ==
      Answer(model(AdvicePrompt(TaskFields(title, description, priority, progress, deadline, Undefined))))
    ensures model(AdvicePrompt(TaskFields(title, description, priority, progress, deadline, Undefined))).ModelFailed? ==>
      WriteReply(Edited, Settle(Transacted(EditCallFor(model, idParam, title, description, priority, progress, deadline), tx)))
      == Response(500, ErrorJson(EncodingError))
  {
  }
}
