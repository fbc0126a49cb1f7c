/** The two advice routes, backend/routes/aiRoutes.js, both behind the
    authentication gate. `/get-advice` asks the model about one task, starts a
    ledger edit carrying the new advice without awaiting it, and replies with
    the advice; `/prioritize-task` asks the model to order a list of tasks and
    writes nothing. */
module AiRoutes {
  import opened Js
  import opened Http
  import AuthMiddleware
  import opened Advisory
  import opened TaskContract
  import opened BlockChain
  import opened TaskRoutes

  const AdviceError: string := "Error generating AI advice."

  /** The ledger edit `/get-advice` starts for body `{id, title, description,
      priority, progress, deadline, completed}`: the advice is asked for with
      all six fields, `completed` included, and the edit carries the other
      five and the advice. */
  function AdviceEditCall(model: string -> Completion, id: Value, f: TaskFields): Call
  {
    EditCall(id, f.title, f.description, f.priority, f.progress, GetProductivityAdvice(model, f), f.deadline)
  }

  /** What an unawaited write leaves behind: the message of its rejected
      promise, or nothing when it settles normally. */
  function Rejection(r: Outcome<WriteResult>): seq<string>
  {
    if r.Threw? then [r.message] else []
  }

  /** `POST /get-advice`. The reply is 200 with the advice whatever becomes
      of the edit: the edit's promise is not awaited, so its rejection escapes
      the handler's `try` and is left unhandled. The `catch` branch cannot be
      reached, since the advice call swallows the model's failure. */
  method GetAdvice(ex: Exchange, ledger: Ledger, cr: Credentials, model: string -> Completion, id: Value,
                   f: TaskFields, tx: Tx)
    modifies ex, ledger
    ensures GateOf(cr).Admit? ==>
      ex.response == Some(Response(200, JValue(GetProductivityAdvice(model, f))))
    ensures GateOf(cr).Admit? ==>
      ledger.chain == ChainAfter(old(ledger.chain), AdviceEditCall(model, id, f), tx, ledger.wallet)
      && ledger.sent == SentAfter(old(ledger.sent), AdviceEditCall(model, id, f), tx)
    ensures GateOf(cr).Admit? ==>
      ex.unhandled == old(ex.unhandled) + Rejection(Settle(Transacted(AdviceEditCall(model, id, f), tx)))
    ensures !GateOf(cr).Admit? ==>
      ex.response == Some(Refusal(GateOf(cr))) && ledger.chain == old(ledger.chain) && ledger.sent == old(ledger.sent)
      && ex.unhandled == old(ex.unhandled)
    ensures GateOf(cr).Admit? ==> ex.user == Some(GateOf(cr).claims) && ex.nextCalls == old(ex.nextCalls) + 1
    ensures !GateOf(cr).Admit? ==> ex.user == old(ex.user) && ex.nextCalls == old(ex.nextCalls)
  {
    var proceed := AuthMiddleware.AuthenticateToken(ex, cr.header, cr.signedClaims, cr.nowMs);
    if !proceed {
      return;
    }
    var aiAdvice := GetProductivityAdvice(model, f);
    var pending := EditTask(ledger, id, f.title, f.description, f.priority, f.progress, aiAdvice, f.deadline, tx);
    ex.Reply(200, JValue(aiAdvice));
    ex.unhandled := ex.unhandled + Rejection(pending);
  }

  /** The reply of `/prioritize-task` for body `{tasks}`, `None` standing for
      a `tasks` that is not an array. */
  function PrioritizeReply(model: string -> Completion, tasks: Option<seq<TaskFields>>): Response
  {
    match PrioritizeTasks(model, tasks)
    case Threw(_) => Response(500, ErrorJson(AdviceError))
    case Returned(v) => Response(200, JValue(v))
  }

  /** `POST /prioritize-task`: the ledger is not touched. */
  method PrioritizeTask(ex: Exchange, cr: Credentials, model: string -> Completion, tasks: Option<seq<TaskFields>>)
    modifies ex
    ensures GateOf(cr).Admit? ==> ex.response == Some(PrioritizeReply(model, tasks))
    ensures !GateOf(cr).Admit? ==> ex.response == Some(Refusal(GateOf(cr)))
    ensures ex.unhandled == old(ex.unhandled)
    ensures GateOf(cr).Admit? ==> ex.user == Some(GateOf(cr).claims) && ex.nextCalls == old(ex.nextCalls) + 1
    ensures !GateOf(cr).Admit? ==> ex.user == old(ex.user) && ex.nextCalls == old(ex.nextCalls)
  {
    var proceed := AuthMiddleware.AuthenticateToken(ex, cr.header, cr.signedClaims, cr.nowMs);
    if !proceed {
      return;
    }
    var aiAdvice := PrioritizeTasks(model, tasks);
    match aiAdvice
    case Threw(_) =>
      ex.Reply(500, ErrorJson(AdviceError));
    case Returned(v) =>
      ex.Reply(200, JValue(v));
  }

  // ---------------------------------------------------------------------------
  // Properties

  /** `completed` reaches the prompt but not the ledger: two requests that
      differ only in `completed` send edits that differ at most in the advice,
      and the advice sent is exactly the advice replied. */
  lemma CompletedOnlyInPrompt(model: string -> Completion, id: Value, f: TaskFields, completed: Value)
    ensures var a, b := AdviceEditCall(model, id, f), AdviceEditCall(model, id, f.(completed := completed));
      a.EditCall? && b.EditCall? && a.id == b.id == id && a.title == b.title == f.title
      && a.description == b.description == f.description && a.priority == b.priority == f.priority
      && a.progress == b.progress == f.progress && a.deadline == b.deadline == f.deadline
    ensures AdviceEditCall(model, id, f).aiAdvice == GetProductivityAdvice(model, f)
  {
  }

  /** When the model fails, `/get-advice` still replies 200 (with
      `undefined`), and the edit it starts cannot encode the advice as a
      string, so it is rejected before anything is sent and the ledger is
      unchanged. */
  lemma FailedAdviceEditRejected(model: string -> Completion, id: Value, f: TaskFields, tx: Tx, c: Chain, sent: seq<Op>,
                                 wallet: string)
    requires model(AdvicePrompt(f)).ModelFailed?
    ensures GetProductivityAdvice(model, f) == Undefined
    ensures Rejection(Settle(Transacted(AdviceEditCall(model, id, f), tx))) == [EncodingError]
    ensures ChainAfter(c, AdviceEditCall(model, id, f), tx, wallet) == c
    ensures SentAfter(sent, AdviceEditCall(model, id, f), tx) == sent
  {
  }

  /** `/prioritize-task` answers 500 exactly when `tasks` is not an array,
      and otherwise replies with the model's answer to the prompt built from
      every task, `undefined` when the model fails. */
  lemma PrioritizeReplyIff(model: string -> Completion, tasks: Option<seq<TaskFields>>)
    ensures PrioritizeReply(model, tasks).status == 500 <==> tasks.None?
    ensures tasks.None? ==> PrioritizeReply(model, tasks).body == ErrorJson(AdviceError)
    ensures tasks.Some? ==> PrioritizeReply(model, tasks).body == JValue(Answer(model(PrioritizePrompt(tasks.value))))
  {
  }
}
