/** The ledger adapter, backend/services/blockChain.js: it formats the task
    records the contract returns, and runs every write as submit, wait for the
    receipt, classify the receipt. Any exception (from the advice call, the
    submission or the wait) is logged and rethrown unchanged. */
module BlockChain {
  import opened Js
  import opened Advisory
  import opened TaskContract

  /** `formatTask(task)`: the record sent to clients, whose integer fields are
      decimal strings. */
  datatype FormattedTask = FormattedTask(id: string, title: string, description: string, completed: bool,
                                         priority: string, progress: string, owner: string, aiAdvice: string,
                                         deadline: string)

  /** `id`, `priority` and `progress` become their decimal text (`toString` of
      the contract's integers); every other field passes through. */
  function FormatTask(t: RawTask): (f: FormattedTask)
    ensures Canonical(f.id) && DigitsValue(f.id) == t.id
    ensures Canonical(f.priority) && DigitsValue(f.priority) == t.priority
    ensures Canonical(f.progress) && DigitsValue(f.progress) == t.progress
    ensures f.title == t.title && f.description == t.description && f.completed == t.completed
    ensures f.owner == t.owner && f.aiAdvice == t.aiAdvice && f.deadline == t.deadline
  {
    FormattedTask(NatText(t.id), t.title, t.description, t.completed, NatText(t.priority), NatText(t.progress),
                  t.owner, t.aiAdvice, t.deadline)
  }

  /** The integer fields of a formatted record are decimal text. */
  predicate NumericText(f: FormattedTask)
  {
    Canonical(f.id) && Canonical(f.priority) && Canonical(f.progress)
  }

  /** Reading the numbers back out of a formatted record. */
  function Unformat(f: FormattedTask): RawTask
    requires NumericText(f)
  {
    RawTask(DigitsValue(f.id), f.title, f.description, f.completed, DigitsValue(f.priority), DigitsValue(f.progress),
            f.owner, f.aiAdvice, f.deadline)
  }

  /** Formatting loses nothing: the raw record can be read back from it, so
      distinct records never format alike. */
  lemma FormatTaskRoundTrip(t: RawTask, u: RawTask)
    ensures Unformat(FormatTask(t)) == t
    ensures FormatTask(t) == FormatTask(u) ==> t == u
  {
    assert Unformat(FormatTask(u)) == u;
  }

  /** Every formatted record is already in canonical form: formatting the
      record read back from it gives it again. */
  lemma FormattedIsCanonical(f: FormattedTask)
    requires NumericText(f)
    ensures FormatTask(Unformat(f)) == f
  {
    NatTextOfDigits(f.id);
    NatTextOfDigits(f.priority);
    NatTextOfDigits(f.progress);
  }

  // ---------------------------------------------------------------------------
  // Writes

  /** What a write returns normally: the receipt itself when its status is 1,
      otherwise the record `{error: "Transaction failed", receipt}`. */
  datatype WriteResult = Confirmed(receipt: Receipt) | TxFailed(receipt: Receipt)

  const TransactionFailed: string := "Transaction failed"

  /** The adapter's view of a write: a receipt is classified by its status,
      an exception is rethrown as it is. (The ethers v6 client rejects the wait
      for a reverted transaction, so with that library only status 1 arrives
      here; the other branch is the adapter's code as written.) */
  function Settle(o: Outcome<Receipt>): (r: Outcome<WriteResult>)
    ensures o.Threw? <==> r.Threw?
    ensures o.Threw? ==> r.message == o.message
    ensures o.Returned? ==> r.value.receipt == o.value
    ensures r.Returned? ==> (r.value.Confirmed? <==> o.value.status == 1)
  {
    match o
    case Threw(m) => Threw(m)
    case Returned(rc) => if rc.status == 1 then Returned(Confirmed(rc)) else Returned(TxFailed(rc))
  }

  /** The contract call `createTask` makes: the advice is asked for first,
      from the five fields (with `completed` absent), and goes to the
      contract as the fifth argument. */
  function CreateCallFor(model: string -> Completion, title: Value, description: Value, priority: Value,
                         progress: Value, deadline: Value): Call
  {
    var aiAdvice := GetProductivityAdvice(model, TaskFields(title, description, priority, progress, deadline, Undefined));
    CreateCall(title, description, priority, progress, aiAdvice, deadline)
  }

  /** `createTask(title, description, priority, progress, deadline)`. */
  method CreateTask(ledger: Ledger, model: string -> Completion, title: Value, description: Value, priority: Value,
                    progress: Value, deadline: Value, tx: Tx) returns (r: Outcome<WriteResult>)
    modifies ledger
    ensures var call := CreateCallFor(model, title, description, priority, progress, deadline);
      r == Settle(Transacted(call, tx)) && ledger.chain == ChainAfter(old(ledger.chain), call, tx, ledger.wallet)
      && ledger.sent == SentAfter(old(ledger.sent), call, tx)
  {
    var aiAdvice := GetProductivityAdvice(model, TaskFields(title, description, priority, progress, deadline, Undefined));
    var receipt := ledger.Transact(CreateCall(title, description, priority, progress, aiAdvice, deadline), tx);
    r := Settle(receipt);
  }

  /** `editTask(id, title, description, priority, progress, aiAdvice,
      deadline)`: the advice is whatever the caller passes. */
  method EditTask(ledger: Ledger, id: Value, title: Value, description: Value, priority: Value, progress: Value,
                  aiAdvice: Value, deadline: Value, tx: Tx) returns (r: Outcome<WriteResult>)
    modifies ledger
    ensures var call := EditCall(id, title, description, priority, progress, aiAdvice, deadline);
      r == Settle(Transacted(call, tx)) && ledger.chain == ChainAfter(old(ledger.chain), call, tx, ledger.wallet)
      && ledger.sent == SentAfter(old(ledger.sent), call, tx)
  {
    var receipt := ledger.Transact(EditCall(id, title, description, priority, progress, aiAdvice, deadline), tx);
    r := Settle(receipt);
  }

  /** `completeTask(id)`: only the id is sent and no advice is asked for. */
  method CompleteTask(ledger: Ledger, id: Value, tx: Tx) returns (r: Outcome<WriteResult>)
    modifies ledger
    ensures r == Settle(Transacted(CompleteCall(id), tx))
    ensures ledger.chain == ChainAfter(old(ledger.chain), CompleteCall(id), tx, ledger.wallet)
    ensures ledger.sent == SentAfter(old(ledger.sent), CompleteCall(id), tx)
  {
    var receipt := ledger.Transact(CompleteCall(id), tx);
    r := Settle(receipt);
  }

  /** `deleteTask(id)`: only the id is sent and no advice is asked for. */
  method DeleteTask(ledger: Ledger, id: Value, tx: Tx) returns (r: Outcome<WriteResult>)
    modifies ledger
    ensures r == Settle(Transacted(DeleteCall(id), tx))
    ensures ledger.chain == ChainAfter(old(ledger.chain), DeleteCall(id), tx, ledger.wallet)
    ensures ledger.sent == SentAfter(old(ledger.sent), DeleteCall(id), tx)
  {
    var receipt := ledger.Transact(DeleteCall(id), tx);
    r := Settle(receipt);
  }

  /** A write returns the bare receipt exactly when the transaction was mined
      with status 1, returns the failure record (without throwing) exactly when
      it was mined with another status, and throws exactly when encoding,
      submission or waiting threw; the storage changes only in the first
      case. */
  lemma WriteClassification(c: Chain, call: Call, tx: Tx, owner: string, rc: Receipt)
    ensures Settle(Transacted(call, tx)) == Returned(Confirmed(rc)) <==>
      Encode(call).Some? && tx == Mined(rc) && rc.status == 1
    ensures Settle(Transacted(call, tx)) == Returned(TxFailed(rc)) <==>
      Encode(call).Some? && tx == Mined(rc) && rc.status != 1
    ensures Settle(Transacted(call, tx)).Threw? <==> Encode(call).None? || !tx.Mined?
    ensures !Settle(Transacted(call, tx)).Returned? || !Settle(Transacted(call, tx)).value.Confirmed? ==>
      ChainAfter(c, call, tx, owner) == c
  {
  }

  // ---------------------------------------------------------------------------
  // Reads

  /** The error a contract read reverts with when the id names no live task. */
  const NoSuchTask: string := "execution reverted"

  /** `getTask(id)` on the storage `c`; `fault` is a failure of the provider
      (thrown and rethrown). */
  function GetTask(c: Chain, id: Value, fault: Option<string>): (r: Outcome<FormattedTask>)
    ensures r.Returned? <==> fault.None? && AsUint(id).Some? && AsUint(id).value in c.tasks
    ensures r.Returned? ==> r.value == FormatTask(c.tasks[AsUint(id).value])
  {
    if fault.Some? then Threw(fault.value)
    else if AsUint(id).None? then Threw(EncodingError)
    else if AsUint(id).value !in c.tasks then Threw(NoSuchTask)
    else Returned(FormatTask(c.tasks[AsUint(id).value]))
  }

  /** A formatted id names its task again when a client sends it back: it
      encodes to the same id for complete, delete and edit, and `getTask` of
      it returns the same formatted record. */
  lemma FormattedIdNamesTask(c: Chain, id: nat)
    requires id in c.tasks && c.tasks[id].id == id
    ensures var f := FormatTask(c.tasks[id]);
      AsUint(Str(f.id)) == Some(id)
      && Encode(CompleteCall(Str(f.id))) == Some(Complete(id))
      && Encode(DeleteCall(Str(f.id))) == Some(Delete(id))
      && GetTask(c, Str(f.id), None) == Returned(f)
  {
  }

  /** `getAllTask()`: the contract's list, each record formatted, with the
      same length and order. */
  function GetAllTask(c: Chain, fault: Option<string>): (r: Outcome<seq<FormattedTask>>)
    ensures r.Returned? <==> fault.None?
    ensures r.Returned? ==> |r.value| == |AllTasks(c)|
    ensures r.Returned? ==> forall i :: 0 <= i < |r.value| ==> r.value[i] == FormatTask(AllTasks(c)[i])
  {
    if fault.Some? then Threw(fault.value)
    else
      var raw := AllTasks(c);
      Returned(seq(|raw|, i requires 0 <= i < |raw| => FormatTask(raw[i])))
  }

  /** The listed ids, read as numbers, strictly increase. */
  lemma GetAllTaskInIdOrder(c: Chain)
    requires Consistent(c)
    ensures var r := GetAllTask(c, None).value;
      forall i, j :: 0 <= i < j < |r| ==> DigitsValue(r[i].id) < DigitsValue(r[j].id)
  {
    ListBelowOrdered(c.tasks, c.taskCount);
  }

  /** `getAllTaskCount()` as written: `taskCount.toNumber()` is called on the
      integer the client library returns, which has no such method, so the
      call always throws. */
  function GetAllTaskCountAsWritten(c: Chain, fault: Option<string>): Outcome<Value>
  {
    if fault.Some? then Threw(fault.value) else Threw("taskCount.toNumber is not a function")
  }

  /** Whatever the storage, the count as written never returns. */
  lemma CountAsWrittenAlwaysThrows(c: Chain, fault: Option<string>)
    ensures GetAllTaskCountAsWritten(c, fault).Threw?
    ensures forall d: Chain :: GetAllTaskCountAsWritten(d, fault) == GetAllTaskCountAsWritten(c, fault)
  {
  }

  /** `getAllTaskCount()` as intended: the contract's task count as a
      number. */
  function GetAllTaskCount(c: Chain, fault: Option<string>): (r: Outcome<Value>)
    ensures r.Returned? <==> fault.None?
    ensures r.Returned? ==> r.value.Num? && r.value.n >= |AllTasks(c)|
  {
    if fault.Some? then Threw(fault.value) else Returned(Num(c.taskCount))
  }

  /** With no task deleted, the intended count is the length of the list. */
  lemma CountMatchesList(c: Chain)
    requires forall id :: id < c.taskCount ==> id in c.tasks
    ensures GetAllTaskCount(c, None) == Returned(Num(|GetAllTask(c, None).value|))
  {
    ListBelowFull(c.tasks, c.taskCount);
  }

  // ---------------------------------------------------------------------------
  // Round trips through the ledger

  /** A confirmed create followed by `getTask` of the next id returns the
      fields as sent, the advice of the model, `completed` false and the
      backend's wallet as owner. */
  lemma CreateThenGet(c: Chain, model: string -> Completion, title: Value, description: Value, priority: Value,
                      progress: Value, deadline: Value, owner: string, rc: Receipt)
    requires Consistent(c) && rc.status == 1
    requires Encode(CreateCallFor(model, title, description, priority, progress, deadline)).Some?
    ensures var call := CreateCallFor(model, title, description, priority, progress, deadline);
      var got := GetTask(ChainAfter(c, call, Mined(rc), owner), Num(c.taskCount), None);
      got.Returned? && got.value.title == title.s && got.value.description == description.s
      && DigitsValue(got.value.priority) == AsUint(priority).value
      && DigitsValue(got.value.progress) == AsUint(progress).value
      && Str(got.value.aiAdvice) == call.aiAdvice && got.value.deadline == deadline.s
      && !got.value.completed && got.value.owner == owner && got.value.id == NatText(c.taskCount)
  {
  }

  /** A confirmed complete followed by `getTask` shows the task completed and
      every other field as before. */
  lemma CompleteThenGet(c: Chain, id: Value, owner: string, rc: Receipt)
    requires rc.status == 1 && AsUint(id).Some? && AsUint(id).value in c.tasks
    ensures var before := GetTask(c, id, None).value;
      var after := GetTask(ChainAfter(c, CompleteCall(id), Mined(rc), owner), id, None);
      after == Returned(before.(completed := true))
  {
  }

  /** A confirmed edit followed by `getTask` reflects the new fields and the
      advice sent with them, and keeps id, owner and completion. */
  lemma EditThenGet(c: Chain, id: Value, title: Value, description: Value, priority: Value, progress: Value,
                    aiAdvice: Value, deadline: Value, owner: string, rc: Receipt)
    requires rc.status == 1 && AsUint(id).Some? && AsUint(id).value in c.tasks
    requires Encode(EditCall(id, title, description, priority, progress, aiAdvice, deadline)).Some?
    ensures var call := EditCall(id, title, description, priority, progress, aiAdvice, deadline);
      var before := GetTask(c, id, None).value;
      var after := GetTask(ChainAfter(c, call, Mined(rc), owner), id, None);
      after.Returned? && after.value.id == before.id && after.value.owner == before.owner
      && after.value.completed == before.completed && after.value.title == title.s
      && after.value.description == description.s && DigitsValue(after.value.priority) == AsUint(priority).value
      && DigitsValue(after.value.progress) == AsUint(progress).value && after.value.aiAdvice == aiAdvice.s
      && after.value.deadline == deadline.s
  {
  }

  /** After a confirmed delete the task can no longer be read. */
  lemma DeleteThenGet(c: Chain, id: Value, owner: string, rc: Receipt)
    requires rc.status == 1 && AsUint(id).Some?
    ensures GetTask(ChainAfter(c, DeleteCall(id), Mined(rc), owner), id, None) == Threw(NoSuchTask)
  {
  }
}
