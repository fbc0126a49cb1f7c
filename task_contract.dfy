/** The task contract as the ledger adapter (backend/services/blockChain.js)
    reaches it through its client library. The contract's code is not part of
    this model: its state is an abstract map of task records, each transaction's
    fate (refused at submission, failed while waiting, or mined with a status)
    is an input. A confirmed create stores the task under the next id; edit and
    complete change a live task; delete removes it. */
module TaskContract {
  import opened Js

  /** A task record as the contract returns it: the integer fields are
      unsigned 256-bit integers (unbounded here). */
  datatype RawTask = RawTask(id: nat, title: string, description: string, completed: bool,
                             priority: nat, progress: nat, owner: string, aiAdvice: string, deadline: string)

  /** The contract's storage: the live tasks by id, and the id the next
      created task receives. */
  datatype Chain = Chain(tasks: map<nat, RawTask>, taskCount: nat)

  /** Every stored record carries its own id, and every id was handed out. */
  predicate Consistent(c: Chain)
  {
    forall id :: id in c.tasks ==> c.tasks[id].id == id && id < c.taskCount
  }

  datatype Receipt = Receipt(status: int, hash: string)

  /** What happens to one transaction: the library throws while submitting
      it, throws while waiting for it, or hands back the receipt of the mined
      transaction. */
  datatype Tx = SubmitFails(message: string) | WaitFails(message: string) | Mined(receipt: Receipt)

  /** A contract write as the adapter calls it, with the JavaScript values it
      passes. */
  datatype Call =
    | CreateCall(title: Value, description: Value, priority: Value, progress: Value, aiAdvice: Value, deadline: Value)
    | EditCall(id: Value, title: Value, description: Value, priority: Value, progress: Value, aiAdvice: Value,
               deadline: Value)
    | CompleteCall(id: Value)
    | DeleteCall(id: Value)

  /** A contract write with its arguments encoded to the contract's types. */
  datatype Op =
    | Create(title: string, description: string, priority: nat, progress: nat, aiAdvice: string, deadline: string)
    | Edit(id: nat, title: string, description: string, priority: nat, progress: nat, aiAdvice: string, deadline: string)
    | Complete(id: nat)
    | Delete(id: nat)

  /** A JavaScript value accepted for a `uint256` parameter: a non-negative
      integral number or a string of decimal digits. */
  function AsUint(v: Value): (r: Option<nat>)
    ensures v.Num? && v.n >= 0 ==> r == Some(v.n)
    ensures v.Str? && v.s != [] && AllDigits(v.s) ==> r == Some(DigitsValue(v.s))
    ensures !(v.Num? && v.n >= 0) && !(v.Str? && v.s != [] && AllDigits(v.s)) ==> r == None
  {
    match v
    case Num(n) => if n >= 0 then Some(n) else None
    case Str(s) => if s != [] && AllDigits(s) then Some(DigitsValue(s)) else None
    case _ => None
  }

  /** A JavaScript value accepted for a `string` parameter: strings only. */
  function AsText(v: Value): Option<string>
  {
    if v.Str? then Some(v.s) else None
  }

  /** Argument encoding; `None` when some argument does not fit its parameter,
      in which case the library throws before anything is submitted. */
  function Encode(call: Call): Option<Op>
  {
    match call
    case CreateCall(t, d, p, g, a, l) =>
      if AsText(t).Some? && AsText(d).Some? && AsUint(p).Some? && AsUint(g).Some? && AsText(a).Some? && AsText(l).Some?
      then Some(Create(AsText(t).value, AsText(d).value, AsUint(p).value, AsUint(g).value, AsText(a).value, AsText(l).value))
      else None
    case EditCall(i, t, d, p, g, a, l) =>
      if AsUint(i).Some? && AsText(t).Some? && AsText(d).Some? && AsUint(p).Some? && AsUint(g).Some?
         && AsText(a).Some? && AsText(l).Some?
      then Some(Edit(AsUint(i).value, AsText(t).value, AsText(d).value, AsUint(p).value, AsUint(g).value,
                     AsText(a).value, AsText(l).value))
      else None
    case CompleteCall(i) => if AsUint(i).Some? then Some(Complete(AsUint(i).value)) else None
    case DeleteCall(i) => if AsUint(i).Some? then Some(Delete(AsUint(i).value)) else None
  }

  const EncodingError: string := "invalid argument"

  /** The effect of a confirmed write sent from the wallet `owner`: create
      stores a new open task under the next id; edit replaces the editable
      fields and the advice; complete marks the task done; delete drops it.
      A write naming an id with no live task changes nothing. */
  function Apply(c: Chain, op: Op, owner: string): Chain
  {
    match op
    case Create(t, d, p, g, a, l) =>
      Chain(c.tasks[c.taskCount := RawTask(c.taskCount, t, d, false, p, g, owner, a, l)], c.taskCount + 1)
    case Edit(id, t, d, p, g, a, l) =>
      if id in c.tasks then
        var old_ := c.tasks[id];
        Chain(c.tasks[id := old_.(title := t, description := d, priority := p, progress := g, aiAdvice := a, deadline := l)],
              c.taskCount)
      else c
    case Complete(id) =>
      if id in c.tasks then Chain(c.tasks[id := c.tasks[id].(completed := true)], c.taskCount) else c
    case Delete(id) =>
      Chain(c.tasks - {id}, c.taskCount)
  }

  /** What submitting `call` and waiting for it returns to the adapter. */
  function Transacted(call: Call, tx: Tx): (r: Outcome<Receipt>)
    ensures Encode(call).None? ==> r == Threw(EncodingError)
    ensures r.Returned? <==> Encode(call).Some? && tx.Mined?
  {
    if Encode(call).None? then Threw(EncodingError)
    else match tx
      case SubmitFails(m) => Threw(m)
      case WaitFails(m) => Threw(m)
      case Mined(rc) => Returned(rc)
  }

  /** The contract's storage after `call`: it changes only when the
      transaction is mined with status 1. */
  function ChainAfter(c: Chain, call: Call, tx: Tx, owner: string): Chain
  {
    if Encode(call).Some? && tx.Mined? && tx.receipt.status == 1 then Apply(c, Encode(call).value, owner) else c
  }

  /** The transactions sent so far, after `call`. */
  function SentAfter(sent: seq<Op>, call: Call, tx: Tx): seq<Op>
  {
    if Encode(call).Some? && !tx.SubmitFails? then sent + [Encode(call).value] else sent
  }

  /** The live tasks with an id below `n`, in id order. */
  function ListBelow(tasks: map<nat, RawTask>, n: nat): (r: seq<RawTask>)
    ensures |r| <= n
    decreases n
  {
    if n == 0 then [] else ListBelow(tasks, n - 1) + (if n - 1 in tasks then [tasks[n - 1]] else [])
  }

  /** `getAllTasks()`: every live task, in id order. */
  function AllTasks(c: Chain): seq<RawTask>
  {
    ListBelow(c.tasks, c.taskCount)
  }

  /** The contract's storage and the transactions sent from the backend's
      wallet. */
  class Ledger {
    var chain: Chain
    var sent: seq<Op>
    const wallet: string

    constructor (initial: Chain, wallet: string)
      ensures chain == initial && sent == [] && this.wallet == wallet
    {
      chain := initial;
      sent := [];
      this.wallet := wallet;
    }

    /** `const tx = await contract.<write>(...args); const receipt = await
        tx.wait();` */
    method Transact(call: Call, tx: Tx) returns (r: Outcome<Receipt>)
      modifies this
      ensures r == Transacted(call, tx)
      ensures chain == ChainAfter(old(chain), call, tx, wallet)
      ensures sent == SentAfter(old(sent), call, tx)
    {
      var op := Encode(call);
      if op.None? {
        return Threw(EncodingError);
      }
      match tx
      case SubmitFails(m) =>
        r := Threw(m);
      case WaitFails(m) =>
        sent := sent + [op.value];
        r := Threw(m);
      case Mined(rc) =>
        sent := sent + [op.value];
        if rc.status == 1 {
          chain := Apply(chain, op.value, wallet);
        }
        r := Returned(rc);
    }
  }

  // ---------------------------------------------------------------------------
  // Properties of the storage

  /** Every write keeps the storage consistent, and ids are never reused. */
  lemma ApplyKeepsConsistent(c: Chain, op: Op, owner: string)
    requires Consistent(c)
    ensures Consistent(Apply(c, op, owner))
    ensures Apply(c, op, owner).taskCount >= c.taskCount
  {
  }

  /** A create stores an open task owned by the sender under the next id and
      leaves every other task alone. */
  lemma CreateStoresTask(c: Chain, t: string, d: string, p: nat, g: nat, a: string, l: string, owner: string)
    requires Consistent(c)
    ensures var c' := Apply(c, Create(t, d, p, g, a, l), owner);
      c'.taskCount == c.taskCount + 1 && c.taskCount !in c.tasks
      && c'.tasks == c.tasks[c.taskCount := RawTask(c.taskCount, t, d, false, p, g, owner, a, l)]
  {
  }

  /** Completing only sets `completed`; every other field and every other
      task stays as it was. */
  lemma CompleteOnlyCompletes(c: Chain, id: nat, owner: string)
    requires id in c.tasks
    ensures var c' := Apply(c, Complete(id), owner);
      c'.tasks.Keys == c.tasks.Keys && c'.tasks[id].completed
      && c'.tasks[id] == c.tasks[id].(completed := true)
      && (forall j :: j in c.tasks && j != id ==> c'.tasks[j] == c.tasks[j])
  {
  }

  /** Editing replaces the editable fields and keeps id, owner and
      completion. */
  lemma EditKeepsIdentity(c: Chain, id: nat, t: string, d: string, p: nat, g: nat, a: string, l: string, owner: string)
    requires id in c.tasks
    ensures var r := Apply(c, Edit(id, t, d, p, g, a, l), owner).tasks[id];
      r.id == c.tasks[id].id && r.owner == c.tasks[id].owner && r.completed == c.tasks[id].completed
      && r.title == t && r.description == d && r.priority == p && r.progress == g && r.aiAdvice == a && r.deadline == l
  {
  }

  /** Every live task whose id was handed out is listed (the converse, that a
      listed record is the live record under its own id below `n`, is
      `ListBelowLive`). */
  lemma {:induction false} ListBelowMembers(tasks: map<nat, RawTask>, n: nat, id: nat)
    requires id in tasks
    ensures tasks[id] in ListBelow(tasks, n) <== id < n
    decreases n
  {
    if n > 0 && id < n {
      if id < n - 1 {
        ListBelowMembers(tasks, n - 1, id);
      }
    }
  }

  /** Every listed record is the live record stored under its own id, and
      that id lies below `n`. */
  lemma {:induction false} ListBelowLive(tasks: map<nat, RawTask>, n: nat)
    requires forall id :: id in tasks ==> tasks[id].id == id
    ensures forall r :: r in ListBelow(tasks, n) ==> r.id in tasks && tasks[r.id] == r && r.id < n
    decreases n
  {
    if n > 0 {
      ListBelowLive(tasks, n - 1);
      var prev := ListBelow(tasks, n - 1);
      assert ListBelow(tasks, n) == prev + (if n - 1 in tasks then [tasks[n - 1]] else []);
    }
  }

  predicate IdsIncreasing(s: seq<RawTask>)
  {
    forall i, j :: 0 <= i < j < |s| ==> s[i].id < s[j].id
  }

  /** The listing is in strictly increasing id order. */
  lemma {:induction false} ListBelowOrdered(tasks: map<nat, RawTask>, n: nat)
    requires forall id :: id in tasks ==> tasks[id].id == id
    ensures IdsIncreasing(ListBelow(tasks, n))
    ensures forall i :: 0 <= i < |ListBelow(tasks, n)| ==> ListBelow(tasks, n)[i].id < n
    decreases n
  {
    if n > 0 {
      ListBelowOrdered(tasks, n - 1);
      var prev := ListBelow(tasks, n - 1);
      var r := ListBelow(tasks, n);
      if n - 1 in tasks {
        assert r == prev + [tasks[n - 1]];
        forall i, j | 0 <= i < j < |r| ensures r[i].id < r[j].id {
          assert r[i] == prev[i] && r[i].id < n - 1;
          if j < |prev| {
            assert r[j] == prev[j];
          }
        }
        forall i | 0 <= i < |r| ensures r[i].id < n {
          if i < |prev| {
            assert r[i] == prev[i];
          }
        }
      } else {
        assert r == prev;
      }
    }
  }

  /** With no task deleted, the listing holds exactly `taskCount` tasks. */
  lemma {:induction false} ListBelowFull(tasks: map<nat, RawTask>, n: nat)
    requires forall id :: id < n ==> id in tasks
    ensures |ListBelow(tasks, n)| == n
    decreases n
  {
    if n > 0 {
      ListBelowFull(tasks, n - 1);
    }
  }
}
