/** The three calls into the local language model in backend/ai/ai.js:
    productivity advice for one task, prioritisation of a list of tasks, and
    reminders for the overdue tasks. The model is an oracle from prompt to
    completion; every function catches the model's failure and answers
    `undefined`. */
module Advisory {
  import opened Js

  /** What `createCompletion` produces: the `message.content` of each choice,
      or a failure (thrown and caught). */
  datatype Completion = Choices(contents: seq<string>) | ModelFailed(message: string)

  /** `response.choices[0].message.content`; a failed call, and an answer
      without choices (a `TypeError` inside the same `try`), are caught and
      give `undefined`. */
  function Answer(c: Completion): (v: Value)
    ensures c.ModelFailed? || c.contents == [] ==> v == Undefined
    ensures c.Choices? && c.contents != [] ==> v == Str(c.contents[0])
  {
    if c.Choices? && c.contents != [] then Str(c.contents[0]) else Undefined
  }

  /** The fields of a task as the prompts read them. */
  datatype TaskFields = TaskFields(title: Value, description: Value, priority: Value, progress: Value,
                                   deadline: Value, completed: Value)

  // ---------------------------------------------------------------------------
  // getProductivityAdvice

  const AdviceIntro: string :=
    "\n  You are a productivity coach. Analyze the following tasks and suggest ways to improve productivity:\n  \n  Tasks:\n  Task \""

  function AdvicePrompt(f: TaskFields): string
  {
    AdviceIntro
    + Text(f.title) + "\" with description \"" + Text(f.description) + "\", prority " + Text(f.priority)
    + " and progress til now " + Text(f.progress) + " and deadline " + Text(f.deadline)
    + " and completed " + Text(f.completed) + "\n  "
  }

  /** `getProductivityAdvice(fields)`: never throws. */
  function GetProductivityAdvice(model: string -> Completion, f: TaskFields): Value
  {
    Answer(model(AdvicePrompt(f)))
  }

  // ---------------------------------------------------------------------------
  // prioritizeTasks

  function PrioritizeEntry(t: TaskFields): string
  {
    " Tasks:\n  Task \"" + Text(t.title) + "\" with description \"" + Text(t.description) + "\", prority "
    + Text(t.priority) + " and progress til now " + Text(t.progress) + " and deadline " + Text(t.deadline)
    + " completed " + Text(t.completed)
  }

  function PrioritizeEntries(tasks: seq<TaskFields>): (entries: seq<string>)
    ensures |entries| == |tasks|
    ensures forall i :: 0 <= i < |tasks| ==> entries[i] == PrioritizeEntry(tasks[i])
  {
    seq(|tasks|, i requires 0 <= i < |tasks| => PrioritizeEntry(tasks[i]))
  }

  const PrioritizeHead: string := "I have the following tasks to complete: "
  const PrioritizeTail: string := ". Please prioritize them based on urgency and importance deadline."

  function PrioritizePrompt(tasks: seq<TaskFields>): string
  {
    PrioritizeHead + Join(PrioritizeEntries(tasks), ", ") + PrioritizeTail
  }

  /** `prioritizeTasks(tasks)`: `tasks.map` runs before the `try`, so a
      `tasks` that is not an array (`None`) throws to the caller; once the
      prompt is built nothing is thrown. The elements are task objects. */
  function PrioritizeTasks(model: string -> Completion, tasks: Option<seq<TaskFields>>): (r: Outcome<Value>)
    ensures tasks.None? <==> r.Threw?
  {
    match tasks
    case None => Threw("tasks.map is not a function")
    case Some(ts) => Returned(Answer(model(PrioritizePrompt(ts))))
  }

  // ---------------------------------------------------------------------------
  // sendRemindersForOverdueTasks

  /** `!task.completed && new Date(task.deadline) < new Date()`: `parseDate`
      is the date parser (`None` for an invalid date, whose comparison is
      false) and `now` the current time, in milliseconds. */
  predicate IsOverdue(t: TaskFields, parseDate: Value -> Option<int>, now: int)
  {
    !Truthy(t.completed) && parseDate(t.deadline).Some? && parseDate(t.deadline).value < now
  }

  /** `tasks.filter(isOverdue)`. */
  function Overdue(tasks: seq<TaskFields>, parseDate: Value -> Option<int>, now: int): (r: seq<TaskFields>)
    ensures |r| <= |tasks|
    decreases |tasks|
  {
    if tasks == [] then []
    else (if IsOverdue(tasks[0], parseDate, now) then [tasks[0]] else []) + Overdue(tasks[1..], parseDate, now)
  }

  function ReminderEntry(t: TaskFields): string
  {
    " Task \"" + Text(t.title) + "\" with description \"" + Text(t.description) + "\", priority "
    + Text(t.priority) + ", progress " + Text(t.progress) + ", deadline " + Text(t.deadline)
  }

  function ReminderEntries(tasks: seq<TaskFields>): (entries: seq<string>)
    ensures |entries| == |tasks|
    ensures forall i :: 0 <= i < |tasks| ==> entries[i] == ReminderEntry(tasks[i])
  {
    seq(|tasks|, i requires 0 <= i < |tasks| => ReminderEntry(tasks[i]))
  }

  const ReminderHead: string := "I have the following overdue tasks: "
  const ReminderTail: string := ". Please generate reminder messages for these tasks."

  function ReminderPrompt(overdue: seq<TaskFields>): string
  {
    ReminderHead + Join(ReminderEntries(overdue), ", ") + ReminderTail
  }

  /** The prompt sent to the model, or `None` when the early return happens
      and the model is not consulted. */
  function ReminderRequest(tasks: seq<TaskFields>, parseDate: Value -> Option<int>, now: int): Option<string>
  {
    var overdue := Overdue(tasks, parseDate, now);
    if |overdue| == 0 then None else Some(ReminderPrompt(overdue))
  }

  /** `sendRemindersForOverdueTasks(tasks)` on an array of task objects:
      never throws. */
  function SendRemindersForOverdueTasks(model: string -> Completion, tasks: seq<TaskFields>,
                                        parseDate: Value -> Option<int>, now: int): Value
  {
    match ReminderRequest(tasks, parseDate, now)
    case None => Undefined
    case Some(prompt) => Answer(model(prompt))
  }

  // ---------------------------------------------------------------------------
  // Properties

  /** The filter keeps exactly the overdue tasks. */
  lemma {:induction false} OverdueMembers(tasks: seq<TaskFields>, parseDate: Value -> Option<int>, now: int, t: TaskFields)
    ensures t in Overdue(tasks, parseDate, now) <==> t in tasks && IsOverdue(t, parseDate, now)
    decreases |tasks|
  {
    if tasks != [] {
      OverdueMembers(tasks[1..], parseDate, now, t);
      assert tasks == [tasks[0]] + tasks[1..];
    }
  }

  /** The filter distributes over concatenation, so it keeps the tasks in
      their relative order. */
  lemma {:induction false} OverdueAppend(a: seq<TaskFields>, b: seq<TaskFields>, parseDate: Value -> Option<int>, now: int)
    ensures Overdue(a + b, parseDate, now) == Overdue(a, parseDate, now) + Overdue(b, parseDate, now)
    decreases |a|
  {
    if a == [] {
      assert a + b == b;
    } else {
      var h := if IsOverdue(a[0], parseDate, now) then [a[0]] else [];
      assert (a + b)[0] == a[0];
      assert (a + b)[1..] == a[1..] + b;
      OverdueAppend(a[1..], b, parseDate, now);
      assert Overdue(a + b, parseDate, now) == h + Overdue(a[1..] + b, parseDate, now);
      assert Overdue(a, parseDate, now) == h + Overdue(a[1..], parseDate, now);
      assert h + (Overdue(a[1..], parseDate, now) + Overdue(b, parseDate, now))
          == (h + Overdue(a[1..], parseDate, now)) + Overdue(b, parseDate, now);
    }
  }

  /** A deadline equal to the current time is not overdue, and neither is a
      completed task nor one whose deadline does not parse. */
  lemma OverdueBoundary(t: TaskFields, parseDate: Value -> Option<int>, now: int)
    ensures parseDate(t.deadline) == Some(now) ==> !IsOverdue(t, parseDate, now)
    ensures Truthy(t.completed) || parseDate(t.deadline).None? ==> !IsOverdue(t, parseDate, now)
    ensures !Truthy(t.completed) && parseDate(t.deadline) == Some(now - 1) ==> IsOverdue(t, parseDate, now)
  {
  }

  /** Of an open task with a past deadline, an open task with a future
      deadline and a completed task with a past deadline, only the first is
      selected. */
  lemma {:induction false} OverdueExample(open: TaskFields, future: TaskFields, done: TaskFields,
                                          parseDate: Value -> Option<int>, now: int)
    requires !Truthy(open.completed) && parseDate(open.deadline).Some? && parseDate(open.deadline).value < now
    requires !Truthy(future.completed) && parseDate(future.deadline).Some? && parseDate(future.deadline).value > now
    requires Truthy(done.completed) && parseDate(done.deadline).Some? && parseDate(done.deadline).value < now
    ensures Overdue([open, future, done], parseDate, now) == [open]
  {
    assert [open, future, done][1..] == [future, done];
    assert [future, done][1..] == [done];
    assert [done][1..] == [];
    assert Overdue([done], parseDate, now) == [];
    assert Overdue([future, done], parseDate, now) == [];
  }

  /** Without overdue tasks the model is not consulted and the answer is
      `undefined`; with one, the model is asked exactly once. */
  lemma NoOverdueNoRequest(model: string -> Completion, tasks: seq<TaskFields>, parseDate: Value -> Option<int>, now: int)
    ensures ReminderRequest(tasks, parseDate, now).None? <==> (forall t :: t in tasks ==> !IsOverdue(t, parseDate, now))
    ensures ReminderRequest(tasks, parseDate, now).None? ==> SendRemindersForOverdueTasks(model, tasks, parseDate, now) == Undefined
  {
    var overdue := Overdue(tasks, parseDate, now);
    forall t | t in tasks ensures IsOverdue(t, parseDate, now) ==> t in overdue {
      OverdueMembers(tasks, parseDate, now, t);
    }
    if overdue != [] {
      OverdueMembers(tasks, parseDate, now, overdue[0]);
    }
  }

  /** A failing model makes all three functions answer `undefined` (and
      `prioritizeTasks` still returns normally on an array). */
  lemma ModelFailureIsSwallowed(model: string -> Completion, f: TaskFields, tasks: seq<TaskFields>,
                                parseDate: Value -> Option<int>, now: int)
    requires forall p :: model(p).ModelFailed?
    ensures GetProductivityAdvice(model, f) == Undefined
    ensures PrioritizeTasks(model, Some(tasks)) == Returned(Undefined)
    ensures SendRemindersForOverdueTasks(model, tasks, parseDate, now) == Undefined
  {
  }


  /** Every task, filtered or not, has its entry in the prioritisation
      prompt, in list order. */
  lemma PrioritizePromptHasEveryTask(tasks: seq<TaskFields>, i: nat)
    requires i < |tasks|
    ensures var p := PrioritizePrompt(tasks);
      var e := PrioritizeEntries(tasks);
      var o := |PrioritizeHead| + Offset(e, ", ", i);
      o + |e[i]| <= |p| && p[o..o + |e[i]|] == e[i]
    ensures PrioritizeEntries(tasks)[i] == PrioritizeEntry(tasks[i])
  {
    JoinPlacedInText(PrioritizeHead, PrioritizeEntries(tasks), ", ", PrioritizeTail, i);
  }

  /** The reminder prompt holds one entry per task it is built from (the
      overdue ones, see `ReminderRequest`), in order. */
  lemma ReminderPromptHasEveryOverdueTask(overdue: seq<TaskFields>, i: nat)
    requires i < |overdue|
    ensures var e := ReminderEntries(overdue);
      var p := ReminderPrompt(overdue);
      var o := |ReminderHead| + Offset(e, ", ", i);
      o + |e[i]| <= |p| && p[o..o + |e[i]|] == e[i]
    ensures ReminderEntries(overdue)[i] == ReminderEntry(overdue[i])
  {
    JoinPlacedInText(ReminderHead, ReminderEntries(overdue), ", ", ReminderTail, i);
  }
}
