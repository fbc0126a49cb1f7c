/** The add/edit dialog, frontend/src/components/AddEditTaskDialog.jsx: a
    five-field form that is reset or loaded when the dialog's task id changes,
    updated one field at a time (progress clamped to 0..100), and submitted
    as a create or an edit request. The HTTP exchange is an oracle from request
    to the response body or a failure; the client functions of
    frontend/src/utility/utils.js that wrap it are modelled by `ClientResult`. */
module TaskDialog {
  import opened Js

  /** The form's state: `{title, description, priority, progress, deadline}`. */
  datatype Form = Form(title: Value, description: Value, priority: Value, progress: Value, deadline: Value)

  /** The `name` attribute of each input. */
  datatype Field = Title | Description | Priority | Progress | Deadline

  /** The form of a new task. */
  const EmptyForm: Form := Form(Str(""), Str(""), Str("1"), Num(0), Str(""))

  function Get(f: Form, k: Field): Value
  {
    match k
    case Title => f.title
    case Description => f.description
    case Priority => f.priority
    case Progress => f.progress
    case Deadline => f.deadline
  }

  /** `Math.min(Math.max(Number(value), 0), 100)`; `NaN` passes through
      both. */
  function Clamp(v: Value): (r: Value)
    ensures r.Num? || r == NaN
  {
    var x := ToNumber(v);
    if x.Num? then Num(if x.n < 0 then 0 else if x.n > 100 then 100 else x.n) else NaN
  }

  /** `handleInputChange`: the named field takes the typed value, clamped
      when it is the progress. */
  function InputChange(f: Form, name: Field, value: Value): Form
  {
    var v := if name == Progress then Clamp(value) else value;
    match name
    case Title => f.(title := v)
    case Description => f.(description := v)
    case Priority => f.(priority := v)
    case Progress => f.(progress := v)
    case Deadline => f.(deadline := v)
  }

  /** The fields of a fetched task, as `getTask` returns them. */
  datatype Fetched = Fetched(title: Value, description: Value, priority: Value, progress: Value, deadline: Value)

  /** `fetchTask`'s `setTask`: a falsy priority, progress or deadline falls
      back to `"1"`, `0` and `""`. */
  function Loaded(r: Fetched): Form
  {
    Form(r.title, r.description, if Truthy(r.priority) then r.priority else Str("1"),
         if Truthy(r.progress) then r.progress else Num(0), if Truthy(r.deadline) then r.deadline else Str(""))
  }

  /** The effect on the form of the task id changing: no id resets the form;
      an id loads the fetched task, and a failed fetch leaves the form as it
      was. */
  function Opened(f: Form, taskId: Value, fetched: Outcome<Fetched>): Form
  {
    if !Truthy(taskId) then EmptyForm
    else match fetched
      case Threw(_) => f
      case Returned(r) => Loaded(r)
  }

  /** A request the dialog sends. */
  datatype Request = CreateRequest(body: Form) | EditRequest(taskId: Value, body: Form)

  const TitleRequired: string := "Task title is required."
  const Updated: string := "Task updated successfully!"
  const Added: string := "Task added successfully!"
  const SaveFailed: string := "Failed to save the task. Please try again."
  const NoTrim: string := "task.title.trim is not a function"

  /** What `handleSubmit` does with the form: `None` when the title is blank
      (`title.trim() === ""`, see `BlankIffTrimsEmpty`), otherwise an edit when the task id is truthy and a
      create when it is not, with the five fields as they stand. A title that
      is not a string has no `trim` and throws, as `Threw`. */
  function SubmitRequest(f: Form, taskId: Value): Outcome<Option<Request>>
  {
    if !f.title.Str? then Threw(NoTrim)
    else if Blank(f.title.s) then Returned(None)
    else if Truthy(taskId) then Returned(Some(EditRequest(taskId, f)))
    else Returned(Some(CreateRequest(f)))
  }

  /** What `createTask` or `editTask` of frontend/src/utility/utils.js
      returns: the response body, or `undefined` (`NoResult`). */
  datatype ClientResult = Body(json: Json) | NoResult

  /** The client function for `rq` given the HTTP outcome: a failed create
      rethrows; a failed edit is caught inside `editTask`, which then returns
      `undefined`. */
  function ClientCall(rq: Request, http: Outcome<Json>): Outcome<ClientResult>
  {
    match http
    case Returned(body) => Returned(Body(body))
    case Threw(m) => if rq.EditRequest? then Returned(NoResult) else Threw(m)
  }

  const NoData: string := "Cannot read properties of undefined (reading 'data')"

  /** The last field named `name` of a parsed JSON object, `undefined` when
      there is none. */
  function Lookup(fields: seq<(string, Json)>, name: string): Json
    decreases |fields|
  {
    if fields == [] then JValue(Undefined)
    else if fields[|fields| - 1].0 == name then fields[|fields| - 1].1
    else Lookup(fields[..|fields| - 1], name)
  }

  /** `response.data`: a property of `undefined` or `null` cannot be read. */
  function ReadData(r: ClientResult): Outcome<Json>
  {
    match r
    case NoResult => Threw(NoData)
    case Body(JValue(v)) => if v == Undefined || v == Null then Threw(NoData) else Returned(JValue(Undefined))
    case Body(JArray(_)) => Returned(JValue(Undefined))
    case Body(JObject(fields)) => Returned(Lookup(fields, "data"))
  }

  /** The `try` block of `handleSubmit` after the check: the client call,
      then `response.data` for `onTaskUpdated`. */
  function Saved(rq: Request, http: Outcome<Json>): Outcome<Json>
  {
    match ClientCall(rq, http)
    case Threw(m) => Threw(m)
    case Returned(r) => ReadData(r)
  }

  /** The dialog's state and what it has passed to its parent. */
  class Dialog {
    var form: Form
    var loading: bool
    var successMessage: string
    var errorMessage: string
    /** The requests sent, in order. */
    var requests: seq<Request>
    /** The `response.data` values handed to `onTaskUpdated`. */
    var updates: seq<Json>
    /** How many times `onClose` was called. */
    var closes: nat

    constructor ()
      ensures form == EmptyForm && !loading && successMessage == "" && errorMessage == ""
      ensures requests == [] && updates == [] && closes == 0
    {
      form := EmptyForm;
      loading := false;
      successMessage := "";
      errorMessage := "";
      requests := [];
      updates := [];
      closes := 0;
    }

    /** The effect run when `taskId` changes. */
    method TaskIdChanged(taskId: Value, fetched: Outcome<Fetched>)
      modifies this
      ensures form == Opened(old(form), taskId, fetched)
      ensures loading == old(loading) && successMessage == old(successMessage) && errorMessage == old(errorMessage)
      ensures requests == old(requests) && updates == old(updates) && closes == old(closes)
    {
      if !Truthy(taskId) {
        form := EmptyForm;
        return;
      }
      match fetched
      case Threw(_) =>
      case Returned(r) =>
        form := Loaded(r);
    }

    method HandleInputChange(name: Field, value: Value)
      modifies this
      ensures form == InputChange(old(form), name, value)
      ensures loading == old(loading) && successMessage == old(successMessage) && errorMessage == old(errorMessage)
      ensures requests == old(requests) && updates == old(updates) && closes == old(closes)
    {
      form := InputChange(form, name, value);
    }

    /** `handleSubmit`, with `http` standing for the request sent by
        `editTask`/`createTask`: the response body or a failure. */
    method HandleSubmit(taskId: Value, http: Request -> Outcome<Json>)
      modifies this
      ensures form == old(form)
      ensures SubmitRequest(old(form), taskId).Threw? ==>
        loading == old(loading) && successMessage == old(successMessage) && errorMessage == old(errorMessage)
        && requests == old(requests) && updates == old(updates) && closes == old(closes)
      ensures SubmitRequest(old(form), taskId) == Returned(None) ==>
        errorMessage == TitleRequired && loading == old(loading) && successMessage == old(successMessage)
        && requests == old(requests) && updates == old(updates) && closes == old(closes)
      ensures SubmitRequest(old(form), taskId).Returned? && SubmitRequest(old(form), taskId).value.Some? ==>
        var rq := SubmitRequest(old(form), taskId).value.value;
        requests == old(requests) + [rq] && !loading
        && match Saved(rq, http(rq))
           case Returned(data) =>
             updates == old(updates) + [data] && closes == old(closes) + 1 && errorMessage == old(errorMessage)
             && successMessage == (if rq.EditRequest? then Updated else Added)
           case Threw(_) =>
             updates == old(updates) && closes == old(closes) && errorMessage == SaveFailed
             && successMessage == old(successMessage)
    {
      var step := SubmitRequest(form, taskId);
      if step.Threw? {
        return;
      }
      if step.value.None? {
        errorMessage := TitleRequired;
        return;
      }
      loading := true;
      var rq := step.value.value;
      requests := requests + [rq];
      var response := ClientCall(rq, http(rq));
      var data := if response.Returned? then ReadData(response.value) else Threw(response.message);
      match data {
        case Returned(data) =>
          updates := updates + [data];
          successMessage := if rq.EditRequest? then Updated else Added;
          closes := closes + 1;
        case Threw(_) =>
          errorMessage := SaveFailed;
      }
      loading := false;
    }

    /** `handleSnackbarClose`: a click away keeps both messages. */
    method HandleSnackbarClose(reason: string)
      modifies this
      ensures reason == "clickaway" ==> successMessage == old(successMessage) && errorMessage == old(errorMessage)
      ensures reason != "clickaway" ==> successMessage == "" && errorMessage == ""
      ensures form == old(form) && loading == old(loading)
      ensures requests == old(requests) && updates == old(updates) && closes == old(closes)
    {
      if reason == "clickaway" {
        return;
      }
      successMessage := "";
      errorMessage := "";
    }
  }

  // ---------------------------------------------------------------------------
  // Properties

  /** Any numeric progress lands in 0..100, a value already in range is kept,
      and clamping twice is clamping once. */
  lemma ClampBounds(v: Value)
    ensures Clamp(v).Num? ==> 0 <= Clamp(v).n <= 100
    ensures Clamp(v) == NaN <==> ToNumber(v) == NaN
    ensures ToNumber(v).Num? && 0 <= ToNumber(v).n <= 100 ==> Clamp(v) == ToNumber(v)
    ensures ToNumber(v).Num? && ToNumber(v).n > 100 ==> Clamp(v) == Num(100)
    ensures Clamp(Clamp(v)) == Clamp(v)
  {
  }


  /** An input change sets the named field (clamped for progress) and leaves
      every other field as it was. */
  lemma InputChangeOnlyNamed(f: Form, name: Field, value: Value, other: Field)
    ensures Get(InputChange(f, name, value), name) == (if name == Progress then Clamp(value) else value)
    ensures other != name ==> Get(InputChange(f, name, value), other) == Get(f, other)
  {
  }

  /** Repeating an input change changes nothing more. */
  lemma InputChangeIdempotent(f: Form, name: Field, value: Value)
    ensures InputChange(InputChange(f, name, value), name, value) == InputChange(f, name, value)
  {
  }

  /** A loaded task keeps a truthy priority, progress and deadline and
      replaces a falsy one by the new-task default; title and description
      are taken as they come. */
  lemma LoadedDefaults(r: Fetched)
    ensures Loaded(r).title == r.title && Loaded(r).description == r.description
    ensures Loaded(r).priority == (if Truthy(r.priority) then r.priority else EmptyForm.priority)
    ensures Loaded(r).progress == (if Truthy(r.progress) then r.progress else EmptyForm.progress)
    ensures Loaded(r).deadline == (if Truthy(r.deadline) then r.deadline else EmptyForm.deadline)
    ensures Truthy(Loaded(r).priority) && Loaded(r).deadline != Undefined
  {
  }

  /** Submitting sends nothing exactly when the title is blank after
      trimming; otherwise it sends one request carrying the form unchanged,
      an edit exactly when the task id is truthy. */
  lemma SubmitRequestIff(f: Form, taskId: Value, title: string)
    requires f.title == Str(title)
    ensures SubmitRequest(f, taskId) == Returned(None) <==> Trim(title) == ""
    ensures SubmitRequest(f, taskId) == Returned(None) <==> forall i :: 0 <= i < |title| ==> IsSpace(title[i])
    ensures SubmitRequest(f, taskId).Returned? && SubmitRequest(f, taskId).value.Some? ==>
      SubmitRequest(f, taskId).value.value.body == f
      && (SubmitRequest(f, taskId).value.value.EditRequest? <==> Truthy(taskId))
      && (SubmitRequest(f, taskId).value.value.EditRequest? ==> SubmitRequest(f, taskId).value.value.taskId == taskId)
    ensures SubmitRequest(f, taskId).Returned?
  {
    BlankIffTrimsEmpty(title);
    BlankAllSpace(title);
  }

  /** Both kinds of request end in "Failed to save the task." when the HTTP
      request fails: a create rethrows, and an edit, whose failure the client
      swallows, throws when reading `data` of `undefined`. A successful
      request hands `onTaskUpdated` the body's `data` field, which the
      backend's `{message, receipt}` reply does not have. */
  lemma SaveFailsIff(rq: Request, http: Outcome<Json>)
    ensures http.Threw? ==> Saved(rq, http).Threw?
    ensures Saved(rq, http).Threw? <==> http.Threw? || http.value == JValue(Null) || http.value == JValue(Undefined)
    ensures http.Threw? && rq.EditRequest? ==> Saved(rq, http) == Threw(NoData)
    ensures http.Threw? && rq.CreateRequest? ==> Saved(rq, http) == http
    ensures http.Returned? && http.value.JObject? && (forall i :: 0 <= i < |http.value.fields| ==> http.value.fields[i].0 != "data")
      ==> Saved(rq, http) == Returned(JValue(Undefined))
  {
    if http.Returned? && http.value.JObject? && (forall i :: 0 <= i < |http.value.fields| ==> http.value.fields[i].0 != "data") {
      LookupAbsent(http.value.fields, "data");
    }
  }

  lemma {:induction false} LookupAbsent(fields: seq<(string, Json)>, name: string)
    requires forall i :: 0 <= i < |fields| ==> fields[i].0 != name
    ensures Lookup(fields, name) == JValue(Undefined)
    decreases |fields|
  {
    if fields != [] {
      LookupAbsent(fields[..|fields| - 1], name);
    }
  }

  /** With no task id the form is the new-task form, whatever it held. */
  lemma OpenedWithoutId(f: Form, fetched: Outcome<Fetched>)
    ensures Opened(f, Undefined, fetched) == EmptyForm
    ensures Opened(f, Str(""), fetched) == EmptyForm
    ensures Opened(f, Str("3"), Threw("Network Error")) == f
  {
  }
}
