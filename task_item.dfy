/** One task card, frontend/src/components/Task.jsx: the advice text split
    into bullet points, the priority label, and what the card's buttons do.
    Rendering, the loaders and the network calls behind the buttons are not
    modelled. */
module TaskItem {
  import opened Js
  import opened TaskContract

  // ---------------------------------------------------------------------------
  // renderAdvicePoints: adviceText?.split(/\d\.\s|â€¢/g)?.filter(p => p.trim() !== "")

  /** The second separator: the three characters U+00E2 U+20AC U+00A2 (the
      UTF-8 bytes of a bullet read as Windows-1252). */
  const Marker: string := "\U{00E2}\U{20AC}\U{00A2}"

  /** A separator starts at `i`: a digit, a full stop and a white-space
      character, or the marker. */
  predicate SeparatorAt(s: string, i: int)
  {
    0 <= i && i + 3 <= |s|
    && ((IsDigit(s[i]) && s[i + 1] == '.' && IsSpace(s[i + 2]))
        || (s[i] == Marker[0] && s[i + 1] == Marker[1] && s[i + 2] == Marker[2]))
  }

  /** A whole string that is one separator. */
  predicate IsSeparator(t: string)
  {
    |t| == 3 && SeparatorAt(t, 0)
  }

  /** The pieces of `s[start..]` left by a global regex split, scanning from
      `i` for the next separator; the current piece began at `start`. */
  function SplitFrom(s: string, start: nat, i: nat): (r: seq<string>)
    requires start <= i <= |s|
    ensures |r| >= 1
    decreases |s| - i
  {
    if i + 3 > |s| then [s[start..]]
    else if SeparatorAt(s, i) then [s[start..i]] + SplitFrom(s, i + 3, i + 3)
    else SplitFrom(s, start, i + 1)
  }

  /** The separators that scan removes, in order. */
  function SeparatorsFrom(s: string, start: nat, i: nat): seq<string>
    requires start <= i <= |s|
    decreases |s| - i
  {
    if i + 3 > |s| then []
    else if SeparatorAt(s, i) then [s[i..i + 3]] + SeparatorsFrom(s, i + 3, i + 3)
    else SeparatorsFrom(s, start, i + 1)
  }

  function Split(s: string): seq<string>
  {
    SplitFrom(s, 0, 0)
  }

  /** The pieces put back together with the separators between them. */
  function Interleave(pieces: seq<string>, seps: seq<string>): string
    requires |pieces| == |seps| + 1
    decreases |seps|
  {
    if seps == [] then pieces[0] else pieces[0] + seps[0] + Interleave(pieces[1..], seps[1..])
  }

  /** What one piece contributes: nothing when it is blank, else the piece
      trimmed. */
  function Shown(piece: string): seq<string>
  {
    if Blank(piece) then [] else [Trim(piece)]
  }

  /** What `f` makes of each piece, concatenated in order. */
  function Collect(pieces: seq<string>, f: string -> seq<string>): seq<string>
    decreases |pieces|
  {
    if pieces == [] then [] else f(pieces[0]) + Collect(pieces[1..], f)
  }

  /** The points shown: every piece that is not blank, trimmed, in order. */
  function Kept(pieces: seq<string>): seq<string>
  {
    Collect(pieces, Shown)
  }

  const NotSplittable: string := "adviceText?.split is not a function"

  /** The bullet points rendered for `adviceText`: none (`None`) when it is
      `null` or `undefined`; a value that is neither a string nor nullish has
      no `split` and throws. */
  function AdvicePoints(adviceText: Value): Outcome<Option<seq<string>>>
  {
    match adviceText
    case Null => Returned(None)
    case Undefined => Returned(None)
    case Str(s) => Returned(Some(Kept(Split(s))))
    case _ => Threw(NotSplittable)
  }

  // ---------------------------------------------------------------------------
  // The card's labels and buttons

  /** The fields of a task the card reads. */
  datatype Card = Card(id: Value, priority: Value, completed: Value, aiAdvice: Value)

  /** `task.priority === "1" ? "Low" : task.priority === "2" ? "Medium" : "High"`. */
  function PriorityLabel(priority: Value): string
  {
    if priority == Str("1") then "Low" else if priority == Str("2") then "Medium" else "High"
  }

  /** What a click asks for. `MarkCompleted` is `markTaskCompleted(id)`, the
      request `PATCH /tasks/:id/complete`. */
  datatype Action = MarkCompleted(id: Value) | GetAdvice(id: Value) | EditClicked(id: Value) | DeleteClicked(id: Value)

  /** The first button: its caption, what it does and whether it is
      outlined. */
  datatype CompleteButton = CompleteButton(caption: string, action: Action, outlined: bool)

  function CompleteButtonOf(task: Card): CompleteButton
  {
    CompleteButton(if Truthy(task.completed) then "Undo" else "Complete", MarkCompleted(task.id), Truthy(task.completed))
  }

  /** The Edit button is disabled for a completed task. */
  function EditDisabled(task: Card): bool
  {
    Truthy(task.completed)
  }

  /** The effect on the shown advice of a new `task` prop: a truthy
      `aiAdvice` replaces it, anything else keeps what was shown. */
  function Seeded(shown: Value, task: Card): Value
  {
    if Truthy(task.aiAdvice) then task.aiAdvice else shown
  }

  /** `fetchAdviceHandler`: whatever `getAiAdvice` returns replaces the
      shown advice. `getAiAdvice` (frontend/src/utility/utils.js) catches a
      failed request itself and returns `undefined`, so the handler's own
      `catch` is never reached. */
  function AfterFetch(shown: Value, response: Outcome<Value>): Value
  {
    match response
    case Returned(data) => data
    case Threw(_) => Undefined
  }

  /** The Show/Hide Advice toggle appears only when the shown advice is
      truthy. */
  function ShowsToggle(shown: Value): bool
  {
    Truthy(shown)
  }

  // ---------------------------------------------------------------------------
  // Properties of the split

  /** A separator inside a slice is a separator of the whole string. */
  lemma SeparatorInSlice(s: string, a: nat, b: nat, j: int)
    requires a <= b <= |s|
    requires SeparatorAt(s[a..b], j)
    ensures SeparatorAt(s, a + j)
  {
    assert s[a..b][j] == s[a + j] && s[a..b][j + 1] == s[a + j + 1] && s[a..b][j + 2] == s[a + j + 2];
  }

  lemma NoSeparatorInSlice(s: string, a: nat, b: nat)
    requires a <= b <= |s|
    requires forall j :: !SeparatorAt(s, j)
    ensures forall j :: !SeparatorAt(s[a..b], j)
  {
    forall j | SeparatorAt(s[a..b], j) ensures false {
      SeparatorInSlice(s, a, b, j);
    }
  }

  /** No piece contains a separator, given that none starts in
      `s[start..i]`. */
  lemma {:induction false} SplitPiecesFree(s: string, start: nat, i: nat, k: nat, j: int)
    requires start <= i <= |s|
    requires forall m :: start <= m < i ==> !SeparatorAt(s, m)
    requires k < |SplitFrom(s, start, i)|
    ensures !SeparatorAt(SplitFrom(s, start, i)[k], j)
    decreases |s| - i
  {
    var r := SplitFrom(s, start, i);
    if i + 3 > |s| {
      if SeparatorAt(s[start..], j) {
        SeparatorInSlice(s, start, |s|, j);
      }
    } else if SeparatorAt(s, i) {
      if k == 0 {
        if SeparatorAt(s[start..i], j) {
          SeparatorInSlice(s, start, i, j);
        }
      } else {
        assert r[k] == SplitFrom(s, i + 3, i + 3)[k - 1];
        SplitPiecesFree(s, i + 3, i + 3, k - 1, j);
      }
    } else {
      SplitPiecesFree(s, start, i + 1, k, j);
    }
  }

  /** The scan loses nothing: the pieces interleaved with the separators it
      removed give back the text. */
  lemma {:induction false} SplitRejoinsFrom(s: string, start: nat, i: nat)
    requires start <= i <= |s|
    ensures |SplitFrom(s, start, i)| == |SeparatorsFrom(s, start, i)| + 1
    ensures Interleave(SplitFrom(s, start, i), SeparatorsFrom(s, start, i)) == s[start..]
    decreases |s| - i
  {
    if i + 3 > |s| {
    } else if SeparatorAt(s, i) {
      SplitRejoinsFrom(s, i + 3, i + 3);
      RejoinStep(s, start, i, SplitFrom(s, i + 3, i + 3), SeparatorsFrom(s, i + 3, i + 3));
    } else {
      SplitRejoinsFrom(s, start, i + 1);
      assert SplitFrom(s, start, i) == SplitFrom(s, start, i + 1);
      assert SeparatorsFrom(s, start, i) == SeparatorsFrom(s, start, i + 1);
    }
  }

  /** One separator at `i`: the piece before it, the separator and the
      rejoined rest make up `s[start..]`. */
  lemma RejoinStep(s: string, start: nat, i: nat, ps: seq<string>, ss: seq<string>)
    requires start <= i && i + 3 <= |s|
    requires |ps| == |ss| + 1 && Interleave(ps, ss) == s[i + 3..]
    ensures Interleave([s[start..i]] + ps, [s[i..i + 3]] + ss) == s[start..]
  {
    var ps2, ss2 := [s[start..i]] + ps, [s[i..i + 3]] + ss;
    assert ps2[1..] == ps && ss2[1..] == ss;
    assert s[start..] == s[start..i] + s[i..i + 3] + s[i + 3..];
  }

  /** Every string the scan removes is a separator. */
  lemma {:induction false} RemovedAreSeparators(s: string, start: nat, i: nat, k: nat)
    requires start <= i <= |s|
    requires k < |SeparatorsFrom(s, start, i)|
    ensures IsSeparator(SeparatorsFrom(s, start, i)[k])
    decreases |s| - i
  {
    if i + 3 > |s| {
    } else if SeparatorAt(s, i) {
      var ss' := SeparatorsFrom(s, i + 3, i + 3);
      assert SeparatorsFrom(s, start, i) == [s[i..i + 3]] + ss';
      if k == 0 {
        var t := s[i..i + 3];
        assert t[0] == s[i] && t[1] == s[i + 1] && t[2] == s[i + 2];
      } else {
        RemovedAreSeparators(s, i + 3, i + 3, k - 1);
      }
    } else {
      RemovedAreSeparators(s, start, i + 1, k);
    }
  }

  /** The split of the advice text: interleaving its pieces with the removed
      separators gives the text back, every removed string is a separator,
      and no piece contains one, so the pieces are the text's stretches
      between separators, left to right. */
  lemma SplitCharacterised(s: string)
    ensures |Split(s)| == |SeparatorsFrom(s, 0, 0)| + 1
    ensures Interleave(Split(s), SeparatorsFrom(s, 0, 0)) == s
    ensures forall k :: 0 <= k < |SeparatorsFrom(s, 0, 0)| ==> IsSeparator(SeparatorsFrom(s, 0, 0)[k])
    ensures forall k, j :: 0 <= k < |Split(s)| ==> !SeparatorAt(Split(s)[k], j)
  {
    SplitRejoinsFrom(s, 0, 0);
    assert s[0..] == s;
    forall k | 0 <= k < |SeparatorsFrom(s, 0, 0)| ensures IsSeparator(SeparatorsFrom(s, 0, 0)[k]) {
      RemovedAreSeparators(s, 0, 0, k);
    }
    forall k, j | 0 <= k < |Split(s)| ensures !SeparatorAt(Split(s)[k], j) {
      SplitPiecesFree(s, 0, 0, k, j);
    }
  }

  /** Text without separators stays one piece. */
  lemma {:induction false} NoSeparatorOnePiece(s: string, start: nat, i: nat)
    requires start <= i <= |s|
    requires forall m :: i <= m < |s| ==> !SeparatorAt(s, m)
    ensures SplitFrom(s, start, i) == [s[start..]]
    decreases |s| - i
  {
    if i + 3 <= |s| {
      NoSeparatorOnePiece(s, start, i + 1);
    }
  }

  // ---------------------------------------------------------------------------
  // Properties of the points

  /** Collecting works piece by piece, so the points keep the order of the
      pieces. */
  lemma {:induction false} CollectAppend(a: seq<string>, b: seq<string>, f: string -> seq<string>)
    ensures Collect(a + b, f) == Collect(a, f) + Collect(b, f)
    decreases |a|
  {
    if a != [] {
      assert (a + b)[1..] == a[1..] + b;
      CollectAppend(a[1..], b, f);
    } else {
      assert a + b == b;
    }
  }

  /** Element `k` of a collection comes from some piece `m`. */
  lemma {:induction false} CollectFrom(pieces: seq<string>, f: string -> seq<string>, k: nat) returns (m: nat, q: nat)
    requires k < |Collect(pieces, f)|
    ensures m < |pieces| && q < |f(pieces[m])| && Collect(pieces, f)[k] == f(pieces[m])[q]
    decreases |pieces|
  {
    var here, rest := f(pieces[0]), pieces[1..];
    assert Collect(pieces, f) == here + Collect(rest, f);
    if k < |here| {
      m, q := 0, k;
    } else {
      var m' := 0;
      m', q := CollectFrom(rest, f, k - |here|);
      m := m' + 1;
      assert pieces[m] == rest[m'];
    }
  }

  /** Points are kept piece by piece, in the order of the pieces. */
  lemma KeptAppend(a: seq<string>, b: seq<string>)
    ensures Kept(a + b) == Kept(a) + Kept(b)
    ensures Kept([]) == [] && forall p :: Kept([p]) == Shown(p)
  {
    CollectAppend(a, b, Shown);
    forall p ensures Kept([p]) == Shown(p) {
      assert [p][1..] == [];
      assert Collect([p], Shown) == Shown(p) + Collect([], Shown);
      assert Shown(p) + [] == Shown(p);
    }
  }

  /** Point `k` is piece `m` trimmed, for a non-blank piece `m`. */
  lemma KeptFrom(pieces: seq<string>, k: nat) returns (m: nat)
    requires k < |Kept(pieces)|
    ensures m < |pieces| && !Blank(pieces[m]) && Kept(pieces)[k] == Trim(pieces[m])
  {
    var q;
    m, q := CollectFrom(pieces, Shown, k);
  }

  lemma TrimmedNonBlank(p: string)
    requires !Blank(p)
    ensures Trim(p) != ""
  {
    BlankIffTrimsEmpty(p);
  }

  lemma TrimmedKeepsNoSeparator(p: string)
    requires forall j :: !SeparatorAt(p, j)
    ensures forall j :: !SeparatorAt(Trim(p), j)
  {
    var a := TrimIsInner(p);
    NoSeparatorInSlice(p, a, a + |Trim(p)|);
  }

  /** A non-blank piece without separators, trimmed, is non-empty, has no
      white space at either end and still has no separator. */
  lemma ShownPointFacts(p: string)
    requires !Blank(p)
    requires forall j :: !SeparatorAt(p, j)
    ensures Trim(p) != ""
    ensures !IsSpace(Trim(p)[0]) && !IsSpace(Trim(p)[|Trim(p)| - 1])
    ensures forall j :: !SeparatorAt(Trim(p), j)
  {
    TrimmedNonBlank(p);
    var a := TrimIsInner(p);
    TrimmedKeepsNoSeparator(p);
  }

  /** For `null` and `undefined` advice no points are rendered; for a string
      every point is a trimmed, non-empty stretch of the text between
      separators, and text with no separator and no blank gives one point,
      itself trimmed. */
  lemma AdvicePointsSpec(adviceText: Value, k: nat)
    ensures adviceText == Null || adviceText == Undefined <==> AdvicePoints(adviceText) == Returned(None)
    ensures AdvicePoints(adviceText).Threw? <==> !adviceText.Str? && adviceText != Null && adviceText != Undefined
    ensures adviceText.Str? && k < |AdvicePoints(adviceText).value.value| ==>
      var point := AdvicePoints(adviceText).value.value[k];
      point != "" && !IsSpace(point[0]) && !IsSpace(point[|point| - 1]) && (forall j :: !SeparatorAt(point, j))
      && exists m :: 0 <= m < |Split(adviceText.s)| && point == Trim(Split(adviceText.s)[m])
  {
    if adviceText.Str? && k < |AdvicePoints(adviceText).value.value| {
      var pieces := Split(adviceText.s);
      SplitCharacterised(adviceText.s);
      var m := KeptFrom(pieces, k);
      ShownPointFacts(pieces[m]);
    }
  }

  /** Text with no separator in it is shown as one trimmed point, or none
      when it is blank. */
  lemma UnbrokenAdvice(s: string)
    requires forall m :: 0 <= m < |s| ==> !SeparatorAt(s, m)
    ensures AdvicePoints(Str(s)) == Returned(Some(Shown(s)))
  {
    NoSeparatorOnePiece(s, 0, 0);
    assert s[0..] == s;
    KeptAppend([], []);
  }

  // ---------------------------------------------------------------------------
  // Properties of the card

  /** The label is "Low" exactly for the string "1" and "Medium" exactly for
      "2"; every other value, the number 1 included, is "High". */
  lemma PriorityLabelIff(priority: Value)
    ensures PriorityLabel(priority) == "Low" <==> priority == Str("1")
    ensures PriorityLabel(priority) == "Medium" <==> priority == Str("2")
    ensures PriorityLabel(priority) == "High" <==> priority != Str("1") && priority != Str("2")
    ensures PriorityLabel(Num(1)) == "High"
  {
  }

  /** "Undo" and "Complete" send the same request; for a task the ledger
      already holds as completed, that request changes nothing, so "Undo"
      does not reopen it. Edit is disabled exactly when "Undo" is shown. */
  lemma UndoDoesNotReopen(task: Card, c: Chain, id: nat, owner: string)
    requires id in c.tasks && c.tasks[id].completed
    ensures CompleteButtonOf(task).action == CompleteButtonOf(task.(completed := Bool(false))).action == MarkCompleted(task.id)
    ensures CompleteButtonOf(task).caption == "Undo" <==> Truthy(task.completed)
    ensures EditDisabled(task) <==> CompleteButtonOf(task).caption == "Undo"
    ensures Apply(c, Complete(id), owner) == c
  {
    assert c.tasks[id := c.tasks[id].(completed := true)] == c.tasks;
  }

  /** A task with truthy advice shows it and offers the toggle; a task
      without keeps showing whatever was shown before, so stale advice stays
      on screen. */
  lemma SeededAdvice(shown: Value, task: Card)
    ensures Truthy(task.aiAdvice) ==> Seeded(shown, task) == task.aiAdvice && ShowsToggle(Seeded(shown, task))
    ensures !Truthy(task.aiAdvice) ==> Seeded(shown, task) == shown
    ensures ShowsToggle(Seeded(shown, task)) <==> Truthy(task.aiAdvice) || Truthy(shown)
  {
  }

  /** A failed advice request does not keep the advice shown: it replaces
      it by `undefined`, which hides the toggle and renders no points. */
  lemma FailedFetchClearsAdvice(shown: Value, message: string)
    ensures AfterFetch(shown, Threw(message)) == Undefined
    ensures !ShowsToggle(AfterFetch(shown, Threw(message)))
    ensures AdvicePoints(AfterFetch(shown, Threw(message))) == Returned(None)
  {
  }
}
