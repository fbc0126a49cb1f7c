/** The counting behind the dashboard charts,
    frontend/src/components/DashboardComponent.jsx: tasks grouped by priority
    and by progress bucket (`d3.rollup`, a map from key to count in order of
    first appearance), the completed/incomplete split, and the pie-slice
    labels. The SVG drawing is not modelled. */
module Dashboard {
  import opened Js

  /** The fields of a task the dashboard reads. */
  datatype Item = Item(priority: Value, progress: Value, completed: Value)

  /** One entry of a rollup: a key and how many tasks have it. */
  datatype Slice = Slice(key: Value, count: nat)

  // ---------------------------------------------------------------------------
  // d3.rollup(items, v => v.length, key)

  /** How many of `keys` equal `k` (keys compare as JavaScript `Map` keys do:
      `NaN` equals `NaN`). */
  function Occurrences(keys: seq<Value>, k: Value): nat
    decreases |keys|
  {
    if keys == [] then 0 else Occurrences(keys[..|keys| - 1], k) + (if keys[|keys| - 1] == k then 1 else 0)
  }

  /** Counting one more `k`: its entry goes up by one, or a new entry `(k, 1)`
      is appended. */
  function Bump(slices: seq<Slice>, k: Value): seq<Slice>
    decreases |slices|
  {
    if slices == [] then [Slice(k, 1)]
    else if slices[0].key == k then [slices[0].(count := slices[0].count + 1)] + slices[1..]
    else [slices[0]] + Bump(slices[1..], k)
  }

  /** The rollup of `keys`, built by counting them left to right. */
  function Rollup(keys: seq<Value>): seq<Slice>
    decreases |keys|
  {
    if keys == [] then [] else Bump(Rollup(keys[..|keys| - 1]), keys[|keys| - 1])
  }

  /** The rollup's keys, in order. */
  function Keys(slices: seq<Slice>): (ks: seq<Value>)
    ensures |ks| == |slices| && forall i :: 0 <= i < |slices| ==> ks[i] == slices[i].key
  {
    seq(|slices|, i requires 0 <= i < |slices| => slices[i].key)
  }

  predicate Distinct(ks: seq<Value>)
  {
    forall i, j :: 0 <= i < j < |ks| ==> ks[i] != ks[j]
  }

  /** The count the rollup holds for `k`, 0 when `k` is not a key. */
  function CountOf(slices: seq<Slice>, k: Value): nat
    decreases |slices|
  {
    if slices == [] then 0 else (if slices[0].key == k then slices[0].count else 0) + CountOf(slices[1..], k)
  }

  function Total(slices: seq<Slice>): nat
    decreases |slices|
  {
    if slices == [] then 0 else slices[0].count + Total(slices[1..])
  }

  predicate AllCounted(slices: seq<Slice>)
  {
    forall i :: 0 <= i < |slices| ==> slices[i].count > 0
  }

  // ---------------------------------------------------------------------------
  // The three charts

  function PriorityKeys(items: seq<Item>): (keys: seq<Value>)
    ensures |keys| == |items| && forall i :: 0 <= i < |items| ==> keys[i] == items[i].priority
  {
    seq(|items|, i requires 0 <= i < |items| => items[i].priority)
  }

  /** `Math.floor(progress / 20) * 20`, the progress read as a number. */
  function ProgressBucket(progress: Value): (r: Value)
    ensures r.Num? || r == NaN
  {
    match ToNumber(progress)
    case Num(n) => Num(n / 20 * 20)
    case _ => NaN
  }

  function ProgressKeys(items: seq<Item>): (keys: seq<Value>)
    ensures |keys| == |items| && forall i :: 0 <= i < |items| ==> keys[i] == ProgressBucket(items[i].progress)
  {
    seq(|items|, i requires 0 <= i < |items| => ProgressBucket(items[i].progress))
  }

  /** `tasks.filter(t => t.completed).length`. */
  function CompletedCount(items: seq<Item>): nat
    decreases |items|
  {
    if items == [] then 0 else (if Truthy(items[0].completed) then 1 else 0) + CompletedCount(items[1..])
  }

  /** `tasks.filter(t => !t.completed).length`. */
  function IncompleteCount(items: seq<Item>): nat
    decreases |items|
  {
    if items == [] then 0 else (if Truthy(items[0].completed) then 0 else 1) + IncompleteCount(items[1..])
  }

  /** The text on a pie slice: the priority names for the keys `"1"`, `"2"`
      and `"3"`, and the completion form for every other key. */
  function PieLabel(s: Slice): string
  {
    if s.key == Str("1") then "Low: " + NatText(s.count) + TasksSuffix
    else if s.key == Str("2") then "Medium: " + NatText(s.count) + TasksSuffix
    else if s.key == Str("3") then "High: " + NatText(s.count) + TasksSuffix
    else CompletionLabel(s)
  }

  const TasksSuffix: string := " Tasks"

  /** The label of a slice whose key is not a priority. */
  function CompletionLabel(s: Slice): string
  {
    NatText(s.count) + " Tasks Completed: " + Text(s.key) + "%"
  }

  function Labels(slices: seq<Slice>): (labels: seq<string>)
    ensures |labels| == |slices| && forall i :: 0 <= i < |slices| ==> labels[i] == PieLabel(slices[i])
  {
    seq(|slices|, i requires 0 <= i < |slices| => PieLabel(slices[i]))
  }

  /** What one dashboard draws. */
  datatype Charts = Charts(priority: seq<Slice>, progress: seq<Slice>, completed: nat, incomplete: nat)

  /** The effect on `tasks`: nothing is drawn unless `tasks?.length > 0`. */
  function Draw(tasks: Option<seq<Item>>): Option<Charts>
  {
    if tasks.None? || |tasks.value| == 0 then None
    else
      var items := tasks.value;
      Some(Charts(Rollup(PriorityKeys(items)), Rollup(ProgressKeys(items)), CompletedCount(items),
                  IncompleteCount(items)))
  }

  // ---------------------------------------------------------------------------
  // Properties of the rollup

  lemma {:induction false} BumpCounts(slices: seq<Slice>, k: Value, j: Value)
    ensures CountOf(Bump(slices, k), j) == CountOf(slices, j) + (if j == k then 1 else 0)
    ensures Total(Bump(slices, k)) == Total(slices) + 1
    decreases |slices|
  {
    if slices != [] && slices[0].key != k {
      BumpCounts(slices[1..], k, j);
      assert Bump(slices, k)[1..] == Bump(slices[1..], k);
    } else if slices != [] {
      assert Bump(slices, k)[1..] == slices[1..];
    }
  }

  /** Counting `k` adds `k` as the last key when it is new and keeps the
      keys otherwise. */
  lemma {:induction false} BumpKeys(slices: seq<Slice>, k: Value)
    ensures Keys(Bump(slices, k)) == if k in Keys(slices) then Keys(slices) else Keys(slices) + [k]
    decreases |slices|
  {
    if slices != [] {
      var rest := slices[1..];
      var b := Bump(slices, k);
      assert Keys(slices) == [slices[0].key] + Keys(rest);
      if slices[0].key == k {
        assert b == [slices[0].(count := slices[0].count + 1)] + rest;
        assert Keys(b) == [k] + Keys(rest);
      } else {
        BumpKeys(rest, k);
        assert b == [slices[0]] + Bump(rest, k);
        assert Keys(b) == [slices[0].key] + Keys(Bump(rest, k));
      }
    }
  }

  /** Counting never leaves an entry at zero. */
  lemma {:induction false} BumpCounted(slices: seq<Slice>, k: Value)
    requires AllCounted(slices)
    ensures AllCounted(Bump(slices, k))
    decreases |slices|
  {
    if slices != [] && slices[0].key != k {
      BumpCounted(slices[1..], k);
      assert Bump(slices, k) == [slices[0]] + Bump(slices[1..], k);
    }
  }

  /** The rollup has one entry per distinct key, in order of first
      appearance; each entry counts exactly the tasks with its key, every
      count is positive, and the counts add up to the number of tasks. */
  lemma {:induction false} RollupCounts(keys: seq<Value>)
    ensures Distinct(Keys(Rollup(keys)))
    ensures forall k :: CountOf(Rollup(keys), k) == Occurrences(keys, k)
    ensures forall k :: k in Keys(Rollup(keys)) <==> k in keys
    ensures AllCounted(Rollup(keys))
    ensures Total(Rollup(keys)) == |keys|
    decreases |keys|
  {
    if keys != [] {
      var init := keys[..|keys| - 1];
      var k := keys[|keys| - 1];
      var prev := Rollup(init);
      RollupCounts(init);
      assert keys == init + [k];
      forall j ensures CountOf(Rollup(keys), j) == Occurrences(keys, j) {
        BumpCounts(prev, k, j);
      }
      BumpCounts(prev, k, k);
      BumpKeys(prev, k);
      BumpCounted(prev, k);
    }
  }

  /** The first task's key heads the rollup. */
  lemma RollupFirstKey(keys: seq<Value>)
    requires keys != []
    ensures Rollup(keys) != [] && Rollup(keys)[0].key == keys[0]
  {
    RollupFirstKeyFrom(keys, |keys|);
  }

  lemma {:induction false} RollupFirstKeyFrom(keys: seq<Value>, n: nat)
    requires 0 < n <= |keys|
    ensures Rollup(keys[..n]) != [] && Rollup(keys[..n])[0].key == keys[0]
  {
    var init := keys[..n][..n - 1];
    assert init == keys[..n - 1];
    BumpKeys(Rollup(init), keys[n - 1]);
    if n > 1 {
      RollupFirstKeyFrom(keys, n - 1);
      assert Keys(Rollup(init))[0] == keys[0];
    } else {
      assert init == [];
    }
    assert Keys(Rollup(keys[..n]))[0] == keys[0];
  }

  // ---------------------------------------------------------------------------
  // Properties of the charts

  /** The completed and incomplete bars together count every task. */
  lemma {:induction false} CompletionSplit(items: seq<Item>)
    ensures CompletedCount(items) + IncompleteCount(items) == |items|
    decreases |items|
  {
    if items != [] {
      CompletionSplit(items[1..]);
    }
  }

  /** A numeric progress falls in the bucket of the multiple of 20 at or
      below it; 100 has a bucket of its own; a progress that is not a number
      lands in the `NaN` bucket. */
  lemma ProgressBucketBounds(progress: Value)
    ensures ToNumber(progress).Num? ==>
      var n := ToNumber(progress).n;
      var b := ProgressBucket(progress);
      b.Num? && b.n % 20 == 0 && b.n <= n < b.n + 20
    ensures ToNumber(progress) == NaN ==> ProgressBucket(progress) == NaN
    ensures ToNumber(progress) == Num(100) ==> ProgressBucket(progress) == Num(100)
    ensures ToNumber(progress) == Num(99) ==> ProgressBucket(progress) == Num(80)
  {
  }

  /** The dashboard draws exactly when there is a non-empty task list, and
      then the priority pie counts every task, as do the progress pie and the
      two bars. */
  lemma DrawIff(tasks: Option<seq<Item>>)
    ensures Draw(tasks).Some? <==> tasks.Some? && |tasks.value| > 0
    ensures Draw(tasks).Some? ==>
      Total(Draw(tasks).value.priority) == |tasks.value| && Total(Draw(tasks).value.progress) == |tasks.value|
      && Draw(tasks).value.completed + Draw(tasks).value.incomplete == |tasks.value|
  {
    if tasks.Some? && |tasks.value| > 0 {
      RollupCounts(PriorityKeys(tasks.value));
      RollupCounts(ProgressKeys(tasks.value));
      CompletionSplit(tasks.value);
    }
  }

  /** The progress pie's keys are numbers (or `NaN`), never the strings
      `"1"`, `"2"`, `"3"`, so every progress slice gets the completion
      label. */
  lemma ProgressLabelsUseCompletionForm(items: seq<Item>, i: nat)
    requires i < |Rollup(ProgressKeys(items))|
    ensures PieLabel(Rollup(ProgressKeys(items))[i]) == CompletionLabel(Rollup(ProgressKeys(items))[i])
  {
    var keys := ProgressKeys(items);
    var s := Rollup(keys)[i];
    RollupCounts(keys);
    assert Keys(Rollup(keys))[i] == s.key;
    assert s.key in keys;
    var j :| 0 <= j < |keys| && keys[j] == s.key;
    assert !s.key.Str?;
  }
}
