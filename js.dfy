/** JavaScript value semantics that the backend and the browser code rely on:
    template-literal text, truthiness, decimal `toString`, `parseInt`, `Number`,
    `trim`, `split` on one character, `join`, and ASCII lower-casing. */
module Js {

  /** A scalar value as JavaScript code sees it: a request-body field, a form
      field, an argument of a template literal. Numbers are integral; `NaN` is
      kept apart. */
  datatype Value = Undefined | Null | Bool(b: bool) | Num(n: int) | NaN | Str(s: string)

  /** A JSON document as `res.json` sends it. */
  datatype Json = JValue(v: Value) | JArray(items: seq<Json>) | JObject(fields: seq<(string, Json)>)

  /** A call that either returns a value or throws an error with a message. */
  datatype Outcome<T> = Returned(value: T) | Threw(message: string)

  datatype Option<T> = None | Some(value: T)

  function MessageJson(message: string): Json
  {
    JObject([("message", JValue(Str(message)))])
  }

  function ErrorJson(error: string): Json
  {
    JObject([("error", JValue(Str(error)))])
  }

  // ---------------------------------------------------------------------------
  // Truthiness and template-literal text

  /** `!!v`: what `if (v)`, `v && …` and `v || …` test. */
  predicate Truthy(v: Value)
  {
    match v
    case Undefined => false
    case Null => false
    case Bool(b) => b
    case Num(n) => n != 0
    case NaN => false
    case Str(s) => s != ""
  }

  /** `${v}` inside a template literal, i.e. `String(v)`. */
  function Text(v: Value): string
  {
    match v
    case Undefined => "undefined"
    case Null => "null"
    case Bool(b) => if b then "true" else "false"
    case Num(n) => Decimal(n)
    case NaN => "NaN"
    case Str(s) => s
  }

  // ---------------------------------------------------------------------------
  // Decimal digits

  predicate IsDigit(c: char)
  {
    '0' <= c <= '9'
  }

  predicate AllDigits(s: string)
  {
    forall i :: 0 <= i < |s| ==> IsDigit(s[i])
  }

  function DigitChar(d: nat): (c: char)
    requires d < 10
    ensures IsDigit(c) && c as int - '0' as int == d
  {
    ('0' as int + d) as char
  }

  /** The number a string of decimal digits denotes (most significant first). */
  function DigitsValue(s: string): nat
    requires AllDigits(s)
    decreases |s|
  {
    if s == [] then 0 else 10 * DigitsValue(s[..|s| - 1]) + (s[|s| - 1] as int - '0' as int)
  }

  /** Decimal text as `toString()` prints it: digits only, no leading zero
      except for "0" itself. */
  predicate Canonical(s: string)
  {
    |s| > 0 && AllDigits(s) && (s[0] == '0' ==> |s| == 1)
  }

  /** `n.toString()` for a natural number (a JavaScript integer or a big integer). */
  function NatText(n: nat): (r: string)
    ensures Canonical(r) && DigitsValue(r) == n
    ensures n > 0 ==> r[0] != '0'
    decreases n
  {
    if n < 10 then [DigitChar(n)]
    else
      var r := NatText(n / 10) + [DigitChar(n % 10)];
      assert r[..|r| - 1] == NatText(n / 10);
      r
  }

  /** `n.toString()` for any integer. */
  function Decimal(n: int): string
  {
    if n < 0 then "-" + NatText(-n) else NatText(n)
  }

  lemma {:induction false} ZeroValueAllZeros(s: string)
    requires AllDigits(s) && DigitsValue(s) == 0
    ensures forall i :: 0 <= i < |s| ==> s[i] == '0'
    decreases |s|
  {
    if s != [] {
      ZeroValueAllZeros(s[..|s| - 1]);
      forall i | 0 <= i < |s| ensures s[i] == '0' {
        if i < |s| - 1 {
          assert s[i] == s[..|s| - 1][i];
        }
      }
    }
  }

  /** Canonical decimal text is exactly what `toString` prints for its value:
      the two directions of the decimal round trip. */
  lemma {:induction false} NatTextOfDigits(s: string)
    requires Canonical(s)
    ensures NatText(DigitsValue(s)) == s
    decreases |s|
  {
    if |s| > 1 {
      var p := s[..|s| - 1];
      assert p[0] == s[0];
      assert Canonical(p);
      if DigitsValue(p) == 0 {
        ZeroValueAllZeros(p);
        assert false;
      }
      NatTextOfDigits(p);
      var v := DigitsValue(s);
      assert v / 10 == DigitsValue(p) && v % 10 == s[|s| - 1] as int - '0' as int;
      assert NatText(v) == NatText(v / 10) + [DigitChar(v % 10)];
      assert s == p + [s[|s| - 1]];
    }
  }

  /** `toString` is injective on naturals. */
  lemma NatTextInjective(m: nat, n: nat)
    requires NatText(m) == NatText(n)
    ensures m == n
  {
    assert DigitsValue(NatText(m)) == m;
  }

  // ---------------------------------------------------------------------------
  // White space and trim

  /** JavaScript's WhiteSpace and LineTerminator code points: what `\s` matches
      and what `trim` removes. */
  predicate IsSpace(c: char)
  {
    c == '\t' || c == '\n' || c == '\U{000B}' || c == '\U{000C}' || c == '\r' || c == ' '
    || c == '\U{00A0}' || c == '\U{1680}' || ('\U{2000}' <= c <= '\U{200A}')
    || c == '\U{2028}' || c == '\U{2029}' || c == '\U{202F}' || c == '\U{205F}'
    || c == '\U{3000}' || c == '\U{FEFF}'
  }

  /** `s.trimStart()`. */
  function TrimStart(s: string): (r: string)
    ensures |r| <= |s| && r == s[|s| - |r|..]
    ensures r == [] || !IsSpace(r[0])
    decreases |s|
  {
    if s != [] && IsSpace(s[0]) then TrimStart(s[1..]) else s
  }

  /** `s.trimEnd()`. */
  function TrimEnd(s: string): (r: string)
    ensures |r| <= |s| && r == s[..|r|]
    ensures r == [] || !IsSpace(r[|r| - 1])
    decreases |s|
  {
    if s != [] && IsSpace(s[|s| - 1]) then TrimEnd(s[..|s| - 1]) else s
  }

  /** `s.trim()`. */
  function Trim(s: string): string
  {
    TrimEnd(TrimStart(s))
  }

  lemma DigitIsNotSpace(c: char)
    requires IsDigit(c)
    ensures !IsSpace(c)
  {
  }

  /** Text that does not start with white space is kept by `trimStart`. */
  lemma TrimStartKeeps(s: string)
    requires s == [] || !IsSpace(s[0])
    ensures TrimStart(s) == s
  {
  }

  /** Text that does not end with white space is kept by `trimEnd`. */
  lemma TrimEndKeeps(s: string)
    requires s == [] || !IsSpace(s[|s| - 1])
    ensures TrimEnd(s) == s
  {
  }

  /** What `trimStart` drops is white space. */
  lemma {:induction false} TrimStartDropsSpace(s: string, i: nat)
    requires i < |s| - |TrimStart(s)|
    ensures IsSpace(s[i])
    decreases |s|
  {
    if i > 0 {
      TrimStartDropsSpace(s[1..], i - 1);
    }
  }

  /** What `trimEnd` drops is white space. */
  lemma {:induction false} TrimEndDropsSpace(s: string, i: nat)
    requires |TrimEnd(s)| <= i < |s|
    ensures IsSpace(s[i])
    decreases |s|
  {
    if i < |s| - 1 {
      TrimEndDropsSpace(s[..|s| - 1], i);
    }
  }


  /** Text that neither starts nor ends with white space trims to itself. */
  lemma TrimUnspaced(s: string)
    requires s != [] && !IsSpace(s[0]) && !IsSpace(s[|s| - 1])
    ensures Trim(s) == s
  {
    TrimStartKeeps(s);
    TrimEndKeeps(s);
  }

  /** The trimmed text is empty exactly when `s` is all white space. */
  lemma TrimEmptyIff(s: string)
    ensures Trim(s) == [] <==> forall i :: 0 <= i < |s| ==> IsSpace(s[i])
  {
    var t := TrimStart(s);
    var a := |s| - |t|;
    assert t == s[a..];
    if TrimEnd(t) == [] {
      forall i | 0 <= i < |s| ensures IsSpace(s[i]) {
        if i >= a {
          assert s[i] == t[i - a];
          TrimEndDropsSpace(t, i - a);
        } else {
          TrimStartDropsSpace(s, i);
        }
      }
    } else {
      assert t != [] && !IsSpace(t[0]) && s[a] == t[0];
    }
  }

  /** Text made of white space alone. */
  predicate Blank(s: string)
    decreases |s|
  {
    s == [] || (IsSpace(s[0]) && Blank(s[1..]))
  }

  lemma {:induction false} BlankAllSpace(s: string)
    ensures Blank(s) <==> forall i :: 0 <= i < |s| ==> IsSpace(s[i])
    decreases |s|
  {
    if s != [] {
      BlankAllSpace(s[1..]);
      if forall i :: 0 <= i < |s| ==> IsSpace(s[i]) {
        assert forall i :: 0 <= i < |s[1..]| ==> IsSpace(s[1..][i]) by {
          forall i | 0 <= i < |s[1..]| ensures IsSpace(s[1..][i]) {
            assert s[1..][i] == s[i + 1];
          }
        }
      }
      if Blank(s) {
        forall i | 0 <= i < |s| ensures IsSpace(s[i]) {
          if i > 0 {
            assert s[i] == s[1..][i - 1];
          }
        }
      }
    }
  }

  /** `s.trim() === ""` exactly when `s` is blank. */
  lemma BlankIffTrimsEmpty(s: string)
    ensures Blank(s) <==> Trim(s) == ""
  {
    BlankAllSpace(s);
    TrimEmptyIff(s);
  }

  /** `s.trim()` is a stretch of `s` that neither starts nor ends with
      white space. */
  lemma TrimIsInner(s: string) returns (a: nat)
    ensures a + |Trim(s)| <= |s| && Trim(s) == s[a..a + |Trim(s)|]
    ensures Trim(s) != "" ==> !IsSpace(Trim(s)[0]) && !IsSpace(Trim(s)[|Trim(s)| - 1])
  {
    var u := TrimStart(s);
    var t := TrimEnd(u);
    a := |s| - |u|;
    assert t == u[..|t|] && u == s[a..];
    assert Trim(s) == t;
  }

  // ---------------------------------------------------------------------------
  // Number and parseInt

  /** The longest prefix of `s` made of decimal digits. */
  function DigitPrefix(s: string): (d: string)
    ensures |d| <= |s| && d == s[..|d|] && AllDigits(d)
    ensures |d| < |s| ==> !IsDigit(s[|d|])
    decreases |s|
  {
    if s != [] && IsDigit(s[0]) then [s[0]] + DigitPrefix(s[1..]) else []
  }

  lemma {:induction false} DigitPrefixOfDigits(d: string, rest: string)
    requires AllDigits(d)
    requires rest == [] || !IsDigit(rest[0])
    ensures DigitPrefix(d + rest) == d
    decreases |d|
  {
    if d != [] {
      assert (d + rest)[1..] == d[1..] + rest;
      DigitPrefixOfDigits(d[1..], rest);
    } else {
      assert d + rest == rest;
    }
  }

  /** `parseInt(s, 10)`: leading white space is skipped, then an optional sign,
      then the longest run of decimal digits; `NaN` when there is no digit. */
  function ParseInt(s: string): (v: Value)
    ensures v.Num? || v == NaN
  {
    ParseSigned(TrimStart(s))
  }

  /** `parseInt` past the leading white space. */
  function ParseSigned(t: string): (v: Value)
    ensures v.Num? || v == NaN
  {
    if |t| > 0 && t[0] == '-' then Negated(DigitPrefix(t[1..]))
    else if |t| > 0 && t[0] == '+' then Unsigned(DigitPrefix(t[1..]))
    else Unsigned(DigitPrefix(t))
  }

  function Unsigned(d: string): Value
    requires AllDigits(d)
  {
    if d == [] then NaN else Num(DigitsValue(d))
  }

  function Negated(d: string): Value
    requires AllDigits(d)
  {
    if d == [] then NaN else Num(0 - DigitsValue(d))
  }

  lemma ParseIntOfDigitsThen(digits: string, rest: string)
    requires digits != [] && AllDigits(digits)
    requires rest == [] || !IsDigit(rest[0])
    ensures ParseInt(digits + rest) == Num(DigitsValue(digits))
  {
    var s := digits + rest;
    assert s[0] == digits[0];
    DigitIsNotSpace(s[0]);
    TrimStartKeeps(s);
    DigitPrefixOfDigits(digits, rest);
  }

  lemma ParseSignedNegative(digits: string, rest: string)
    requires digits != [] && AllDigits(digits)
    requires rest == [] || !IsDigit(rest[0])
    ensures ParseSigned(['-'] + (digits + rest)) == Num(0 - DigitsValue(digits))
  {
    var t := ['-'] + (digits + rest);
    assert t[1..] == digits + rest;
    DigitPrefixOfDigits(digits, rest);
  }

  lemma ParseIntOfNegativeDigitsThen(digits: string, rest: string)
    requires digits != [] && AllDigits(digits)
    requires rest == [] || !IsDigit(rest[0])
    ensures ParseInt("-" + digits + rest) == Num(0 - DigitsValue(digits))
  {
    var s := "-" + digits + rest;
    assert s == ['-'] + (digits + rest);
    TrimStartKeeps(s);
    ParseSignedNegative(digits, rest);
  }


  /** `parseInt` reads back what `toString` printed, and ignores whatever
      follows the digits (so "12abc" gives 12). */
  lemma ParseIntReadsDecimal(n: int, rest: string)
    requires rest == [] || !IsDigit(rest[0])
    ensures ParseInt(Decimal(n) + rest) == Num(n)
  {
    if n < 0 {
      ParseIntOfNegativeDigitsThen(NatText(-n), rest);
    } else {
      ParseIntOfDigitsThen(NatText(n), rest);
    }
  }

  /** An optionally signed run of digits, as `Number` accepts it. */
  function SignedDigits(t: string): Value
  {
    if |t| > 0 && (t[0] == '-' || t[0] == '+') && |t| > 1 && AllDigits(t[1..]) then
      if t[0] == '-' then Num(0 - DigitsValue(t[1..])) else Num(DigitsValue(t[1..]))
    else if |t| > 0 && AllDigits(t) then Num(DigitsValue(t))
    else NaN
  }

  /** `Number(v)` on integral values; numeric text other than an optionally
      signed run of digits reads as `NaN`. */
  function ToNumber(v: Value): (r: Value)
    ensures r.Num? || r == NaN
  {
    match v
    case Undefined => NaN
    case Null => Num(0)
    case Bool(b) => Num(if b then 1 else 0)
    case Num(n) => v
    case NaN => NaN
    case Str(s) =>
      var t := Trim(s);
      if t == "" then Num(0) else SignedDigits(t)
  }

  /** `Number` reads back what `toString` printed. */
  lemma ToNumberReadsNatText(n: nat)
    ensures ToNumber(Str(NatText(n))) == Num(n)
  {
    var s := NatText(n);
    DigitIsNotSpace(s[0]);
    DigitIsNotSpace(s[|s| - 1]);
    TrimStartKeeps(s);
    TrimEndKeeps(s);
  }

  // ---------------------------------------------------------------------------
  // split and join

  /** `s.split(c)` for a one-character separator. */
  function Split(s: string, c: char): (parts: seq<string>)
    ensures |parts| >= 1
    decreases |s|
  {
    if s == [] then [""]
    else
      var rest := Split(s[1..], c);
      if s[0] == c then [""] + rest else [[s[0]] + rest[0]] + rest[1..]
  }

  /** `parts.join(sep)`. */
  function Join(parts: seq<string>, sep: string): string
    decreases |parts|
  {
    if |parts| == 0 then ""
    else if |parts| == 1 then parts[0]
    else parts[0] + sep + Join(parts[1..], sep)
  }

  /** Joining the parts of a split with the separator gives back the
      original text. */
  lemma {:induction false} SplitJoin(s: string, c: char)
    ensures Join(Split(s, c), [c]) == s
    decreases |s|
  {
    if s != [] {
      var rest := Split(s[1..], c);
      SplitJoin(s[1..], c);
      if s[0] == c {
        assert Split(s, c) == [""] + rest;
        assert ([""] + rest)[1..] == rest;
        assert s == [c] + s[1..];
      } else {
        var parts := Split(s, c);
        assert parts[1..] == rest[1..];
        if |rest| == 1 {
          assert s == [s[0]] + rest[0];
        } else {
          assert Join(rest, [c]) == rest[0] + [c] + Join(rest[1..], [c]);
          assert s == [s[0]] + s[1..];
        }
      }
    }
  }

  /** No part of a split contains the separator. */
  lemma {:induction false} SplitPartsLackSeparator(s: string, c: char)
    ensures forall i :: 0 <= i < |Split(s, c)| ==> c !in Split(s, c)[i]
    decreases |s|
  {
    if s != [] {
      var rest := Split(s[1..], c);
      SplitPartsLackSeparator(s[1..], c);
      var parts := Split(s, c);
      if s[0] == c {
        assert parts == [""] + rest;
        forall i | 0 <= i < |parts| ensures c !in parts[i] {
          if i > 0 {
            assert parts[i] == rest[i - 1];
          }
        }
      } else {
        assert parts == [[s[0]] + rest[0]] + rest[1..];
        forall i | 0 <= i < |parts| ensures c !in parts[i] {
          if i > 0 {
            assert parts[i] == rest[i];
          }
        }
      }
    }
  }

  /** Text without the separator splits into itself alone. */
  lemma {:induction false} SplitWithoutSeparator(s: string, c: char)
    requires c !in s
    ensures Split(s, c) == [s]
    decreases |s|
  {
    if s != [] {
      assert c !in s[1..];
      SplitWithoutSeparator(s[1..], c);
      assert [s[0]] + s[1..] == s;
    }
  }

  /** Splitting a word followed by the separator peels off that word. */
  lemma {:induction false} SplitAfterWord(w: string, c: char, t: string)
    requires c !in w
    ensures Split(w + [c] + t, c) == [w] + Split(t, c)
    decreases |w|
  {
    if w == [] {
      assert [c] + t == w + [c] + t;
      assert ([c] + t)[1..] == t;
    } else {
      assert (w + [c] + t)[1..] == w[1..] + [c] + t;
      SplitAfterWord(w[1..], c, t);
      assert [w[0]] + w[1..] == w;
    }
  }

  /** Where the `i`-th part starts in `Join(parts, sep)`. */
  function Offset(parts: seq<string>, sep: string, i: nat): nat
    requires i <= |parts|
    decreases i
  {
    if i == 0 then 0 else |parts[0]| + |sep| + Offset(parts[1..], sep, i - 1)
  }

  /** A slice inside the middle part of `a + m + z` is the slice of `m`. */
  lemma SliceInMiddle(a: string, m: string, z: string, o: nat, k: nat)
    requires o + k <= |m|
    ensures |a| + o + k <= |a + m + z|
    ensures (a + m + z)[|a| + o..|a| + o + k] == m[o..o + k]
  {
    var p := a + m + z;
    var q, r := p[|a| + o..|a| + o + k], m[o..o + k];
    forall i | 0 <= i < k
      ensures q[i] == r[i]
    {
      assert q[i] == p[|a| + o + i];
    }
    assert q == r;
  }

  /** Every part appears in the joined text at its offset. */
  lemma {:induction false} JoinPlacesPart(parts: seq<string>, sep: string, i: nat)
    requires i < |parts|
    ensures Offset(parts, sep, i) + |parts[i]| <= |Join(parts, sep)|
    ensures Join(parts, sep)[Offset(parts, sep, i)..Offset(parts, sep, i) + |parts[i]|] == parts[i]
    decreases i
  {
    var j := Join(parts, sep);
    if i == 0 {
      if |parts| > 1 {
        assert j == parts[0] + (sep + Join(parts[1..], sep));
      }
      assert j[0..|parts[0]|] == parts[0];
    } else {
      var tail := parts[1..];
      JoinPlacesPart(tail, sep, i - 1);
      var o := Offset(tail, sep, i - 1);
      var pre := parts[0] + sep;
      assert j == pre + Join(tail, sep);
      assert tail[i - 1] == parts[i];
      assert Offset(parts, sep, i) == |pre| + o;
      assert j[|pre| + o..|pre| + o + |parts[i]|] == Join(tail, sep)[o..o + |parts[i]|];
    }
  }

  /** The `i`-th part sits in `head + parts.join(sep) + tail` right after
      the head and the parts and separators before it. */
  lemma JoinPlacedInText(head: string, parts: seq<string>, sep: string, tail: string, i: nat)
    requires i < |parts|
    ensures var p := head + Join(parts, sep) + tail;
      var o := |head| + Offset(parts, sep, i);
      o + |parts[i]| <= |p| && p[o..o + |parts[i]|] == parts[i]
  {
    JoinPlacesPart(parts, sep, i);
    SliceInMiddle(head, Join(parts, sep), tail, Offset(parts, sep, i), |parts[i]|);
  }

  // ---------------------------------------------------------------------------
  // Case

  function LowerChar(c: char): char
  {
    if 'A' <= c <= 'Z' then (c as int + 32) as char else c
  }

  /** `s.toLowerCase()` on ASCII letters. */
  function Lower(s: string): (r: string)
    ensures |r| == |s|
    ensures forall i :: 0 <= i < |s| ==> r[i] == LowerChar(s[i])
  {
    seq(|s|, i requires 0 <= i < |s| => LowerChar(s[i]))
  }
}
