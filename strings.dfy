/** The Python `str` operations the plugin relies on, as functions on
    `seq<char>`: prefix and suffix tests, substring search, lexicographic order,
    whitespace handling, splitting, joining and decimal conversion. */
module Strings {
  import opened Wrappers

  predicate StartsWith(s: string, prefix: string) {
    |prefix| <= |s| && s[..|prefix|] == prefix
  }

  /** `s.endswith(suffix)`: true for the empty suffix. */
  predicate EndsWith(s: string, suffix: string) {
    |suffix| <= |s| && s[|s| - |suffix|..] == suffix
  }

  /** `sub in s`: `sub` occurs at some position of `s`. */
  predicate Contains(s: string, sub: string)
    decreases |s|
  {
    StartsWith(s, sub) || (|s| > 0 && Contains(s[1..], sub))
  }

  lemma {:induction false} ContainsAt(s: string, sub: string, i: nat)
    requires i + |sub| <= |s| && s[i..i + |sub|] == sub
    ensures Contains(s, sub)
    decreases i
  {
    if i > 0 {
      assert s[1..][i - 1..i - 1 + |sub|] == sub;
      ContainsAt(s[1..], sub, i - 1);
    }
  }

  lemma ContainsSelf(s: string)
    ensures Contains(s, s)
  {
    ContainsAt(s, s, 0);
  }

  lemma {:induction false} ContainsInConcat(a: string, s: string, b: string, sub: string)
    requires Contains(s, sub)
    ensures Contains(a + s + b, sub)
    decreases |s|
  {
    if StartsWith(s, sub) {
      assert (a + s + b)[|a|..|a| + |sub|] == sub;
      ContainsAt(a + s + b, sub, |a|);
    } else {
      ContainsInConcat(a + [s[0]], s[1..], b, sub);
      assert a + [s[0]] + s[1..] + b == a + s + b;
    }
  }

  /** Python's `<=` on `str`: code point by code point, a proper prefix first. */
  predicate LexLe(a: string, b: string)
    decreases |a|
  {
    if |a| == 0 then true
    else if |b| == 0 then false
    else if a[0] != b[0] then a[0] < b[0]
    else LexLe(a[1..], b[1..])
  }

  lemma {:induction false} LexLeTotal(a: string, b: string)
    ensures LexLe(a, b) || LexLe(b, a)
    decreases |a|
  {
    if |a| > 0 && |b| > 0 && a[0] == b[0] { LexLeTotal(a[1..], b[1..]); }
  }

  lemma {:induction false} LexLeReflexive(a: string)
    ensures LexLe(a, a)
    decreases |a|
  {
    if |a| > 0 { LexLeReflexive(a[1..]); }
  }

  lemma {:induction false} LexLeAntisymmetric(a: string, b: string)
    requires LexLe(a, b) && LexLe(b, a)
    ensures a == b
    decreases |a|
  {
    if |a| > 0 && |b| > 0 {
      LexLeAntisymmetric(a[1..], b[1..]);
      assert a == [a[0]] + a[1..] && b == [b[0]] + b[1..];
    }
  }

  lemma {:induction false} LexLeTransitive(a: string, b: string, c: string)
    requires LexLe(a, b) && LexLe(b, c)
    ensures LexLe(a, c)
    decreases |a|
  {
    if |a| > 0 && |b| > 0 && |c| > 0 && a[0] == b[0] && b[0] == c[0] {
      LexLeTransitive(a[1..], b[1..], c[1..]);
    }
  }

  /** A common prefix does not change the order. */
  lemma {:induction false} LexLeCommonPrefix(p: string, a: string, b: string)
    ensures LexLe(p + a, p + b) == LexLe(a, b)
    decreases |p|
  {
    if |p| > 0 {
      assert (p + a)[0] == p[0] == (p + b)[0];
      assert (p + a)[1..] == p[1..] + a && (p + b)[1..] == p[1..] + b;
      LexLeCommonPrefix(p[1..], a, b);
    } else {
      assert p + a == a && p + b == b;
    }
  }

  /** `str.isspace()` for one ASCII character: blank, tab, line feed, vertical
      tab, form feed, carriage return and the four separators 0x1c-0x1f. */
  predicate IsSpace(c: char) {
    c == ' ' || ('\t' <= c <= '\r') || ('\U{1c}' <= c <= '\U{1f}')
  }

  predicate NoSpace(s: string) {
    forall i :: 0 <= i < |s| ==> !IsSpace(s[i])
  }

  /** `s.lstrip()` */
  function DropSpace(s: string): (r: string)
    ensures |r| <= |s| && EndsWith(s, r)
    ensures r == [] || !IsSpace(r[0])
    decreases |s|
  {
    if |s| > 0 && IsSpace(s[0]) then DropSpace(s[1..]) else s
  }

  /** `s.rstrip()` */
  function DropSpaceEnd(s: string): (r: string)
    ensures |r| <= |s| && StartsWith(s, r)
    ensures r == [] || !IsSpace(r[|r| - 1])
    decreases |s|
  {
    if |s| > 0 && IsSpace(s[|s| - 1]) then DropSpaceEnd(s[..|s| - 1]) else s
  }

  /** `s.strip()` */
  function Strip(s: string): string {
    DropSpaceEnd(DropSpace(s))
  }

  /** The longest prefix of `s` without whitespace. */
  function TakeWord(s: string): (w: string)
    ensures StartsWith(s, w) && NoSpace(w)
    ensures |w| == |s| || IsSpace(s[|w|])
    decreases |s|
  {
    if |s| == 0 || IsSpace(s[0]) then [] else [s[0]] + TakeWord(s[1..])
  }

  /** `s.split()`: the maximal runs of non-whitespace, in order. */
  function Words(s: string): seq<string>
    decreases |s|
  {
    var t := DropSpace(s);
    if t == [] then []
    else
      var w := TakeWord(t);
      assert w != [] by { assert !IsSpace(t[0]); }
      [w] + Words(t[|w|..])
  }

  lemma {:induction false} TakeWordOfWord(w: string, rest: string)
    requires NoSpace(w)
    requires rest == [] || IsSpace(rest[0])
    ensures TakeWord(w + rest) == w
    decreases |w|
  {
    if |w| > 0 {
      assert (w + rest)[1..] == w[1..] + rest;
      TakeWordOfWord(w[1..], rest);
    }
  }

  lemma {:induction false} DropSpaceOfSpace(c: char, rest: string)
    requires IsSpace(c)
    ensures DropSpace([c] + rest) == DropSpace(rest)
  {
    assert ([c] + rest)[1..] == rest;
  }

  lemma WordsOfSpace(c: char, rest: string)
    requires IsSpace(c)
    ensures Words([c] + rest) == Words(rest)
  {
    DropSpaceOfSpace(c, rest);
  }

  /** A word followed by a blank and more text is split off as the first word. */
  lemma WordsCons(w: string, rest: string)
    requires w != [] && NoSpace(w)
    ensures Words(w + " " + rest) == [w] + Words(rest)
  {
    var s := w + " " + rest;
    assert s[0] == w[0];
    assert DropSpace(s) == s;
    TakeWordOfWord(w, " " + rest);
    assert w + " " + rest == w + (" " + rest);
    assert TakeWord(s) == w;
    assert s[|w|..] == [' '] + rest;
    WordsOfSpace(' ', rest);
    assert Words(s) == [w] + Words(s[|w|..]);
  }

  /** The first index of `c` in `s`. */
  function IndexOf(s: string, c: char): (r: Option<nat>)
    ensures r.None? <==> c !in s
    ensures r.Some? ==> r.value < |s| && s[r.value] == c && c !in s[..r.value]
    decreases |s|
  {
    if |s| == 0 then None
    else if s[0] == c then Some(0)
    else match IndexOf(s[1..], c)
      case None => None
      case Some(i) =>
        assert s[..i + 1] == [s[0]] + s[1..][..i];
        Some(i + 1)
  }

  /** The last index of `c` in `s`. */
  function LastIndexOf(s: string, c: char): (r: Option<nat>)
    ensures r.None? <==> c !in s
    ensures r.Some? ==> r.value < |s| && s[r.value] == c && c !in s[r.value + 1..]
    decreases |s|
  {
    if |s| == 0 then None
    else if s[|s| - 1] == c then Some(|s| - 1)
    else match LastIndexOf(s[..|s| - 1], c)
      case None => None
      case Some(i) =>
        assert s[i + 1..] == s[..|s| - 1][i + 1..] + [s[|s| - 1]];
        Some(i)
  }

  /** `s.rpartition(c)[0]`: the text before the last `c`, or "" when there is none. */
  function RPartitionHead(s: string, c: char): (r: string)
    ensures StartsWith(s, r)
    ensures c !in s ==> r == []
    ensures c in s ==> |r| < |s| && s[|r|] == c && c !in s[|r| + 1..]
  {
    match LastIndexOf(s, c)
    case None => []
    case Some(i) => s[..i]
  }

  /** `s.split(c)` for a one-character separator: never empty, one more part than separators. */
  function SplitOn(s: string, c: char): (parts: seq<string>)
    ensures |parts| >= 1
    ensures forall k :: 0 <= k < |parts| ==> c !in parts[k]
    decreases |s|
  {
    match IndexOf(s, c)
    case None => [s]
    case Some(i) => [s[..i]] + SplitOn(s[i + 1..], c)
  }

  /** `sep.join(parts)` for a one-character separator. */
  function JoinWith(sep: char, parts: seq<string>): string
  {
    if |parts| == 0 then []
    else if |parts| == 1 then parts[0]
    else parts[0] + [sep] + JoinWith(sep, parts[1..])
  }

  lemma JoinWithCons(sep: char, x: string, rest: seq<string>)
    requires |rest| >= 1
    ensures JoinWith(sep, [x] + rest) == x + [sep] + JoinWith(sep, rest)
  {
    assert ([x] + rest)[1..] == rest;
  }

  lemma SplitAround(s: string, c: char, i: nat)
    requires i < |s| && s[i] == c
    ensures s == s[..i] + [c] + s[i + 1..]
  {
  }

  /** Joining the parts of a split gives back the text. */
  lemma {:induction false} JoinSplit(s: string, c: char)
    ensures JoinWith(c, SplitOn(s, c)) == s
    decreases |s|
  {
    var r := IndexOf(s, c);
    if r.Some? {
      var i := r.value;
      var rest := SplitOn(s[i + 1..], c);
      JoinSplit(s[i + 1..], c);
      JoinWithCons(c, s[..i], rest);
      SplitAround(s, c, i);
    }
  }

  lemma IndexOfAfter(x: string, c: char, y: string)
    requires c !in x
    ensures IndexOf(x + [c] + y, c) == Some(|x|)
  {
    var s := x + [c] + y;
    assert s[|x|] == c;
  }

  /** Splitting a join of separator-free parts gives back the parts. */
  lemma {:induction false} SplitJoin(parts: seq<string>, c: char)
    requires |parts| >= 1
    requires forall k :: 0 <= k < |parts| ==> c !in parts[k]
    ensures SplitOn(JoinWith(c, parts), c) == parts
    decreases |parts|
  {
    if |parts| > 1 {
      var rest := JoinWith(c, parts[1..]);
      var s := parts[0] + [c] + rest;
      assert JoinWith(c, parts) == s;
      IndexOfAfter(parts[0], c, rest);
      assert s[..|parts[0]|] == parts[0];
      assert s[|parts[0]| + 1..] == rest;
      assert SplitOn(s, c) == [parts[0]] + SplitOn(rest, c);
      SplitJoin(parts[1..], c);
      assert parts == [parts[0]] + parts[1..];
    }
  }

  /** `s[:i] + s[i+1:]` split at the first `c`: `s.split(c, 1)` when `c in s`. */
  function SplitFirst(s: string, c: char): (kv: (string, string))
    requires c in s
    ensures kv.0 + [c] + kv.1 == s && c !in kv.0
  {
    var i := IndexOf(s, c).value;
    assert s == s[..i] + [c] + s[i + 1..];
    (s[..i], s[i + 1..])
  }

  /** Every occurrence of `a` in `s` replaced by `b` (`s.replace(a, b)` on characters). */
  function ReplaceChar(s: string, a: char, b: char): (r: string)
    ensures |r| == |s|
    ensures forall i :: 0 <= i < |s| ==> r[i] == (if s[i] == a then b else s[i])
  {
    if |s| == 0 then [] else [if s[0] == a then b else s[0]] + ReplaceChar(s[1..], a, b)
  }

  /** `s.lower()` on ASCII letters; other characters are kept. */
  function LowerAscii(s: string): (r: string)
    ensures |r| == |s|
    ensures forall i :: 0 <= i < |s| ==> r[i] == (if 'A' <= s[i] <= 'Z' then s[i] - 'A' + 'a' else s[i])
  {
    if |s| == 0 then []
    else [if 'A' <= s[0] <= 'Z' then s[0] - 'A' + 'a' else s[0]] + LowerAscii(s[1..])
  }

  /** `"".join(parts)` */
  function Concat(parts: seq<string>): string
  {
    if |parts| == 0 then [] else Concat(parts[..|parts| - 1]) + parts[|parts| - 1]
  }

  lemma {:induction false} ConcatAppend(a: seq<string>, b: seq<string>)
    ensures Concat(a + b) == Concat(a) + Concat(b)
    decreases |b|
  {
    if |b| > 0 {
      assert (a + b)[..|a + b| - 1] == a + b[..|b| - 1];
      ConcatAppend(a, b[..|b| - 1]);
    } else {
      assert a + b == a;
    }
  }

  /** Joining a list is joining its first `n` parts, then the rest. */
  lemma ConcatTakeDrop(parts: seq<string>, n: int)
    requires 0 <= n <= |parts|
    ensures Concat(parts) == Concat(parts[..n]) + Concat(parts[n..])
  {
    assert parts[..n] + parts[n..] == parts;
    ConcatAppend(parts[..n], parts[n..]);
  }

  lemma AppendChain(whole: string, front: string, x: string, y: string, z: string)
    requires whole == front + z && front == x + y
    ensures whole == x + y + z
  {
  }

  predicate IsDigit(c: char) { '0' <= c <= '9' }

  predicate AllDigits(s: string) {
    forall i :: 0 <= i < |s| ==> IsDigit(s[i])
  }

  /** `str(n)` for a natural number. */
  function NatToString(n: nat): (s: string)
    ensures s != [] && AllDigits(s)
    ensures |s| > 1 ==> s[0] != '0'
  {
    if n < 10 then [('0' as int + n) as char]
    else NatToString(n / 10) + [('0' as int + n % 10) as char]
  }

  /** `str(i)` for an integer. */
  function IntToString(i: int): string {
    if i < 0 then "-" + NatToString(-i) else NatToString(i)
  }

  /** The value of a string of decimal digits. */
  function DigitsValue(s: string): nat
    requires AllDigits(s)
  {
    if |s| == 0 then 0 else 10 * DigitsValue(s[..|s| - 1]) + (s[|s| - 1] as int - '0' as int)
  }

  /** `int(s)` for an optional sign followed by decimal digits; anything else is a `ValueError`. */
  function ParseInt(s: string): (r: Result<int, PyError>)
    ensures r.Ok? <==> (s != [] && AllDigits(s)) || (|s| > 1 && (s[0] == '+' || s[0] == '-') && AllDigits(s[1..]))
  {
    if s != [] && AllDigits(s) then Ok(DigitsValue(s))
    else if |s| > 1 && s[0] == '+' && AllDigits(s[1..]) then Ok(DigitsValue(s[1..]))
    else if |s| > 1 && s[0] == '-' && AllDigits(s[1..]) then Ok(0 - DigitsValue(s[1..]))
    else Err(ValueError("invalid literal for int() with base 10: " + s))
  }

  /** Reading back what `str` wrote gives the number. */
  lemma {:induction false} DigitsValueOfNatToString(n: nat)
    ensures DigitsValue(NatToString(n)) == n
  {
    if n >= 10 {
      DigitsValueOfNatToString(n / 10);
      var s := NatToString(n);
      assert s[..|s| - 1] == NatToString(n / 10);
    }
  }

  lemma ParseIntOfNatToString(n: nat)
    ensures ParseInt(NatToString(n)) == Ok(n)
  {
    DigitsValueOfNatToString(n);
  }
}
