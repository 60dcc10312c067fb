/** The slice of Python's `str` behaviour that the modelled code relies on:
    substring tests, `rfind`, `strip`, `split()`, `split(sep)`, `splitlines()`
    and ASCII `lower()`. Strings are `seq<char>` of Unicode scalar values. */
module Text {
  import opened Maybe

  /** `p` occurs in `s` starting at index `i`. */
  predicate OccursAt(s: string, p: string, i: nat) {
    i + |p| <= |s| && s[i..i + |p|] == p
  }

  /** Python's `p in s`. */
  predicate Contains(s: string, p: string) {
    exists i: nat :: i <= |s| && OccursAt(s, p, i)
  }

  /** First index at or after `from` where `p` occurs. */
  function IndexFrom(s: string, p: string, from: nat): (r: Option<nat>)
    requires from <= |s|
    ensures r.Some? ==> from <= r.value <= |s| && OccursAt(s, p, r.value)
    ensures r.Some? ==> forall j: nat :: from <= j < r.value ==> !OccursAt(s, p, j)
    ensures r.None? ==> forall j: nat :: from <= j <= |s| ==> !OccursAt(s, p, j)
    decreases |s| - from
  {
    if OccursAt(s, p, from) then Some(from)
    else if from == |s| then None
    else IndexFrom(s, p, from + 1)
  }

  /** Python's `s.find(p)`, with `None` for -1. */
  function IndexOf(s: string, p: string): (r: Option<nat>)
    ensures r.Some? ==> OccursAt(s, p, r.value)
    ensures r.Some? ==> forall j: nat :: j < r.value ==> !OccursAt(s, p, j)
    ensures r.None? <==> !Contains(s, p)
  {
    IndexFrom(s, p, 0)
  }

  /** Python's `s.rfind(c)` for a one-character needle: the last index of `c`, or -1. */
  function RFind(s: string, c: char): (r: int)
    ensures -1 <= r < |s|
    ensures 0 <= r ==> s[r] == c
    ensures forall j :: r < j < |s| ==> s[j] != c
    decreases |s|
  {
    if |s| == 0 then -1
    else if s[|s| - 1] == c then |s| - 1
    else RFind(s[..|s| - 1], c)
  }

  /** Python's `str.isspace()` for one character: the whitespace that
      `strip()` and `split()` with no argument remove. */
  predicate IsSpace(c: char) {
    c == ' ' || c == '\t' || c == '\n' || c == '\r' || c == '\U{B}' || c == '\U{C}'
    || ('\U{1C}' <= c <= '\U{1F}') || c == '\U{85}' || c == '\U{A0}' || c == '\U{1680}'
    || ('\U{2000}' <= c <= '\U{200A}') || c == '\U{2028}' || c == '\U{2029}'
    || c == '\U{202F}' || c == '\U{205F}' || c == '\U{3000}'
  }

  predicate AllSpace(s: string) {
    forall i :: 0 <= i < |s| ==> IsSpace(s[i])
  }

  predicate NoSpace(s: string) {
    forall i :: 0 <= i < |s| ==> !IsSpace(s[i])
  }

  /** The characters at which `str.splitlines()` ends a line. */
  predicate IsLineBreak(c: char) {
    c == '\n' || c == '\r' || c == '\U{B}' || c == '\U{C}' || c == '\U{1C}' || c == '\U{1D}'
    || c == '\U{1E}' || c == '\U{85}' || c == '\U{2028}' || c == '\U{2029}'
  }

  predicate NoLineBreak(s: string) {
    forall i :: 0 <= i < |s| ==> !IsLineBreak(s[i])
  }

  /** `s` without its leading whitespace. */
  function TrimStart(s: string): (r: string)
    ensures |r| <= |s| && r == s[|s| - |r|..]
    ensures forall i :: 0 <= i < |s| - |r| ==> IsSpace(s[i])
    ensures r == [] || !IsSpace(r[0])
    decreases |s|
  {
    if s != [] && IsSpace(s[0]) then TrimStart(s[1..]) else s
  }

  /** `s` without its trailing whitespace. */
  function TrimEnd(s: string): (r: string)
    ensures |r| <= |s| && r == s[..|r|]
    ensures forall i :: |r| <= i < |s| ==> IsSpace(s[i])
    ensures r == [] || !IsSpace(r[|r| - 1])
    decreases |s|
  {
    if s != [] && IsSpace(s[|s| - 1]) then TrimEnd(s[..|s| - 1]) else s
  }

  /** Python's `s.strip()`. */
  function Strip(s: string): string {
    TrimEnd(TrimStart(s))
  }

  /** Length of the leading run of non-whitespace characters. */
  function WordEnd(s: string): (n: nat)
    ensures n <= |s| && NoSpace(s[..n])
    ensures n < |s| ==> IsSpace(s[n])
    decreases |s|
  {
    if s == [] || IsSpace(s[0]) then 0 else 1 + WordEnd(s[1..])
  }

  /** Python's `s.split()` with no separator: the maximal runs of
      non-whitespace characters, in order. */
  function Words(s: string): (ws: seq<string>)
    ensures forall k :: 0 <= k < |ws| ==> ws[k] != [] && NoSpace(ws[k])
    decreases |s|
  {
    var t := TrimStart(s);
    if t == [] then []
    else
      var n := WordEnd(t);
      var w := t[..n];
      var rest := Words(t[n..]);
      assert w != [] && NoSpace(w);
      [w] + rest
  }

  /** `split()` finds no word exactly when the text is all whitespace. */
  lemma WordsEmpty(s: string)
    ensures Words(s) == [] <==> AllSpace(s)
  {
    var t := TrimStart(s);
    if t != [] {
      assert s[|s| - |t|] == t[0];
    }
  }

  /** Index of the first `c` in `s`, if any. */
  function FindChar(s: string, c: char): (r: Option<nat>)
    ensures r.Some? ==> r.value < |s| && s[r.value] == c && c !in s[..r.value]
    ensures r.None? <==> c !in s
    decreases |s|
  {
    if s == [] then None
    else if s[0] == c then Some(0)
    else match FindChar(s[1..], c)
      case None => None
      case Some(i) => Some(i + 1)
  }

  /** Python's `s.split(sep)` for a one-character separator: empty parts are kept. */
  function Split(s: string, sep: char): (parts: seq<string>)
    ensures |parts| >= 1
    ensures forall k :: 0 <= k < |parts| ==> sep !in parts[k]
    decreases |s|
  {
    match FindChar(s, sep)
    case None => [s]
    case Some(i) => [s[..i]] + Split(s[i + 1..], sep)
  }

  /** Python's `sep.join(parts)`. */
  function Join(parts: seq<string>, sep: char): string
    decreases |parts|
  {
    if parts == [] then []
    else if |parts| == 1 then parts[0]
    else parts[0] + [sep] + Join(parts[1..], sep)
  }

  /** Splitting at a separator loses nothing: joining the parts rebuilds the text. */
  lemma {:induction false} JoinSplit(s: string, sep: char)
    ensures Join(Split(s, sep), sep) == s
    decreases |s|
  {
    match FindChar(s, sep)
    case None =>
    case Some(i) =>
      var rest := Split(s[i + 1..], sep);
      JoinSplit(s[i + 1..], sep);
      assert Split(s, sep) == [s[..i]] + rest;
      assert s == s[..i] + [sep] + s[i + 1..];
  }

  /** The first separator of `x + [sep] + y` is that of `x`, or the one added. */
  lemma {:induction false} FindCharConcat(x: string, y: string, sep: char)
    ensures FindChar(x + [sep] + y, sep) == (if sep in x then FindChar(x, sep) else Some(|x|))
    decreases |x|
  {
    var s := x + [sep] + y;
    if x != [] && x[0] != sep {
      assert s[1..] == x[1..] + [sep] + y;
      FindCharConcat(x[1..], y, sep);
      assert sep in x <==> sep in x[1..] by { assert x == [x[0]] + x[1..]; }
    }
  }

  lemma ConcatAssoc(a: seq<string>, b: seq<string>, c: seq<string>)
    ensures a + (b + c) == (a + b) + c
  {
  }

  /** One step of `Split` at a known first separator. */
  lemma SplitAt(s: string, sep: char, i: nat)
    requires FindChar(s, sep) == Some(i)
    ensures Split(s, sep) == [s[..i]] + Split(s[i + 1..], sep)
  {
  }

  /** Splitting distributes over a separator placed between two texts. */
  lemma {:induction false} SplitConcat(x: string, y: string, sep: char)
    ensures Split(x + [sep] + y, sep) == Split(x, sep) + Split(y, sep)
    decreases |x|
  {
    var s := x + [sep] + y;
    FindCharConcat(x, y, sep);
    var f := FindChar(x, sep);
    if f.None? {
      assert s[..|x|] == x && s[|x| + 1..] == y;
      assert Split(s, sep) == [x] + Split(y, sep);
    } else {
      var i := f.value;
      var head, tail := x[..i], x[i + 1..];
      assert s[..i] == head;
      assert s[i + 1..] == tail + [sep] + y;
      SplitConcat(tail, y, sep);
      SplitAt(s, sep, i);
      SplitAt(x, sep, i);
      ConcatAssoc([head], Split(tail, sep), Split(y, sep));
    }
  }

  lemma StringAssoc(a: string, b: string, c: string)
    ensures a + b + c == a + (b + c)
  {
  }

  /** A separator-free piece between two separators is one of the parts. */
  lemma PartBetweenSeparators(before: string, part: string, after: string, sep: char)
    requires sep !in part
    ensures part in Split(before + [sep] + part + [sep] + after, sep)
  {
    var rest := part + [sep] + after;
    StringAssoc(before + [sep], part, [sep]);
    StringAssoc(before + [sep], part + [sep], after);
    assert before + [sep] + part + [sep] + after == before + [sep] + rest;
    SplitConcat(part, after, sep);
    SplitConcat(before, rest, sep);
    assert Split(part, sep) == [part];
    var front := Split(before, sep);
    var back := [part] + Split(after, sep);
    assert Split(before + [sep] + rest, sep) == front + back;
    assert (front + back)[|front|] == part;
  }

  /** Index of the first line-break character, or `|s|`. */
  function LineEnd(s: string): (i: nat)
    ensures i <= |s| && NoLineBreak(s[..i])
    ensures i < |s| ==> IsLineBreak(s[i])
    decreases |s|
  {
    if s == [] || IsLineBreak(s[0]) then 0 else 1 + LineEnd(s[1..])
  }

  /** Python's `s.splitlines()`: lines without their terminators, `\r\n`
      counting as one terminator and a final terminator opening no line. */
  function Lines(s: string): (ls: seq<string>)
    ensures forall k :: 0 <= k < |ls| ==> NoLineBreak(ls[k])
    decreases |s|
  {
    if s == [] then []
    else
      var i := LineEnd(s);
      if i == |s| then [s]
      else if s[i] == '\r' && i + 1 < |s| && s[i + 1] == '\n' then [s[..i]] + Lines(s[i + 2..])
      else [s[..i]] + Lines(s[i + 1..])
  }

  /** Lines written one after another, each ended by `\n`. */
  function Unlines(ls: seq<string>): string
    decreases |ls|
  {
    if ls == [] then [] else ls[0] + "\n" + Unlines(ls[1..])
  }

  /** Reading back text written line by line yields the same lines. */
  lemma {:induction false} LinesUnlines(ls: seq<string>)
    requires forall k :: 0 <= k < |ls| ==> NoLineBreak(ls[k])
    ensures Lines(Unlines(ls)) == ls
    decreases |ls|
  {
    if ls != [] {
      var l := ls[0];
      var rest := Unlines(ls[1..]);
      var s := l + "\n" + rest;
      assert s == Unlines(ls);
      assert s[..|l|] == l;
      assert s == l + ("\n" + rest);
      LineEndOfLine(l, "\n" + rest);
      assert LineEnd(s) == |l| && s[|l|] == '\n';
      assert s[|l| + 1..] == rest;
      assert Lines(s) == [l] + Lines(rest);
      LinesUnlines(ls[1..]);
    }
  }

  /** A line with no break, followed by a break, ends where the break begins. */
  lemma {:induction false} LineEndOfLine(l: string, tail: string)
    requires NoLineBreak(l)
    requires tail != [] && IsLineBreak(tail[0])
    ensures LineEnd(l + tail) == |l|
    decreases |l|
  {
    var s := l + tail;
    if l == [] {
      assert s == tail;
    } else {
      assert s[0] == l[0] && !IsLineBreak(l[0]);
      assert s[1..] == l[1..] + tail;
      assert NoLineBreak(l[1..]);
      LineEndOfLine(l[1..], tail);
    }
  }

  /** ASCII `lower()` of one character. */
  function LowerChar(c: char): char {
    if 'A' <= c <= 'Z' then (c as int + 32) as char else c
  }

  /** Python's `s.lower()` on the ASCII letters. */
  function Lower(s: string): (r: string)
    ensures |r| == |s|
    ensures forall i :: 0 <= i < |s| ==> r[i] == LowerChar(s[i])
  {
    seq(|s|, i requires 0 <= i < |s| => LowerChar(s[i]))
  }
}
