/** The vertex probe: reading a vertex count out of the text `gltfpack -v`
    prints. Only the first line holding the marker `vertices:` is read; its
    value is the first whitespace-separated word after the marker, cut off at
    any later marker, converted by Python's `int()`. */
module Probe {
  import opened Maybe
  import opened Text
  import opened Numbers

  const Marker := "vertices:"

  /** What one probe yields: no marker line, an exception while reading the
      marker line (with its text), or a count. */
  datatype Reading = NoMarker | Malformed(error: string) | Count(n: int)

  /** Text of the `IndexError` raised by `split()[0]` on a blank value. */
  const IndexErrorText := "list index out of range"

  /** Index of the first line containing the marker, if any. */
  function FirstMarkerLine(lines: seq<string>): (r: Option<nat>)
    ensures r.Some? ==> r.value < |lines| && Contains(lines[r.value], Marker)
    ensures r.Some? ==> forall k :: 0 <= k < r.value ==> !Contains(lines[k], Marker)
    ensures r.None? <==> forall k :: 0 <= k < |lines| ==> !Contains(lines[k], Marker)
    decreases |lines|
  {
    if lines == [] then None
    else if IndexOf(lines[0], Marker).Some? then Some(0)
    else match FirstMarkerLine(lines[1..])
      case None => None
      case Some(k) => Some(k + 1)
  }

  /** The text before the first marker in `rest`, or all of `rest`. */
  function CutAtMarker(rest: string): (seg: string)
    ensures |seg| <= |rest| && seg == rest[..|seg|]
    ensures |seg| == |rest| || OccursAt(rest, Marker, |seg|)
    ensures !Contains(seg, Marker)
  {
    match IndexOf(rest, Marker)
    case None => rest
    case Some(j) =>
      var seg := rest[..j];
      assert !Contains(seg, Marker) by {
        forall k: nat | k <= |seg|
          ensures !OccursAt(seg, Marker, k)
        {
          if k + |Marker| <= |seg| {
            assert k < j;
            assert !OccursAt(rest, Marker, k);
            assert seg[k..k + |Marker|] == rest[k..k + |Marker|];
          }
        }
      }
      seg
  }

  /** `line.split(Marker)[1]`: the text after the first marker up to the next one. */
  function AfterMarker(line: string): (seg: string)
    requires Contains(line, Marker)
    ensures !Contains(seg, Marker)
    ensures IndexOf(line, Marker).Some?
    ensures var i := IndexOf(line, Marker).value;
      seg == CutAtMarker(line[i + |Marker|..])
  {
    var i := IndexOf(line, Marker).value;
    CutAtMarker(line[i + |Marker|..])
  }

  /** `int(line.split(Marker)[1].strip().split()[0])` with its two ways to raise. */
  function ReadMarkerLine(line: string): (r: Reading)
    requires Contains(line, Marker)
    ensures !r.NoMarker?
  {
    var words := Words(Strip(AfterMarker(line)));
    if words == [] then Malformed(IndexErrorText)
    else match ParseInt(words[0])
      case None => Malformed(InvalidLiteral(words[0]))
      case Some(n) => Count(n)
  }

  /** The probe over a whole standard output. */
  function ReadProbe(stdout: string): (r: Reading)
    ensures r.NoMarker? <==> forall k :: 0 <= k < |Lines(stdout)| ==> !Contains(Lines(stdout)[k], Marker)
  {
    var lines := Lines(stdout);
    match FirstMarkerLine(lines)
    case None => NoMarker
    case Some(k) => ReadMarkerLine(lines[k])
  }

  /** The marker cannot overlap itself: its first letter appears nowhere else in it. */
  lemma FirstMarkerAfter(pre: string, tail: string)
    requires !Contains(pre, Marker)
    ensures IndexOf(pre + Marker + tail, Marker) == Some(|pre|)
  {
    var s := pre + Marker + tail;
    assert s[|pre|..|pre| + |Marker|] == Marker;
    assert OccursAt(s, Marker, |pre|);
    forall j: nat | j < |pre|
      ensures !OccursAt(s, Marker, j)
    {
      if j + |Marker| <= |pre| {
        assert pre[j..j + |Marker|] == s[j..j + |Marker|];
        assert !OccursAt(pre, Marker, j);
      } else {
        assert s[|pre|] == 'v';
        assert Marker[|pre| - j] != 'v';
      }
    }
  }

  /** A text whose characters are spaces and digits holds no marker. */
  lemma NoMarkerInNumber(s: string)
    requires forall i :: 0 <= i < |s| ==> s[i] != 'v'
    ensures !Contains(s, Marker)
  {
    forall i: nat | i <= |s|
      ensures !OccursAt(s, Marker, i)
    {
      if i < |s| {
        assert s[i] != Marker[0];
      }
    }
  }

  /** A printed integer holds no whitespace, no line break and no `v`. */
  lemma PrintedIntChars(n: int)
    ensures NoSpace(IntToString(n)) && NoLineBreak(IntToString(n))
    ensures forall i :: 0 <= i < |IntToString(n)| ==> IntToString(n)[i] != 'v'
  {
    var d := IntToString(n);
    forall i | 0 <= i < |d|
      ensures d[i] == '-' || IsDigit(d[i])
    {
      if i == 0 && n >= 0 {
        assert d == NatToString(n);
      }
    }
  }

  /** A single word, stripped and split, is itself. */
  lemma {:induction false} WordsOfWord(w: string)
    requires w != [] && NoSpace(w)
    ensures Words(Strip(" " + w)) == [w]
  {
    var s := " " + w;
    assert TrimStart(w) == w;
    assert s[1..] == w;
    assert TrimStart(s) == w;
    assert TrimEnd(w) == w;
    assert Strip(s) == w;
    var e := WordEnd(w);
    assert e == |w|;
    assert w[..e] == w && w[e..] == [];
    assert Words(w) == [w] + Words([]);
  }

  /** The value text ends where a second marker begins, or at the end of the line. */
  lemma CutBeforeSecondMarker(seg: string, tail: string)
    requires !Contains(seg, Marker)
    requires tail == [] || OccursAt(tail, Marker, 0)
    ensures CutAtMarker(seg + tail) == seg
  {
    if tail == [] {
      assert seg + tail == seg;
    } else {
      assert tail == Marker + tail[|Marker|..];
      assert seg + tail == seg + Marker + tail[|Marker|..];
      FirstMarkerAfter(seg, tail[|Marker|..]);
    }
  }

  /** The text after the first marker of a line whose prefix holds none. */
  lemma AfterFirstMarker(pre: string, rest: string)
    requires !Contains(pre, Marker)
    ensures Contains(pre + Marker + rest, Marker)
    ensures AfterMarker(pre + Marker + rest) == CutAtMarker(rest)
  {
    var line := pre + Marker + rest;
    FirstMarkerAfter(pre, rest);
    assert line[|pre| + |Marker|..] == rest;
  }

  /** The marker line read when a count is printed after the marker, the
      number ending the line or running into a second marker. */
  lemma ReadPrintedLine(pre: string, n: int, tail: string)
    requires !Contains(pre, Marker)
    requires tail == [] || OccursAt(tail, Marker, 0)
    ensures Contains(pre + Marker + " " + IntToString(n) + tail, Marker)
    ensures ReadMarkerLine(pre + Marker + " " + IntToString(n) + tail) == Count(n)
  {
    var d := IntToString(n);
    var seg := " " + d;
    PrintedIntChars(n);
    assert forall i :: 0 <= i < |seg| ==> seg[i] != 'v';
    NoMarkerInNumber(seg);
    CutBeforeSecondMarker(seg, tail);
    assert pre + Marker + " " + d + tail == pre + Marker + (seg + tail);
    AfterFirstMarker(pre, seg + tail);
    WordsOfWord(d);
    ParseIntToString(n);
  }

  /** The first marker line is the one at `k` when `k` holds one and none before does. */
  lemma FirstMarkerLineAt(ls: seq<string>, k: nat)
    requires k < |ls| && Contains(ls[k], Marker)
    requires forall j :: 0 <= j < k ==> !Contains(ls[j], Marker)
    ensures FirstMarkerLine(ls) == Some(k)
  {
  }

  lemma NoLineBreakConcat(a: string, b: string)
    requires NoLineBreak(a) && NoLineBreak(b)
    ensures NoLineBreak(a + b)
  {
    forall i | 0 <= i < |a + b|
      ensures !IsLineBreak((a + b)[i])
    {
      if i < |a| { assert (a + b)[i] == a[i]; } else { assert (a + b)[i] == b[i - |a|]; }
    }
  }

  lemma UnbrokenLines(before: seq<string>, line: string, after: seq<string>)
    requires forall k :: 0 <= k < |before| ==> NoLineBreak(before[k])
    requires NoLineBreak(line)
    requires forall k :: 0 <= k < |after| ==> NoLineBreak(after[k])
    ensures forall k :: 0 <= k < |before + [line] + after| ==> NoLineBreak((before + [line] + after)[k])
  {
  }

  /** A printed marker line has no line break when its prefix has none. */
  lemma PrintedLineUnbroken(pre: string, n: int)
    requires NoLineBreak(pre)
    ensures NoLineBreak(pre + Marker + " " + IntToString(n))
  {
    PrintedIntChars(n);
    assert NoLineBreak(Marker + " ");
    NoLineBreakConcat(pre, Marker + " ");
    NoLineBreakConcat(pre + Marker + " ", IntToString(n));
    assert pre + Marker + " " + IntToString(n) == (pre + Marker + " ") + IntToString(n);
  }

  /** Round trip: a probe output of marker-free lines, then a line printing
      `vertices: n`, then any lines, reads back as `n`. */
  lemma ReadPrintedCount(before: seq<string>, pre: string, n: int, after: seq<string>)
    requires forall k :: 0 <= k < |before| ==> NoLineBreak(before[k]) && !Contains(before[k], Marker)
    requires NoLineBreak(pre) && !Contains(pre, Marker)
    requires forall k :: 0 <= k < |after| ==> NoLineBreak(after[k])
    ensures ReadProbe(Unlines(before + [pre + Marker + " " + IntToString(n)] + after)) == Count(n)
  {
    var line := pre + Marker + " " + IntToString(n);
    PrintedLineUnbroken(pre, n);
    UnbrokenLines(before, line, after);
    ReadPrintedLine(pre, n, []);
    assert line + [] == line;
    FirstMarkerAmong(before, line, after);
    ReadProbeOfLines(before + [line] + after, |before|);
  }

  /** A marker line after marker-free lines is the first marker line. */
  lemma FirstMarkerAmong(before: seq<string>, line: string, after: seq<string>)
    requires forall k :: 0 <= k < |before| ==> !Contains(before[k], Marker)
    requires Contains(line, Marker)
    ensures FirstMarkerLine(before + [line] + after) == Some(|before|)
  {
    var ls := before + [line] + after;
    assert ls[|before|] == line;
    assert forall j :: 0 <= j < |before| ==> ls[j] == before[j];
    FirstMarkerLineAt(ls, |before|);
  }

  /** Over text written line by line, the probe reads the first marker line. */
  lemma ReadProbeOfLines(ls: seq<string>, k: nat)
    requires forall j :: 0 <= j < |ls| ==> NoLineBreak(ls[j])
    requires k < |ls| && FirstMarkerLine(ls) == Some(k)
    ensures ReadProbe(Unlines(ls)) == ReadMarkerLine(ls[k])
  {
    LinesUnlines(ls);
  }

  /** Only the first marker line counts: lines appended after it change nothing. */
  lemma {:induction false} LaterLinesIgnored(ls: seq<string>, more: seq<string>)
    requires forall k :: 0 <= k < |ls| ==> NoLineBreak(ls[k])
    requires forall k :: 0 <= k < |more| ==> NoLineBreak(more[k])
    requires exists k :: 0 <= k < |ls| && Contains(ls[k], Marker)
    ensures ReadProbe(Unlines(ls + more)) == ReadProbe(Unlines(ls))
  {
    LinesUnlines(ls);
    LinesUnlines(ls + more);
    var k := FirstMarkerLine(ls).value;
    assert (ls + more)[k] == ls[k];
    assert FirstMarkerLine(ls + more) == Some(k);
  }
}
