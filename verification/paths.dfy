/** POSIX path handling used by the routes: `os.path.splitext` and
    `pathlib.Path(p).name`. */
module Paths {
  import opened Maybe
  import opened Text

  predicate AllDots(s: string) {
    forall i :: 0 <= i < |s| ==> s[i] == '.'
  }

  /** Index where the last path component begins. */
  function BaseStart(p: string): (b: nat)
    ensures b <= |p| && '/' !in p[b..]
  {
    var b := RFind(p, '/') + 1;
    assert forall j :: b <= j < |p| ==> p[j] != '/';
    b
  }

  /** Independent statement of when `splitext` finds an extension: the last
      component has a dot that some non-dot character precedes. */
  ghost predicate HasExtension(p: string) {
    exists d, k :: BaseStart(p) <= k < d < |p| && p[d] == '.' && p[k] != '.'
  }

  /** Whether `splitext` cuts at `dot`: it lies after the last slash and a
      non-dot character precedes it in the last component. */
  predicate CutsAt(p: string, sep: int, dot: int)
    requires -1 <= sep < |p| && -1 <= dot < |p|
  {
    dot > sep && !AllDots(p[sep + 1..dot])
  }

  lemma CutMeansExtension(p: string)
    requires CutsAt(p, RFind(p, '/'), RFind(p, '.'))
    ensures HasExtension(p)
  {
    var sep := RFind(p, '/');
    var dot := RFind(p, '.');
    var i :| 0 <= i < |p[sep + 1..dot]| && p[sep + 1..dot][i] != '.';
    assert p[sep + 1 + i] != '.';
    assert BaseStart(p) <= sep + 1 + i < dot < |p|;
  }

  lemma ExtensionMeansCut(p: string)
    ensures HasExtension(p) ==> CutsAt(p, RFind(p, '/'), RFind(p, '.'))
  {
    if HasExtension(p) {
      var sep := RFind(p, '/');
      var dot := RFind(p, '.');
      var d, k :| BaseStart(p) <= k < d < |p| && p[d] == '.' && p[k] != '.';
      assert d <= dot;
      assert p[sep + 1..dot][k - sep - 1] == p[k];
    }
  }

  /** `os.path.splitext(p)` on POSIX: the extension runs from the last dot of
      the last component, unless only dots precede that dot in the component. */
  function SplitExt(p: string): (r: (string, string))
    ensures r.0 + r.1 == p
    ensures r.1 != [] <==> HasExtension(p)
    ensures r.1 != [] ==> r.1[0] == '.' && '.' !in r.1[1..] && '/' !in r.1
  {
    var sep := RFind(p, '/');
    var dot := RFind(p, '.');
    if CutsAt(p, sep, dot) then
      CutMeansExtension(p);
      var ext := p[dot..];
      assert ext[1..] == p[dot + 1..];
      assert p[..dot] + ext == p;
      (p[..dot], ext)
    else
      ExtensionMeansCut(p);
      assert p + [] == p;
      (p, [])
  }

  /** Appending text without `c` does not move the last `c`. */
  lemma {:induction false} RFindAppend(q: string, e: string, c: char)
    requires c !in e
    ensures RFind(q + e, c) == RFind(q, c)
    decreases |e|
  {
    if e != [] {
      var e' := e[..|e| - 1];
      assert (q + e)[..|q + e| - 1] == q + e';
      RFindAppend(q, e', c);
    } else {
      assert q + e == q;
    }
  }

  /** A file name whose last component has a non-dot character, followed by
      a dotted suffix with no further dot or slash, splits at that suffix. */
  lemma SplitExtOfNamed(q: string, e: string)
    requires |e| >= 1 && e[0] == '.' && '.' !in e[1..] && '/' !in e
    requires exists k :: BaseStart(q) <= k < |q| && q[k] != '.'
    ensures SplitExt(q + e) == (q, e)
  {
    var p := q + e;
    RFindAppend(q, e, '/');
    var k :| BaseStart(q) <= k < |q| && q[k] != '.';
    assert p[k] == q[k] && p[|q|] == '.';
    assert HasExtension(p);
    var r := SplitExt(p);
    assert |r.1| == |e|;
    assert r.1 == p[|q|..] == e;
    assert r.0 == p[..|q|] == q;
  }

  /** The path components `pathlib` keeps: empty and `.` parts are dropped. */
  function Components(parts: seq<string>): (cs: seq<string>)
    ensures forall k :: 0 <= k < |cs| ==> cs[k] != [] && cs[k] != "."
    decreases |parts|
  {
    if parts == [] then []
    else
      var rest := Components(parts[1..]);
      if parts[0] == [] || parts[0] == "." then rest else [parts[0]] + rest
  }

  /** `Path(p).name`: the last kept component, or the empty string. */
  function PathName(p: string): (n: string)
    ensures '/' !in n
  {
    var cs := Components(Split(p, '/'));
    if cs == [] then []
    else
      assert cs[|cs| - 1] in Split(p, '/') by { ComponentsAreParts(Split(p, '/')); }
      cs[|cs| - 1]
  }

  lemma {:induction false} ComponentsAreParts(parts: seq<string>)
    ensures forall c :: c in Components(parts) ==> c in parts
    decreases |parts|
  {
    if parts != [] {
      ComponentsAreParts(parts[1..]);
    }
  }

  /** The name of `dir/f` is `f` when `f` is a plain file name. */
  lemma NameInDirectory(dir: string, f: string)
    requires '/' !in dir && '/' !in f && f != [] && f != "."
    ensures PathName(dir + "/" + f) == f
  {
    var p := dir + "/" + f;
    assert p[|dir|] == '/';
    assert p[..|dir|] == dir;
    assert FindChar(p, '/') == Some(|dir|);
    assert p[|dir| + 1..] == f;
    assert FindChar(f, '/') == None;
    assert Split(p, '/') == [dir, f];
    assert Components([f]) == [f];
    assert [dir, f][1..] == [f];
  }
}
