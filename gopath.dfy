/** Go's slash-separated `path` package: `Clean`, `Join` of two elements, `Dir` and `Ext`.
    `Clean` is stated over the path's elements: empty and `.` elements are dropped, `..`
    removes the element before it when there is one (and is kept at the front of a relative
    path, dropped at the front of a rooted one), and an empty result is `.`. */
module GoPath {
  import Seqs

  /** The slash-separated elements of `p`; `Split("")` is `[""]`. */
  function Split(p: string): (r: seq<string>)
    ensures |r| > 0
    ensures forall k :: 0 <= k < |r| ==> '/' !in r[k]
  {
    if p == [] then [""]
    else
      var rest := Split(p[1..]);
      if p[0] == '/' then [""] + rest else [[p[0]] + rest[0]] + rest[1..]
  }

  /** The elements joined with `/` between them. */
  function JoinSegments(ss: seq<string>): string {
    if ss == [] then ""
    else if |ss| == 1 then ss[0]
    else ss[0] + "/" + JoinSegments(ss[1..])
  }

  lemma {:induction false} JoinSplit(p: string)
    ensures JoinSegments(Split(p)) == p
  {
    if p != [] {
      JoinSplit(p[1..]);
      var rest := Split(p[1..]);
      if p[0] != '/' {
        if |rest| > 1 {
          assert ([[p[0]] + rest[0]] + rest[1..])[1..] == rest[1..];
          assert JoinSegments(rest) == rest[0] + "/" + JoinSegments(rest[1..]);
        }
      } else {
        assert ([""] + rest)[1..] == rest;
      }
    }
  }

  lemma {:induction false} SplitNoSlash(p: string)
    requires '/' !in p
    ensures Split(p) == [p]
  {
    if p != [] {
      SplitNoSlash(p[1..]);
      assert [p[0]] + p[1..] == p;
    }
  }

  /** The elements of a path that starts with `c`. */
  lemma SplitCons(c: char, p: string)
    ensures Split([c] + p) ==
      if c == '/' then [""] + Split(p) else [[c] + Split(p)[0]] + Split(p)[1..]
  {
    assert ([c] + p)[0] == c && ([c] + p)[1..] == p;
  }

  /** Putting a character in front keeps `SplitAround`'s equation. */
  lemma SplitAroundCons(c: char, t: string, b: string)
    requires Split(t + "/" + b) == Split(t) + Split(b)
    ensures Split([c] + t + "/" + b) == Split([c] + t) + Split(b)
  {
    assert [c] + t + "/" + b == [c] + (t + "/" + b);
    SplitCons(c, t + "/" + b);
    SplitCons(c, t);
    if c == '/' {
      Seqs.AppendAssoc([""], Split(t), Split(b));
    } else {
      HeadMerge([c], Split(t), Split(b));
    }
  }

  lemma HeadMerge(c: string, ra: seq<string>, sb: seq<string>)
    requires |ra| > 0
    ensures [c + (ra + sb)[0]] + (ra + sb)[1..] == [c + ra[0]] + ra[1..] + sb
  {
    assert (ra + sb)[0] == ra[0];
    assert (ra + sb)[1..] == ra[1..] + sb;
  }

  lemma {:induction false} SplitAround(a: string, b: string)
    ensures Split(a + "/" + b) == Split(a) + Split(b)
  {
    if a == [] {
      assert a + "/" + b == ['/'] + b;
      SplitCons('/', b);
    } else {
      assert a == [a[0]] + a[1..];
      SplitAround(a[1..], b);
      SplitAroundCons(a[0], a[1..], b);
    }
  }

  /** The first element is empty exactly for the empty path and for rooted paths. */
  lemma SplitHead(p: string)
    ensures Split(p)[0] == "" <==> (p == [] || p[0] == '/')
  {
  }

  /** An element that `Clean` keeps as it is. */
  predicate NormalSegment(seg: string) {
    seg != "" && seg != "." && seg != ".." && '/' !in seg
  }

  /** A relative path with no empty, `.` or `..` element: no leading, trailing or doubled slash. */
  predicate IsCleanRelative(p: string) {
    var segs := Split(p);
    forall k :: 0 <= k < |segs| ==> NormalSegment(segs[k])
  }

  /** One element processed by `Clean` onto the elements kept so far. */
  function CleanStep(out: seq<string>, seg: string, rooted: bool): seq<string> {
    if seg == "" || seg == "." then out
    else if seg == ".." then
      if |out| > 0 && out[|out| - 1] != ".." then out[..|out| - 1]
      else if rooted then out
      else out + [".."]
    else out + [seg]
  }

  function CleanSegments(out: seq<string>, segs: seq<string>, rooted: bool): seq<string>
    decreases |segs|
  {
    if segs == [] then out else CleanSegments(CleanStep(out, segs[0], rooted), segs[1..], rooted)
  }

  /** `path.Clean`. */
  function Clean(p: string): string {
    var rooted := |p| > 0 && p[0] == '/';
    var kept := CleanSegments([], Split(p), rooted);
    var r := (if rooted then "/" else "") + JoinSegments(kept);
    if r == "" then "." else r
  }

  /** `path.Join(a, b)`. */
  function Join(a: string, b: string): string {
    if a == "" && b == "" then ""
    else if a == "" then Clean(b)
    else Clean(a + "/" + b)
  }

  /** `path.Dir`: everything up to the last slash, cleaned. */
  function Dir(p: string): string {
    var i := LastSlash(p);
    Clean(p[..i + 1])
  }

  /** `strings.LastIndex(p, "/")`. */
  function LastSlash(p: string): (i: int)
    ensures -1 <= i < |p|
    ensures i >= 0 ==> p[i] == '/'
    ensures forall k :: i < k < |p| ==> p[k] != '/'
  {
    if p == [] then -1
    else if p[|p| - 1] == '/' then |p| - 1
    else LastSlash(p[..|p| - 1])
  }

  /** `path.Ext`: the suffix from the last dot of the last element, or "" when it has none. */
  function Ext(p: string): (e: string)
    ensures e == "" || (e[0] == '.' && HasSuffixOf(p, e))
    ensures forall k :: 0 < k < |e| ==> e[k] != '.' && e[k] != '/'
  {
    if p == [] || p[|p| - 1] == '/' then ""
    else if p[|p| - 1] == '.' then "."
    else
      var e := Ext(p[..|p| - 1]);
      if e == "" then "" else e + [p[|p| - 1]]
  }

  predicate HasSuffixOf(p: string, e: string) {
    |e| <= |p| && p[|p| - |e|..] == e
  }

  lemma {:induction false} CleanSegmentsNormal(out: seq<string>, segs: seq<string>, rooted: bool)
    requires forall k :: 0 <= k < |segs| ==> NormalSegment(segs[k])
    ensures CleanSegments(out, segs, rooted) == out + segs
    decreases |segs|
  {
    if segs != [] {
      CleanSegmentsNormal(out + [segs[0]], segs[1..], rooted);
      assert out + [segs[0]] + segs[1..] == out + segs;
    }
  }

  /** A clean relative path is its own `Clean`. */
  lemma CleanOfCleanRelative(p: string)
    requires IsCleanRelative(p)
    ensures Clean(p) == p
  {
    var segs := Split(p);
    CleanSegmentsNormal([], segs, false);
    assert CleanSegments([], segs, false) == segs;
    JoinSplit(p);
    assert NormalSegment(segs[0]);
    SplitHead(p);
    assert "" + p == p;
  }

  /** Joining a clean relative directory with a plain file name just puts a slash between them. */
  lemma JoinCleanRelative(dir: string, name: string)
    requires IsCleanRelative(dir) && NormalSegment(name)
    ensures Join(dir, name) == dir + "/" + name
    ensures IsCleanRelative(dir + "/" + name)
  {
    SplitAround(dir, name);
    SplitNoSlash(name);
    var segs := Split(dir + "/" + name);
    assert segs == Split(dir) + [name];
    assert IsCleanRelative(dir + "/" + name);
    CleanOfCleanRelative(dir + "/" + name);
  }

  /** The directory of `dir/name` is `dir`, for a clean relative `dir` and a plain `name`. */
  lemma DirOfJoined(dir: string, name: string)
    requires IsCleanRelative(dir) && NormalSegment(name)
    ensures Dir(dir + "/" + name) == dir
  {
    var p := dir + "/" + name;
    assert p[|dir|] == '/';
    assert forall k :: |dir| < k < |p| ==> p[k] == name[k - |dir| - 1];
    var i := LastSlash(p);
    assert i >= |dir|;
    assert i == |dir|;
    assert p[..i + 1] == dir + "/" + "";
    SplitAround(dir, "");
    var segs := Split(dir);
    assert Split(p[..i + 1]) == segs + [""];
    CleanSegmentsNormal([], segs, false);
    assert CleanSegments([], segs + [""], false) == segs by {
      CleanSegmentsSnocEmpty([], segs, false);
    }
    JoinSplit(dir);
    SplitHead(dir);
  }

  lemma {:induction false} CleanSegmentsSnocEmpty(out: seq<string>, segs: seq<string>, rooted: bool)
    ensures CleanSegments(out, segs + [""], rooted) == CleanSegments(out, segs, rooted)
    decreases |segs|
  {
    if segs == [] {
      assert [] + [""] == [""];
    } else {
      assert (segs + [""])[1..] == segs[1..] + [""];
      CleanSegmentsSnocEmpty(CleanStep(out, segs[0], rooted), segs[1..], rooted);
    }
  }
}
