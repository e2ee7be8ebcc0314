/** The POSIX path helpers of Deno's std/path that installers.ts uses
    (basename, extname, join), as string functions. The facts that quantify
    over positions are lemmas, so that the functions stay cheap to unfold. */
module Paths {
  import opened Wrappers

  /** The index just after the last '/' of s, or 0 when s has none. */
  function SegmentStart(s: string): (k: nat)
    ensures k <= |s|
    ensures 0 < k ==> s[k - 1] == '/'
  {
    if s == [] then 0
    else if s[|s| - 1] == '/' then |s|
    else SegmentStart(s[..|s| - 1])
  }

  /** No '/' follows the segment start. */
  lemma {:induction false} SegmentHasNoSlash(s: string)
    ensures forall i :: SegmentStart(s) <= i < |s| ==> s[i] != '/'
  {
    if s != [] && s[|s| - 1] != '/' {
      SegmentHasNoSlash(s[..|s| - 1]);
    }
  }

  /** s without its trailing run of '/'. */
  function TrimTrailingSlashes(s: string): (t: string)
    ensures t <= s
    ensures t == [] || t[|t| - 1] != '/'
  {
    if s != [] && s[|s| - 1] == '/' then TrimTrailingSlashes(s[..|s| - 1]) else s
  }

  /** What trimming removes is slashes only. */
  lemma {:induction false} TrimRemovesOnlySlashes(s: string)
    ensures forall i :: |TrimTrailingSlashes(s)| <= i < |s| ==> s[i] == '/'
  {
    if s != [] && s[|s| - 1] == '/' {
      TrimRemovesOnlySlashes(s[..|s| - 1]);
    }
  }

  /** The last path segment: trailing separators are ignored, and the
      result is what follows the last remaining '/'. */
  function Basename(path: string): (b: string)
    ensures |b| <= |path|
    ensures path == [] || path[|path| - 1] != '/' ==>
              b == path[|path| - |b|..] && (|b| == |path| || path[|path| - |b| - 1] == '/')
  {
    var t := TrimTrailingSlashes(path);
    var k := SegmentStart(t);
    assert forall i :: 0 <= i < |t[k..]| ==> t[k..][i] == t[k + i];
    t[k..]
  }

  /** A basename holds no separator. */
  lemma BasenameHasNoSlash(path: string)
    ensures '/' !in Basename(path)
  {
    var t := TrimTrailingSlashes(path);
    SegmentHasNoSlash(t);
    assert forall i :: 0 <= i < |t[SegmentStart(t)..]| ==> t[SegmentStart(t)..][i] == t[SegmentStart(t) + i];
  }

  /** The position of the last '.' of s, if any. */
  function LastDot(s: string): (r: Option<nat>)
    ensures r.Some? ==> r.value < |s| && s[r.value] == '.'
  {
    if s == [] then None
    else if s[|s| - 1] == '.' then Some(|s| - 1)
    else LastDot(s[..|s| - 1])
  }

  /** No '.' follows the last dot, and without one there is none at all. */
  lemma {:induction false} LastDotIsLast(s: string)
    ensures LastDot(s).Some? ==> forall i :: LastDot(s).value < i < |s| ==> s[i] != '.'
    ensures LastDot(s).None? ==> forall i :: 0 <= i < |s| ==> s[i] != '.'
  {
    if s != [] && s[|s| - 1] != '.' {
      LastDotIsLast(s[..|s| - 1]);
    }
  }

  /** The extension of the last segment: from its last '.' to its end,
      empty when the segment has no '.', starts with its only '.', or is "..". */
  function Extname(path: string): (e: string)
    ensures |e| <= |TrimTrailingSlashes(path)| <= |path|
    ensures e == TrimTrailingSlashes(path)[|TrimTrailingSlashes(path)| - |e|..]
  {
    var t := TrimTrailingSlashes(path);
    var k := SegmentStart(t);
    var segment := t[k..];
    match LastDot(segment)
    case None => ""
    case Some(d) =>
      if d == 0 || segment == ".." then ""
      else
        assert segment[d..] == t[k + d..];
        segment[d..]
  }

  /** Only the last suffix of a double extension is the extension. */
  lemma ExtnameOfArchive()
    ensures Extname("d/a.tar.gz") == ".gz"
  {
    var p := "d/a.tar.gz";
    assert TrimTrailingSlashes(p) == p;
    assert SegmentStart("d/") == 2;
    assert "d/a"[..2] == "d/";
    assert "d/a."[..3] == "d/a";
    assert "d/a.t"[..4] == "d/a.";
    assert "d/a.ta"[..5] == "d/a.t";
    assert "d/a.tar"[..6] == "d/a.ta";
    assert "d/a.tar."[..7] == "d/a.tar";
    assert "d/a.tar.g"[..8] == "d/a.tar.";
    assert p[..9] == "d/a.tar.g";
    assert SegmentStart(p) == 2;
    assert p[2..] == "a.tar.gz";
    assert "a.tar.g"[..6] == "a.tar.";
    assert "a.tar.gz"[..7] == "a.tar.g";
    assert LastDot("a.tar.gz") == Some(5);
    assert "a.tar.gz"[5..] == ".gz";
  }

  /** An extension is empty, or a '.' followed by no separator and no other '.'. */
  lemma ExtnameShape(path: string)
    ensures var e := Extname(path);
            e == [] || (e[0] == '.' && '/' !in e && '.' !in e[1..])
  {
    var t := TrimTrailingSlashes(path);
    var k := SegmentStart(t);
    var segment := t[k..];
    match LastDot(segment)
    case None =>
    case Some(d) =>
      if d != 0 && segment != ".." {
        var e := segment[d..];
        assert Extname(path) == e;
        SegmentHasNoSlash(t);
        LastDotIsLast(segment);
        forall i | 0 <= i < |e|
          ensures e[i] != '/'
        {
          assert e[i] == t[k + d + i];
        }
        forall j | 0 <= j < |e[1..]|
          ensures e[1..][j] != '.'
        {
          assert e[1..][j] == segment[d + 1 + j];
        }
      }
  }

  /** join(a, b) for two segments: empty segments are dropped and the rest
      joined by '/'; an empty join is ".". */
  function Join(a: string, b: string): (r: string)
    ensures r != []
    ensures a != [] && b != [] ==> |r| == |a| + 1 + |b| && r[|a|] == '/'
    ensures a != [] && b != [] ==> r[..|a|] == a && r[|a| + 1..] == b
    ensures a == [] && b != [] ==> r == b
    ensures a != [] && b == [] ==> r == a
  {
    if a == [] && b == [] then "."
    else if a == [] then b
    else if b == [] then a
    else a + "/" + b
  }

  /** Text without a separator appended to a path leaves its segment start where it was. */
  lemma {:induction false} SegmentStartSkipsSegment(pre: string, b: string)
    requires '/' !in b
    ensures SegmentStart(pre + b) == SegmentStart(pre)
  {
    if b == [] {
      assert pre + b == pre;
    } else {
      var b' := b[..|b| - 1];
      assert (pre + b)[..|pre + b| - 1] == pre + b';
      assert (pre + b)[|pre + b| - 1] == b[|b| - 1] && b[|b| - 1] in b;
      assert '/' !in b' by {
        forall i | 0 <= i < |b'| ensures b'[i] != '/' {
          assert b'[i] == b[i];
        }
      }
      SegmentStartSkipsSegment(pre, b');
    }
  }

  /** Joining a directory and a file name gives a path whose basename is that name. */
  lemma JoinKeepsLastSegment(a: string, b: string)
    requires b != [] && '/' !in b
    ensures Basename(Join(a, b)) == b
  {
    var pre := if a == [] then "" else a + "/";
    var p := Join(a, b);
    assert p == pre + b;
    SegmentStartSkipsSegment(pre, b);
    assert p[|p| - 1] == b[|b| - 1];
    assert TrimTrailingSlashes(p) == p;
    assert SegmentStart(pre) == |pre|;
    assert p[|pre|..] == b;
  }
}
