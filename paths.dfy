/** The two functions of Node's `path` module (POSIX flavour) that the page
    loader uses: `path.extname` and `path.join`. */
module Paths {
  import opened Outcomes

  /** `p` without its run of trailing '/' characters. */
  function TrimTrailingSlashes(p: string): string {
    if p != [] && p[|p| - 1] == '/' then TrimTrailingSlashes(p[..|p| - 1]) else p
  }

  /** Trimming keeps a prefix that does not end in '/' and drops only
      '/' characters. */
  lemma {:induction false} TrimTrailingSlashesSpec(p: string)
    ensures var r := TrimTrailingSlashes(p);
      && |r| <= |p| && r == p[..|r|]
      && (r == [] || r[|r| - 1] != '/')
      && forall i :: |r| <= i < |p| ==> p[i] == '/'
  {
    if p != [] && p[|p| - 1] == '/' {
      TrimTrailingSlashesSpec(p[..|p| - 1]);
    }
  }

  /** The part of `p` after its last '/', or all of `p` when it has none. */
  function LastSegment(p: string): string {
    if p == [] || p[|p| - 1] == '/' then [] else LastSegment(p[..|p| - 1]) + [p[|p| - 1]]
  }

  /** The last segment is a suffix of `p` without '/' that is either all of
      `p` or preceded by a '/'. */
  lemma {:induction false} LastSegmentSpec(p: string)
    ensures var r := LastSegment(p);
      && '/' !in r
      && |r| <= |p| && r == p[|p| - |r|..]
      && (|r| < |p| ==> p[|p| - |r| - 1] == '/')
  {
    if p != [] && p[|p| - 1] != '/' {
      var init := p[..|p| - 1];
      LastSegmentSpec(init);
      var r0 := LastSegment(init);
      var r := r0 + [p[|p| - 1]];
      assert LastSegment(p) == r;
      assert '/' !in r;
      assert p[|p| - |r|..] == init[|init| - |r0|..] + [p[|p| - 1]];
      if |r| < |p| {
        assert p[|p| - |r| - 1] == init[|init| - |r0| - 1];
      }
    }
  }

  /** The last portion of a path, as `path.extname` sees it: trailing
      separators are ignored. */
  function BaseName(p: string): string {
    LastSegment(TrimTrailingSlashes(p))
  }

  /** The index of the last '.' in `s`. */
  function LastDot(s: string): (r: Option<nat>)
    ensures r.Some? ==> r.value < |s|
  {
    if s == [] then None
    else if s[|s| - 1] == '.' then Some(|s| - 1)
    else LastDot(s[..|s| - 1])
  }

  /** None exactly when `s` has no '.'; otherwise a position of '.' with no
      '.' after it. */
  lemma {:induction false} LastDotSpec(s: string)
    ensures LastDot(s).None? <==> '.' !in s
    ensures var r := LastDot(s);
      r.Some? ==> r.value < |s| && s[r.value] == '.' && '.' !in s[r.value + 1..]
  {
    if s != [] && s[|s| - 1] != '.' {
      var init := s[..|s| - 1];
      LastDotSpec(init);
      assert s == init + [s[|s| - 1]];
      match LastDot(init)
      case Some(k) =>
        assert s[k + 1..] == init[k + 1..] + [s[|s| - 1]];
      case None =>
    }
  }

  /** The extension of one portion of a path: from its last '.' to its
      end; empty when it has no '.', when its only '.' is its first
      character (a dot file), and for "..". */
  function SegmentExtension(b: string): string {
    match LastDot(b)
    case None => ""
    case Some(k) => if k == 0 || b == ".." then "" else b[k..]
  }

  /** `path.extname(p)`. */
  function Extname(p: string): string {
    SegmentExtension(BaseName(p))
  }

  /** What the extension of a portion is: empty exactly when the portion
      has no '.' after its first character or is "..", and otherwise a
      proper suffix of it that starts at its last '.'. */
  lemma SegmentExtensionSpec(b: string)
    ensures SegmentExtension(b) != "" <==> (exists k :: 0 < k < |b| && b[k] == '.') && b != ".."
    ensures var r := SegmentExtension(b);
      r != "" ==> |r| < |b| && r == b[|b| - |r|..] && r[0] == '.' && '.' !in r[1..]
  {
    LastDotSpec(b);
    match LastDot(b)
    case None =>
      forall k | 0 < k < |b| ensures b[k] != '.' {
        assert b[k] in b;
      }
    case Some(k) =>
      if k == 0 {
        forall j | 0 < j < |b| ensures b[j] != '.' {
          assert b[j] == b[1..][j - 1];
        }
      } else if b != ".." {
        assert b[k..][1..] == b[k + 1..];
      }
  }

  /** `path.join(dir, name)` for a single file or directory name. */
  function Join(dir: string, name: string): string {
    dir + "/" + name
  }

  /** Joining puts `name` as the last portion of the path. */
  lemma {:induction false} JoinLastSegment(dir: string, name: string)
    requires '/' !in name
    ensures LastSegment(Join(dir, name)) == name
  {
    if name != [] {
      var init := name[..|name| - 1];
      assert Join(dir, name)[..|Join(dir, name)| - 1] == Join(dir, init);
      JoinLastSegment(dir, init);
      assert name == init + [name[|name| - 1]];
    }
  }

  /** `path.extname(p)` is empty or starts with '.' and holds no further
      '.' and no '/'; it is a proper suffix of the last portion of `p`. */
  lemma ExtnameShape(p: string)
    ensures var b, r := BaseName(p), Extname(p);
      r != "" ==> |r| < |b| && r == b[|b| - |r|..] && r[0] == '.' && '.' !in r[1..] && '/' !in r
  {
    LastSegmentSpec(TrimTrailingSlashes(p));
    SegmentExtensionNoSlash(BaseName(p));
  }

  lemma SegmentExtensionNoSlash(b: string)
    requires '/' !in b
    ensures var r := SegmentExtension(b);
      r != "" ==> |r| < |b| && r == b[|b| - |r|..] && r[0] == '.' && '.' !in r[1..] && '/' !in r
  {
    SegmentExtensionSpec(b);
  }

  /** A non-empty name without separators is the last portion of the
      path it is joined to. */
  lemma BaseNameOfJoin(dir: string, name: string)
    requires name != [] && '/' !in name
    ensures BaseName(Join(dir, name)) == name
  {
    var p := Join(dir, name);
    assert p[|p| - 1] == name[|name| - 1];
    assert TrimTrailingSlashes(p) == p;
    JoinLastSegment(dir, name);
  }

  /** The extension of a name that has no dot of its own, followed by an
      extension, is that extension. */
  lemma SegmentExtensionOfAppended(name: string, ext: string)
    requires name != [] && '.' !in name
    requires ext == [] || (ext[0] == '.' && '.' !in ext[1..])
    ensures SegmentExtension(name + ext) == ext
  {
    var b := name + ext;
    LastDotSpec(b);
    if ext == [] {
      assert b == name;
    } else {
      var k := |name|;
      assert b[k] == '.';
      assert b[k + 1..] == ext[1..];
      assert b != ".." by { assert b[0] == name[0]; }
      assert b[k..] == ext;
    }
  }

  /** `path.extname` returns exactly the extension appended to a name that
      has no separator and no dot of its own. */
  lemma ExtnameOfAppended(dir: string, name: string, ext: string)
    requires name != [] && '/' !in name && '.' !in name
    requires ext == [] || (ext[0] == '.' && '.' !in ext[1..] && '/' !in ext)
    ensures Extname(Join(dir, name + ext)) == ext
  {
    var b := name + ext;
    assert '/' !in b;
    BaseNameOfJoin(dir, b);
    SegmentExtensionOfAppended(name, ext);
  }
}
