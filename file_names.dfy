/** The name deriver `generateFileName` (utilities/downLoadPage.js:6-11):
    hostname and pathname with every non-word character replaced by '-'. */
module FileNames {
  import opened Outcomes
  import opened Urls

  /** JavaScript's `\w` without the `u` flag: an ASCII letter, an ASCII
      digit or '_'. */
  predicate IsWordChar(c: char) {
    'a' <= c <= 'z' || 'A' <= c <= 'Z' || '0' <= c <= '9' || c == '_'
  }

  /** The characters a derived name is made of. */
  predicate IsNameChar(c: char) {
    IsWordChar(c) || c == '-'
  }

  predicate IsSafeName(s: string) {
    forall i :: 0 <= i < |s| ==> IsNameChar(s[i])
  }

  /** `s.replace(/\W/g, '-')`: every character that is not a word character
      becomes '-'; word characters stay where they are. */
  function Dashify(s: string): (r: string)
    ensures |r| == |s|
  {
    seq(|s|, i requires 0 <= i < |s| => if IsWordChar(s[i]) then s[i] else '-')
  }

  /** The replacement works character by character, so it distributes over
      concatenation. */
  lemma DashifyConcat(a: string, b: string)
    ensures Dashify(a + b) == Dashify(a) + Dashify(b)
  {
  }

  /** The text `generateFileName` transforms: the hostname, then the
      pathname unless it is exactly "/". */
  function NameSource(u: Url): string {
    u.hostname + (if u.pathname == "/" then "" else u.pathname)
  }

  /** `generateFileName` on an already parsed URL. */
  function GenerateFileName(u: Url): string {
    Dashify(u.hostname) + (if u.pathname == "/" then "" else Dashify(u.pathname))
  }

  /** The derived name holds only name characters; it is as long as the
      hostname plus the pathname (nothing for the root path "/"); and every
      word character of that text stays at its position while every other
      character becomes '-'. */
  lemma GenerateFileNameShape(u: Url)
    ensures IsSafeName(GenerateFileName(u))
    ensures |GenerateFileName(u)| == |u.hostname| + (if u.pathname == "/" then 0 else |u.pathname|)
    ensures forall i :: 0 <= i < |GenerateFileName(u)| ==>
      GenerateFileName(u)[i] == (if IsWordChar(NameSource(u)[i]) then NameSource(u)[i] else '-')
  {
    var r, src := GenerateFileName(u), NameSource(u);
    var h := |u.hostname|;
    forall i | 0 <= i < |r| ensures r[i] == (if IsWordChar(src[i]) then src[i] else '-') {
      if i < h {
        assert src[i] == u.hostname[i];
      } else {
        assert src[i] == u.pathname[i - h];
      }
    }
  }

  /** `generateFileName(url)` on a string: throws when `new URL(url)` does. */
  function GenerateFileNameOf(url: string, parse: Parser): (r: Result<string, UrlError>)
    ensures r.Failure? <==> parse(url).None?
    ensures r.Success? ==> IsSafeName(r.value)
  {
    match parse(url)
    case None => Failure(InvalidUrl)
    case Some(u) => GenerateFileNameShape(u); Success(GenerateFileName(u))
  }

  /** A derived name never holds a path separator or a dot, so it is one
      path segment without an extension of its own. */
  lemma SafeNameHasNoSeparator(s: string)
    requires IsSafeName(s)
    ensures '/' !in s && '.' !in s
  {
  }

  /** Replacing twice changes nothing more, and the strings the replacement
      leaves alone are exactly the safe names. */
  lemma DashifyFixedPoints(s: string)
    ensures Dashify(Dashify(s)) == Dashify(s)
    ensures Dashify(s) == s <==> IsSafeName(s)
  {
    var r := Dashify(s);
    if r == s {
      forall i | 0 <= i < |s| ensures IsNameChar(s[i]) {
        assert r[i] == s[i];
      }
    }
    if IsSafeName(s) {
      forall i | 0 <= i < |s| ensures r[i] == s[i] {
        assert IsNameChar(s[i]);
      }
    }
  }

  /** Two strings that agree wherever either of them holds a word
      character: they differ at most in which separator stands where. */
  predicate SameUpToSeparators(a: string, b: string) {
    |a| == |b| &&
    forall i :: 0 <= i < |a| ==> (IsWordChar(a[i]) || IsWordChar(b[i])) ==> a[i] == b[i]
  }

  /** Exactly when two URLs share a derived name: their hostname-and-path
      texts agree up to the choice of non-word characters. The name is thus
      not unique: `example.com/a-b` and `example.com/a.b` collide. */
  lemma SameNameIff(u: Url, v: Url)
    ensures GenerateFileName(u) == GenerateFileName(v) <==> SameUpToSeparators(NameSource(u), NameSource(v))
  {
    var a, b := NameSource(u), NameSource(v);
    var r, q := GenerateFileName(u), GenerateFileName(v);
    GenerateFileNameShape(u);
    GenerateFileNameShape(v);
    if r == q {
      forall i | 0 <= i < |a| && (IsWordChar(a[i]) || IsWordChar(b[i])) ensures a[i] == b[i] {
        assert r[i] == q[i];
      }
    }
    if SameUpToSeparators(a, b) {
      forall i | 0 <= i < |r| ensures r[i] == q[i] {
        assert IsWordChar(a[i]) || IsWordChar(b[i]) ==> a[i] == b[i];
      }
    }
  }

  /** The name of `http://example.com`: the root path adds nothing. */
  lemma RootUrlName()
    ensures GenerateFileName(HttpUrl("example.com", "/")) == "example-com"
  {
  }

  /** The name of `http://example.com/some/path`. */
  lemma PathUrlName()
    ensures GenerateFileName(HttpUrl("example.com", "/some/path")) == "example-com-some-path"
  {
  }

  /** The name of `http://example.com/foo@bar`: '@' becomes '-' too. */
  lemma SpecialCharUrlName()
    ensures GenerateFileName(HttpUrl("example.com", "/foo@bar")) == "example-com-foo-bar"
  {
  }

  /** Two different paths of one host that share their derived name. */
  lemma DistinctUrlsCollide()
    ensures HttpUrl("example.com", "/a-b") != HttpUrl("example.com", "/a.b")
    ensures GenerateFileName(HttpUrl("example.com", "/a-b")) == GenerateFileName(HttpUrl("example.com", "/a.b"))
  {
    var u, v := HttpUrl("example.com", "/a-b"), HttpUrl("example.com", "/a.b");
    assert u.pathname[2] != v.pathname[2];
    assert NameSource(u) == "example.com/a-b";
    assert NameSource(v) == "example.com/a.b";
    SameNameIff(u, v);
  }
}
