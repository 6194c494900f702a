/** The image loop of `downloadPage` (utilities/downLoadPage.js:31-43): every
    `img` element of the page, in document order, gets its `src` replaced by
    the local path of its copy, and one download job is recorded for it. */
module Rewrite {
  import opened Outcomes
  import opened Paths
  import opened Layout

  /** An element of the parsed page, in document order: its tag name and
      its attributes. Text and nesting are not looked at by the loop. */
  datatype Element = Element(tag: string, attrs: map<string, string>)

  /** A scheduled download: fetch `url` and write the bytes to `path`. */
  datatype Job = Job(url: string, path: string)

  /** What the loop reads besides the document: the names planned at lines
      14-18, and how an image is named from its `src` attribute (lines
      35-36, `ImgTarget` applied to the page URL, which is what `downloadPage`
      supplies). */
  datatype Context = Context(plan: Plan, name: Option<string> -> Option<Target>)

  predicate IsImg(e: Element) {
    e.tag == "img"
  }

  function Src(e: Element): Option<string> {
    if "src" in e.attrs then Some(e.attrs["src"]) else None
  }

  /** The image URL and file name of an element, None when naming throws. */
  function TargetOf(e: Element, c: Context): Option<Target> {
    c.name(Src(e))
  }

  /** An `img` element whose callback throws, which ends the loop. */
  predicate Stops(e: Element, c: Context) {
    IsImg(e) && TargetOf(e, c).None?
  }

  /** `$(e).attr('src', v)`: the element with `src` set to `v`. */
  function SetSrc(e: Element, v: string): Element {
    e.(attrs := e.attrs["src" := v])
  }

  /** Line 38 for one element: an `img` gets `src` set to the local path
      `<base>_files/<imgName>`; every other element stays as it is. */
  function RewriteElement(e: Element, c: Context): Element {
    if !IsImg(e) then e
    else match TargetOf(e, c)
      case Some(t) => SetSrc(e, Join(c.plan.resourcesDir, t.name))
      case None => e
  }

  /** Lines 37 and 40-42 for one element: the download of an `img`. */
  function JobsFor(e: Element, c: Context): seq<Job> {
    if !IsImg(e) then []
    else match TargetOf(e, c)
      case Some(t) => [Job(t.url, Join(c.plan.resourcesPath, t.name))]
      case None => []
  }

  /** The document after the loop has visited all of `s`. */
  function RewriteAll(s: seq<Element>, c: Context): (r: seq<Element>)
    ensures |r| == |s|
  {
    if s == [] then [] else RewriteAll(s[..|s| - 1], c) + [RewriteElement(s[|s| - 1], c)]
  }

  /** The download jobs recorded while visiting `s`, in order. */
  function JobsOf(s: seq<Element>, c: Context): seq<Job> {
    if s == [] then [] else JobsOf(s[..|s| - 1], c) + JobsFor(s[|s| - 1], c)
  }

  /** The number of `img` elements in `s`. */
  function CountImgs(s: seq<Element>): nat {
    if s == [] then 0 else CountImgs(s[..|s| - 1]) + (if IsImg(s[|s| - 1]) then 1 else 0)
  }

  /** The position of the first `img` whose callback throws, if any. */
  function FirstStop(s: seq<Element>, c: Context): (r: Option<nat>)
    ensures r.None? <==> forall i :: 0 <= i < |s| ==> !Stops(s[i], c)
    ensures r.Some? ==> r.value < |s| && Stops(s[r.value], c)
    ensures r.Some? ==> forall i :: 0 <= i < r.value ==> !Stops(s[i], c)
  {
    if s == [] then None
    else if Stops(s[0], c) then Some(0)
    else match FirstStop(s[1..], c)
      case None => None
      case Some(k) => Some(k + 1)
  }

  /** Visiting one more element appends its rewrite and its jobs. */
  lemma VisitNext(s: seq<Element>, c: Context, i: nat)
    requires i < |s|
    ensures RewriteAll(s[..i + 1], c) == RewriteAll(s[..i], c) + [RewriteElement(s[i], c)]
    ensures JobsOf(s[..i + 1], c) == JobsOf(s[..i], c) + JobsFor(s[i], c)
  {
    assert s[..i + 1][..i] == s[..i];
  }

  lemma ReplaceFirstOfRest<T>(done: seq<T>, rest: seq<T>, x: T)
    requires |rest| > 0
    ensures (done + rest)[|done| := x] == (done + [x]) + rest[1..]
  {
  }

  /** One more element visited: rewriting position `i` of a document whose
      first `i` elements are done extends the done part by one. */
  lemma WalkStep(s: seq<Element>, c: Context, i: nat, before: seq<Element>)
    requires i < |s| && before == RewriteAll(s[..i], c) + s[i..]
    ensures before[i := RewriteElement(s[i], c)] == RewriteAll(s[..i + 1], c) + s[i + 1..]
    ensures JobsOf(s[..i + 1], c) == JobsOf(s[..i], c) + JobsFor(s[i], c)
  {
    VisitNext(s, c, i);
    ReplaceFirstOfRest(RewriteAll(s[..i], c), s[i..], RewriteElement(s[i], c));
    assert s[i..][1..] == s[i + 1..];
  }

  /** The first `img` that stops the walk is the one after a run of
      elements that do not. */
  lemma FirstStopAt(s: seq<Element>, c: Context, i: nat)
    requires i < |s| && Stops(s[i], c)
    requires forall j :: 0 <= j < i ==> !Stops(s[j], c)
    ensures FirstStop(s, c) == Some(i)
  {
  }

  /** The `each` callback (lines 35-42) for the `img` at position `i`: it
      names the image, points `src` at the local copy and returns the job;
      when either `new URL` throws it changes nothing and returns None. */
  method VisitImg(doc: array<Element>, i: nat, c: Context) returns (job: Option<Job>)
    requires i < doc.Length && IsImg(doc[i])
    modifies doc
    ensures job.None? <==> Stops(old(doc[i]), c)
    ensures job.None? ==> doc[..] == old(doc[..])
    ensures job.Some? ==> doc[..] == old(doc[..])[i := RewriteElement(old(doc[i]), c)]
    ensures job.Some? ==> [job.value] == JobsFor(old(doc[i]), c)
  {
    var e := doc[i];
    var target := TargetOf(e, c);
    if target.None? {
      return None;
    }
    var imgName := target.value.name;
    doc[i] := SetSrc(e, Join(c.plan.resourcesDir, imgName));
    job := Some(Job(target.value.url, Join(c.plan.resourcesPath, imgName)));
  }

  /** One step of `$('img').each`: the element at `i` is visited when it
      is an `img` and passed over otherwise. `s` is the document before the
      loop, whose first `i` elements are done. */
  method Step(doc: array<Element>, i: nat, c: Context, ghost s: seq<Element>) returns (found: seq<Job>, stop: bool)
    requires i < doc.Length == |s| && doc[..] == RewriteAll(s[..i], c) + s[i..]
    modifies doc
    ensures stop == Stops(s[i], c)
    ensures stop ==> doc[..] == old(doc[..])
    ensures !stop ==> doc[..] == RewriteAll(s[..i + 1], c) + s[i + 1..]
    ensures found == JobsFor(s[i], c)
  {
    ghost var before := doc[..];
    assert before[i] == s[i];
    found, stop := [], false;
    if IsImg(doc[i]) {
      var job := VisitImg(doc, i, c);
      if job.None? {
        return [], true;
      }
      found := [job.value];
    }
    WalkStep(s, c, i, before);
  }

  /** The loop, in place on the document. When every `img` can be named,
      the document becomes `RewriteAll` of the old one and the jobs are
      `JobsOf` it. When the callback throws at position `k`, the elements
      before `k` are rewritten, the rest are untouched, and the jobs of the
      elements before `k` have already been recorded. */
  method RewriteImages(doc: array<Element>, c: Context) returns (jobs: seq<Job>, stoppedAt: Option<nat>)
    modifies doc
    ensures stoppedAt == FirstStop(old(doc[..]), c)
    ensures var k := if stoppedAt.Some? then stoppedAt.value else doc.Length;
      && k <= doc.Length
      && doc[..] == RewriteAll(old(doc[..])[..k], c) + old(doc[..])[k..]
      && jobs == JobsOf(old(doc[..])[..k], c)
  {
    ghost var s := doc[..];
    jobs := [];
    var i := 0;
    while i < doc.Length
      invariant 0 <= i <= doc.Length
      invariant forall j :: 0 <= j < i ==> !Stops(s[j], c)
      invariant doc[..] == RewriteAll(s[..i], c) + s[i..]
      invariant jobs == JobsOf(s[..i], c)
    {
      var found, stop := Step(doc, i, c, s);
      if stop {
        FirstStopAt(s, c, i);
        return jobs, Some(i);
      }
      VisitNext(s, c, i);
      jobs := jobs + found;
      i := i + 1;
    }
    assert s[..i] == s;
    return jobs, None;
  }

  /** The loop maps each element on its own: position `i` of the result
      is the rewrite of position `i` of the input. */
  lemma {:induction false} RewriteAllAt(s: seq<Element>, c: Context, i: nat)
    requires i < |s|
    ensures RewriteAll(s, c)[i] == RewriteElement(s[i], c)
  {
    if i < |s| - 1 {
      RewriteAllAt(s[..|s| - 1], c, i);
    }
  }

  /** Only the `src` of an `img` changes: every other element, and every
      other attribute of an `img`, is kept; the tag is kept. */
  lemma RewriteElementKeeps(e: Element, c: Context)
    ensures var r := RewriteElement(e, c);
      && r.tag == e.tag
      && (!IsImg(e) || TargetOf(e, c).None? ==> r == e)
      && r.attrs.Keys <= e.attrs.Keys + {"src"}
      && forall k :: k in e.attrs && k != "src" ==> k in r.attrs && r.attrs[k] == e.attrs[k]
  {
  }

  /** A rewritten `img` points at `<base>_files/<imgName>`. */
  lemma RewriteElementSrc(e: Element, c: Context)
    requires IsImg(e) && TargetOf(e, c).Some?
    ensures Src(RewriteElement(e, c)) == Some(Join(c.plan.resourcesDir, TargetOf(e, c).value.name))
  {
  }

  /** The jobs of two consecutive runs of elements are the jobs of the
      first followed by the jobs of the second. */
  lemma {:induction false} JobsOfConcat(a: seq<Element>, b: seq<Element>, c: Context)
    ensures JobsOf(a + b, c) == JobsOf(a, c) + JobsOf(b, c)
  {
    if b != [] {
      var b0 := b[..|b| - 1];
      assert (a + b)[..|a + b| - 1] == a + b0;
      JobsOfConcat(a, b0, c);
    } else {
      assert a + b == a;
    }
  }

  /** When no callback throws, there is one download per `img`. */
  lemma {:induction false} JobsCount(s: seq<Element>, c: Context)
    requires forall i :: 0 <= i < |s| ==> !Stops(s[i], c)
    ensures |JobsOf(s, c)| == CountImgs(s)
  {
    if s != [] {
      JobsCount(s[..|s| - 1], c);
    }
  }

  /** When no callback throws, the download recorded for the `img` at
      position `i` is job number `CountImgs(s[..i])`: the jobs follow the
      document order of the images. */
  lemma JobOfImg(s: seq<Element>, c: Context, i: nat)
    requires forall j :: 0 <= j < |s| ==> !Stops(s[j], c)
    requires i < |s| && IsImg(s[i])
    ensures CountImgs(s[..i]) < |JobsOf(s, c)|
    ensures [JobsOf(s, c)[CountImgs(s[..i])]] == JobsFor(s[i], c)
  {
    assert s == s[..i] + [s[i]] + s[i + 1..];
    JobsOfConcat(s[..i] + [s[i]], s[i + 1..], c);
    JobsOfConcat(s[..i], [s[i]], c);
    assert [s[i]][..0] == [];
    JobsCount(s[..i], c);
  }

  /** The rewritten `src`, read from the output directory where the HTML
      file is saved, is the path the image is downloaded to. */
  lemma LocalReferenceIsJobPath(e: Element, c: Context, baseName: string, outputDir: string)
    requires c.plan == MakePlan(baseName, outputDir)
    requires IsImg(e) && TargetOf(e, c).Some?
    ensures |JobsFor(e, c)| == 1
    ensures Join(outputDir, Src(RewriteElement(e, c)).value) == JobsFor(e, c)[0].path
  {
  }

  /** A page without images is left exactly as it was, and nothing is
      downloaded. */
  lemma {:induction false} NoImagesNoChange(s: seq<Element>, c: Context)
    requires forall i :: 0 <= i < |s| ==> !IsImg(s[i])
    ensures RewriteAll(s, c) == s && JobsOf(s, c) == []
  {
    if s != [] {
      NoImagesNoChange(s[..|s| - 1], c);
      assert s == s[..|s| - 1] + [s[|s| - 1]];
    }
  }
}
