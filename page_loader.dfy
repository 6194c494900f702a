/** `downloadPage` as a whole (utilities/downLoadPage.js:13-49): the names
    are derived, then the promise chain fetches the page, creates the
    resources directory, rewrites the images while starting their
    downloads, waits for all downloads and writes the HTML file. Every
    outside action is an abstract outcome drawn from a `World`; what the
    function does is recorded as a trace of effects. */
module PageLoader {
  import opened Outcomes
  import opened Urls
  import opened FileNames
  import opened Layout
  import opened Rewrite

  /** The outside world as `downloadPage` sees it: how URLs parse and
      resolve, the page the server returns (None when the request fails),
      and whether the directory creation, each image download (by its
      position in the list of started downloads) and the final write
      succeed. */
  datatype World = World(
    parse: Parser,
    resolve: Resolver,
    page: Option<seq<Element>>,
    mkdirOk: bool,
    downloadOk: nat -> bool,
    writeOk: bool)

  /** The step of the chain at which an error was raised. */
  datatype Stage = Fetching | CreatingDir | Rewriting | Downloading | Writing

  /** How a call ends: an exception thrown synchronously before the chain
      starts (line 14), an error caught and logged (line 48), or the page
      saved and its path logged (line 47). The chain itself never rejects. */
  datatype Outcome = Thrown(error: UrlError) | Logged(stage: Stage) | Saved(filePath: string)

  /** The outside actions, in the order they are started. */
  datatype Effect =
    | FetchPage(url: string)
    | MakeDir(path: string)
    | Download(job: Job)
    | WriteHtml(path: string, doc: seq<Element>)

  datatype Run = Run(outcome: Outcome, effects: seq<Effect>)

  /** Line 14 onwards: the names derived from the parsed page URL. */
  function PlanFor(u: Url, outputDir: string): Plan {
    MakePlan(GenerateFileName(u), outputDir)
  }

  /** Lines 35-36: every image is resolved against the page URL as given. */
  function ContextFor(url: string, plan: Plan, w: World): Context {
    Context(plan, src => ImgTarget(src, url, w.resolve, w.parse))
  }

  /** One `axios.get` per job, started in document order (lines 40-41). */
  function Downloads(jobs: seq<Job>): (r: seq<Effect>)
    ensures |r| == |jobs|
    ensures forall i :: 0 <= i < |jobs| ==> r[i] == Download(jobs[i])
  {
    seq(|jobs|, i requires 0 <= i < |jobs| => Download(jobs[i]))
  }

  /** `Promise.all` fulfils only when every download fulfils (line 45). */
  predicate AllSucceed(jobs: seq<Job>, ok: nat -> bool) {
    forall i :: 0 <= i < |jobs| ==> ok(i)
  }

  /** Lines 30-48 once the page is fetched and the directory made: the
      images are rewritten while their downloads start, then `Promise.all`
      waits for them and the HTML file is written. The effects are those of
      this part alone. */
  function SavePage(url: string, plan: Plan, s: seq<Element>, w: World): Run {
    var c := ContextFor(url, plan, w);
    match FirstStop(s, c)
    case Some(k) => Run(Logged(Rewriting), Downloads(JobsOf(s[..k], c)))
    case None =>
      var jobs := JobsOf(s, c);
      var started := Downloads(jobs);
      if !AllSucceed(jobs, w.downloadOk) then Run(Logged(Downloading), started)
      else
        var written := started + [WriteHtml(plan.filePath, RewriteAll(s, c))];
        if !w.writeOk then Run(Logged(Writing), written)
        else Run(Saved(plan.filePath), written)
  }

  /** When no image throws, every download succeeds and the write succeeds,
      the part after the directory step saves the rewritten page. */
  lemma SavePageSaves(url: string, plan: Plan, s: seq<Element>, w: World)
    requires FirstStop(s, ContextFor(url, plan, w)).None?
    requires AllSucceed(JobsOf(s, ContextFor(url, plan, w)), w.downloadOk) && w.writeOk
    ensures var c := ContextFor(url, plan, w);
      SavePage(url, plan, s, w) == Run(Saved(plan.filePath),
        Downloads(JobsOf(s, c)) + [WriteHtml(plan.filePath, RewriteAll(s, c))])
  {
  }

  /** The whole call. Any failure after line 14 ends the chain at the
      `catch` of line 48; downloads started before a failure stay started. */
  function Load(url: string, outputDir: string, w: World): Run {
    match GenerateFileNameOf(url, w.parse)
    case Failure(e) => Run(Thrown(e), [])
    case Success(baseName) =>
      var plan := MakePlan(baseName, outputDir);
      var fetched := [FetchPage(url)];
      if w.page.None? then Run(Logged(Fetching), fetched)
      else
        var made := fetched + [MakeDir(plan.resourcesPath)];
        if !w.mkdirOk then Run(Logged(CreatingDir), made)
        else
          var rest := SavePage(url, plan, w.page.value, w);
          Run(rest.outcome, made + rest.effects)
  }

  /** The callback of lines 30-46 and what follows it, on a document held
      in an array that the image loop rewrites in place. */
  method ProcessPage(url: string, plan: Plan, html: seq<Element>, w: World) returns (r: Run)
    ensures r == SavePage(url, plan, html, w)
  {
    var doc := new Element[|html|](i requires 0 <= i < |html| => html[i]);
    assert doc[..] == html;
    var c := ContextFor(url, plan, w);
    var jobs, stoppedAt := RewriteImages(doc, c);
    var effects := Downloads(jobs);
    if stoppedAt.Some? {
      return Run(Logged(Rewriting), effects);
    }
    assert html[..|html|] == html && html[|html|..] == [];
    assert doc[..] == RewriteAll(html, c);
    if !AllSucceed(jobs, w.downloadOk) {
      return Run(Logged(Downloading), effects);
    }
    effects := effects + [WriteHtml(plan.filePath, doc[..])];
    if !w.writeOk {
      return Run(Logged(Writing), effects);
    }
    return Run(Saved(plan.filePath), effects);
  }

  /** `downloadPage` step by step; the trace it produces is `Load`. */
  method DownloadPage(url: string, outputDir: string, w: World) returns (r: Run)
    ensures r == Load(url, outputDir, w)
  {
    var name := GenerateFileNameOf(url, w.parse);
    if name.Failure? {
      return Run(Thrown(name.error), []);
    }
    var plan := MakePlan(name.value, outputDir);
    var effects := [FetchPage(url)];
    if w.page.None? {
      return Run(Logged(Fetching), effects);
    }
    effects := effects + [MakeDir(plan.resourcesPath)];
    if !w.mkdirOk {
      return Run(Logged(CreatingDir), effects);
    }
    var rest := ProcessPage(url, plan, w.page.value, w);
    return Run(rest.outcome, effects + rest.effects);
  }

  /** Where an effect belongs in the chain: fetch, mkdir, downloads (started
      while rewriting), write. */
  function EffectRank(e: Effect): nat {
    match e
    case FetchPage(_) => 0
    case MakeDir(_) => 1
    case Download(_) => 2
    case WriteHtml(_, _) => 4
  }

  function StageRank(st: Stage): nat {
    match st
    case Fetching => 0
    case CreatingDir => 1
    case Rewriting => 2
    case Downloading => 3
    case Writing => 4
  }

  predicate Ordered(t: seq<Effect>) {
    forall i, j :: 0 <= i < j < |t| ==> EffectRank(t[i]) <= EffectRank(t[j])
  }

  /** An unparsable page URL throws at line 14, before any request or file
      system action; a parsable one never throws, and the chain starts by
      fetching the page. */
  lemma ThrowsIffInvalidUrl(url: string, outputDir: string, w: World)
    ensures var r := Load(url, outputDir, w);
      && (r.outcome.Thrown? <==> w.parse(url).None?)
      && (r.outcome.Thrown? ==> r.effects == [])
      && (!r.outcome.Thrown? ==> r.effects != [] && r.effects[0] == FetchPage(url))
  {
  }

  lemma OrderedConcat(a: seq<Effect>, b: seq<Effect>)
    requires Ordered(a) && Ordered(b)
    requires forall i, j :: 0 <= i < |a| && 0 <= j < |b| ==> EffectRank(a[i]) <= EffectRank(b[j])
    ensures Ordered(a + b)
  {
  }

  /** After the directory is made, only downloads and then the write are
      started. */
  lemma SavePageOrdered(url: string, plan: Plan, s: seq<Element>, w: World)
    ensures var t := SavePage(url, plan, s, w).effects;
      Ordered(t) && forall i :: 0 <= i < |t| ==> EffectRank(t[i]) >= 2
  {
    var t := SavePage(url, plan, s, w).effects;
    var c := ContextFor(url, plan, w);
    match FirstStop(s, c)
    case Some(k) =>
      DownloadsRank(JobsOf(s[..k], c));
      assert t == Downloads(JobsOf(s[..k], c));
    case None =>
      var d := Downloads(JobsOf(s, c));
      DownloadsRank(JobsOf(s, c));
      if AllSucceed(JobsOf(s, c), w.downloadOk) {
        var write := [WriteHtml(plan.filePath, RewriteAll(s, c))];
        assert t == d + write;
        OrderedConcat(d, write);
      } else {
        assert t == d;
      }
  }

  lemma DownloadsRank(jobs: seq<Job>)
    ensures var d := Downloads(jobs);
      Ordered(d) && forall i :: 0 <= i < |d| ==> EffectRank(d[i]) == 2
  {
  }

  /** The actions are started in the order of the chain. */
  lemma TraceOrdered(url: string, outputDir: string, w: World)
    ensures Ordered(Load(url, outputDir, w).effects)
  {
    if w.parse(url).Some? && w.page.Some? && w.mkdirOk {
      var plan := PlanFor(w.parse(url).value, outputDir);
      SavePageOrdered(url, plan, w.page.value, w);
      OrderedConcat([FetchPage(url), MakeDir(plan.resourcesPath)], SavePage(url, plan, w.page.value, w).effects);
    }
  }

  /** A failure caught at line 48 ends the chain: no action of a later
      step is started. In particular the HTML file is written only when the
      page was fetched, the directory made and every download succeeded. */
  lemma FailureStopsChain(url: string, outputDir: string, w: World)
    ensures var r := Load(url, outputDir, w);
      r.outcome.Logged? ==> forall e :: e in r.effects ==> EffectRank(e) <= StageRank(r.outcome.stage)
  {
    var r := Load(url, outputDir, w);
    if r.outcome.Logged? && (r.outcome.stage.Rewriting? || r.outcome.stage.Downloading?) {
      var u := w.parse(url).value;
      var plan := PlanFor(u, outputDir);
      var rest := SavePage(url, plan, w.page.value, w);
      assert forall i :: 0 <= i < |rest.effects| ==> EffectRank(rest.effects[i]) == 2;
    }
  }

  /** The page is saved exactly when every step succeeds: the page is
      fetched, the directory is made, every `img` can be named, every
      download succeeds and the HTML file is written. */
  lemma SavedIff(url: string, outputDir: string, w: World, u: Url)
    requires w.parse(url) == Some(u)
    ensures var plan := PlanFor(u, outputDir);
      Load(url, outputDir, w).outcome.Saved? <==>
        && w.page.Some?
        && w.mkdirOk
        && FirstStop(w.page.value, ContextFor(url, plan, w)).None?
        && AllSucceed(JobsOf(w.page.value, ContextFor(url, plan, w)), w.downloadOk)
        && w.writeOk
  {
  }

  /** A saved page: its path is `<outputDir>/<base>.html`; the actions were
      the fetch, the directory, one download per `img` in document order,
      and last the write of the rewritten document. */
  lemma SavedResult(url: string, outputDir: string, w: World, u: Url)
    requires w.parse(url) == Some(u)
    requires Load(url, outputDir, w).outcome.Saved?
    ensures var plan := PlanFor(u, outputDir);
      var c := ContextFor(url, plan, w);
      var s := w.page.value;
      var r := Load(url, outputDir, w);
      && r.outcome.filePath == plan.filePath
      && r.effects == [FetchPage(url), MakeDir(plan.resourcesPath)]
                      + Downloads(JobsOf(s, c))
                      + [WriteHtml(plan.filePath, RewriteAll(s, c))]
      && |JobsOf(s, c)| == CountImgs(s)
  {
    var plan := PlanFor(u, outputDir);
    var c := ContextFor(url, plan, w);
    JobsCount(w.page.value, c);
  }

  /** Everything that must succeed before line 45 writes the HTML file: the
      page URL parses, the page is fetched, the directory is made, every
      `img` can be named and every download succeeds. */
  predicate ReadyToWrite(url: string, outputDir: string, w: World) {
    && w.parse(url).Some?
    && w.page.Some?
    && w.mkdirOk
    && var c := ContextFor(url, PlanFor(w.parse(url).value, outputDir), w);
       && FirstStop(w.page.value, c).None?
       && AllSucceed(JobsOf(w.page.value, c), w.downloadOk)
  }

  /** The steps an action waits for: the directory waits for the page, a
      download for the page and the directory, the HTML file for everything
      before the write. */
  predicate AfterEarlierSteps(e: Effect, url: string, outputDir: string, w: World) {
    && (e.MakeDir? ==> w.page.Some?)
    && (e.Download? ==> w.page.Some? && w.mkdirOk)
    && (e.WriteHtml? ==> ReadyToWrite(url, outputDir, w))
  }

  /** Each action is started only after the steps before it succeeded: the
      directory only after the page was fetched, a download only after the
      directory was made, and the HTML file only when everything before the
      write succeeded (all-or-nothing of `Promise.all`, line 45). */
  lemma EffectsNeedEarlierSteps(url: string, outputDir: string, w: World)
    ensures forall e :: e in Load(url, outputDir, w).effects ==> AfterEarlierSteps(e, url, outputDir, w)
  {
    if w.parse(url).Some? && w.page.Some? && w.mkdirOk {
      var plan := PlanFor(w.parse(url).value, outputDir);
      var rest := SavePage(url, plan, w.page.value, w);
      assert Load(url, outputDir, w).effects == [FetchPage(url), MakeDir(plan.resourcesPath)] + rest.effects;
      SavePageWritesLast(url, plan, w.page.value, w);
    } else if w.parse(url).Some? && w.page.Some? {
      var plan := PlanFor(w.parse(url).value, outputDir);
      assert Load(url, outputDir, w).effects == [FetchPage(url), MakeDir(plan.resourcesPath)];
    }
  }

  /** After the directory step, every action is a download, except the
      write, which only happens when no image threw and every download
      succeeded. */
  lemma SavePageWritesLast(url: string, plan: Plan, s: seq<Element>, w: World)
    ensures var c := ContextFor(url, plan, w);
      forall e :: e in SavePage(url, plan, s, w).effects ==>
        || e.Download?
        || (e.WriteHtml? && FirstStop(s, c).None? && AllSucceed(JobsOf(s, c), w.downloadOk))
  {
    var c := ContextFor(url, plan, w);
    var t := SavePage(url, plan, s, w).effects;
    match FirstStop(s, c)
    case Some(k) =>
      assert t == Downloads(JobsOf(s[..k], c));
    case None =>
      var d := Downloads(JobsOf(s, c));
      if AllSucceed(JobsOf(s, c), w.downloadOk) {
        assert t == d + [WriteHtml(plan.filePath, RewriteAll(s, c))];
      } else {
        assert t == d;
      }
  }

  /** The stage that is logged is the first step that failed. */
  lemma LoggedStageIsFirstFailure(url: string, outputDir: string, w: World, u: Url)
    requires w.parse(url) == Some(u)
    ensures var r := Load(url, outputDir, w);
      var c := ContextFor(url, PlanFor(u, outputDir), w);
      && (r.outcome == Logged(Fetching) <==> w.page.None?)
      && (r.outcome == Logged(CreatingDir) <==> w.page.Some? && !w.mkdirOk)
      && (r.outcome == Logged(Rewriting) <==>
            w.page.Some? && w.mkdirOk && FirstStop(w.page.value, c).Some?)
      && (r.outcome == Logged(Downloading) <==>
            w.page.Some? && w.mkdirOk && FirstStop(w.page.value, c).None?
            && !AllSucceed(JobsOf(w.page.value, c), w.downloadOk))
      && (r.outcome == Logged(Writing) <==> ReadyToWrite(url, outputDir, w) && !w.writeOk)
  {
  }

  /** The jobs of the downloads in a trace, in the order they were started. */
  function DownloadedJobs(t: seq<Effect>): seq<Job> {
    if t == [] then []
    else DownloadedJobs(t[..|t| - 1]) + (if t[|t| - 1].Download? then [t[|t| - 1].job] else [])
  }

  lemma {:induction false} DownloadedJobsConcat(a: seq<Effect>, b: seq<Effect>)
    ensures DownloadedJobs(a + b) == DownloadedJobs(a) + DownloadedJobs(b)
  {
    if b == [] {
      assert a + b == a;
    } else {
      assert (a + b)[..|a + b| - 1] == a + b[..|b| - 1];
      DownloadedJobsConcat(a, b[..|b| - 1]);
    }
  }

  lemma {:induction false} DownloadedJobsOfDownloads(jobs: seq<Job>)
    ensures DownloadedJobs(Downloads(jobs)) == jobs
  {
    if jobs != [] {
      var init := jobs[..|jobs| - 1];
      assert Downloads(jobs)[..|jobs| - 1] == Downloads(init);
      DownloadedJobsOfDownloads(init);
    }
  }

  /** After the directory step, the downloads started are the jobs of the
      images visited before the loop threw. */
  lemma DownloadsOfSavePage(url: string, plan: Plan, s: seq<Element>, w: World)
    ensures var c := ContextFor(url, plan, w);
      var k := if FirstStop(s, c).Some? then FirstStop(s, c).value else |s|;
      DownloadedJobs(SavePage(url, plan, s, w).effects) == JobsOf(s[..k], c)
  {
    var c := ContextFor(url, plan, w);
    var t := SavePage(url, plan, s, w).effects;
    match FirstStop(s, c)
    case Some(k) =>
      assert t == Downloads(JobsOf(s[..k], c));
      DownloadedJobsOfDownloads(JobsOf(s[..k], c));
    case None =>
      assert s[..|s|] == s;
      var d := Downloads(JobsOf(s, c));
      DownloadedJobsOfDownloads(JobsOf(s, c));
      if AllSucceed(JobsOf(s, c), w.downloadOk) {
        var write := [WriteHtml(plan.filePath, RewriteAll(s, c))];
        assert t == d + write;
        assert DownloadedJobs(write) == [] by {
          assert write[..0] == [];
        }
        DownloadedJobsConcat(d, write);
      } else {
        assert t == d;
      }
  }

  /** The downloads started by a call are exactly the jobs of the images
      visited before the loop threw (all of them when none threw), in
      document order; none are started when the fetch or the directory step
      failed. */
  lemma DownloadsOfLoad(url: string, outputDir: string, w: World)
    ensures var r := Load(url, outputDir, w);
      if w.parse(url).Some? && w.page.Some? && w.mkdirOk then
        var c := ContextFor(url, PlanFor(w.parse(url).value, outputDir), w);
        var s := w.page.value;
        var k := if FirstStop(s, c).Some? then FirstStop(s, c).value else |s|;
        DownloadedJobs(r.effects) == JobsOf(s[..k], c)
      else DownloadedJobs(r.effects) == []
  {
    var r := Load(url, outputDir, w);
    if w.parse(url).Some? && w.page.Some? {
      var plan := PlanFor(w.parse(url).value, outputDir);
      var made := [FetchPage(url), MakeDir(plan.resourcesPath)];
      assert made == [FetchPage(url)] + [MakeDir(plan.resourcesPath)];
      DownloadedJobsConcat([FetchPage(url)], [MakeDir(plan.resourcesPath)]);
      if w.mkdirOk {
        DownloadedJobsConcat(made, SavePage(url, plan, w.page.value, w).effects);
        DownloadsOfSavePage(url, plan, w.page.value, w);
      }
    }
  }
}
