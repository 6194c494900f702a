/** The page of the repository's own test (__tests__/downloadPage.test.js):
    `https://ru.hexlet.io/courses`, holding one image with the root-relative
    `src` "/assets/professions/nodejs.png" and one link, saved into `out`. */
module HexletExample {
  import opened Outcomes
  import opened Urls
  import opened FileNames
  import opened Paths
  import opened Layout
  import opened Rewrite
  import opened PageLoader

  function HttpsUrl(hostname: string, pathname: string): Url {
    Url("https:", "", "", true, hostname, "", pathname, "", "")
  }

  const PageUrl := "https://ru.hexlet.io/courses"
  const ImgSrc := "/assets/professions/nodejs.png"
  const ImgUrl := "https://ru.hexlet.io" + ImgSrc
  const ImgName := "ru-hexlet-io-assets-professions-nodejs-png.png"

  const Img := Element("img", map["src" := ImgSrc, "alt" := "Node.js"])
  const Link := Element("a", map["href" := "/professions/nodejs"])

  /** The world of the test: the server answers both requests and the
      file system accepts every write. */
  predicate TestWorld(w: World) {
    && w.parse(PageUrl) == Some(HttpsUrl("ru.hexlet.io", "/courses"))
    && w.resolve(Some(ImgSrc), PageUrl) == Some(HttpsUrl("ru.hexlet.io", ImgSrc))
    && w.parse(ImgUrl) == Some(HttpsUrl("ru.hexlet.io", ImgSrc))
    && w.page == Some([Img, Link])
    && w.mkdirOk
    && w.downloadOk(0)
    && w.writeOk
  }

  lemma PageName()
    ensures GenerateFileName(HttpsUrl("ru.hexlet.io", "/courses")) == "ru-hexlet-io-courses"
  {
  }

  lemma HostPrefix()
    ensures "https:" + "//" + "ru.hexlet.io" == "https://ru.hexlet.io"
  {
  }

  lemma ImgHref()
    ensures Href(HttpsUrl("ru.hexlet.io", ImgSrc)) == ImgUrl
  {
    HrefWithPlainHost(HttpsUrl("ru.hexlet.io", ImgSrc));
    HostPrefix();
    assert ImgSrc + "" + "" == ImgSrc;
  }

  lemma ImgExtension()
    ensures Extname(ImgUrl) == ".png"
  {
    assert ImgUrl == Join("https://ru.hexlet.io/assets/professions", "nodejs" + ".png");
    ExtnameOfAppended("https://ru.hexlet.io/assets/professions", "nodejs", ".png");
  }

  /* Each fact about a string literal sits in its own lemma: stated together
     in one proof, they exceed the solver's budget. */

  lemma SrcParts()
    ensures ImgSrc == ("/assets" + "/professions") + "/nodejs.png"
  {
  }

  lemma DashedParts()
    ensures Dashify("/assets") == "-assets"
    ensures Dashify("/professions") == "-professions"
    ensures Dashify("/nodejs.png") == "-nodejs-png"
  {
  }

  lemma DashedJoin()
    ensures "-assets" + "-professions" + "-nodejs-png" == "-assets-professions-nodejs-png"
  {
  }

  lemma SrcDashed()
    ensures Dashify(ImgSrc) == "-assets-professions-nodejs-png"
  {
    SrcParts();
    DashifyConcat("/assets" + "/professions", "/nodejs.png");
    DashifyConcat("/assets", "/professions");
    DashedParts();
    DashedJoin();
  }

  lemma HostDashed()
    ensures Dashify("ru.hexlet.io") == "ru-hexlet-io"
  {
  }

  lemma NameJoin()
    ensures "ru-hexlet-io" + "-assets-professions-nodejs-png" == "ru-hexlet-io-assets-professions-nodejs-png"
  {
  }

  lemma ImgBaseName()
    ensures GenerateFileName(HttpsUrl("ru.hexlet.io", ImgSrc)) == "ru-hexlet-io-assets-professions-nodejs-png"
  {
    SrcDashed();
    HostDashed();
    NameJoin();
  }

  /** `imgName` of the test: the generated name followed by ".png". */
  lemma ImgTargetOfTest(w: World)
    requires TestWorld(w)
    ensures ImgTarget(Some(ImgSrc), PageUrl, w.resolve, w.parse) == Some(Target(ImgUrl, ImgName))
  {
    ImgHref();
    ImgBaseName();
    ImgExtension();
    assert "ru-hexlet-io-assets-professions-nodejs-png" + ".png" == ImgName;
  }

  /** The names the test expects, built as the test builds them. */
  const Base := "ru-hexlet-io-courses"
  const ResourcesDir := Base + "_files"
  const Plan0 := MakePlan(Base, "out")
  const ImgJob := Job(ImgUrl, Join(Join("out", ResourcesDir), ImgName))
  const SavedImg := Element("img", map["src" := Join(ResourcesDir, ImgName), "alt" := "Node.js"])

  lemma ImgTargetInPlan(w: World)
    requires TestWorld(w)
    ensures TargetOf(Img, ContextFor(PageUrl, Plan0, w)) == Some(Target(ImgUrl, ImgName))
  {
    ImgTargetOfTest(w);
  }

  lemma NoStopInTest(w: World)
    requires TestWorld(w)
    ensures FirstStop([Img, Link], ContextFor(PageUrl, Plan0, w)) == None
  {
    ImgTargetInPlan(w);
  }

  lemma JobsOfTest(w: World)
    requires TestWorld(w)
    ensures JobsOf([Img, Link], ContextFor(PageUrl, Plan0, w)) == [ImgJob]
  {
    var c := ContextFor(PageUrl, Plan0, w);
    ImgTargetInPlan(w);
    assert [Img, Link][..1] == [Img] && [Img][..0] == [];
    assert JobsOf([Img], c) == JobsFor(Img, c) == [ImgJob];
    assert JobsFor(Link, c) == [];
  }

  lemma SavedImgAttrs()
    ensures Img.attrs["src" := Join(ResourcesDir, ImgName)] == SavedImg.attrs
  {
  }

  lemma RewriteOfTest(w: World)
    requires TestWorld(w)
    ensures RewriteAll([Img, Link], ContextFor(PageUrl, Plan0, w)) == [SavedImg, Link]
  {
    var c := ContextFor(PageUrl, Plan0, w);
    ImgTargetInPlan(w);
    SavedImgAttrs();
    assert RewriteElement(Img, c) == SavedImg;
    assert [Img, Link][..1] == [Img] && [Img][..0] == [];
    assert RewriteAll([Img], c) == [SavedImg];
  }

  /** Once the page is fetched and the directory made: one download, then
      the write of the rewritten page. */
  lemma SavePageOfTest(w: World)
    requires TestWorld(w)
    ensures SavePage(PageUrl, Plan0, [Img, Link], w) == Run(
      Saved(Plan0.filePath),
      [Download(ImgJob), WriteHtml(Plan0.filePath, [SavedImg, Link])])
  {
    var c := ContextFor(PageUrl, Plan0, w);
    NoStopInTest(w);
    JobsOfTest(w);
    RewriteOfTest(w);
    SavedWhenAllSucceed(c, w);
  }

  /** The step above, from the facts about the loop alone. */
  lemma SavedWhenAllSucceed(c: Context, w: World)
    requires c == ContextFor(PageUrl, Plan0, w)
    requires FirstStop([Img, Link], c).None?
    requires JobsOf([Img, Link], c) == [ImgJob] && RewriteAll([Img, Link], c) == [SavedImg, Link]
    requires w.downloadOk(0) && w.writeOk
    ensures SavePage(PageUrl, Plan0, [Img, Link], w) == Run(
      Saved(Plan0.filePath),
      [Download(ImgJob), WriteHtml(Plan0.filePath, [SavedImg, Link])])
  {
    var write := WriteHtml(Plan0.filePath, [SavedImg, Link]);
    assert Downloads([ImgJob]) + [write] == [Download(ImgJob), write];
    assert AllSucceed([ImgJob], w.downloadOk);
    SavePageSaves(PageUrl, Plan0, [Img, Link], w);
  }

  /** The test's expectations: the page is saved as
      `out/ru-hexlet-io-courses.html`; the image is downloaded from its
      absolute URL into the resources directory; the saved document points
      the image at `ru-hexlet-io-courses_files/<imgName>` and keeps the link
      as it was. */
  lemma SavesTestPage(w: World)
    requires TestWorld(w)
    ensures Load(PageUrl, "out", w) == Run(
      Saved(Join("out", Base + ".html")),
      [ FetchPage(PageUrl),
        MakeDir(Join("out", ResourcesDir)),
        Download(ImgJob),
        WriteHtml(Join("out", Base + ".html"), [SavedImg, Link]) ])
  {
    PageName();
    SavePageOfTest(w);
  }
}
