/** The names `downloadPage` derives before any I/O
    (utilities/downLoadPage.js:14-18): the HTML file `<base>.html` and the
    resources directory `<base>_files`, both placed in the output directory. */
module Layout {
  import opened Outcomes
  import opened Urls
  import opened FileNames
  import opened Paths

  datatype Plan = Plan(
    baseName: string,
    fileName: string,
    resourcesDir: string,
    filePath: string,
    resourcesPath: string)

  function MakePlan(baseName: string, outputDir: string): Plan {
    var fileName := baseName + ".html";
    var resourcesDir := baseName + "_files";
    Plan(baseName, fileName, resourcesDir, Join(outputDir, fileName), Join(outputDir, resourcesDir))
  }

  /** For a derived base name, the HTML file and the resources directory
      are two distinct entries directly inside the output directory. */
  lemma PlanPlacement(baseName: string, outputDir: string)
    requires IsSafeName(baseName)
    ensures var p := MakePlan(baseName, outputDir);
      && p.fileName == baseName + ".html"
      && p.resourcesDir == baseName + "_files"
      && |p.filePath| > |outputDir| && p.filePath[..|outputDir| + 1] == outputDir + "/"
      && |p.resourcesPath| > |outputDir| && p.resourcesPath[..|outputDir| + 1] == outputDir + "/"
      && BaseName(p.filePath) == p.fileName
      && BaseName(p.resourcesPath) == p.resourcesDir
      && p.filePath != p.resourcesPath
  {
    var p := MakePlan(baseName, outputDir);
    SafeNameHasNoSeparator(baseName);
    BaseNameOfJoin(outputDir, p.fileName);
    BaseNameOfJoin(outputDir, p.resourcesDir);
    assert p.filePath[|p.filePath| - 1] != p.resourcesPath[|p.resourcesPath| - 1];
  }

  /** ".html" alone is a dot file: it has no extension. */
  lemma DotFileHasNoExtension()
    ensures SegmentExtension(".html") == ""
  {
    SegmentExtensionSpec(".html");
  }

  /** The resources directory name has neither a separator nor a dot. */
  lemma ResourcesDirIsPlain(baseName: string)
    requires IsSafeName(baseName)
    ensures '/' !in baseName + "_files" && '.' !in baseName + "_files"
  {
    SafeNameHasNoSeparator(baseName);
    assert '.' !in "_files" && '/' !in "_files";
  }

  /** The HTML file carries the extension ".html" (unless the base name is
      empty, which makes it a dot file) and the resources directory none. */
  lemma PlanExtensions(baseName: string, outputDir: string)
    requires IsSafeName(baseName)
    ensures var p := MakePlan(baseName, outputDir);
      && Extname(p.filePath) == (if baseName == "" then "" else ".html")
      && Extname(p.resourcesPath) == ""
  {
    var p := MakePlan(baseName, outputDir);
    if baseName == "" {
      assert p.filePath == Join(outputDir, ".html");
      BaseNameOfJoin(outputDir, ".html");
      DotFileHasNoExtension();
    } else {
      SafeNameHasNoSeparator(baseName);
      ExtnameOfAppended(outputDir, baseName, ".html");
    }
    var d := p.resourcesDir;
    ResourcesDirIsPlain(baseName);
    ExtnameOfAppended(outputDir, d, "");
    assert d + "" == d;
  }

  /** The absolute URL of an image (`imgUrl`) and its local file name
      (`imgName`). */
  datatype Target = Target(url: string, name: string)

  /** Lines 35-36: resolve `src` against the page URL, take the `href`, and
      name the file `generateFileName(href) + path.extname(href)`. None when
      either `new URL` throws. */
  function ImgTarget(src: Option<string>, pageUrl: string, resolve: Resolver, parse: Parser): Option<Target> {
    match resolve(src, pageUrl)
    case None => None
    case Some(u) =>
      var url := Href(u);
      match GenerateFileNameOf(url, parse)
      case Failure(_) => None
      case Success(n) => Some(Target(url, n + Extname(url)))
  }

  /** Naming throws exactly when resolving `src` or re-parsing the resolved
      `href` throws; otherwise the target's URL is that `href` and its name
      is a safe name followed by the extension of the `href`, so it never
      contains a separator. */
  lemma ImgTargetSpec(src: Option<string>, pageUrl: string, resolve: Resolver, parse: Parser)
    ensures var t := ImgTarget(src, pageUrl, resolve, parse);
      t.None? <==> resolve(src, pageUrl).None? || parse(Href(resolve(src, pageUrl).value)).None?
    ensures var t := ImgTarget(src, pageUrl, resolve, parse);
      t.Some? ==> && t.value.url == Href(resolve(src, pageUrl).value)
                  && '/' !in t.value.name
                  && exists n :: IsSafeName(n) && t.value.name == n + Extname(t.value.url)
  {
    var t := ImgTarget(src, pageUrl, resolve, parse);
    if t.Some? {
      var url := t.value.url;
      var n := GenerateFileNameOf(url, parse).value;
      SafeNameHasNoSeparator(n);
      ExtnameShape(url);
    }
  }

  /** When the parser reads back the `href` of the resolved URL unchanged,
      the file name is `generateFileName` of that URL followed by its
      extension. */
  lemma ImgTargetOfRoundTrip(src: Option<string>, pageUrl: string, resolve: Resolver, parse: Parser, u: Url)
    requires resolve(src, pageUrl) == Some(u) && parse(Href(u)) == Some(u)
    ensures ImgTarget(src, pageUrl, resolve, parse) == Some(Target(Href(u), GenerateFileName(u) + Extname(Href(u))))
  {
  }

  /** The local copy of an image keeps the extension of its URL, provided the
      re-parsed URL has a host (so the generated part of the name is not
      empty). */
  lemma ImgFileKeepsExtension(src: Option<string>, pageUrl: string, resolve: Resolver, parse: Parser, dir: string)
    requires resolve(src, pageUrl).Some?
    requires var v := parse(Href(resolve(src, pageUrl).value)); v.Some? && v.value.hostname != ""
    ensures var t := ImgTarget(src, pageUrl, resolve, parse);
      t.Some? && Extname(Join(dir, t.value.name)) == Extname(t.value.url)
  {
    var url := Href(resolve(src, pageUrl).value);
    var v := parse(url).value;
    var n := GenerateFileName(v);
    GenerateFileNameShape(v);
    SafeNameHasNoSeparator(n);
    ExtnameShape(url);
    ExtnameOfAppended(dir, n, Extname(url));
  }

  /** An image `src` of "/a.png?" on an https page of host "h": the empty
      query stays in the `href`, so the extension, and with it the local
      file name, ends in "?". */
  lemma EmptyQueryInExtension()
    ensures var u := Url("https:", "", "", true, "h", "", "/a.png", "?", "");
      Href(u) == "https://h/a.png?" && Extname(Href(u)) == ".png?"
  {
    var u := Url("https:", "", "", true, "h", "", "/a.png", "?", "");
    HrefWithPlainHost(u);
    assert Href(u) == Join("https://h", "a" + ".png?");
    ExtnameOfAppended("https://h", "a", ".png?");
  }
}
