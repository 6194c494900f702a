# page-loader, modelled in Dafny

The page loader saves a web page for offline reading. Its work is done by
`utilities/downLoadPage.js`, and this project models that file.

- `generateFileName` turns a URL into a file-system-safe name. It takes the
  hostname, followed by the pathname unless the pathname is `/`, and replaces
  every character outside `[A-Za-z0-9_]` with `-`.
- `downloadPage(url, outputDir)` derives `<base>.html` and `<base>_files`
  from the page URL, then runs a promise chain:
  1. fetch the page;
  2. create `<outputDir>/<base>_files`;
  3. walk every `img` in document order. Each image gets its `src` replaced
     by `<base>_files/<imgName>` and its download started, where
     `imgName = generateFileName(imgUrl) + path.extname(imgUrl)`;
  4. wait for all downloads;
  5. write the rewritten HTML to `<outputDir>/<base>.html`.

  Any error in the chain is caught and logged, and the call then resolves
  normally.

Modules, one per file:

- `Outcomes`: `Option` and `Result`.
- `Urls`: the URL record the code reads: `hostname`, `pathname`, `href` and
  the parts that make up `href`. Unlike the JavaScript `search` and `hash`
  getters, the record keeps a present but empty query as `?` and fragment
  as `#`, as the serializer does. Parsing and resolution are function values
  (`Parser`, `Resolver`) that may fail.
- `FileNames`: `generateFileName`, character by character.
- `Paths`: Node's POSIX `path.extname`, which trims trailing slashes, then
  takes the last segment and then its last dot, with dot files and `..` having
  no extension. Also `path.join` for one name.
- `Layout`: the names derived at lines 14-18 and the naming of one image
  (lines 35-36).
- `Rewrite`: the `$('img').each` loop as a method over an `array<Element>`
  that it rewrites in place, collecting the download jobs. It is proved
  against the functions `RewriteAll`, `JobsOf` and `FirstStop`.
- `PageLoader`: the promise chain. The function `Load` gives the outcome
  (`Thrown`, `Logged(stage)` or `Saved(path)`) and the trace of outside
  actions (fetch, mkdir, each download, write) for a given `World` of action
  outcomes. The methods `DownloadPage` and `ProcessPage` perform the steps,
  allocate the document array, run the image loop, and are proved to produce
  `Load`.
- `HexletExample`: the page of the repository's own test, end to end.

Behaviour kept as the code has it, even where the repository's tests say
otherwise:

- The page URL is parsed at line 14, before the promise chain starts. An
  invalid URL therefore throws synchronously, without any request and without
  the `catch` of line 48.
- After line 14 nothing rejects. Every failure ends in the logged state, so
  the call never resolves to the file path, whatever the tests expect.
- An image whose URL cannot be resolved or re-parsed throws inside the loop.
  The images before it keep their new `src`, their downloads are already
  started, and the page is not written.
- `path.extname` is applied to the whole `href`. A query string after the
  last dot of the last segment therefore becomes part of the local file name,
  even an empty one (`Layout.EmptyQueryInExtension`).
- Two distinct URLs can get the same name, because `.`, `/` and `-` all map
  to `-` (`FileNames.DistinctUrlsCollide`).
- `Promise.all` fails when any download fails, and then the page is not
  written.

## Model

| member | source | states |
|---|---|---|
| Urls.Href | utilities/downLoadPage.js:35 | the `href` of a URL record per the URL serializer: it starts with the protocol and ends with path, query and fragment, an empty `?` or `#` included; without a host, a path starting with `//` is preceded by `/.` |
| Urls.HrefMarksAuthority | utilities/downLoadPage.js:35-36 | after the protocol, the `href` starts with `//` if and only if the URL has a host, so the re-parse at line 36 cannot read a path as a host |
| Urls.HostlessEmptySegmentHref | utilities/downLoadPage.js:35 | the host-less URL with path `//x/a.png` serializes as `web+demo:/.//x/a.png` |
| FileNames.Dashify | utilities/downLoadPage.js:8-9 | `replace(/\W/g, '-')`: same length, every non-word character replaced by `-` (position by position in `GenerateFileNameShape`) |
| FileNames.GenerateFileName | utilities/downLoadPage.js:6-11 | `generateFileName` on a parsed URL: the dashed hostname followed by the dashed pathname unless it is `/`; its properties are those of `GenerateFileNameShape` and `SameNameIff` |
| FileNames.GenerateFileNameShape | utilities/downLoadPage.js:8-10 | the name holds only `[A-Za-z0-9_-]`; its length is \|hostname\| plus \|pathname\| (0 for `/`); each position keeps the hostname/pathname character if it is a word character and is `-` otherwise |
| FileNames.GenerateFileNameOf | utilities/downLoadPage.js:6-11 | `generateFileName` throws exactly when `new URL` rejects the string; otherwise its result is a safe name |
| FileNames.SafeNameHasNoSeparator | utilities/downLoadPage.js:8-9 | a generated name contains neither `/` nor `.`, so joining it to a directory adds exactly one path entry |
| FileNames.DashifyFixedPoints | utilities/downLoadPage.js:8-9 | the replacement is idempotent, and leaves a string unchanged exactly when it is already a safe name |
| FileNames.SameNameIff | utilities/downLoadPage.js:8-10 | two URLs get the same name if and only if host+path strings have equal length and agree wherever either has a word character |
| FileNames.DistinctUrlsCollide | utilities/downLoadPage.js:8-10 | `http://example.com/a-b` and `http://example.com/a.b` are different URLs with the same name |
| FileNames.RootUrlName | utilities/downLoadPage.js:9-10 | `http://example.com` gives `example-com` (the root path adds nothing) |
| FileNames.PathUrlName | utilities/downLoadPage.js:8-10 | `http://example.com/some/path` gives `example-com-some-path` |
| FileNames.SpecialCharUrlName | utilities/downLoadPage.js:8-10 | `http://example.com/foo@bar` gives `example-com-foo-bar` |
| Paths.Extname | utilities/downLoadPage.js:36 | Node's POSIX `path.extname`: trailing `/` trimmed, last segment, suffix from its last `.`, empty for dot files and `..`; characterised by `SegmentExtensionSpec` and `ExtnameShape` |
| Paths.Join | utilities/downLoadPage.js:17-18 | `path.join(dir, name)` as `dir + "/" + name`; `JoinLastSegment` and `BaseNameOfJoin` state where `name` ends up |
| Paths.TrimTrailingSlashesSpec | utilities/downLoadPage.js:36 | trimming for `path.extname` keeps a prefix that does not end in `/`, and drops only `/` characters |
| Paths.LastSegmentSpec | utilities/downLoadPage.js:36 | the last segment has no `/`, is a suffix of the path, and is preceded by `/` when it is not the whole path |
| Paths.LastDot | utilities/downLoadPage.js:36 | the position found lies inside the string |
| Paths.LastDotSpec | utilities/downLoadPage.js:36 | no position is found iff there is no `.`; a found position holds a `.` with none after it |
| Paths.SegmentExtensionSpec | utilities/downLoadPage.js:36 | a segment has an extension iff it has a `.` after its first character and is not `..`; the extension is then a proper suffix starting at its last `.` |
| Paths.ExtnameShape | utilities/downLoadPage.js:36 | a non-empty `path.extname` is a proper suffix of the last segment, starts with `.`, has no further `.` and no `/` |
| Paths.SegmentExtensionNoSlash | utilities/downLoadPage.js:36 | the extension of a segment without `/` has no `/` either |
| Paths.JoinLastSegment | utilities/downLoadPage.js:17-18 | `path.join(dir, name)` ends with the segment `name` when `name` has no `/` |
| Paths.BaseNameOfJoin | utilities/downLoadPage.js:17-18 | the joined entry is the last portion of the joined path |
| Paths.SegmentExtensionOfAppended | utilities/downLoadPage.js:36 | a dot-free name followed by an extension has exactly that extension |
| Paths.ExtnameOfAppended | utilities/downLoadPage.js:36-37 | `path.extname(path.join(dir, name + ext)) == ext` for a dot-free, slash-free name |
| Layout.MakePlan | utilities/downLoadPage.js:14-18 | the names `<base>.html` and `<base>_files` and their paths under the output directory; `PlanPlacement` and `PlanExtensions` state their properties |
| Layout.ImgTarget | utilities/downLoadPage.js:35-36 | `imgUrl` and `imgName` of one image, or a throw; characterised by `ImgTargetSpec` |
| Layout.EmptyQueryInExtension | utilities/downLoadPage.js:35-36 | for `src="/a.png?"` on host `h`, `href` keeps the empty query (`https://h/a.png?`) and `path.extname` of it is `.png?` |
| Layout.PlanPlacement | utilities/downLoadPage.js:14-18 | the HTML file and the resources directory are the entries `<base>.html` and `<base>_files` directly inside the output directory, and they differ |
| Layout.PlanExtensions | utilities/downLoadPage.js:15-18 | the HTML file has extension `.html` (none if the base name is empty, since `.html` alone is a dot file); the resources directory has none |
| Layout.ImgTargetSpec | utilities/downLoadPage.js:35-36 | naming an image throws iff resolving `src` or re-parsing the `href` throws; otherwise the URL is the resolved `href` and the name is a safe name followed by `extname(href)`, free of `/` |
| Layout.ImgTargetOfRoundTrip | utilities/downLoadPage.js:35-36 | when the `href` parses back to the resolved URL, the name is `generateFileName` of that URL plus its extension |
| Layout.ImgFileKeepsExtension | utilities/downLoadPage.js:36-37 | the downloaded file keeps the extension of the image URL (when the URL has a host) |
| Rewrite.RewriteElement | utilities/downLoadPage.js:38 | the effect of the callback on one element: an `img` gets `src` set to `path.join(resourcesDir, imgName)`, anything else is kept; see `RewriteElementKeeps` and `RewriteElementSrc` |
| Rewrite.JobsFor | utilities/downLoadPage.js:37-42 | the download job `(imgUrl, path.join(resourcesPath, imgName))` of one `img`; see `LocalReferenceIsJobPath` and `JobOfImg` |
| Rewrite.FirstStop | utilities/downLoadPage.js:34-36 | the position of the first `img` whose naming throws: none iff no image throws; if found, all earlier elements pass |
| Rewrite.VisitImg | utilities/downLoadPage.js:34-42 | the callback for one `img`: throws iff naming throws, and then changes nothing; otherwise sets that element's `src` to the local path and returns its job |
| Rewrite.Step | utilities/downLoadPage.js:34-43 | one element of the walk: a non-`img` is passed over; an `img` is rewritten or stops the walk |
| Rewrite.RewriteImages | utilities/downLoadPage.js:32-43 | the loop in place: without a throw the document becomes `RewriteAll` of the old one and the jobs are `JobsOf` it; after a throw at `k`, only elements before `k` are rewritten and only their jobs recorded |
| Rewrite.RewriteAllAt | utilities/downLoadPage.js:34-38 | each element of the result is the rewrite of the element at the same position |
| Rewrite.RewriteElementKeeps | utilities/downLoadPage.js:34-38 | nothing else changes: tags, non-`img` elements and every attribute other than `src` keep their values |
| Rewrite.RewriteElementSrc | utilities/downLoadPage.js:38 | a rewritten `img` has `src == path.join(resourcesDir, imgName)` |
| Rewrite.JobsOfConcat | utilities/downLoadPage.js:42 | the jobs of consecutive runs of elements are concatenated in document order |
| Rewrite.JobsCount | utilities/downLoadPage.js:34-43 | without a throw there is exactly one download job per `img` |
| Rewrite.JobOfImg | utilities/downLoadPage.js:40-42 | the job for the `img` at position `i` is job number (number of images before `i`), so jobs follow document order |
| Rewrite.LocalReferenceIsJobPath | utilities/downLoadPage.js:37-38 | the rewritten `src`, joined to the output directory that holds the HTML file, is exactly the path the image is downloaded to |
| Rewrite.NoImagesNoChange | utilities/downLoadPage.js:34-43 | a page without `img` elements is left as it was and nothing is downloaded |
| PageLoader.DownloadsOfSavePage | utilities/downLoadPage.js:34-45 | after the directory step, the downloads started are exactly the jobs of the images visited before the loop threw, in document order |
| PageLoader.DownloadsOfLoad | utilities/downLoadPage.js:20-45 | the downloads a call starts are exactly the jobs of the images visited before any throw (all images when none throws); none when the fetch or the mkdir failed |
| PageLoader.EffectsNeedEarlierSteps | utilities/downLoadPage.js:27-45 | the mkdir is started only after the page was fetched, a download only after the mkdir succeeded, and the HTML write only when the URL parsed, the page was fetched, the mkdir succeeded, every `img` was named and every download succeeded |
| PageLoader.LoggedStageIsFirstFailure | utilities/downLoadPage.js:20-48 | the logged stage is exactly the first step that failed: fetch, mkdir, naming an image, a download, or the write |
| PageLoader.SavePage | utilities/downLoadPage.js:30-48 | the chain after the mkdir: loop, downloads, `Promise.all`, write, each failure logged at its stage; implemented by `ProcessPage` |
| PageLoader.Load | utilities/downLoadPage.js:13-49 | the whole call as an outcome and a trace of started actions; implemented by `DownloadPage`, characterised by the lemmas below |
| PageLoader.ProcessPage | utilities/downLoadPage.js:30-48 | after the directory is made: rewriting the array in place, then the downloads and the write, yields `SavePage` |
| PageLoader.DownloadPage | utilities/downLoadPage.js:13-49 | the whole call step by step yields `Load` |
| PageLoader.ThrowsIffInvalidUrl | utilities/downLoadPage.js:14-20 | the call throws iff the page URL does not parse, and then no action is taken; otherwise the first action is the page fetch |
| PageLoader.SavePageOrdered | utilities/downLoadPage.js:34-45 | after the directory step only downloads and then the write are started |
| PageLoader.TraceOrdered | utilities/downLoadPage.js:20-46 | actions are started in chain order: fetch, mkdir, downloads, write |
| PageLoader.FailureStopsChain | utilities/downLoadPage.js:25-48 | after a failure logged at a stage, no action of a later stage is started |
| PageLoader.SavedIff | utilities/downLoadPage.js:20-47 | the page is saved iff the fetch, the mkdir, the naming of every image, every download and the write all succeed |
| PageLoader.SavedResult | utilities/downLoadPage.js:14-47 | a saved page: the path is `<outputDir>/<base>.html`; the actions are fetch, mkdir, one download per `img` and last the write of `RewriteAll` of the page |
| HexletExample.ImgTargetOfTest | __tests__/downloadPage.test.js:65-67 | `/assets/professions/nodejs.png` on `https://ru.hexlet.io/courses` is fetched from `https://ru.hexlet.io/assets/professions/nodejs.png` and saved as `ru-hexlet-io-assets-professions-nodejs-png.png` |
| HexletExample.SavesTestPage | __tests__/downloadPage.test.js:50-89 | the test page is saved as `out/ru-hexlet-io-courses.html`; the image is downloaded into `out/ru-hexlet-io-courses_files`; the saved `src` is `ru-hexlet-io-courses_files/<imgName>` and the link is unchanged |

## Left out

- HTTP (axios, the User-Agent header, `arraybuffer` responses, status codes)
  and the file system (`mkdir`, `writeFile`) are abstract success/failure
  outcomes of a `World`. Response bodies and file contents are not modelled.
- cheerio's HTML parsing and `$.html()` serialisation are not modelled. The
  page is the list of its elements in document order, each a tag and an
  attribute map, and the written HTML is that list after the rewrite.
- WHATWG URL parsing and relative resolution (`new URL(s)`,
  `new URL(src, base)`) are abstract partial functions. The model does not
  know, for example, that a missing `src` resolves to `<base-dir>/undefined`.
- `Promise.all` concurrency is not modelled: downloads are a sequence of
  started actions, and no interleaving is modelled. Each download's outcome
  is given by its position in that sequence, so two images with the same
  `src` have independent outcomes, as two separate `axios.get` calls do.
- When the loop throws, the downloads already started are never awaited:
  their promises are dropped with the array of line 32. A later failure of
  one of them is an unhandled rejection, which by default ends the Node
  process (Node 15 and later). The model records those downloads as started
  and logs `Rewriting`. It does not model their outcomes or that process
  exit.
- `console.log` and `console.error` output is left out. The logged states are
  the outcomes `Saved` and `Logged(stage)`.
- The CLI wiring in `page-loader.js` and `bin/page-loader.js` is not part of
  this model.
- The default `outputDir = process.cwd()` is not modelled: the output
  directory is always passed in.
- `Paths.Join`: `path.join` is modelled as `dir + "/" + name`, without any
  normalisation: `.`, `..` and repeated slashes in `dir` are kept, an empty
  `dir` gives `"/" + name` where Node gives `name`, and a `name` of `""` or
  `"."` (possible for an image URL without a host, such as a `file:` URL) is
  not collapsed as Node would.
- JavaScript strings are UTF-16 code units and Dafny strings are characters.
  The two agree on the ASCII components that URL parsing produces.
- `Layout.ImgTargetOfRoundTrip`: the name is stated in terms of the resolved
  URL only when the parser reads back that URL's `href` unchanged, because
  URL serialisation and parsing are not modelled. `Layout.ImgTargetSpec`
  covers every case.
- `Layout.ImgFileKeepsExtension` assumes the re-parsed URL has a non-empty
  host. With an empty generated name, the file name would be the bare
  extension, a dot file without an extension.
- `HexletExample` fixes the test page's `alt` text as `Node.js`, not the
  Cyrillic text of the fixture, and leaves out the elements that have no
  attributes the loop reads.
