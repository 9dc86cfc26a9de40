/**
 * Score::generatePngAndMidi: after LilyPond has run in the sandbox, count
 * the pages it produced, check that the MIDI file is there when needed, and
 * assemble the batch of backend operations that publishes the source, the
 * MIDI file, one PNG (and SVG) per page and the metadata. The sandbox run
 * and the backend are inputs; the batch is a value.
 */
module Publish {
  import opened Wrappers
  import opened Text
  import opened ScoreErrors
  import opened LilypondWrapping
  import opened CompileErrors
  import opened RenderOptions

  /** What is recorded about a published file: a PNG's size, an audio file's length. */
  datatype FileMeta = FileMeta(size: Option<(int, int)>, length: Option<real>)

  /** The metadata array kept in <prefix>.json, keyed by file name. */
  type Metadata = map<string, FileMeta>

  /** `$metaData[$name]['size'] = $size` */
  function SetSize(md: Metadata, name: string, size: (int, int)): (r: Metadata)
    ensures name in r && r[name].size == Some(size)
    ensures r.Keys == md.Keys + {name}
    ensures forall k :: k in md && k != name ==> r[k] == md[k]
  {
    if name in md then md[name := md[name].(size := Some(size))]
    else md[name := FileMeta(Some(size), None)]
  }

  /** The wiki configuration generatePngAndMidi reads. */
  datatype Settings = Settings(
    disableExec: bool,
    safeMode: bool,
    /** version_compare( getLilypondVersion(), '2.23.12', '>=' ) */
    safeModeUnsupported: bool,
    /** createDirectory could not make the working directory (wfMkdirParents failed). */
    workDirFails: bool,
    lilypondVersion: string,
    useSvg: bool,
    debugOutput: bool,
    /** PHP's conversion of a float to a string. */
    floatText: real -> string,
    /** getimagesize of a PNG produced in the working directory. */
    imageSize: string -> (int, int))

  /** The sandboxed LilyPond run: exit code, output and the files it sent back. */
  datatype RunResult = RunResult(exitCode: int, stdout: string, received: set<string>, lyFile: string)

  /** The outcome of the backend's prepare and doQuickOperations calls: None when OK. */
  datatype Backend = Backend(prepareError: Option<string>, batchError: Option<string>)

  datatype Content = LySource(text: string) | MetadataJson(meta: Metadata)

  datatype Op =
    | Create(content: Content, dst: string, contentType: Option<string>)
    | Store(src: string, dst: string, contentType: Option<string>)

  const LyContentType := "text/x-lilypond; charset=utf-8"
  const SvgContentType := "image/svg+xml"

  /** A successful run: the names published, the batch, and the updated metadata. */
  datatype Published = Published(newFiles: set<string>, ops: seq<Op>, metadata: Metadata)

  /** The options generatePngAndMidi reads, as renderScore sets them. */
  datatype Job = Job(lang: string, raw: bool, noteLanguage: string, lineWidth: Option<real>,
                     generateAudio: bool, overrideMidi: bool, dest: string, prefix: string, factoryDir: string)

  predicate Renderable(o: Options) {
    && Lang in o && o[Lang].Str? && Raw in o && o[Raw].Flag?
    && NoteLanguage in o && o[NoteLanguage].Str? && GenerateAudio in o && o[GenerateAudio].Flag?
    && OverrideMidi in o && o[OverrideMidi].Flag? && DestStoragePath in o && o[DestStoragePath].Str?
    && FileNamePrefix in o && o[FileNamePrefix].Str? && FactoryDirectory in o && o[FactoryDirectory].Str?
    && (LineWidthInches in o ==> o[LineWidthInches].Num?)
  }

  function JobOf(o: Options): Job
    requires Renderable(o)
  {
    Job(o[Lang].s, o[Raw].b, o[NoteLanguage].s,
        if LineWidthInches in o then Some(o[LineWidthInches].r) else None,
        o[GenerateAudio].b, o[OverrideMidi].b, o[DestStoragePath].s, o[FileNamePrefix].s, o[FactoryDirectory].s)
  }

  // ---------------------------------------------------------------------------
  // Pages

  function PagePng(i: nat): string {
    "file-page" + NatToString(i) + ".png"
  }

  function PageNames(n: nat): set<string> {
    if n == 0 then {} else PageNames(n - 1) + {PagePng(n)}
  }

  lemma PagePngInjective(i: nat, j: nat)
    requires PagePng(i) == PagePng(j)
    ensures i == j
  {
    var a := NatToString(i);
    var b := NatToString(j);
    assert |a| == |b|;
    assert PagePng(i)[9..9 + |a|] == a;
    assert PagePng(j)[9..9 + |b|] == b;
    NatToStringInjective(i, j);
  }

  lemma {:induction false} PageNamesBelow(n: nat, i: nat)
    requires i > n
    ensures PagePng(i) !in PageNames(n)
  {
    if n > 0 {
      PageNamesBelow(n - 1, i);
      if PagePng(i) == PagePng(n) {
        PagePngInjective(i, n);
      }
    }
  }

  lemma {:induction false} PageNamesHas(n: nat, j: nat)
    requires 1 <= j <= n
    ensures PagePng(j) in PageNames(n)
  {
    if j < n {
      PageNamesHas(n - 1, j);
    }
  }

  /** The end of the unbroken run file-page<i>.png, file-page<i+1>.png, ... among the received files. */
  function PageRunFrom(received: set<string>, i: nat): (n: nat)
    requires i >= 1 && PageNames(i - 1) <= received
    ensures n >= i - 1 && PageNames(n) <= received && PagePng(n + 1) !in received
    decreases received - PageNames(i - 1)
  {
    if PagePng(i) in received then
      PageNamesBelow(i - 1, i);
      PageRunFrom(received, i + 1)
    else i - 1
  }

  function PageRun(received: set<string>): nat {
    PageRunFrom(received, 1)
  }

  /** The page count: the run of page PNGs, or 1 when LilyPond made a single SVG page. */
  function NumPages(received: set<string>, useSvg: bool): nat {
    if useSvg && "file.svg" in received then 1 else PageRun(received)
  }

  /** Whether the MIDI file must be published. */
  predicate NeedMidi(job: Job) {
    !job.raw || (job.generateAudio && !job.overrideMidi)
  }

  // ---------------------------------------------------------------------------
  // The batch

  function DstPng(prefix: string, i: nat, n: nat): string {
    if n == 1 then prefix + ".png" else prefix + "-page" + NatToString(i) + ".png"
  }

  /** The published PNG names of pages 1 to k of n. */
  function DstPngNames(prefix: string, k: nat, n: nat): set<string> {
    set i | 1 <= i <= k :: DstPng(prefix, i, n)
  }

  function DstSvg(prefix: string, i: nat, n: nat): string {
    if n == 1 then prefix + ".svg" else prefix + "-" + NatToString(i) + ".svg"
  }

  function SrcPng(dir: string, i: nat, n: nat, useSvg: bool): string {
    if n == 1 && useSvg then dir + "/file.png" else dir + "/file-page" + NatToString(i) + ".png"
  }

  function SrcSvg(dir: string, i: nat, n: nat, useSvg: bool): string {
    if n == 1 && useSvg then dir + "/file.svg" else dir + "/file-" + NatToString(i) + ".svg"
  }

  /** The stores for page i of n. */
  function PageOps(job: Job, useSvg: bool, i: nat, n: nat): seq<Op> {
    [Store(SrcPng(job.factoryDir, i, n, useSvg), job.dest + "/" + DstPng(job.prefix, i, n), None)]
    + if useSvg then [Store(SrcSvg(job.factoryDir, i, n, useSvg), job.dest + "/" + DstSvg(job.prefix, i, n), Some(SvgContentType))]
      else []
  }

  function PageFiles(job: Job, useSvg: bool, i: nat, n: nat): set<string> {
    {DstPng(job.prefix, i, n)} + if useSvg then {DstSvg(job.prefix, i, n)} else {}
  }

  /** The stores for pages 1 to k of n. */
  function PagesOps(job: Job, useSvg: bool, k: nat, n: nat): seq<Op> {
    if k == 0 then [] else PagesOps(job, useSvg, k - 1, n) + PageOps(job, useSvg, k, n)
  }

  function PagesFiles(job: Job, useSvg: bool, k: nat, n: nat): set<string> {
    if k == 0 then {} else PagesFiles(job, useSvg, k - 1, n) + PageFiles(job, useSvg, k, n)
  }

  /** The metadata with the sizes of pages 1 to k of n recorded. */
  function WithSizes(md: Metadata, job: Job, s: Settings, k: nat, n: nat): Metadata {
    if k == 0 then md
    else SetSize(WithSizes(md, job, s, k - 1, n), DstPng(job.prefix, k, n), s.imageSize(SrcPng(job.factoryDir, k, n, s.useSvg)))
  }

  function LyOp(job: Job, lilypondCode: string): Op {
    Create(LySource(lilypondCode), job.dest + "/" + job.prefix + ".ly", Some(LyContentType))
  }

  function MidiOp(job: Job): Op {
    Store(job.factoryDir + "/file.midi", job.dest + "/" + job.prefix + ".midi", None)
  }

  function JsonOp(job: Job, md: Metadata): Op {
    Create(MetadataJson(md), job.dest + "/" + job.prefix + ".json", None)
  }

  function Batch(job: Job, s: Settings, n: nat, lilypondCode: string, md: Metadata): seq<Op> {
    [LyOp(job, lilypondCode)] + (if NeedMidi(job) then [MidiOp(job)] else [])
    + PagesOps(job, s.useSvg, n, n) + [JsonOp(job, WithSizes(md, job, s, n, n))]
  }

  function BatchFiles(job: Job, s: Settings, n: nat): set<string> {
    {job.prefix + ".ly"} + (if NeedMidi(job) then {job.prefix + ".midi"} else {})
    + PagesFiles(job, s.useSvg, n, n) + {job.prefix + ".json"}
  }

  /** The \paper settings: the line width in inches, when one was given. */
  function PaperSettings(job: Job, s: Settings): Config {
    if job.lineWidth.Some? then [("line-width", s.floatText(job.lineWidth.value) + "\\in")] else []
  }

  /** The LilyPond source that is published: what the run sent back, else what was compiled. */
  function LilypondCode(code: string, job: Job, s: Settings, run: RunResult): string {
    if "file.ly" in run.received then run.lyFile
    else if job.lang == "lilypond" then
      if job.raw then code
      else Embed(code, job.noteLanguage, PaperBlock(ArrayMerge(DefaultPaper, PaperSettings(job, s))), s.lilypondVersion)
    else ""
  }

  /** What generatePngAndMidi does, as a function of its inputs. */
  function PngAndMidi(code: string, job: Job, md: Metadata, s: Settings, run: RunResult, backend: Backend): Result<Published, ScoreError> {
    if s.disableExec then Failure(ScoreDisabled)
    else if s.safeMode && s.safeModeUnsupported then Failure(Error("score-safe-mode"))
    else if s.workDirFails then Failure(ScoreException("score-nooutput", [job.factoryDir]))
    else if run.exitCode != 0 then Failure(CompileError(run.stdout, job.raw, s.debugOutput))
    else StoredOutput(job, md, s, run, backend, LilypondCode(code, job, s, run))
  }

  /** What generatePngAndMidi does once LilyPond has succeeded: check the output files, then store them. */
  function StoredOutput(job: Job, md: Metadata, s: Settings, run: RunResult, backend: Backend, lilypondCode: string): Result<Published, ScoreError> {
    var n := NumPages(run.received, s.useSvg);
    if n == 0 then Failure(Error("score-noimages"))
    else if NeedMidi(job) && "file.midi" !in run.received then Failure(Error("score-nomidi"))
    else if backend.prepareError.Some? then Failure(ScoreBackendError(backend.prepareError.value))
    else if backend.batchError.Some? then Failure(ScoreBackendError(backend.batchError.value))
    else Success(Published(BatchFiles(job, s, n), Batch(job, s, n, lilypondCode, md), WithSizes(md, job, s, n, n)))
  }

  // ---------------------------------------------------------------------------
  // generatePngAndMidi

  method GeneratePngAndMidi(code: string, options: Options, metaData: Metadata, s: Settings, run: RunResult, backend: Backend)
    returns (r: Result<Published, ScoreError>)
    requires Renderable(options)
    ensures r == PngAndMidi(code, JobOf(options), metaData, s, run, backend)
  {
    var job := JobOf(options);
    if s.disableExec {
      return Failure(ScoreDisabled);
    }
    if s.safeMode && s.safeModeUnsupported {
      return Failure(Error("score-safe-mode"));
    }
    if s.workDirFails {
      return Failure(ScoreException("score-nooutput", [job.factoryDir]));
    }

    var lilypondCode := CompiledCode(code, job, s);
    if run.exitCode != 0 {
      var e := ThrowCompileException(run.stdout, job.raw, s.debugOutput);
      return Failure(e);
    }
    if "file.ly" in run.received {
      lilypondCode := run.lyFile;
    }
    r := StoreOutput(job, metaData, s, run, backend, lilypondCode);
  }

  /** The second half of generatePngAndMidi: count the pages, check the MIDI file, run the batch. */
  method StoreOutput(job: Job, metaData: Metadata, s: Settings, run: RunResult, backend: Backend, lilypondCode: string)
    returns (r: Result<Published, ScoreError>)
    ensures r == StoredOutput(job, metaData, s, run, backend, lilypondCode)
  {
    var numPages := CountPages(run.received);
    if s.useSvg && "file.svg" in run.received {
      numPages := 1;
    }
    if numPages == 0 {
      return Failure(Error("score-noimages"));
    }

    var needMidi := false;
    var haveMidi := "file.midi" in run.received;
    if !job.raw || (job.generateAudio && !job.overrideMidi) {
      needMidi := true;
      if !haveMidi {
        return Failure(Error("score-nomidi"));
      }
    }

    if backend.prepareError.Some? {
      return Failure(ScoreBackendError(backend.prepareError.value));
    }
    var newFiles, ops, md := AssembleBatch(job, s, numPages, lilypondCode, metaData);
    if backend.batchError.Some? {
      return Failure(ScoreBackendError(backend.batchError.value));
    }
    r := Success(Published(newFiles, ops, md));
  }

  /** The code handed to LilyPond: raw code as it is, other LilyPond code wrapped, ABC none. */
  method CompiledCode(code: string, job: Job, s: Settings) returns (lilypondCode: string)
    ensures lilypondCode == LilypondCode(code, job, s, RunResult(0, "", {}, ""))
  {
    lilypondCode := "";
    if job.lang == "lilypond" {
      if job.raw {
        lilypondCode := code;
      } else {
        var paperConfig: Config := [];
        if job.lineWidth.Some? {
          paperConfig := [("line-width", s.floatText(job.lineWidth.value) + "\\in")];
        }
        var paperCode := GetPaperCode(paperConfig);
        lilypondCode := Embed(code, job.noteLanguage, paperCode, s.lilypondVersion);
      }
    }
  }

  /** The batch: the source, the MIDI file when needed, each page, then the metadata. */
  method AssembleBatch(job: Job, s: Settings, numPages: nat, lilypondCode: string, metaData: Metadata)
    returns (newFiles: set<string>, ops: seq<Op>, md: Metadata)
    ensures newFiles == BatchFiles(job, s, numPages)
    ensures ops == Batch(job, s, numPages, lilypondCode, metaData)
    ensures md == WithSizes(metaData, job, s, numPages, numPages)
  {
    var head := [LyOp(job, lilypondCode)];
    var headFiles := {job.prefix + ".ly"};
    if NeedMidi(job) {
      head := head + [MidiOp(job)];
      headFiles := headFiles + {job.prefix + ".midi"};
    }
    ops, newFiles, md := AddPages(job, s, numPages, head, headFiles, metaData);
    BatchClosed(job, s, numPages, lilypondCode, metaData, head, headFiles, ops, newFiles, md);
    ops := ops + [JsonOp(job, md)];
    newFiles := newFiles + {job.prefix + ".json"};
  }

  /** The page loop: each page's stores and names are appended and its PNG's size recorded. */
  method AddPages(job: Job, s: Settings, numPages: nat, head: seq<Op>, headFiles: set<string>, metaData: Metadata)
    returns (ops: seq<Op>, newFiles: set<string>, md: Metadata)
    ensures ops == head + PagesOps(job, s.useSvg, numPages, numPages)
    ensures newFiles == headFiles + PagesFiles(job, s.useSvg, numPages, numPages)
    ensures md == WithSizes(metaData, job, s, numPages, numPages)
  {
    ops := head;
    newFiles := headFiles;
    md := metaData;
    var i := 0;
    while i < numPages
      invariant i <= numPages
      invariant ops == head + PagesOps(job, s.useSvg, i, numPages)
      invariant newFiles == headFiles + PagesFiles(job, s.useSvg, i, numPages)
      invariant md == WithSizes(metaData, job, s, i, numPages)
    {
      i := i + 1;
      var pageOps, pageFiles, size := PublishPage(job, s.useSvg, s.imageSize, i, numPages);
      PagesStep(job, s, i, numPages, head, headFiles, metaData, ops, newFiles, md, pageOps, pageFiles, size);
      ops := ops + pageOps;
      newFiles := newFiles + pageFiles;
      md := SetSize(md, DstPng(job.prefix, i, numPages), size);
    }
  }

  /** Appending the metadata file after the pages completes the batch. */
  lemma BatchClosed(job: Job, s: Settings, n: nat, lilypondCode: string, metaData: Metadata,
                    head: seq<Op>, headFiles: set<string>, ops: seq<Op>, files: set<string>, md: Metadata)
    requires head == [LyOp(job, lilypondCode)] + (if NeedMidi(job) then [MidiOp(job)] else [])
    requires headFiles == {job.prefix + ".ly"} + (if NeedMidi(job) then {job.prefix + ".midi"} else {})
    requires ops == head + PagesOps(job, s.useSvg, n, n)
    requires files == headFiles + PagesFiles(job, s.useSvg, n, n)
    requires md == WithSizes(metaData, job, s, n, n)
    ensures ops + [JsonOp(job, md)] == Batch(job, s, n, lilypondCode, metaData)
    ensures files + {job.prefix + ".json"} == BatchFiles(job, s, n)
  {
  }

  /** One turn of the page loop keeps its invariant. */
  lemma PagesStep(job: Job, s: Settings, i: nat, n: nat, head: seq<Op>, headFiles: set<string>, metaData: Metadata,
                  ops: seq<Op>, files: set<string>, md: Metadata, pageOps: seq<Op>, pageFiles: set<string>, size: (int, int))
    requires i >= 1
    requires ops == head + PagesOps(job, s.useSvg, i - 1, n) && pageOps == PageOps(job, s.useSvg, i, n)
    requires files == headFiles + PagesFiles(job, s.useSvg, i - 1, n) && pageFiles == PageFiles(job, s.useSvg, i, n)
    requires md == WithSizes(metaData, job, s, i - 1, n) && size == s.imageSize(SrcPng(job.factoryDir, i, n, s.useSvg))
    ensures ops + pageOps == head + PagesOps(job, s.useSvg, i, n)
    ensures files + pageFiles == headFiles + PagesFiles(job, s.useSvg, i, n)
    ensures SetSize(md, DstPng(job.prefix, i, n), size) == WithSizes(metaData, job, s, i, n)
  {
    AppendRegrouped(head, PagesOps(job, s.useSvg, i - 1, n), pageOps);
  }

  lemma AppendRegrouped(a: seq<Op>, b: seq<Op>, c: seq<Op>)
    ensures a + (b + c) == a + b + c
  {
  }

  /** The page count loop: the first i whose file-page<i>.png was not received, less one. */
  method CountPages(received: set<string>) returns (numPages: nat)
    ensures numPages == PageRun(received)
  {
    var i := 1;
    while PagePng(i) in received
      invariant i >= 1 && PageNames(i - 1) <= received
      invariant PageRunFrom(received, i) == PageRun(received)
      decreases received - PageNames(i - 1)
    {
      PageNamesBelow(i - 1, i);
      i := i + 1;
    }
    numPages := i - 1;
  }

  /** The body of the page loop: the stores of page i, the names they publish, and the PNG's size. */
  method PublishPage(job: Job, useSvg: bool, imageSize: string -> (int, int), i: nat, numPages: nat)
    returns (pageOps: seq<Op>, pageFiles: set<string>, size: (int, int))
    ensures pageOps == PageOps(job, useSvg, i, numPages)
    ensures pageFiles == PageFiles(job, useSvg, i, numPages)
    ensures size == imageSize(SrcPng(job.factoryDir, i, numPages, useSvg))
  {
    var srcPng := job.factoryDir + "/file-page" + NatToString(i) + ".png";
    var srcSvg := job.factoryDir + "/file-" + NatToString(i) + ".svg";
    var dstPngFileName := job.prefix + "-page" + NatToString(i) + ".png";
    var dstSvgFileName := job.prefix + "-" + NatToString(i) + ".svg";
    if numPages == 1 {
      dstPngFileName := job.prefix + ".png";
      if useSvg {
        srcPng := job.factoryDir + "/file.png";
        srcSvg := job.factoryDir + "/file.svg";
        dstSvgFileName := job.prefix + ".svg";
      }
    }
    pageOps := [Store(srcPng, job.dest + "/" + dstPngFileName, None)];
    size := imageSize(srcPng);
    pageFiles := {dstPngFileName};
    if useSvg {
      pageOps := pageOps + [Store(srcSvg, job.dest + "/" + dstSvgFileName, Some(SvgContentType))];
      pageFiles := pageFiles + {dstSvgFileName};
    }
  }

  // ---------------------------------------------------------------------------
  // Properties

  /** The options renderScore builds are the options generatePngAndMidi reads. */
  lemma RequestOptionsRenderable(code: string, args: Args, host: Host)
    ensures Renderable(RequestOptions(code, args, host))
    ensures var job := JobOf(RequestOptions(code, args, host));
      job.raw == ("raw" in args) && job.lang == LangArg(args) && job.noteLanguage == NoteLanguageArg(args)
      && job.lineWidth == LineWidth(args, host) && job.generateAudio == GeneratesAudio(args)
  {
    OptionValues(code, args, host);
  }

  lemma {:induction false} PageRunFromIs(received: set<string>, i: nat, n: nat)
    requires 1 <= i <= n + 1 && PageNames(i - 1) <= received
    requires PageNames(n) <= received && PagePng(n + 1) !in received
    ensures PageRunFrom(received, i) == n
    decreases n + 1 - i
  {
    if i <= n {
      PageNamesHas(n, i);
      PageRunFromIs(received, i + 1, n);
    }
  }

  /**
   * The page count is the length of the unbroken run file-page1.png,
   * file-page2.png, ... among the received files: n is the count exactly when
   * pages 1 to n were received and page n + 1 was not. A single SVG page
   * counts as one page when SVG output is on.
   */
  lemma PageCountRule(received: set<string>, useSvg: bool, n: nat)
    ensures PageRun(received) == n <==> PageNames(n) <= received && PagePng(n + 1) !in received
    ensures NumPages(received, useSvg) == if useSvg && "file.svg" in received then 1 else PageRun(received)
  {
    if PageNames(n) <= received && PagePng(n + 1) !in received {
      PageRunFromIs(received, 1, n);
    }
  }

  /**
   * The checks before the run, in order: shell execution disabled, safe mode
   * on a LilyPond that no longer supports it, then a working directory that
   * cannot be created, which names the directory.
   */
  lemma PreRunRule(code: string, job: Job, md: Metadata, s: Settings, run: RunResult, backend: Backend)
    ensures var r := PngAndMidi(code, job, md, s, run, backend);
      (s.disableExec ==> r == Failure(ScoreDisabled))
      && (!s.disableExec && s.safeMode && s.safeModeUnsupported ==> r == Failure(Error("score-safe-mode")))
      && (!s.disableExec && !(s.safeMode && s.safeModeUnsupported) && s.workDirFails ==>
            r == Failure(ScoreException("score-nooutput", [job.factoryDir])))
  {
  }

  /**
   * Once LilyPond has succeeded: no page is the score-noimages error, and a
   * missing MIDI file, when MIDI is needed, is the score-nomidi error. A
   * successful publish had at least one page and the MIDI file when needed.
   */
  lemma PostCompileRule(code: string, job: Job, md: Metadata, s: Settings, run: RunResult, backend: Backend)
    requires !s.disableExec && !(s.safeMode && s.safeModeUnsupported) && !s.workDirFails && run.exitCode == 0
    ensures var r := PngAndMidi(code, job, md, s, run, backend);
      (r == Failure(Error("score-noimages")) <==> NumPages(run.received, s.useSvg) == 0)
      && (NumPages(run.received, s.useSvg) > 0 ==>
            (r == Failure(Error("score-nomidi")) <==> NeedMidi(job) && "file.midi" !in run.received))
  {
  }

  /** What a successful publish implies about the run. */
  lemma PublishedRun(code: string, job: Job, md: Metadata, s: Settings, run: RunResult, backend: Backend)
    requires PngAndMidi(code, job, md, s, run, backend).Success?
    ensures !s.disableExec && !s.workDirFails && run.exitCode == 0 && NumPages(run.received, s.useSvg) >= 1
    ensures NeedMidi(job) ==> "file.midi" in run.received
    ensures backend.prepareError.None? && backend.batchError.None?
    ensures var n := NumPages(run.received, s.useSvg);
      PngAndMidi(code, job, md, s, run, backend).value.metadata.Keys == md.Keys + DstPngNames(job.prefix, n, n)
  {
    var n := NumPages(run.received, s.useSvg);
    SizeKeys(md, job, s, n, n);
  }

  lemma {:induction false} SizeKeys(md: Metadata, job: Job, s: Settings, k: nat, n: nat)
    ensures WithSizes(md, job, s, k, n).Keys == md.Keys + DstPngNames(job.prefix, k, n)
  {
    if k > 0 {
      SizeKeys(md, job, s, k - 1, n);
      DstPngNamesStep(job.prefix, k, n);
      KeysGrow(md.Keys, WithSizes(md, job, s, k - 1, n).Keys, WithSizes(md, job, s, k, n).Keys,
        DstPngNames(job.prefix, k - 1, n), DstPngNames(job.prefix, k, n), DstPng(job.prefix, k, n));
    }
  }

  lemma DstPngNamesStep(prefix: string, k: nat, n: nat)
    requires k > 0
    ensures DstPngNames(prefix, k, n) == DstPngNames(prefix, k - 1, n) + {DstPng(prefix, k, n)}
  {
  }

  lemma KeysGrow(base: set<string>, before: set<string>, after: set<string>, a: set<string>, b: set<string>, x: string)
    requires before == base + a && after == before + {x} && b == a + {x}
    ensures after == base + b
  {
  }

  // ---------------------------------------------------------------------------
  // The shape of the batch

  lemma {:induction false} PagesOpsLength(job: Job, useSvg: bool, k: nat, n: nat)
    ensures |PagesOps(job, useSvg, k, n)| == k * (if useSvg then 2 else 1)
  {
    if k > 0 {
      PagesOpsLength(job, useSvg, k - 1, n);
    }
  }

  /** The MIDI file is not one of the page images. */
  lemma MidiIsNotPage(dir: string, i: nat, n: nat, useSvg: bool)
    ensures dir + "/file.midi" != SrcPng(dir, i, n, useSvg)
    ensures dir + "/file.midi" != SrcSvg(dir, i, n, useSvg)
  {
    var m := dir + "/file.midi";
    assert m[|dir| + 5] == '.' && m[|dir| + 6] == 'm';
    var x := NatToString(i);
    if n == 1 && useSvg {
      var p := dir + "/file.png";
      var q := dir + "/file.svg";
      assert p[|dir| + 6] == 'p' && q[|dir| + 6] == 's';
    } else {
      var p := dir + "/file-page" + x + ".png";
      var q := dir + "/file-" + x + ".svg";
      assert p[|dir| + 5] == '-' && q[|dir| + 5] == '-';
    }
  }

  lemma {:induction false} NoMidiInPages(job: Job, useSvg: bool, k: nat, n: nat)
    ensures MidiOp(job) !in PagesOps(job, useSvg, k, n)
  {
    if k > 0 {
      NoMidiInPages(job, useSvg, k - 1, n);
      MidiIsNotPage(job.factoryDir, k, n, useSvg);
    }
  }

  /** Pages 1 to k each have their PNG store, and their SVG store when SVG output is on. */
  lemma {:induction false} PageStored(job: Job, useSvg: bool, k: nat, n: nat, i: nat)
    requires 1 <= i <= k
    ensures Store(SrcPng(job.factoryDir, i, n, useSvg), job.dest + "/" + DstPng(job.prefix, i, n), None)
      in PagesOps(job, useSvg, k, n)
    ensures useSvg ==>
      Store(SrcSvg(job.factoryDir, i, n, useSvg), job.dest + "/" + DstSvg(job.prefix, i, n), Some(SvgContentType))
      in PagesOps(job, useSvg, k, n)
  {
    if i < k {
      PageStored(job, useSvg, k - 1, n, i);
    }
  }

  /** Every page store is a PNG store unless SVG output is on. */
  lemma {:induction false} SvgOnlyWithUseSvg(job: Job, useSvg: bool, k: nat, n: nat)
    ensures forall op :: op in PagesOps(job, useSvg, k, n) ==> op.Store? && (op.contentType.Some? ==> useSvg)
  {
    if k > 0 {
      SvgOnlyWithUseSvg(job, useSvg, k - 1, n);
    }
  }

  /**
   * The batch starts by creating <prefix>.ly and ends by creating
   * <prefix>.json with the final metadata; <prefix>.midi is stored exactly
   * when MIDI is needed; every page has one PNG store, and an SVG store only
   * with SVG output.
   */
  lemma BatchShape(job: Job, s: Settings, n: nat, lilypondCode: string, md: Metadata)
    ensures var ops := Batch(job, s, n, lilypondCode, md);
      |ops| == 2 + (if NeedMidi(job) then 1 else 0) + n * (if s.useSvg then 2 else 1)
      && ops[0] == Create(LySource(lilypondCode), job.dest + "/" + job.prefix + ".ly", Some(LyContentType))
      && ops[|ops| - 1] == Create(MetadataJson(WithSizes(md, job, s, n, n)), job.dest + "/" + job.prefix + ".json", None)
      && (MidiOp(job) in ops <==> NeedMidi(job))
      && (NeedMidi(job) ==> ops[1] == Store(job.factoryDir + "/file.midi", job.dest + "/" + job.prefix + ".midi", None))
      && (forall i :: 1 <= i <= n ==>
            Store(SrcPng(job.factoryDir, i, n, s.useSvg), job.dest + "/" + DstPng(job.prefix, i, n), None) in ops)
      && (forall op :: op in ops && op.Store? && op.contentType.Some? ==> s.useSvg)
  {
    var ops := Batch(job, s, n, lilypondCode, md);
    var pages := PagesOps(job, s.useSvg, n, n);
    var midi := if NeedMidi(job) then [MidiOp(job)] else [];
    var json := JsonOp(job, WithSizes(md, job, s, n, n));
    assert ops == [LyOp(job, lilypondCode)] + midi + pages + [json];
    PagesOpsLength(job, s.useSvg, n, n);
    NoMidiInPages(job, s.useSvg, n, n);
    SvgOnlyWithUseSvg(job, s.useSvg, n, n);
    forall i | 1 <= i <= n
      ensures Store(SrcPng(job.factoryDir, i, n, s.useSvg), job.dest + "/" + DstPng(job.prefix, i, n), None) in ops
    {
      PageStored(job, s.useSvg, n, n, i);
    }
    if !NeedMidi(job) {
      assert MidiOp(job) !in [LyOp(job, lilypondCode)] + pages + [json];
    }
  }

  lemma DstPngInjective(prefix: string, i: nat, j: nat, n: nat)
    requires DstPng(prefix, i, n) == DstPng(prefix, j, n) && n != 1
    ensures i == j
  {
    var a := NatToString(i);
    var b := NatToString(j);
    assert |a| == |b|;
    var start := |prefix| + 5;
    assert DstPng(prefix, i, n)[start..start + |a|] == a;
    assert DstPng(prefix, j, n)[start..start + |b|] == b;
    NatToStringInjective(i, j);
  }

  /**
   * After pages 1 to k of n have been stored, page i's PNG has its size in
   * the metadata: the size of the PNG the run produced for that page.
   */
  lemma {:induction false} SizeRecorded(md: Metadata, job: Job, s: Settings, k: nat, n: nat, i: nat)
    requires 1 <= i <= k <= n
    ensures var r := WithSizes(md, job, s, k, n);
      DstPng(job.prefix, i, n) in r
      && r[DstPng(job.prefix, i, n)].size == Some(s.imageSize(SrcPng(job.factoryDir, i, n, s.useSvg)))
  {
    if i < k {
      var prev := WithSizes(md, job, s, k - 1, n);
      var name := DstPng(job.prefix, k, n);
      SizeRecorded(md, job, s, k - 1, n, i);
      assert name != DstPng(job.prefix, i, n) by {
        if name == DstPng(job.prefix, i, n) {
          DstPngInjective(job.prefix, k, i, n);
        }
      }
      var size := s.imageSize(SrcPng(job.factoryDir, k, n, s.useSvg));
      assert WithSizes(md, job, s, k, n) == SetSize(prev, name, size);
      SetSizeKeeps(prev, name, size, DstPng(job.prefix, i, n));
    } else {
      var size := s.imageSize(SrcPng(job.factoryDir, k, n, s.useSvg));
      assert WithSizes(md, job, s, k, n) == SetSize(WithSizes(md, job, s, k - 1, n), DstPng(job.prefix, k, n), size);
    }
  }

  lemma SetSizeKeeps(md: Metadata, name: string, size: (int, int), other: string)
    requires other in md && other != name
    ensures other in SetSize(md, name, size) && SetSize(md, name, size)[other] == md[other]
  {
  }

  /** The name a store or create gives its file inside the directory dest. */
  function Basename(dst: string, dest: string): string {
    if |dest| < |dst| then dst[|dest| + 1..] else dst
  }

  /** The names of the files a batch writes into dest. */
  function DstNames(ops: seq<Op>, dest: string): set<string> {
    set op | op in ops :: Basename(op.dst, dest)
  }

  lemma BasenameOf(dest: string, name: string)
    ensures Basename(dest + "/" + name, dest) == name
  {
    assert (dest + "/" + name)[|dest| + 1..] == name;
  }

  lemma DstNamesAppend(a: seq<Op>, b: seq<Op>, dest: string)
    ensures DstNames(a + b, dest) == DstNames(a, dest) + DstNames(b, dest)
  {
    forall x | x in DstNames(a + b, dest)
      ensures x in DstNames(a, dest) + DstNames(b, dest)
    {
      var op :| op in a + b && Basename(op.dst, dest) == x;
      if op in a {
        assert x in DstNames(a, dest);
      } else {
        assert x in DstNames(b, dest);
      }
    }
    forall x | x in DstNames(a, dest) + DstNames(b, dest)
      ensures x in DstNames(a + b, dest)
    {
      if x in DstNames(a, dest) {
        var op :| op in a && Basename(op.dst, dest) == x;
        assert op in a + b;
      } else {
        var op :| op in b && Basename(op.dst, dest) == x;
        assert op in a + b;
      }
    }
  }

  lemma DstNamesOne(op: Op, dest: string, name: string)
    requires op.dst == dest + "/" + name
    ensures DstNames([op], dest) == {name}
  {
    BasenameOf(dest, name);
    assert op in [op];
  }

  lemma {:induction false} PagesFilesAreDestinations(job: Job, useSvg: bool, k: nat, n: nat)
    ensures PagesFiles(job, useSvg, k, n) == DstNames(PagesOps(job, useSvg, k, n), job.dest)
  {
    if k == 0 {
      assert DstNames([], job.dest) == {};
    } else {
      PagesFilesAreDestinations(job, useSvg, k - 1, n);
      var png := Store(SrcPng(job.factoryDir, k, n, useSvg), job.dest + "/" + DstPng(job.prefix, k, n), None);
      DstNamesOne(png, job.dest, DstPng(job.prefix, k, n));
      DstNamesAppend(PagesOps(job, useSvg, k - 1, n), PageOps(job, useSvg, k, n), job.dest);
      if useSvg {
        var svg := Store(SrcSvg(job.factoryDir, k, n, useSvg), job.dest + "/" + DstSvg(job.prefix, k, n), Some(SvgContentType));
        DstNamesOne(svg, job.dest, DstSvg(job.prefix, k, n));
        DstNamesAppend([png], [svg], job.dest);
      } else {
        assert PageOps(job, useSvg, k, n) == [png];
      }
    }
  }

  /** The names generatePngAndMidi returns are exactly the names of the files its batch writes. */
  lemma BatchFilesAreDestinations(job: Job, s: Settings, n: nat, lilypondCode: string, md: Metadata)
    ensures BatchFiles(job, s, n) == DstNames(Batch(job, s, n, lilypondCode, md), job.dest)
  {
    var d := job.dest;
    var ly := LyOp(job, lilypondCode);
    var midi := if NeedMidi(job) then [MidiOp(job)] else [];
    var pages := PagesOps(job, s.useSvg, n, n);
    var json := JsonOp(job, WithSizes(md, job, s, n, n));
    assert Batch(job, s, n, lilypondCode, md) == [ly] + midi + pages + [json];
    assert ly.dst == d + "/" + (job.prefix + ".ly");
    assert json.dst == d + "/" + (job.prefix + ".json");
    DstNamesOne(ly, d, job.prefix + ".ly");
    DstNamesOne(json, d, job.prefix + ".json");
    if NeedMidi(job) {
      assert MidiOp(job).dst == d + "/" + (job.prefix + ".midi");
      DstNamesOne(MidiOp(job), d, job.prefix + ".midi");
    } else {
      assert DstNames([], d) == {};
    }
    PagesFilesAreDestinations(job, s.useSvg, n, n);
    DstNamesAppend([ly], midi, d);
    DstNamesAppend([ly] + midi, pages, d);
    DstNamesAppend([ly] + midi + pages, [json], d);
  }
}
