/**
 * The first half of Score::generateHTML: list what the destination
 * directory already holds, read the metadata, decide whether the images and
 * MIDI file must be rendered again, merge in what a new rendering published,
 * and decide whether the audio file must be made. The file backend's answers
 * are inputs; the HTML built from the result is not modelled.
 */
module Cache {
  import opened Wrappers
  import opened Text
  import opened ScoreErrors
  import opened RenderOptions
  import opened Publish

  function PngName(prefix: string): string { prefix + ".png" }
  function SvgName(prefix: string): string { prefix + ".svg" }
  function FirstPagePngName(prefix: string): string { prefix + "-page1.png" }
  function FirstPageSvgName(prefix: string): string { prefix + "-1.svg" }
  function MidiName(prefix: string): string { prefix + ".midi" }
  function JsonName(prefix: string): string { prefix + ".json" }
  function Mp3Name(prefix: string): string { prefix + ".mp3" }

  /** `isset( $metaData[$name]['size'] )` */
  predicate HasSize(md: Metadata, name: string) {
    name in md && md[name].size.Some?
  }

  /** `isset( $metaData[$name]['length'] ) && $metaData[$name]['length']`: a length other than zero. */
  predicate HasLength(md: Metadata, name: string) {
    name in md && md[name].length.Some? && md[name].length.value != 0.0
  }

  /** Whether the images, the MIDI file and the metadata must be rendered again. */
  predicate NeedsRegeneration(prefix: string, existing: set<string>, md: Metadata, useSvg: bool) {
    || JsonName(prefix) !in existing
    || (PngName(prefix) !in existing && FirstPagePngName(prefix) !in existing)
    || (useSvg && FirstPageSvgName(prefix) !in existing && SvgName(prefix) !in existing)
    || (!HasSize(md, PngName(prefix)) && !HasSize(md, FirstPagePngName(prefix)))
    || MidiName(prefix) !in existing
  }

  /** The options generateHTML reads: those of generatePngAndMidi and, for a MIDI override, the audio name. */
  predicate CacheReady(o: Options) {
    Renderable(o) && OverrideAudio in o && o[OverrideAudio].Flag?
    && (o[OverrideMidi].b ==> AudioShaName in o && o[AudioShaName].Str?)
  }

  /**
   * Whether the audio file must be made: only when audio was asked for, and
   * then when it is missing or has no length. An overriding MIDI file's audio
   * lives outside the destination directory; audioExists is the backend's
   * answer for it.
   */
  predicate NeedsAudio(o: Options, existing: set<string>, md: Metadata, audioExists: bool)
    requires CacheReady(o)
  {
    var job := JobOf(o);
    if !job.generateAudio then false
    else if job.overrideMidi then !audioExists || !HasLength(md, o[AudioShaName].s)
    else Mp3Name(job.prefix) !in existing || !HasLength(md, Mp3Name(job.prefix))
  }

  /** What generateHTML knows once the files are in place. */
  datatype CacheState = CacheState(existingFiles: set<string>, metadata: Metadata, regenerated: bool, renderAudio: bool)

  /** The backend's answers: the directory listing (None when it fails) and the metadata file's contents (None when unreadable). */
  datatype Stored = Stored(listing: Option<seq<string>>, metadataFile: Option<Metadata>, audioExists: bool)

  /** generateHTML up to the output links, as a function of its inputs. */
  function Prepare(code: string, o: Options, stored: Stored, s: Settings, run: RunResult, backend: Backend): Result<CacheState, ScoreError>
    requires CacheReady(o)
  {
    if stored.listing.None? then Failure(Error("score-file-list-error"))
    else
      var existing := set f | f in stored.listing.value;
      var job := JobOf(o);
      if JsonName(job.prefix) in existing && stored.metadataFile.None? then
        Failure(ScoreException("score-nocontent", [JsonName(job.prefix)]))
      else
        var md := if JsonName(job.prefix) in existing then stored.metadataFile.value else map[];
        if NeedsRegeneration(job.prefix, existing, md, s.useSvg) then
          match PngAndMidi(code, job, md, s, run, backend)
          case Failure(e) => Failure(e)
          case Success(p) =>
            Success(CacheState(existing + p.newFiles, p.metadata, true,
                               NeedsAudio(o, existing + p.newFiles, p.metadata, stored.audioExists)))
        else Success(CacheState(existing, md, false, NeedsAudio(o, existing, md, stored.audioExists)))
  }

  // ---------------------------------------------------------------------------
  // generateHTML

  method PrepareFiles(code: string, options: Options, stored: Stored, s: Settings, run: RunResult, backend: Backend)
    returns (r: Result<CacheState, ScoreError>)
    requires CacheReady(options)
    ensures r == Prepare(code, options, stored, s, run, backend)
  {
    if stored.listing.None? {
      return Failure(Error("score-file-list-error"));
    }
    var existingFiles := ExistingFiles(stored.listing.value);
    assert existingFiles == set f | f in stored.listing.value;
    var prefix := options[FileNamePrefix].s;
    var metaDataFileName := prefix + ".json";
    var metaData: Metadata;
    if metaDataFileName in existingFiles {
      if stored.metadataFile.None? {
        return Failure(ScoreException("score-nocontent", [metaDataFileName]));
      }
      metaData := stored.metadataFile.value;
    } else {
      metaData := map[];
    }

    var regenerated := false;
    if NeedsRegeneration(prefix, existingFiles, metaData, s.useSvg) {
      var published := GeneratePngAndMidi(code, options, metaData, s, run, backend);
      if published.Failure? {
        return Failure(published.error);
      }
      existingFiles := existingFiles + published.value.newFiles;
      metaData := published.value.metadata;
      regenerated := true;
    }

    var renderAudio := DecideAudio(options, existingFiles, metaData, stored.audioExists);
    r := Success(CacheState(existingFiles, metaData, regenerated, renderAudio));
  }

  /** The audio check at the end of the file preparation. */
  method DecideAudio(options: Options, existingFiles: set<string>, metaData: Metadata, audioExists: bool)
    returns (renderAudio: bool)
    requires CacheReady(options)
    ensures renderAudio == NeedsAudio(options, existingFiles, metaData, audioExists)
  {
    renderAudio := false;
    if options[GenerateAudio].b {
      if options[OverrideMidi].b {
        var shaName := options[AudioShaName].s;
        renderAudio := !audioExists || !HasLength(metaData, shaName);
      } else {
        var audioFileName := options[FileNamePrefix].s + ".mp3";
        renderAudio := audioFileName !in existingFiles || !HasLength(metaData, audioFileName);
      }
    }
  }

  /** The foreach over the directory listing: a name is an existing file exactly when it is listed. */
  method ExistingFiles(listing: seq<string>) returns (existingFiles: set<string>)
    ensures forall f :: f in existingFiles <==> f in listing
  {
    existingFiles := {};
    for i := 0 to |listing|
      invariant forall f :: f in existingFiles <==> f in listing[..i]
    {
      assert listing[..i + 1] == listing[..i] + [listing[i]];
      existingFiles := existingFiles + {listing[i]};
    }
    assert listing[..|listing|] == listing;
  }

  // ---------------------------------------------------------------------------
  // Properties

  /** The options renderScore builds satisfy what generateHTML reads. */
  lemma RequestOptionsCacheReady(code: string, args: Args, host: Host)
    ensures CacheReady(RequestOptions(code, args, host))
  {
    RequestOptionsRenderable(code, args, host);
    OptionKeys(code, args, host);
    OptionValues(code, args, host);
    var o := RequestOptions(code, args, host);
    if o[OverrideMidi].b {
      MidiOverridePaths(code, args, host);
    }
  }

  /** Without its metadata file a score is always rendered again (or the rendering fails). */
  lemma MissingJsonForcesRegeneration(code: string, o: Options, stored: Stored, s: Settings, run: RunResult, backend: Backend)
    requires CacheReady(o) && stored.listing.Some?
    requires JsonName(JobOf(o).prefix) !in stored.listing.value
    ensures var r := Prepare(code, o, stored, s, run, backend);
      r.Success? ==> r.value.regenerated && JsonName(JobOf(o).prefix) in r.value.existingFiles
  {
    var r := Prepare(code, o, stored, s, run, backend);
    if r.Success? {
      var job := JobOf(o);
      var existing := set f | f in stored.listing.value;
      var p := PngAndMidi(code, job, map[], s, run, backend);
      assert p.Success?;
      PublishedNames(code, job, map[], s, run, backend);
    }
  }

  lemma NatToStringOne()
    ensures NatToString(1) == "1"
  {
  }

  /** What a successful rendering publishes, by name. */
  lemma PublishedNames(code: string, job: Job, md: Metadata, s: Settings, run: RunResult, backend: Backend)
    requires PngAndMidi(code, job, md, s, run, backend).Success?
    ensures var p := PngAndMidi(code, job, md, s, run, backend).value;
      JsonName(job.prefix) in p.newFiles
      && (PngName(job.prefix) in p.newFiles || FirstPagePngName(job.prefix) in p.newFiles)
      && (HasSize(p.metadata, PngName(job.prefix)) || HasSize(p.metadata, FirstPagePngName(job.prefix)))
      && (s.useSvg ==> SvgName(job.prefix) in p.newFiles || FirstPageSvgName(job.prefix) in p.newFiles)
      && (MidiName(job.prefix) in p.newFiles <==> NeedMidi(job))
  {
    var n := NumPages(run.received, s.useSvg);
    PublishedRun(code, job, md, s, run, backend);
    BatchNames(job, md, s, n);
  }

  /** The names a batch of n >= 1 pages publishes and the sizes it records. */
  lemma BatchNames(job: Job, md: Metadata, s: Settings, n: nat)
    requires n >= 1
    ensures var files := BatchFiles(job, s, n);
      JsonName(job.prefix) in files
      && (PngName(job.prefix) in files || FirstPagePngName(job.prefix) in files)
      && (HasSize(WithSizes(md, job, s, n, n), PngName(job.prefix))
          || HasSize(WithSizes(md, job, s, n, n), FirstPagePngName(job.prefix)))
      && (s.useSvg ==> SvgName(job.prefix) in files || FirstPageSvgName(job.prefix) in files)
      && (MidiName(job.prefix) in files <==> NeedMidi(job))
  {
    PageInBatch(job, s.useSvg, n, n, 1);
    SizeRecorded(md, job, s, n, n, 1);
    FirstPageNames(job.prefix, n);
    MidiNotAPage(job, s.useSvg, n, n);
    MidiNotSourceOrJson(job.prefix);
  }

  /** Page 1 is stored as <prefix>.png (.svg) when it is the only page, else as <prefix>-page1.png (-1.svg). */
  lemma FirstPageNames(prefix: string, n: nat)
    ensures DstPng(prefix, 1, n) == PngName(prefix) || DstPng(prefix, 1, n) == FirstPagePngName(prefix)
    ensures DstSvg(prefix, 1, n) == SvgName(prefix) || DstSvg(prefix, 1, n) == FirstPageSvgName(prefix)
  {
    NatToStringOne();
  }

  lemma MidiNotSourceOrJson(prefix: string)
    ensures MidiName(prefix) != prefix + ".ly" && MidiName(prefix) != JsonName(prefix)
  {
    assert MidiName(prefix)[|prefix| + 1] == 'm';
    assert JsonName(prefix)[|prefix| + 1] == 'j';
    assert (prefix + ".ly")[|prefix| + 1] == 'l';
  }

  lemma {:induction false} PageInBatch(job: Job, useSvg: bool, k: nat, n: nat, i: nat)
    requires 1 <= i <= k
    ensures DstPng(job.prefix, i, n) in PagesFiles(job, useSvg, k, n)
    ensures useSvg ==> DstSvg(job.prefix, i, n) in PagesFiles(job, useSvg, k, n)
  {
    if i < k {
      PageInBatch(job, useSvg, k - 1, n, i);
    }
  }

  /** Page images end in .png or .svg, so no page image is the MIDI file. */
  lemma {:induction false} MidiNotAPage(job: Job, useSvg: bool, k: nat, n: nat)
    ensures MidiName(job.prefix) !in PagesFiles(job, useSvg, k, n)
  {
    if k > 0 {
      MidiNotAPage(job, useSvg, k - 1, n);
      var m := MidiName(job.prefix);
      var p := DstPng(job.prefix, k, n);
      var v := DstSvg(job.prefix, k, n);
      assert m[|m| - 1] == 'i';
      assert p[|p| - 1] == 'g';
      assert v[|v| - 1] == 'g';
    }
  }

  /**
   * A rendering that needed MIDI leaves a cache hit behind: once its files
   * are listed and its metadata is read back, nothing has to be rendered
   * again.
   */
  lemma CacheHitAfterPublish(code: string, job: Job, md: Metadata, s: Settings, run: RunResult, backend: Backend,
                             existing: set<string>)
    requires PngAndMidi(code, job, md, s, run, backend).Success? && NeedMidi(job)
    ensures var p := PngAndMidi(code, job, md, s, run, backend).value;
      !NeedsRegeneration(job.prefix, existing + p.newFiles, p.metadata, s.useSvg)
  {
    PublishedNames(code, job, md, s, run, backend);
  }

  /**
   * A raw score without audio never stores a MIDI file, which the cache check
   * demands: while none is stored, every request renders it again, and the
   * rendering does not add one. Only a rendering of the same code with audio,
   * which has the same cache key and so the same prefix, can store it.
   */
  lemma RawWithoutAudioNeverCached(code: string, o: Options, stored: Stored, s: Settings, run: RunResult, backend: Backend)
    requires CacheReady(o) && stored.listing.Some?
    requires JobOf(o).raw && !(JobOf(o).generateAudio && !JobOf(o).overrideMidi)
    requires MidiName(JobOf(o).prefix) !in stored.listing.value
    ensures var r := Prepare(code, o, stored, s, run, backend);
      r.Success? ==>
        (r.value.regenerated && MidiName(JobOf(o).prefix) !in r.value.existingFiles
         && NeedsRegeneration(JobOf(o).prefix, r.value.existingFiles, r.value.metadata, s.useSvg))
  {
    var r := Prepare(code, o, stored, s, run, backend);
    if r.Success? {
      var job := JobOf(o);
      var existing := set f | f in stored.listing.value;
      assert MidiName(job.prefix) !in existing;
      var md := if JsonName(job.prefix) in existing then stored.metadataFile.value else map[];
      assert NeedsRegeneration(job.prefix, existing, md, s.useSvg);
      PublishedNames(code, job, md, s, run, backend);
    }
  }
}
