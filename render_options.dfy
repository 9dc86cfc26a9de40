/**
 * The first half of Score::renderScore: the attributes of a <score> tag are
 * checked and turned, key by key, into the options array that drives
 * rendering, including the cache key and the storage paths derived from it.
 * Everything the wiki supplies (file lookups, page titles, the LilyPond
 * version, configuration, randomness, SHA-1, the float cast) is a field of
 * Host.
 */
module RenderOptions {
  import opened Wrappers
  import opened Text
  import opened ScoreErrors
  import opened Base36

  const CacheVersion := 1

  const SupportedLangs: seq<string> := ["lilypond", "ABC"]

  /** LilyPond's note language file names, in the order the PHP array lists them. */
  const NoteLanguageNames: seq<string> := ["arabic", "catalan", "deutsch", "english", "espanol",
    "italiano", "nederlands", "norsk", "portugues", "suomi", "svenska", "vlaams"]

  /** The language code of each note language. */
  const NoteLanguageCodes: map<string, string> := map[
    "arabic" := "ar", "catalan" := "ca", "deutsch" := "de", "english" := "en", "espanol" := "es",
    "italiano" := "it", "nederlands" := "nl", "norsk" := "no", "portugues" := "pt", "suomi" := "fi",
    "svenska" := "sv", "vlaams" := "vls"]

  const DefaultNoteLanguage := "nederlands"

  const DeprecatedCategory := "score-deprecated-category"
  const ErrorCategory := "score-error-category"
  const UseCategory := "score-use-category"

  /** A file found in the wiki's repositories: its name and its SHA-1 as the wiki stores it. */
  datatype File = File(name: string, sha1: string)

  /** What Title::newFromText and isKnown say about an audio file name. */
  datatype TitleStatus = InvalidTitle | UnknownTitle | KnownTitle

  /** The array whose serialisation is hashed into the cache key. */
  datatype CacheKeyInput = CacheKeyInput(code: string, lang: string, noteLanguage: string, raw: bool,
                                         extVersion: int, lyVersion: string)

  datatype Host = Host(
    tmpDirectory: string,
    /** md5 of a random number. */
    fuzz: string,
    /** $wgScorePath; None stands for false. */
    scorePath: Option<string>,
    uploadPath: string,
    rootStoragePath: string,
    findFile: string -> Option<File>,
    audioTitle: string -> TitleStatus,
    lilypondVersion: string,
    sha1: CacheKeyInput -> Digest,
    /** PHP's (float) cast. */
    toFloat: string -> real)

  datatype OptionValue = Str(s: string) | Flag(b: bool) | Num(r: real) | Midi(file: File)

  /** The keys of the options array, named after the PHP array keys. */
  datatype OptionKey =
    | LineWidthInches | FactoryDirectory | Lang | OverrideMidi | MidiFile
    | AudioStorageDir | AudioStoragePath | AudioUrl | AudioShaName
    | Raw | NoteLanguage | OverrideAudio | AudioName | GenerateAudio
    | DestStoragePath | DestUrl | FileNamePrefix

  /** The options array handed to Score::generateHTML. */
  type Options = map<OptionKey, OptionValue>

  type Args = map<string, string>

  // ---------------------------------------------------------------------------
  // What the attributes mean

  function Abs(x: real): real {
    if x < 0.0 then -x else x
  }

  /** `$s[$i]` inside a double-quoted string: the character, or "" past the end. */
  function CharAt(s: string, i: nat): string {
    if i < |s| then [s[i]] else ""
  }

  /** Score::getBaseUrl */
  function BaseUrl(host: Host): string {
    if host.scorePath.None? then host.uploadPath + "/lilypond" else host.scorePath.value
  }

  function BaseStoragePath(host: Host): string {
    host.rootStoragePath + "/score-render"
  }

  function LangArg(args: Args): string {
    if "lang" in args then args["lang"] else "lilypond"
  }

  function NoteLanguageArg(args: Args): string {
    if "note-language" in args then args["note-language"] else DefaultNoteLanguage
  }

  predicate HasAudioOverride(args: Args) {
    "override_audio" in args || "override_ogg" in args
  }

  /** `$args['override_ogg'] ?? $args['override_audio']` */
  function OverrideAudioArg(args: Args): string
    requires HasAudioOverride(args)
  {
    if "override_ogg" in args then args["override_ogg"] else args["override_audio"]
  }

  predicate GeneratesAudio(args: Args) {
    "sound" in args || "vorbis" in args
  }

  function LineWidth(args: Args, host: Host): Option<real> {
    if "line_width_inches" in args && Abs(host.toFloat(args["line_width_inches"])) > 0.0
    then Some(Abs(host.toFloat(args["line_width_inches"])))
    else None
  }

  /** override_midi is absent, or names a file the wiki has. */
  predicate MidiOverrideFound(args: Args, host: Host) {
    "override_midi" in args ==> host.findFile(args["override_midi"]).Some?
  }

  /** The checks made before the audio override is looked at, in the order they are made. */
  function EarlyError(args: Args, host: Host): Option<ScoreError> {
    if LangArg(args) !in SupportedLangs then
      Some(ScoreException("score-invalidlang", [LangArg(args)]))
    else if !MidiOverrideFound(args, host) then
      Some(ScoreException("score-midioverridenotfound", [args["override_midi"]]))
    else if "note-language" in args && "raw" in args then
      Some(Error("score-notelanguagewithraw"))
    else if NoteLanguageArg(args) !in NoteLanguageCodes then
      Some(ScoreException("score-invalidnotelanguage", [NoteLanguageArg(args), Join(NoteLanguageNames, ", ")]))
    else None
  }

  function AudioOverrideError(args: Args, host: Host): Option<ScoreError> {
    if !HasAudioOverride(args) then None
    else if host.audioTitle(OverrideAudioArg(args)) == InvalidTitle then
      Some(ScoreException("score-invalidaudiooverride", [OverrideAudioArg(args)]))
    else if host.audioTitle(OverrideAudioArg(args)) == UnknownTitle then
      Some(ScoreException("score-audiooverridenotfound", [OverrideAudioArg(args)]))
    else None
  }

  /** The error renderScore raises for these attributes before rendering, if any. */
  function RequestError(args: Args, host: Host): Option<ScoreError> {
    if EarlyError(args, host).Some? then EarlyError(args, host)
    else if AudioOverrideError(args, host).Some? then AudioOverrideError(args, host)
    else if GeneratesAudio(args) && HasAudioOverride(args) then Some(Error("score-convertoverrideaudio"))
    else None
  }

  /** A deprecated override was accepted before any error stopped the request. */
  predicate DeprecatedUse(args: Args, host: Host) {
    (LangArg(args) in SupportedLangs && "override_midi" in args && host.findFile(args["override_midi"]).Some?)
    || (EarlyError(args, host).None? && HasAudioOverride(args) && AudioOverrideError(args, host).None?)
  }

  function CacheKey(code: string, args: Args, host: Host): CacheKeyInput {
    CacheKeyInput(code, LangArg(args), NoteLanguageArg(args), "raw" in args, CacheVersion, host.lilypondVersion)
  }

  /** `base_convert(sha1(serialize($cacheOptions)), 16, 36, 31)` */
  function ImageCacheName(code: string, args: Args, host: Host): (n: string)
    ensures |n| == 31
  {
    DigestNameLength(host.sha1(CacheKey(code, args, host)));
    BaseConvert(host.sha1(CacheKey(code, args, host)), 31)
  }

  function ImagePrefixEnd(n: string): string {
    CharAt(n, 0) + "/" + CharAt(n, 1) + "/" + n
  }

  function AudioRelDir(sha1: string): string {
    "override-midi/" + CharAt(sha1, 0) + "/" + CharAt(sha1, 1)
  }

  function AudioRel(sha1: string): string {
    AudioRelDir(sha1) + "/" + sha1 + ".mp3"
  }

  /** The options set for override_midi, added to o. */
  function WithMidiOptions(o: Options, args: Args, host: Host): Options {
    if "override_midi" in args && host.findFile(args["override_midi"]).Some? then
      var file := host.findFile(args["override_midi"]).value;
      o[OverrideMidi := Flag(true)][MidiFile := Midi(file)]
       [AudioStorageDir := Str(BaseStoragePath(host) + "/" + AudioRelDir(file.sha1))]
       [AudioStoragePath := Str(BaseStoragePath(host) + "/" + AudioRel(file.sha1))]
       [AudioUrl := Str(BaseUrl(host) + "/" + AudioRel(file.sha1))]
       [AudioShaName := Str(file.sha1 + ".mp3")]
    else o[OverrideMidi := Flag(false)]
  }

  /** The options set for override_audio, added to o. */
  function WithAudioOptions(o: Options, args: Args): Options {
    if HasAudioOverride(args) then o[OverrideAudio := Flag(true)][AudioName := Str(OverrideAudioArg(args))]
    else o[OverrideAudio := Flag(false)]
  }

  /** The options set from the attributes themselves, before the cache name is known. */
  function BaseOptions(args: Args, host: Host): Options {
    var o1 := if LineWidth(args, host).Some? then map[LineWidthInches := Num(LineWidth(args, host).value)] else map[];
    o1[FactoryDirectory := Str(host.tmpDirectory + "/MWLP." + host.fuzz)][Lang := Str(LangArg(args))]
  }

  /** The options set by the checks before the audio override is looked at. */
  function EarlyOptions(args: Args, host: Host): Options {
    WithMidiOptions(BaseOptions(args, host), args, host)[Raw := Flag("raw" in args)][NoteLanguage := Str(NoteLanguageArg(args))]
  }

  function CheckedOptions(args: Args, host: Host): Options {
    WithAudioOptions(EarlyOptions(args, host), args)[GenerateAudio := Flag(GeneratesAudio(args))]
  }

  /** The options of a request that passes every check. */
  function RequestOptions(code: string, args: Args, host: Host): Options {
    WithDestinations(CheckedOptions(args, host), ImageCacheName(code, args, host), host)
  }

  lemma DestinationValues(o: Options, n: string, host: Host)
    requires |n| >= 8
    ensures var r := WithDestinations(o, n, host);
      r[DestStoragePath] == Str(BaseStoragePath(host) + "/" + ImagePrefixEnd(n))
      && r[DestUrl] == Str(BaseUrl(host) + "/" + ImagePrefixEnd(n))
      && r[FileNamePrefix] == Str(n[..8])
  {
  }

  lemma DestinationsKeep(o: Options, n: string, host: Host, k: OptionKey)
    requires |n| >= 8 && !(k.DestStoragePath? || k.DestUrl? || k.FileNamePrefix?)
    ensures var r := WithDestinations(o, n, host);
      (k in r <==> k in o) && (k in o ==> r[k] == o[k])
  {
  }

  /** The entries that place the rendered files under the cache name n. */
  function WithDestinations(o: Options, n: string, host: Host): (r: Options)
    requires |n| >= 8
    ensures r.Keys == o.Keys + {DestStoragePath, DestUrl, FileNamePrefix}
  {
    o[DestStoragePath := Str(BaseStoragePath(host) + "/" + ImagePrefixEnd(n))]
     [DestUrl := Str(BaseUrl(host) + "/" + ImagePrefixEnd(n))]
     [FileNamePrefix := Str(n[..8])]
  }

  // ---------------------------------------------------------------------------
  // renderScore

  /**
   * The option building of renderScore: each attribute is checked and its
   * option set in turn; the first failing check ends the request. The
   * tracking categories added on the way are a second result.
   */
  method BuildOptions(code: string, args: Args, host: Host) returns (r: Result<Options, ScoreError>, categories: set<string>)
    ensures r.Failure? <==> RequestError(args, host).Some?
    ensures r.Failure? ==> r.error == RequestError(args, host).value
    ensures r.Success? ==> r.value == RequestOptions(code, args, host)
    ensures categories == if DeprecatedUse(args, host) then {DeprecatedCategory} else {}
  {
    var baseUrl := BaseUrl(host);
    var baseStoragePath := host.rootStoragePath + "/score-render";
    r, categories := CheckAttributes(args, host);
    if r.Failure? {
      return;
    }
    var options := r.value;
    CheckedValues(args, host);
    var cacheOptions := CacheKeyInput(code, options[Lang].s, options[NoteLanguage].s, options[Raw].b,
                                      CacheVersion, host.lilypondVersion);
    options := AddDestinations(options, host.sha1(cacheOptions), baseUrl, baseStoragePath);
    r := Success(options);
  }

  /** The attribute checks of renderScore, up to the cache key. */
  method CheckAttributes(args: Args, host: Host) returns (r: Result<Options, ScoreError>, categories: set<string>)
    ensures r.Failure? <==> RequestError(args, host).Some?
    ensures r.Failure? ==> r.error == RequestError(args, host).value
    ensures r.Success? ==> r.value == CheckedOptions(args, host)
    ensures categories == if DeprecatedUse(args, host) then {DeprecatedCategory} else {}
  {
    var early, midiUsed := CheckEarlyAttributes(args, host);
    categories := if midiUsed then {DeprecatedCategory} else {};
    if early.Failure? {
      return early, categories;
    }
    var options := early.value;

    if "override_audio" in args || "override_ogg" in args {
      var overrideAudio := if "override_ogg" in args then args["override_ogg"] else args["override_audio"];
      var t := host.audioTitle(overrideAudio);
      if t == InvalidTitle {
        return Failure(ScoreException("score-invalidaudiooverride", [overrideAudio])), categories;
      }
      if t == UnknownTitle {
        return Failure(ScoreException("score-audiooverridenotfound", [overrideAudio])), categories;
      }
      options := options[OverrideAudio := Flag(true)][AudioName := Str(overrideAudio)];
      categories := categories + {DeprecatedCategory};
    } else {
      options := options[OverrideAudio := Flag(false)];
    }

    var generateAudio := "sound" in args || "vorbis" in args;
    options := options[GenerateAudio := Flag(generateAudio)];
    if generateAudio && options[OverrideAudio] == Flag(true) {
      return Failure(Error("score-convertoverrideaudio")), categories;
    }

    r := Success(options);
  }

  /**
   * The checks of lang, override_midi and note-language, in that order. The
   * second result tells whether an accepted override_midi added the
   * deprecation category.
   */
  method CheckEarlyAttributes(args: Args, host: Host) returns (r: Result<Options, ScoreError>, midiUsed: bool)
    ensures r.Failure? <==> EarlyError(args, host).Some?
    ensures r.Failure? ==> r.error == EarlyError(args, host).value
    ensures r.Success? ==> r.value == EarlyOptions(args, host)
    ensures midiUsed <==> LangArg(args) in SupportedLangs && "override_midi" in args && host.findFile(args["override_midi"]).Some?
  {
    midiUsed := false;
    var baseUrl := BaseUrl(host);
    var baseStoragePath := host.rootStoragePath + "/score-render";
    var options: Options := map[];

    if "line_width_inches" in args {
      var lineWidthInches := Abs(host.toFloat(args["line_width_inches"]));
      if lineWidthInches > 0.0 {
        options := options[LineWidthInches := Num(lineWidthInches)];
      }
    }
    options := options[FactoryDirectory := Str(host.tmpDirectory + "/MWLP." + host.fuzz)];

    var lang := if "lang" in args then args["lang"] else "lilypond";
    options := options[Lang := Str(lang)];
    assert options == BaseOptions(args, host);
    if lang !in SupportedLangs {
      return Failure(ScoreException("score-invalidlang", [lang])), midiUsed;
    }

    if "override_midi" in args {
      var file := host.findFile(args["override_midi"]);
      if file.None? {
        return Failure(ScoreException("score-midioverridenotfound", [args["override_midi"]])), midiUsed;
      }
      options := AddMidiOptions(options, file.value, baseUrl, baseStoragePath);
      midiUsed := true;
    } else {
      options := options[OverrideMidi := Flag(false)];
    }

    var raw := "raw" in args;
    options := options[Raw := Flag(raw)];

    var noteLanguage := DefaultNoteLanguage;
    if "note-language" in args {
      if !raw {
        noteLanguage := args["note-language"];
      } else {
        return Failure(Error("score-notelanguagewithraw")), midiUsed;
      }
    }
    options := options[NoteLanguage := Str(noteLanguage)];
    if noteLanguage !in NoteLanguageCodes {
      return Failure(ScoreException("score-invalidnotelanguage", [noteLanguage, Join(NoteLanguageNames, ", ")])), midiUsed;
    }
    r := Success(options);
  }

  /** The options recording an accepted MIDI override and where its audio goes. */
  method AddMidiOptions(options: Options, file: File, baseUrl: string, baseStoragePath: string) returns (o: Options)
    ensures o == options[OverrideMidi := Flag(true)][MidiFile := Midi(file)]
      [AudioStorageDir := Str(baseStoragePath + "/" + AudioRelDir(file.sha1))]
      [AudioStoragePath := Str(baseStoragePath + "/" + AudioRel(file.sha1))]
      [AudioUrl := Str(baseUrl + "/" + AudioRel(file.sha1))]
      [AudioShaName := Str(file.sha1 + ".mp3")]
  {
    o := options[OverrideMidi := Flag(true)][MidiFile := Midi(file)];
    var sha1 := file.sha1;
    var audioRelDir := "override-midi/" + CharAt(sha1, 0) + "/" + CharAt(sha1, 1);
    var audioRel := audioRelDir + "/" + sha1 + ".mp3";
    o := o[AudioStorageDir := Str(baseStoragePath + "/" + audioRelDir)];
    o := o[AudioStoragePath := Str(baseStoragePath + "/" + audioRel)];
    o := o[AudioUrl := Str(baseUrl + "/" + audioRel)];
    o := o[AudioShaName := Str(sha1 + ".mp3")];
  }

  /** The options naming the cached files after the digest of the cache key. */
  method AddDestinations(options: Options, digest: Digest, baseUrl: string, baseStoragePath: string) returns (o: Options)
    ensures var n := BaseConvert(digest, 31);
      |n| == 31
      && o == options[DestStoragePath := Str(baseStoragePath + "/" + ImagePrefixEnd(n))]
        [DestUrl := Str(baseUrl + "/" + ImagePrefixEnd(n))][FileNamePrefix := Str(n[..8])]
  {
    var imageCacheName := BaseConvert(digest, 31);
    DigestNameLength(digest);
    var imagePrefixEnd := CharAt(imageCacheName, 0) + "/" + CharAt(imageCacheName, 1) + "/" + imageCacheName;
    o := options[DestStoragePath := Str(baseStoragePath + "/" + imagePrefixEnd)];
    o := o[DestUrl := Str(baseUrl + "/" + imagePrefixEnd)];
    o := o[FileNamePrefix := Str(imageCacheName[..8])];
  }

  /**
   * renderScore: build the options, then render; any error becomes the
   * result, and the page is put into the tracking categories.
   * generateHtml stands for Score::generateHTML; hasOutput says whether the
   * parser has an output object, without which only the deprecated category
   * is added.
   */
  method RenderScore(code: string, args: Args, host: Host, hasOutput: bool,
                     generateHtml: Options -> Result<string, ScoreError>)
    returns (html: Result<string, ScoreError>, categories: set<string>)
    ensures html == if RequestError(args, host).Some? then Failure(RequestError(args, host).value)
                    else generateHtml(RequestOptions(code, args, host))
    ensures UseCategory in categories <==> hasOutput
    ensures ErrorCategory in categories <==> hasOutput && html.Failure? && IsTracked(html.error)
    ensures DeprecatedCategory in categories <==> DeprecatedUse(args, host)
    ensures categories <= {UseCategory, ErrorCategory, DeprecatedCategory}
  {
    var options;
    options, categories := BuildOptions(code, args, host);
    if options.Failure? {
      html := Failure(options.error);
    } else {
      html := generateHtml(options.value);
    }
    if hasOutput && html.Failure? && IsTracked(html.error) {
      categories := categories + {ErrorCategory};
    }
    if hasOutput {
      categories := categories + {UseCategory};
    }
  }

  // ---------------------------------------------------------------------------
  // Properties

  /** lang defaults to lilypond, and only lilypond and ABC get past the checks. */
  lemma LangRule(args: Args, host: Host)
    ensures !("lang" in args) ==> LangArg(args) == "lilypond"
    ensures RequestError(args, host).None? ==> LangArg(args) == "lilypond" || LangArg(args) == "ABC"
    ensures LangArg(args) != "lilypond" && LangArg(args) != "ABC" ==>
      RequestError(args, host) == Some(ScoreException("score-invalidlang", [LangArg(args)]))
  {
  }

  /**
   * note-language defaults to nederlands; it may not come with raw, and a
   * request that passes the checks has one of the twelve languages.
   */
  lemma NoteLanguageRule(args: Args, host: Host)
    ensures !("note-language" in args) ==> NoteLanguageArg(args) == "nederlands"
    ensures RequestError(args, host).None? ==>
      NoteLanguageArg(args) in NoteLanguageNames && !("note-language" in args && "raw" in args)
    ensures (LangArg(args) in SupportedLangs && MidiOverrideFound(args, host)
             && "note-language" in args && "raw" in args) ==>
      RequestError(args, host) == Some(Error("score-notelanguagewithraw"))
    ensures (LangArg(args) in SupportedLangs && MidiOverrideFound(args, host) && !("raw" in args)
             && NoteLanguageArg(args) !in NoteLanguageNames) ==>
      RequestError(args, host) ==
        Some(ScoreException("score-invalidnotelanguage", [NoteLanguageArg(args), Join(NoteLanguageNames, ", ")]))
  {
    assert forall l :: l in NoteLanguageCodes <==> l in NoteLanguageNames;
  }

  /** Audio cannot be both generated and overridden. */
  lemma AudioConflictRule(code: string, args: Args, host: Host)
    ensures GeneratesAudio(args) && HasAudioOverride(args) ==> RequestError(args, host).Some?
    ensures (EarlyError(args, host).None? && AudioOverrideError(args, host).None?
             && GeneratesAudio(args) && HasAudioOverride(args)) ==>
      RequestError(args, host) == Some(Error("score-convertoverrideaudio"))
    ensures RequestError(args, host).None? ==>
      RequestOptions(code, args, host)[GenerateAudio] == Flag(GeneratesAudio(args))
      && RequestOptions(code, args, host)[OverrideAudio] == Flag(HasAudioOverride(args))
      && !(GeneratesAudio(args) && HasAudioOverride(args))
  {
    if RequestError(args, host).None? {
      CheckedValues(args, host);
      var n := ImageCacheName(code, args, host);
      DestinationsKeep(CheckedOptions(args, host), n, host, GenerateAudio);
      DestinationsKeep(CheckedOptions(args, host), n, host, OverrideAudio);
    }
  }

  /** The line width is kept as its absolute value, and only when that is positive. */
  lemma LineWidthRule(code: string, args: Args, host: Host)
    ensures var o := RequestOptions(code, args, host);
      (LineWidthInches in o <==> "line_width_inches" in args && host.toFloat(args["line_width_inches"]) != 0.0)
      && (LineWidthInches in o ==>
            o[LineWidthInches] == Num(Abs(host.toFloat(args["line_width_inches"])))
            && o[LineWidthInches].r > 0.0)
  {
    CheckedValues(args, host);
    DestinationsKeep(CheckedOptions(args, host), ImageCacheName(code, args, host), host, LineWidthInches);
  }

  /**
   * Only the code, lang, note-language, raw and the versions enter the cache
   * key: adding or removing any other attribute (line width, sound, the
   * overrides) leaves the key and hence every cached file name unchanged.
   */
  lemma CacheKeyIgnoresOtherAttributes(code: string, args: Args, host: Host, k: string, v: string)
    requires k != "lang" && k != "note-language" && k != "raw"
    ensures CacheKey(code, args[k := v], host) == CacheKey(code, args, host)
    ensures CacheKey(code, args - {k}, host) == CacheKey(code, args, host)
    ensures ImageCacheName(code, args[k := v], host) == ImageCacheName(code, args, host)
  {
  }

  /** Different score code never shares a key input. */
  lemma CacheKeySeparatesCode(code1: string, code2: string, args: Args, host: Host)
    requires code1 != code2
    ensures CacheKey(code1, args, host) != CacheKey(code2, args, host)
  {
  }

  /**
   * The cached files live two directory levels down, named after the first
   * two characters of a 31-character base-36 name, and their file names
   * start with its first eight characters.
   */
  lemma StoragePathShape(code: string, args: Args, host: Host)
    ensures var n := ImageCacheName(code, args, host);
      var o := RequestOptions(code, args, host);
      |n| == 31 && (forall i :: 0 <= i < |n| ==> IsDigit36(n[i]))
      && Base36Value(n) == host.sha1(CacheKey(code, args, host))
      && o[DestStoragePath] == Str(BaseStoragePath(host) + "/" + ([n[0]] + "/" + [n[1]] + "/" + n))
      && o[DestUrl] == Str(BaseUrl(host) + "/" + ([n[0]] + "/" + [n[1]] + "/" + n))
      && o[FileNamePrefix] == Str(n[..8])
  {
    CacheNameDigits(code, args, host);
    var n := ImageCacheName(code, args, host);
    DestinationValues(CheckedOptions(args, host), n, host);
    assert ImagePrefixEnd(n) == [n[0]] + "/" + [n[1]] + "/" + n;
  }

  lemma CacheNameDigits(code: string, args: Args, host: Host)
    ensures var n := ImageCacheName(code, args, host);
      |n| == 31 && (forall i :: 0 <= i < |n| ==> IsDigit36(n[i]))
      && Base36Value(n) == host.sha1(CacheKey(code, args, host))
  {
    BaseConvertRoundTrip(host.sha1(CacheKey(code, args, host)), 31);
  }

  /** An overriding MIDI file's audio is stored under its SHA-1 and is named by it. */
  lemma MidiOverridePaths(code: string, args: Args, host: Host)
    requires "override_midi" in args && host.findFile(args["override_midi"]).Some?
    ensures var sha1 := host.findFile(args["override_midi"]).value.sha1;
      var o := RequestOptions(code, args, host);
      var dir := BaseStoragePath(host) + "/" + AudioRelDir(sha1);
      OverrideMidi in o && AudioStorageDir in o && AudioStoragePath in o && AudioShaName in o && AudioUrl in o
      && o[OverrideMidi] == Flag(true)
      && o[AudioStorageDir] == Str(dir)
      && o[AudioShaName] == Str(sha1 + ".mp3")
      && o[AudioStoragePath] == Str(dir + "/" + (sha1 + ".mp3"))
      && o[AudioUrl] == Str(BaseUrl(host) + "/" + ("override-midi/" + CharAt(sha1, 0) + "/" + CharAt(sha1, 1) + "/" + sha1 + ".mp3"))
  {
    var sha1 := host.findFile(args["override_midi"]).value.sha1;
    MidiEntries(BaseOptions(args, host), args, host);
    MidiEntryKept(code, args, host, OverrideMidi);
    MidiEntryKept(code, args, host, AudioStorageDir);
    MidiEntryKept(code, args, host, AudioStoragePath);
    MidiEntryKept(code, args, host, AudioShaName);
    MidiEntryKept(code, args, host, AudioUrl);
    PathRegrouped(BaseStoragePath(host), AudioRelDir(sha1), sha1 + ".mp3");
  }

  lemma PathRegrouped(base: string, dir: string, name: string)
    ensures base + "/" + (dir + "/" + name) == base + "/" + dir + "/" + name
  {
  }

  lemma MidiEntries(o: Options, args: Args, host: Host)
    requires "override_midi" in args && host.findFile(args["override_midi"]).Some?
    ensures var sha1 := host.findFile(args["override_midi"]).value.sha1;
      var m := WithMidiOptions(o, args, host);
      m[OverrideMidi] == Flag(true)
      && m[AudioStorageDir] == Str(BaseStoragePath(host) + "/" + AudioRelDir(sha1))
      && m[AudioStoragePath] == Str(BaseStoragePath(host) + "/" + AudioRel(sha1))
      && m[AudioShaName] == Str(sha1 + ".mp3")
      && m[AudioUrl] == Str(BaseUrl(host) + "/" + AudioRel(sha1))
  {
  }

  /** The options set for override_midi are not touched by the later checks. */
  lemma MidiEntryKept(code: string, args: Args, host: Host, k: OptionKey)
    requires "override_midi" in args && host.findFile(args["override_midi"]).Some?
    requires k.OverrideMidi? || k.AudioStorageDir? || k.AudioStoragePath? || k.AudioUrl? || k.AudioShaName?
    ensures var m := WithMidiOptions(BaseOptions(args, host), args, host);
      k in m && k in RequestOptions(code, args, host) && RequestOptions(code, args, host)[k] == m[k]
  {
    var m := WithMidiOptions(BaseOptions(args, host), args, host);
    assert k in m;
    var e := EarlyOptions(args, host);
    assert e[k] == m[k];
    var c := CheckedOptions(args, host);
    assert c[k] == WithAudioOptions(e, args)[k] == e[k];
    DestinationsKeep(c, ImageCacheName(code, args, host), host, k);
  }

  /** Every request that passes the checks sets these options. */
  lemma OptionKeys(code: string, args: Args, host: Host)
    ensures var o := RequestOptions(code, args, host);
      FactoryDirectory in o && Lang in o && OverrideMidi in o && Raw in o
      && NoteLanguage in o && OverrideAudio in o && GenerateAudio in o
      && DestStoragePath in o && DestUrl in o && FileNamePrefix in o
      && (MidiFile in o <==> "override_midi" in args && host.findFile(args["override_midi"]).Some?)
      && (AudioName in o <==> HasAudioOverride(args))
  {
    CheckedKeys(args, host);
  }

  lemma CheckedKeys(args: Args, host: Host)
    ensures var c := CheckedOptions(args, host);
      FactoryDirectory in c && Lang in c && OverrideMidi in c && Raw in c
      && NoteLanguage in c && OverrideAudio in c && GenerateAudio in c
      && (MidiFile in c <==> "override_midi" in args && host.findFile(args["override_midi"]).Some?)
      && (AudioName in c <==> HasAudioOverride(args))
  {
    CheckedValues(args, host);
    var o2 := BaseOptions(args, host);
    MidiKeeps(o2, args, host, AudioName);
    var o3 := EarlyOptions(args, host);
    assert o3 == WithMidiOptions(o2, args, host)[Raw := Flag("raw" in args)][NoteLanguage := Str(NoteLanguageArg(args))];
    assert MidiFile in o3 <==> "override_midi" in args && host.findFile(args["override_midi"]).Some?;
    assert AudioName !in o3;
    AudioKeeps(o3, args, MidiFile);
  }

  /** Each option holds the value of the attribute it was checked from. */
  lemma OptionValues(code: string, args: Args, host: Host)
    ensures var o := RequestOptions(code, args, host);
      var n := ImageCacheName(code, args, host);
      OptionKeysSet(o)
      && o[FactoryDirectory] == Str(host.tmpDirectory + "/MWLP." + host.fuzz)
      && o[Lang] == Str(LangArg(args)) && o[Raw] == Flag("raw" in args)
      && o[NoteLanguage] == Str(NoteLanguageArg(args)) && o[GenerateAudio] == Flag(GeneratesAudio(args))
      && o[OverrideMidi] == Flag("override_midi" in args && host.findFile(args["override_midi"]).Some?)
      && o[DestStoragePath] == Str(BaseStoragePath(host) + "/" + ImagePrefixEnd(n))
      && o[FileNamePrefix] == Str(n[..8])
      && (LineWidthInches in o <==> LineWidth(args, host).Some?)
      && (LineWidthInches in o ==> o[LineWidthInches] == Num(LineWidth(args, host).value))
  {
    CheckedValues(args, host);
    OptionKeys(code, args, host);
    var c := CheckedOptions(args, host);
    var n := ImageCacheName(code, args, host);
    DestinationValues(c, n, host);
    DestinationsKeep(c, n, host, FactoryDirectory);
    DestinationsKeep(c, n, host, Lang);
    DestinationsKeep(c, n, host, Raw);
    DestinationsKeep(c, n, host, NoteLanguage);
    DestinationsKeep(c, n, host, GenerateAudio);
    DestinationsKeep(c, n, host, OverrideMidi);
    DestinationsKeep(c, n, host, LineWidthInches);
  }

  lemma CheckedValues(args: Args, host: Host)
    ensures var o := CheckedOptions(args, host);
      FactoryDirectory in o && o[FactoryDirectory] == Str(host.tmpDirectory + "/MWLP." + host.fuzz)
      && Lang in o && o[Lang] == Str(LangArg(args)) && Raw in o && o[Raw] == Flag("raw" in args)
      && NoteLanguage in o && o[NoteLanguage] == Str(NoteLanguageArg(args))
      && GenerateAudio in o && o[GenerateAudio] == Flag(GeneratesAudio(args))
      && OverrideMidi in o && o[OverrideMidi] == Flag("override_midi" in args && host.findFile(args["override_midi"]).Some?)
      && OverrideAudio in o && o[OverrideAudio] == Flag(HasAudioOverride(args))
      && (LineWidthInches in o <==> LineWidth(args, host).Some?)
      && (LineWidthInches in o ==> o[LineWidthInches] == Num(LineWidth(args, host).value))
  {
    EarlyValues(args, host);
    var e := EarlyOptions(args, host);
    AudioKeeps(e, args, FactoryDirectory);
    AudioKeeps(e, args, Lang);
    AudioKeeps(e, args, Raw);
    AudioKeeps(e, args, NoteLanguage);
    AudioKeeps(e, args, OverrideMidi);
    AudioKeeps(e, args, LineWidthInches);
  }

  /** The options set before the audio override is looked at. */
  lemma EarlyValues(args: Args, host: Host)
    ensures var e := EarlyOptions(args, host);
      FactoryDirectory in e && e[FactoryDirectory] == Str(host.tmpDirectory + "/MWLP." + host.fuzz)
      && Lang in e && e[Lang] == Str(LangArg(args)) && Raw in e && e[Raw] == Flag("raw" in args)
      && NoteLanguage in e && e[NoteLanguage] == Str(NoteLanguageArg(args))
      && OverrideMidi in e && e[OverrideMidi] == Flag("override_midi" in args && host.findFile(args["override_midi"]).Some?)
      && (LineWidthInches in e <==> LineWidth(args, host).Some?)
      && (LineWidthInches in e ==> e[LineWidthInches] == Num(LineWidth(args, host).value))
  {
    var o2 := BaseOptions(args, host);
    var m := WithMidiOptions(o2, args, host);
    MidiKeeps(o2, args, host, FactoryDirectory);
    MidiKeeps(o2, args, host, Lang);
    MidiKeeps(o2, args, host, LineWidthInches);
    assert EarlyOptions(args, host) == m[Raw := Flag("raw" in args)][NoteLanguage := Str(NoteLanguageArg(args))];
  }

  /** The override_midi options leave every other key as it was. */
  lemma MidiKeeps(o: Options, args: Args, host: Host, k: OptionKey)
    requires !(k.OverrideMidi? || k.MidiFile? || k.AudioStorageDir? || k.AudioStoragePath? || k.AudioUrl? || k.AudioShaName?)
    ensures var m := WithMidiOptions(o, args, host);
      (k in m <==> k in o) && (k in o ==> m[k] == o[k])
  {
  }

  /** The override_audio options leave every other key as it was. */
  lemma AudioKeeps(o: Options, args: Args, k: OptionKey)
    requires !(k.OverrideAudio? || k.AudioName?)
    ensures var a := WithAudioOptions(o, args);
      (k in a <==> k in o) && (k in o ==> a[k] == o[k])
  {
  }

  /** The keys every request that passes the checks sets. */
  predicate OptionKeysSet(o: Options) {
    FactoryDirectory in o && Lang in o && OverrideMidi in o && Raw in o
    && NoteLanguage in o && OverrideAudio in o && GenerateAudio in o
    && DestStoragePath in o && DestUrl in o && FileNamePrefix in o
  }
}
