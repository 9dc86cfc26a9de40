# Score extension: a verified model of the rendering core

This project models the core of MediaWiki's Score extension, which renders
`<score>` tags (LilyPond or ABC notation) as images, MIDI and audio. The model
covers the following parts:

- **Attribute checks and options** (`RenderOptions`, Score::renderScore). The
  attributes of a `<score>` tag are checked in the source's order, and the
  options array is built key by key. This includes the cache key, its
  31-character base-36 name (`Base36`) and the storage paths derived from it.
  The method `RenderScore` adds the tracking categories.
- **LilyPond wrapping** (`LilypondWrapping`). Score::getPaperCode is modelled
  with PHP's `array_merge`. Score::embedLilypondCode wraps non-raw code so that
  the user's first line is line 8 of the compiled file.
- **Publishing** (`Publish`, Score::generatePngAndMidi). The page count loop,
  the MIDI requirement and the batch of backend operations that publishes the
  source, MIDI, page images and metadata.
- **The cache decision** (`Cache`, the first half of Score::generateHTML). The
  directory listing, the metadata read, the regeneration predicate, the merge
  of a new rendering and the audio decision.
- **Script output** (`ScriptOutput`). Score::extractMessage, which takes the
  first `mw-msg:` line out of a script's output. Score::getDurationFromScriptOutput.
- **Compile errors** (`CompileErrors`, Score::throwCompileException) and
  **LilypondErrorMessageBeautifier** (`ErrorBeautifier`, a class). LilyPond's
  error lines are turned into `line L - column C:` reports, with the line moved
  back by the 7 wrapper lines.
- **The sandbox helper scripts**, each as a function of its arguments and file
  contents: removeTagline.php (`RemoveTagline`), extractPostScriptPageSize.php
  (`PageSize`) and getWavDuration.php (`WavDuration`). Their exits are
  modelled in `ScriptExit`.
- **ScoreFormatter** (`Formatter`), the Wikibase value formatter.

Everything the wiki or the operating system supplies is an input rather than
part of the model:

- file lookups, page titles, randomness, SHA-1, the LilyPond version and
  PHP's float casts (fields of `RenderOptions.Host`);
- the sandboxed run and what it sent back (`Publish.RunResult`);
- the file backend's answers (`Publish.Backend`, `Cache.Stored`);
- `getimagesize` and PHP's float-to-string conversion (`Publish.Settings`).

Errors are values (`ScoreErrors.ScoreError`) instead of exceptions. Code that
updates a variable in a loop is a method with loop invariants, proved against
a function that specifies it. Examples are the page count, the page loop, the
directory listing, the message extraction, the beautifier's loop and
getPaperCode.

Two behaviours of the code are worth knowing, and the model keeps both as
written:

- **The cache check always asks for the MIDI file.** generatePngAndMidi
  stores `<prefix>.midi` only when MIDI is needed (includes/Score.php:783,
  813-819). But the cache check at includes/Score.php:541 requires it in every
  case. So a raw score without audio is rendered again on every request
  while no `<prefix>.midi` is stored (`Cache.RawWithoutAudioNeverCached`).
  One appears if the same code is rendered with audio: the cache key
  (includes/Score.php:402-409) does not include the audio attribute, so both
  renderings share the prefix.
- **extractMessage drops leading empty lines.** The loop at
  includes/Score.php:958-961 puts a newline before a kept line only once the
  accumulated text is non-empty. So empty lines before the first non-empty
  kept line vanish, and the result is not a plain `implode`
  (`ScriptOutput.FilteredIsJoin`).

## Model

| member | source | states |
|---|---|---|
| Base36.BaseConvert | includes/Score.php:412 | The padded conversion has at least `pad` characters, all of them base-36 digits. |
| Base36.ToBase36 | includes/Score.php:412 | base_convert's output is non-empty and uses only base-36 digits. |
| Base36.ToBase36Value | includes/Score.php:412 | The digits read back as the number converted. |
| Base36.BaseConvertRoundTrip | includes/Score.php:412 | Reading the padded base-36 name back gives the digest: no information is lost. |
| Base36.DigestNameLength | includes/Score.php:412 | A 160-bit SHA-1 digest always converts to exactly 31 characters. |
| RenderOptions.ImageCacheName | includes/Score.php:412 | The image cache name is 31 characters long. |
| RenderOptions.CheckEarlyAttributes | includes/Score.php:302-371 | Fails exactly when one of the lang, override_midi, note-language-with-raw or note-language checks fails, with the first failing check's error. Otherwise the options for line width, factory directory, lang, MIDI override, raw and note language. The flag is true exactly when an accepted override_midi added the deprecated category. |
| RenderOptions.CheckAttributes | includes/Score.php:302-399 | Fails exactly when the request has an error, with the first one in the source's order (early checks, then the audio override title checks, then audio both generated and overridden). Otherwise the checked options. The deprecated category is added exactly for an accepted MIDI or audio override. |
| RenderOptions.AddMidiOptions | includes/Score.php:336-345 | An accepted MIDI override sets override_midi, midi_file and the audio storage directory, path, URL and name, all derived from the file's SHA-1. |
| RenderOptions.AddDestinations | includes/Score.php:411-417 | The base-36 name has 31 characters. The storage path and URL end in `<c0>/<c1>/<name>`, and the file name prefix is the name's first 8 characters. |
| RenderOptions.BuildOptions | includes/Score.php:292-417 | Fails exactly when the request has an error, with that error. Otherwise gives the options of a valid request. The deprecated category is added exactly when an override was accepted before any error. |
| RenderOptions.RenderScore | includes/Score.php:292-439 | The HTML is the request's first error, or what generateHTML makes of the options. The use category is added exactly when the parser has output. The error category is added exactly for a tracked failure when the parser has output. The deprecated category is added exactly for an accepted override, with or without output. No other category is added. |
| RenderOptions.LangRule | includes/Score.php:313-322 | lang defaults to lilypond. Only lilypond and ABC pass, and any other lang is the score-invalidlang error. |
| RenderOptions.NoteLanguageRule | includes/Score.php:351-371 | note-language defaults to nederlands and may not come with raw. A request that passes has one of the twelve languages. Each violation gives its own error, with the list of languages. |
| RenderOptions.AudioConflictRule | includes/Score.php:373-399 | Audio cannot be both generated and overridden (score-convertoverrideaudio). A valid request's generate_audio and override_audio options reflect the attributes. |
| RenderOptions.LineWidthRule | includes/Score.php:302-307 | line_width_inches is set exactly when the attribute's float value is non-zero, and it is set to its positive absolute value. |
| RenderOptions.CacheKeyIgnoresOtherAttributes | includes/Score.php:401-412 | Attributes other than lang, note-language and raw do not change the cache key or the image cache name. |
| RenderOptions.CacheKeySeparatesCode | includes/Score.php:401-409 | Different score code gives different cache key inputs. |
| RenderOptions.StoragePathShape | includes/Score.php:411-417 | The name is 31 base-36 digits denoting the SHA-1 of the cache key. The storage path and URL are `<base>/<n0>/<n1>/<name>`, and the file prefix is the name's first 8 characters. |
| RenderOptions.MidiOverridePaths | includes/Score.php:336-345 | For a MIDI override, the audio storage path is the audio directory plus the audio name `<sha1>.mp3`. The URL is `<baseUrl>/override-midi/<s0>/<s1>/<sha1>.mp3`. |
| RenderOptions.MidiEntryKept | includes/Score.php:336-399 | The MIDI override entries are not changed by the later checks. |
| RenderOptions.OptionKeys | includes/Score.php:299-417 | A valid request sets all ten always-present keys. midi_file is set exactly for a found MIDI override, and audio_name exactly for an audio override. |
| RenderOptions.OptionValues | includes/Score.php:299-417 | Each option holds the value of the attribute it was checked from, and the destination options hold the cache name. |
| RenderOptions.CheckedValues | includes/Score.php:302-399 | The checked options hold the factory directory, lang, raw, note language, generate_audio, override_midi and the line width, as the attributes give them. |
| LilypondWrapping.Overridden | includes/Score.php:1004-1006 | array_merge keeps the first array's keys in their places. |
| LilypondWrapping.MergeLookup | includes/Score.php:1004-1006 | In array_merge, a key takes the second array's value when it has one, and the first array's value otherwise. |
| LilypondWrapping.GetPaperCode | includes/Score.php:1003-1015 | The paper block of the defaults merged with the given settings: `\paper {`, one tab-indented `key = value` line per merged entry, then `}`. |
| LilypondWrapping.WritePaper | includes/Score.php:1008-1012 | The block is `\paper {`, one tab-indented `key = value` line per entry in order, then `}`. |
| LilypondWrapping.PaperStartsWithIndent | includes/Score.php:1004-1011 | The indent setting is the first entry whatever the settings, and defaults to `0\mm`. |
| LilypondWrapping.LineWidthPaper | includes/Score.php:738-742 | The renderer passes no settings or only a line width. The line width follows the indent. |
| LilypondWrapping.CodeStartsOnLineEight | includes/Score.php:1046-1059 | The wrapped file's first seven lines are the header, version, language, `\score {` and an empty line. The user's lines follow from line 8 on, unchanged. |
| LilypondWrapping.WrappedLineIsCodeLine | includes/Score.php:1046-1059 | Line l of the wrapped file (counting from 1) is line l - 7 of the user's code. |
| LilypondWrapping.BlocksHaveCommands | includes/Score.php:1033-1041 | The added blocks contain `\layout` and `\midi`. |
| LilypondWrapping.OptionsSupply | includes/Score.php:1032-1042 | The added blocks contain each command the code lacks. When the code has `\layout`, only the `\midi` block (or nothing) is added, and when it has `\midi`, only the `\layout` block (or nothing). |
| LilypondWrapping.Embed | includes/Score.php:1028-1062 | The wrapped file: the header, version and language lines, `\score {`, the user's code, the options the code lacks and the paper block. Its properties are stated by CodeStartsOnLineEight, WrappedLineIsCodeLine and EmbedHasLayoutAndMidi. |
| LilypondWrapping.EmbedHasLayoutAndMidi | includes/Score.php:1028-1062 | The wrapped file always contains `\layout` and `\midi`, supplied by the code or added. |
| ScriptOutput.ExtractMessage | includes/Score.php:949-986 | The loop returns the first message line's key and parameters (or none), and the output without its message lines. |
| ScriptOutput.ExplodeTail | includes/Score.php:955 | `array_slice(explode("\t", $line), 1)` is the tab-separated fields after the `mw-msg:` prefix. |
| ScriptOutput.FirstMessageAppend | includes/Score.php:952-956 | The first message line decides; later lines are not consulted. |
| ScriptOutput.KeptOfUnmarked | includes/Score.php:952-962 | Output without message lines keeps all its lines and has no message. |
| ScriptOutput.FilteredIsJoin | includes/Score.php:950-964 | The filtered output is the kept lines joined by newlines, less the empty lines before the first non-empty kept line. |
| ScriptOutput.FilteredLines | includes/Score.php:950-964 | The filtered output's lines are the kept lines, and none of them is a message line. |
| ScriptOutput.Kept | includes/Score.php:957-962 | Every kept line is a line of the output and none is a message line. |
| ScriptOutput.FirstDurationToken | includes/Score.php:1154 | The token found is a non-empty run of digits and dots. |
| ScriptOutput.FirstDurationLine | includes/Score.php:1154 | A `wavDuration: <token>` line after lines without a match yields that token. |
| ScriptOutput.ExtractMessageIdempotent | includes/Score.php:949-986 | Extracting again from the filtered output finds no message and changes nothing. |
| ScriptOutput.MessageLineIsRead | includes/Score.php:949-986 | An `mw-msg:\t<key>` line is read back as that key with no parameters, when no earlier line is a message line. |
| ScriptOutput.DurationToken | includes/Score.php:1154 | A `wavDuration:` line's token is a non-empty run of digits and dots. |
| ScriptOutput.FirstDurationTokenAppend | includes/Score.php:1154 | With the `m` flag, the first matching line decides. |
| ScriptOutput.DurationFromScriptOutput | includes/Score.php:1153-1159 | The duration is never negative, and it is 0 when no line matches. |
| ScriptOutput.DurationLineIsRead | includes/Score.php:1153-1159 | A `wavDuration: <token>` line reads back as the token's value, whatever follows it, when no earlier line matches. |
| ScriptExit.ErrorExitIsRead | scripts/extractPostScriptPageSize.php:5-8 | errorExit's stderr line is read back by extractMessage as its key with no parameters. |
| ErrorBeautifier.MatchText | includes/LilypondErrorMessageBeautifier.php:28 | A match's message is a non-empty tail of the text. |
| ErrorBeautifier.MatchAt | includes/LilypondErrorMessageBeautifier.php:28 | A match at any position of a line has a message that is a non-empty tail of the line. |
| ErrorBeautifier.FindInLine | includes/LilypondErrorMessageBeautifier.php:28 | The leftmost match in a line also has its message as a non-empty tail of the line (the `$` anchor). |
| ErrorBeautifier.FormatAll | includes/LilypondErrorMessageBeautifier.php:72-74 | One formatted entry per match, in order, each formatErrorMatchLine of its match. |
| ErrorBeautifier.LilypondErrorMessageBeautifier.constructor | includes/LilypondErrorMessageBeautifier.php:46-48 | The beautifier keeps the offset it is given. |
| ErrorBeautifier.LilypondErrorMessageBeautifier.BeautifyMessage | includes/LilypondErrorMessageBeautifier.php:60-77 | The result is "" when nothing matches. Otherwise it is the formatted matches joined by the separator. |
| ErrorBeautifier.ErrorMatchesShape | includes/LilypondErrorMessageBeautifier.php:28 | There is at most one match per output line, and each message is a non-empty piece of a single line. |
| ErrorBeautifier.EmptyIffNoMatch | includes/LilypondErrorMessageBeautifier.php:61-68 | The beautified text is empty exactly when the output has no error line. |
| ErrorBeautifier.DecodeHeaderInverse | includes/LilypondErrorMessageBeautifier.php:30 | A `line %d - column %d:` header reads back as its line and column. |
| ErrorBeautifier.ReportLinesSplit | includes/LilypondErrorMessageBeautifier.php:30-31 | The beautified text's lines are header, message, `--------`, header, ... |
| ErrorBeautifier.DecodeReportLines | includes/LilypondErrorMessageBeautifier.php:83-90 | Reading the report lines back gives each match's line minus the offset, its column and its message. |
| ErrorBeautifier.BeautifiedRoundTrip | includes/LilypondErrorMessageBeautifier.php:60-90 | Only the offset changes. Reading the beautified text back gives each error line's line minus the offset, its column and its message, in order. |
| ErrorBeautifier.SeparatorCount | includes/LilypondErrorMessageBeautifier.php:76 | k matches give a text with 3k - 2 newlines (k - 1 separators). |
| ErrorBeautifier.MatchTextError | includes/LilypondErrorMessageBeautifier.php:28 | `.ly:<line>:<column>: error: <message>` matches with those three groups. |
| ErrorBeautifier.MatchAtErrorLine | includes/LilypondErrorMessageBeautifier.php:28 | The pattern matches where `.ly:` starts, whatever precedes it. |
| ErrorBeautifier.NoMatchInPrefix | includes/LilypondErrorMessageBeautifier.php:28 | No match starts inside a prefix without a dot. |
| ErrorBeautifier.ErrorLineMatches | includes/LilypondErrorMessageBeautifier.php:28 | A single error line (file name without a dot) gives exactly its line, column and message. |
| ErrorBeautifier.BeautifiedSingle | includes/LilypondErrorMessageBeautifier.php:70-76 | A single match is shown as its formatted line alone, with no separator. |
| ErrorBeautifier.ErrorLineBeautified | includes/LilypondErrorMessageBeautifier.php:60-90 | One error line is shown as its header, with the line moved by the offset, followed by its message. |
| ErrorBeautifier.OffsetExample | includes/LilypondErrorMessageBeautifier.php:83-90 | `test.ly:12:15: error: syntax error` with offset 7 is beautified to exactly `line 5 - column 15:\nsyntax error`. |
| CompileErrors.ThrowCompileException | includes/Score.php:899-920 | The error uses the first message's key and parameters (score-compilererr if there is none). The output follows, beautified only for a reported compiler error without debug output. |
| CompileErrors.CompileErrorMessage | includes/Score.php:902-904 | The error is tracked. Its key and parameters come from the first message line, or are score-compilererr with none, and the shown output is the last parameter. |
| CompileErrors.OnlyReportedErrorsBeautified | includes/Score.php:903-914 | Unless a compiler error was reported and debug output is off, the shown output is the output without message lines, not beautified. |
| CompileErrors.ReportedErrorsShifted | includes/Score.php:905-913 | A reported compiler error is beautified with offset 7 (0 for raw code). Reading it back gives the errors shifted by that offset. It is empty exactly when there are no error lines. |
| CompileErrors.ShownLineNumber | includes/Score.php:910-913 | The k-th error shown to the user carries the k-th reported line minus 7. |
| CompileErrors.EmbedPlacesCode | includes/Score.php:1046-1059 | The wrapped file's lines 8 onwards are the user's code lines. |
| CompileErrors.ShownLineIsUserLine | includes/Score.php:905-913 | For an error LilyPond reports on a line of user code, the line shown to the user numbers that same line in the user's code. |
| Publish.SetSize | includes/Score.php:846 | Recording a size sets that file's size, adds its name and leaves every other entry unchanged. |
| Publish.PageRunFrom | includes/Score.php:764-770 | The run end n: pages up to n were received and page n + 1 was not. |
| Publish.CountPages | includes/Score.php:764-770 | The loop stops at the first page PNG that was not received, and its count is the run of received pages. |
| Publish.PageCountRule | includes/Score.php:764-775 | The page count is n exactly when pages 1..n were received and page n + 1 was not. A single SVG page counts as one page. |
| Publish.GeneratePngAndMidi | includes/Score.php:691-878 | Covers disabled shell execution, safe mode, a working directory that cannot be created (score-nooutput), a compile error, no pages, a missing MIDI file and backend failures. Otherwise the published names, the batch and the updated metadata. |
| Publish.PreRunRule | includes/Score.php:696-708 | The pre-run checks in order: disabled execution, then safe mode on an unsupported LilyPond (score-safe-mode), then a working directory createDirectory cannot make. The last is score-nooutput naming the directory (includes/Score.php:211-217). |
| Publish.CompiledCode | includes/Score.php:734-752 | Raw LilyPond code is compiled as it is. Other LilyPond code is wrapped with the paper block and note language, and ABC gives no source. |
| Publish.StoreOutput | includes/Score.php:760-877 | After a successful run: the page count, the MIDI check, the backend errors, then the batch. |
| Publish.AssembleBatch | includes/Score.php:798-870 | The batch: the source, the MIDI file when needed, the pages, then the metadata. |
| Publish.AddPages | includes/Score.php:826-861 | The page loop appends each page's stores and names and records its PNG's size. |
| Publish.PublishPage | includes/Score.php:827-860 | Page i stores its PNG (and SVG) under the multi-page or single-page names. |
| Publish.RequestOptionsRenderable | includes/Score.php:734-783 | The options renderScore builds hold what generatePngAndMidi reads, with raw, lang, note language, line width and audio taken from the attributes. |
| Publish.PostCompileRule | includes/Score.php:777-788 | After LilyPond succeeds, no page is score-noimages. A missing MIDI file, when MIDI is needed, is score-nomidi. |
| Publish.PublishedRun | includes/Score.php:756-877 | A successful publish had a run that succeeded with at least one page, the MIDI file when needed and no backend error. For every such run, including the single `file.png` of the SVG path, the metadata keys are the old keys plus exactly one size entry per published PNG name. |
| Publish.SizeKeys | includes/Score.php:826-847 | The metadata after the page loop has the old keys plus the published PNG names. |
| Publish.PagesOpsLength | includes/Score.php:826-861 | There is one store per page, or two with SVG output. |
| Publish.MidiIsNotPage | includes/Score.php:817-835 | The MIDI file is not one of the page images. |
| Publish.NoMidiInPages | includes/Score.php:813-861 | The page stores never include the MIDI store. |
| Publish.PageStored | includes/Score.php:826-861 | Every page has its PNG store, and its SVG store with SVG output. |
| Publish.SvgOnlyWithUseSvg | includes/Score.php:849-860 | Every page operation is a store, and only SVG output adds a content type. |
| Publish.BatchShape | includes/Score.php:798-870 | The batch's length is fixed. It starts by creating the source and ends by creating the metadata. The MIDI store appears exactly when MIDI is needed. Every page has a PNG store, and content types appear only with SVG. |
| Publish.DstPngInjective | includes/Score.php:829-832 | Different pages of a multi-page score get different PNG names. |
| Publish.SizeRecorded | includes/Score.php:845-846 | Each published page's PNG has the size of the PNG the run produced for it. |
| Publish.PagesFilesAreDestinations | includes/Score.php:826-861 | The page names returned are exactly the names the page stores write. |
| Publish.BatchFilesAreDestinations | includes/Score.php:798-877 | The names generatePngAndMidi returns are exactly the names of the files its batch writes. |
| Cache.PrepareFiles | includes/Score.php:495-580 | Covers a listing failure, an unreadable metadata file, regeneration when the cache is incomplete, and the merge of the new files and metadata. |
| Cache.DecideAudio | includes/Score.php:546-568 | Audio is rendered only when asked for, and then when the audio file is missing or has no length (the override's file for a MIDI override). |
| Cache.ExistingFiles | includes/Score.php:501-504 | A name is an existing file exactly when it is listed. |
| Cache.RequestOptionsCacheReady | includes/Score.php:299-417 | The options renderScore builds hold everything generateHTML reads. |
| Cache.NeedsRegeneration | includes/Score.php:526-541 | The condition for rendering again: no metadata file, no PNG under either name, no SVG under either name when SVG is used, no recorded size for either PNG name, or no MIDI file. Its consequences are stated by MissingJsonForcesRegeneration, CacheHitAfterPublish and RawWithoutAudioNeverCached. |
| Cache.MissingJsonForcesRegeneration | includes/Score.php:526-543 | Without its metadata file a score is always rendered again, and afterwards the metadata file is listed. |
| Cache.PublishedNames | includes/Score.php:798-870 | A successful rendering publishes the JSON file, a first-page PNG with its size, an SVG when SVG output is on, and the MIDI file exactly when it is needed. |
| Cache.BatchNames | includes/Score.php:798-870 | A batch of at least one page publishes these names and records these sizes. |
| Cache.FirstPageNames | includes/Score.php:829-836 | Page 1 is `<prefix>.png` (`.svg`) when it is the only page, and `<prefix>-page1.png` (`-1.svg`) otherwise. |
| Cache.PageInBatch | includes/Score.php:826-861 | Every page's PNG (and SVG) name is among the published names. |
| Cache.MidiNotAPage | includes/Score.php:826-861 | No page image is named like the MIDI file. |
| Cache.CacheHitAfterPublish | includes/Score.php:526-543 | After a rendering that needed MIDI, the cache check finds nothing to render again. |
| Cache.RawWithoutAudioNeverCached | includes/Score.php:526-543 | A raw score without audio never stores the MIDI file, so while no `<prefix>.midi` is stored the cache check renders it again on every request and the file still does not appear. One can appear only from a rendering of the same code with audio, which shares the cache key. |
| PageSize.NonSpaceRun | scripts/extractPostScriptPageSize.php:34 | `[^ ]*` takes everything up to the first space. |
| PageSize.DecimalRun | scripts/extractPostScriptPageSize.php:34 | `[\d.]+` takes the longest run of digits and dots. |
| PageSize.MediaMatch | scripts/extractPostScriptPageSize.php:34 | A match gives a width and a height, each a non-empty run of digits and dots without spaces. |
| PageSize.SizeTokens | scripts/extractPostScriptPageSize.php:34 | `([\d.]+) ([\d.]+)` gives two non-empty decimal tokens. |
| PageSize.ExtractPostScriptPageSize | scripts/extractPostScriptPageSize.php:13-39 | The exit for each case: not run from the command line, no argument, fopen failure, a read failure, no matching line, or the first match printed as `w h`. |
| PageSize.LaterLinesIgnored | scripts/extractPostScriptPageSize.php:29-37 | The first matching line decides, and later lines are never read. |
| PageSize.ReadFailureStops | scripts/extractPostScriptPageSize.php:29-33 | A failing fgets before any match ends the script with score-readerr. |
| PageSize.NoMediaLine | scripts/extractPostScriptPageSize.php:29-39 | A file with no matching line ends with score-readerr. |
| PageSize.PageSizeExitCases | scripts/extractPostScriptPageSize.php:13-39 | The exit status is 0, 1 or 20. It is 0 exactly when a match is found, and status 20 carries score-readerr, which the renderer reads back. |
| PageSize.MediaLineRead | scripts/extractPostScriptPageSize.php:34-35 | The width and height fields of a `%%DocumentMedia:` comment are read back. |
| PageSize.MediaMatchShape | scripts/extractPostScriptPageSize.php:34 | Every match comes from a line of exactly that shape. |
| PageSize.OutputFields | scripts/extractPostScriptPageSize.php:35 | The printed `w h\n` splits back into the two tokens. |
| WavDuration.PhpDivide | scripts/getWavDuration.php:21 | PHP's `/` has the real quotient's value, as an int when exact and a float otherwise. |
| WavDuration.GetWavDuration | scripts/getWavDuration.php:11-22 | Status 1 outside the command line or without an argument, with the usage line in the latter case. Otherwise status 0 and the `wavDuration:` line. |
| WavDuration.DurationValue | scripts/getWavDuration.php:19-22 | The duration is (size - 36) / 176400 seconds, and 0 for a short or unreadable file. |
| WavDuration.DurationNonNegative | scripts/getWavDuration.php:21 | The duration is never negative. |
| WavDuration.DurationMonotone | scripts/getWavDuration.php:21 | A larger file never has a shorter duration, and an unreadable file counts as empty. |
| WavDuration.DurationIsInt | scripts/getWavDuration.php:21 | The result is an int exactly when the audio bytes are a whole number of seconds. |
| WavDuration.WholeDurationRoundTrip | scripts/getWavDuration.php:20-22 | A whole-second duration is printed as digits and read back exactly by getDurationFromScriptOutput. |
| WavDuration.FractionalDurationRead | scripts/getWavDuration.php:20-22 | A fractional duration reads back as its printed text's value when that text is digits and dots, and as 0 otherwise. |
| WavDuration.UnreadableLine | includes/Score.php:1153-1159 | A duration text that is not digits and dots reads back as 0. |
| RemoveTagline.WsRun | scripts/removeTagline.php:29 | `\s*` takes the whole leading run of PCRE spaces. |
| RemoveTagline.CaptureLength | scripts/removeTagline.php:29 | The captured `\s*tagline\s*=` ends in `=`, after the leading spaces. |
| RemoveTagline.AssignLength | scripts/removeTagline.php:29 | `tagline\s*=` ends in `=` and has at least 8 characters. |
| RemoveTagline.LineRest | scripts/removeTagline.php:29 | `.*` takes everything up to the next newline. |
| RemoveTagline.RemoveTaglineScript | scripts/removeTagline.php:13-34 | The file is written exactly on status 0. Status 20 carries a message the renderer reads. The written text has as many lines as the original. |
| RemoveTagline.NewlinesKept | scripts/removeTagline.php:29 | The replacement never adds or removes a line. |
| RemoveTagline.NoTaglineUnchanged | scripts/removeTagline.php:29 | A text that never mentions `tagline` is left unchanged. |
| RemoveTagline.Rewrite | scripts/removeTagline.php:29 | The `/m` replacement scan: at a line start where `\s*tagline\s*=` matches, the capture is kept and the rest of the line becomes ` ##f`; elsewhere a character is copied. Its properties are stated by the lemmas below. |
| RemoveTagline.RemoveTaglines | scripts/removeTagline.php:29 | The preg_replace call on the whole file, with `^` matching at its start. Its properties are stated by TaglineLineInText, NewlinesKept, NoTaglineUnchanged and RemoveTaglinesIdempotent. |
| RemoveTagline.LineRewrite | scripts/removeTagline.php:29 | A file that is a single matching line keeps everything up to its `=` and ends in ` ##f`. |
| RemoveTagline.CopiedPrefix | scripts/removeTagline.php:29 | Text in which no line start matches is copied unchanged, and the scan continues knowing whether that text ended a line. |
| RemoveTagline.LineThenRest | scripts/removeTagline.php:29 | A matching line followed by a newline keeps everything up to its `=`, gets ` ##f` for the rest, and the scan continues at the newline. |
| RemoveTagline.TaglineLineInText | scripts/removeTagline.php:29 | A `tagline =` line inside a file: the lines before it, where nothing matches, are unchanged, the line keeps everything up to its `=` and gets ` ##f` for the rest, and the text after it is scanned from its newline. |
| RemoveTagline.CaptureWindow | scripts/removeTagline.php:29 | A capture depends only on the text it captures. |
| RemoveTagline.NoCaptureUnchanged | scripts/removeTagline.php:29 | A text where no line start matches is left unchanged. |
| RemoveTagline.RewriteIdempotent | scripts/removeTagline.php:29 | Running the replacement twice gives the same text as running it once. |
| RemoveTagline.RemoveTaglinesIdempotent | scripts/removeTagline.php:29-33 | Running the script on its own output writes the same text. |
| Formatter.ScoreFormatter.Format | includes/ScoreFormatter.php:56-71 | A non-string value is the InvalidArgumentException. The plain format gives the string. The wiki format gives text. Any other format renders the string, with details exactly for the diff format. |
| Formatter.WikiRoundTrip | includes/ScoreFormatter.php:66-67 | The wikitext form is the value inside one `<score>` tag, and unwrapping gives the value back. |
| Formatter.FormatDecidesKind | includes/ScoreFormatter.php:46-71 | getFormat returns the format the formatter was built with, and the output is text exactly for the plain and wiki formats. |
| Text.Split | includes/Score.php:952 | explode always gives at least one piece. |
| Text.NatToString | includes/LilypondErrorMessageBeautifier.php:86-87 | `%d` of a natural number prints digits only, with no leading zero. |
| Text.NatToStringInjective | includes/LilypondErrorMessageBeautifier.php:86-87 | Different numbers are printed differently. |
| Text.ParseIntToString | includes/LilypondErrorMessageBeautifier.php:86-87 | intval reads back any integer that `%d` prints, negative ones included. |
| Text.DecimalValue | includes/Score.php:1155 | `(float)` of a run of digits and dots is never negative. |
| Text.SplitLength | includes/Score.php:952 | explode gives one more piece than there are delimiters. |
| Text.SplitAppend | includes/Score.php:952 | Exploding at a delimiter splits the two sides independently. |
| Text.JoinSplit | includes/Score.php:952 | implode of explode gives the text back. |
| Text.SplitJoin | includes/Score.php:952 | explode of implode gives the parts back when no part holds the delimiter. |
| Text.ParseNatToString | includes/LilypondErrorMessageBeautifier.php:84-87 | intval reads back the digits sprintf `%d` prints for a natural number. |
| Text.DecimalValueOfNat | includes/Score.php:1155 | `(float)` reads a natural number's digits back as that number. |

## Left out

- The HTML that generateHTML and ScoreException build (includes/Score.php from line 581 on, `getHtml`), and `htmlspecialchars` on error parameters. Errors carry their parameters unescaped.
- Audio synthesis (Score::generateAudio, throwSynthException) and the audio metadata it writes. The model decides only whether audio must be rendered.
- The shell, the sandbox (BoxedCommand) and the scripts it runs other than the three modelled ones. A run is an input: exit code, output and received files.
- getLilypondVersion and its cache. The version is an input string, and `version_compare` for safe mode is the flag `Settings.safeModeUnsupported`. Its failure paths inside renderScore (includes/Score.php:408) are not modelled: a failed `lilypond --version` run or unreadable output throws score-versionerr (includes/Score.php:166-172), and disabled shell execution throws ScoreDisabledException from boxedCommand.
- File backend I/O: the listing, the metadata read, `fileExists`, `prepare` and `doQuickOperations` are inputs (`Cache.Stored`, `Publish.Backend`). The batch is returned as a value instead of being executed.
- Whether createDirectory can make the working directory is the input `Settings.workDirFails`. Its failure is modelled as the score-nooutput error. The directory itself, eraseDirectory and the scoped cleanup of the working directory are not modelled.
- statsd counters (recordShellout, recordError) and debug logging.
- `sha1(serialize(...))`, `md5(mt_rand())`, `findFile`, `Title::newFromText`/`isKnown` and `getimagesize` are host functions. SHA-1 is a function of the cache key input into 160-bit numbers.
- FormatJson encoding and decoding of the metadata. The metadata is a map, and the JSON file holds it as a value.
- RenderOptions.LineWidthRule: PHP's `(float)` cast of the attribute and the float-to-string conversion in `"{$w}\in"` are parameters. Their rounding is not modelled.
- Text.DecimalValueOfNat: `(float)` is read as an exact real. Rounding to a double is not modelled.
- ErrorBeautifier.DecodeReportLines: line and column numbers are unbounded. `intval` saturating at PHP_INT_MAX for absurdly long digit runs is not modelled.
- RemoveTagline.RemoveTaglineScript: a preg_replace failure under the lowered `pcre.backtrack_limit` is the parameter `pcreFails`. When PCRE gives up is not modelled.
- PageSize.ExtractPostScriptPageSize: a preg_match failure under the lowered backtracking limit is not modelled. The pattern has no alternation and fails at the first mismatch.
- WavDuration.GetWavDuration: how PHP prints a float is a parameter (`floatText`). Only whole-second durations are shown to read back exactly.
- Formatter.ScoreFormatter.Format: the HTML path returns the value it renders and whether diff details are added. The rendered HTML and the ScoreException string it may return are not modelled.
- Parser side effects other than tracking categories (addImage, addModules, setPageProperty). Also the ABC-to-LilyPond conversion itself, which happens in the sandbox.
- The extension's hooks, VisualEditor and popup JavaScript modules, and the Wikibase data type registration. They are not part of the rendering core.
