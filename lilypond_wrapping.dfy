/**
 * Score::getPaperCode and Score::embedLilypondCode: how plain (non-raw)
 * LilyPond code is wrapped into a complete LilyPond file. The user's code
 * lands after a fixed header of seven lines, which is why compiler errors
 * about a wrapped file are shifted back by seven lines.
 */
module LilypondWrapping {
  import opened Wrappers
  import opened Text

  // ---------------------------------------------------------------------------
  // The \paper block

  /** A PHP array with string keys, in insertion order. */
  type Config = seq<(string, string)>

  function Lookup(c: Config, k: string): Option<string>
    decreases |c|
  {
    if |c| == 0 then None
    else if c[0].0 == k then Some(c[0].1)
    else Lookup(c[1..], k)
  }

  function Keys(c: Config): seq<string> {
    seq(|c|, i requires 0 <= i < |c| => c[i].0)
  }

  /** The entries of a whose values b replaces, in a's order. */
  function Overridden(a: Config, b: Config): (r: Config)
    ensures |r| == |a| && forall i :: 0 <= i < |a| ==> r[i].0 == a[i].0
    decreases |a|
  {
    if |a| == 0 then []
    else
      var v := if Lookup(b, a[0].0).Some? then Lookup(b, a[0].0).value else a[0].1;
      [(a[0].0, v)] + Overridden(a[1..], b)
  }

  /** The entries of b whose keys a lacks, in b's order. */
  function Added(a: Config, b: Config): Config
    decreases |b|
  {
    if |b| == 0 then []
    else if Lookup(a, b[0].0).Some? then Added(a, b[1..])
    else [b[0]] + Added(a, b[1..])
  }

  /** array_merge on arrays with string keys: b's values win, a's keys keep their places. */
  function ArrayMerge(a: Config, b: Config): Config {
    Overridden(a, b) + Added(a, b)
  }

  const DefaultPaper: Config := [("indent", "0\\mm")]

  function EntryLine(e: (string, string)): string {
    "\t" + e.0 + " = " + e.1 + "\n"
  }

  /** The entry lines of a \paper block, built up front to back. */
  function Entries(c: Config): string
    decreases |c|
  {
    if |c| == 0 then "" else Entries(c[..|c| - 1]) + EntryLine(c[|c| - 1])
  }

  const PaperOpen := "\\paper {\n"

  function PaperBlock(c: Config): string {
    PaperOpen + Entries(c) + "}"
  }

  lemma EntriesStep(c: Config, i: nat)
    requires i < |c|
    ensures Entries(c[..i + 1]) == Entries(c[..i]) + EntryLine(c[i])
  {
    assert c[..i + 1][..i] == c[..i];
  }

  /** getPaperCode: the defaults merged with the given settings, one line per entry. */
  method GetPaperCode(paperConfig: Config) returns (paperCode: string)
    ensures paperCode == PaperBlock(ArrayMerge(DefaultPaper, paperConfig))
  {
    paperCode := WritePaper(ArrayMerge(DefaultPaper, paperConfig));
  }

  /** The loop of getPaperCode: one `key = value` line per entry, in order. */
  method WritePaper(config: Config) returns (paperCode: string)
    ensures paperCode == PaperBlock(config)
  {
    paperCode := PaperOpen;
    for i := 0 to |config|
      invariant paperCode == PaperOpen + Entries(config[..i])
    {
      EntriesStep(config, i);
      paperCode := paperCode + EntryLine(config[i]);
    }
    assert config[..|config|] == config;
    paperCode := paperCode + "}";
  }

  // ---------------------------------------------------------------------------
  // Properties of the paper block

  /** array_merge: a key of the result takes b's value if b has it, a's otherwise. */
  lemma {:induction false} MergeLookup(a: Config, b: Config, k: string)
    ensures Lookup(ArrayMerge(a, b), k) == if Lookup(b, k).Some? then Lookup(b, k) else Lookup(a, k)
    decreases |a|
  {
    if |a| == 0 {
      AddedToEmpty(b);
      assert ArrayMerge(a, b) == b;
    } else {
      var v := if Lookup(b, a[0].0).Some? then Lookup(b, a[0].0).value else a[0].1;
      var tail := Overridden(a[1..], b) + Added(a, b);
      assert ArrayMerge(a, b) == [(a[0].0, v)] + tail;
      assert ([(a[0].0, v)] + tail)[1..] == tail;
      if a[0].0 != k {
        AddedSkips(a, b, k);
        LookupAppend(Overridden(a[1..], b), Added(a, b), k);
        LookupAppend(Overridden(a[1..], b), Added(a[1..], b), k);
        MergeLookup(a[1..], b, k);
      }
    }
  }

  lemma {:induction false} AddedToEmpty(b: Config)
    ensures Added([], b) == b
    decreases |b|
  {
    if |b| > 0 {
      AddedToEmpty(b[1..]);
    }
  }

  /** For a key other than a[0]'s, dropping a[0] does not change what Added gives for it. */
  lemma {:induction false} AddedSkips(a: Config, b: Config, k: string)
    requires |a| > 0 && a[0].0 != k
    ensures Lookup(Added(a, b), k) == Lookup(Added(a[1..], b), k)
    decreases |b|
  {
    if |b| > 0 {
      AddedSkips(a, b[1..], k);
    }
  }

  lemma {:induction false} LookupAppend(x: Config, y: Config, k: string)
    ensures Lookup(x + y, k) == if Lookup(x, k).Some? then Lookup(x, k) else Lookup(y, k)
    decreases |x|
  {
    if |x| == 0 {
      assert x + y == y;
    } else {
      assert (x + y)[1..] == x[1..] + y;
      LookupAppend(x[1..], y, k);
    }
  }

  /** The indent setting comes first whatever the settings, then the others in their order. */
  lemma PaperStartsWithIndent(paperConfig: Config)
    ensures var merged := ArrayMerge(DefaultPaper, paperConfig);
      |merged| >= 1 && merged[0].0 == "indent"
      && merged[0].1 == (if Lookup(paperConfig, "indent").Some? then Lookup(paperConfig, "indent").value else "0\\mm")
  {
  }

  /** The settings the renderer passes: none, or a line width, which follows the indent. */
  lemma LineWidthPaper(lineWidth: string)
    ensures ArrayMerge(DefaultPaper, []) == DefaultPaper
    ensures ArrayMerge(DefaultPaper, [("line-width", lineWidth)]) == DefaultPaper + [("line-width", lineWidth)]
  {
    assert Lookup([("line-width", lineWidth)], "indent") == None;
    assert Overridden(DefaultPaper, [("line-width", lineWidth)]) == DefaultPaper;
    assert Added(DefaultPaper, [("line-width", lineWidth)]) == [("line-width", lineWidth)];
  }

  // ---------------------------------------------------------------------------
  // embedLilypondCode

  const LayoutCommand := "\\layout"
  const MidiCommand := "\\midi"
  const LayoutBlock := LayoutCommand + " { }\n"
  const MidiSettings := " {\n\t\t\\context { \\Score tempoWholesPerMinute = #(ly:make-moment 100 4) }\n\t}"
  const MidiBlock := "\t" + MidiCommand + MidiSettings

  /** The blocks added after the user's code: only those the code does not supply itself. */
  function ScoreOptions(code: string): string {
    (if !Contains(code, LayoutCommand) then LayoutBlock else "")
    + (if !Contains(code, MidiCommand) then MidiBlock else "")
  }

  /**
   * The first seven lines of the wrapper: a header that switches the
   * tagline off, the \version and \language lines, the opening of the
   * \score block and an empty line.
   */
  function HeaderLines(noteLanguage: string, version: string): seq<string> {
    ["\\header {", "\ttagline = ##f", "}", "\\version \"" + version + "\"",
     "\\language \"" + noteLanguage + "\"", "\\score {", ""]
  }

  const FirstLineOffset := 7

  /** The wrapped file; version is what getLilypondVersion returned. */
  function Embed(code: string, noteLanguage: string, paperCode: string, version: string): string {
    Join(HeaderLines(noteLanguage, version), "\n") + "\n" + code + "\n" + ScoreOptions(code) + "\n\n}\n" + paperCode
  }

  function Trailer(code: string, paperCode: string): string {
    ScoreOptions(code) + "\n\n}\n" + paperCode
  }

  /**
   * Line i of the user's code is line i + 7 of the wrapped file (counting
   * from 0), provided the version and the note language are single lines.
   */
  lemma CodeStartsOnLineEight(code: string, noteLanguage: string, paperCode: string, version: string)
    requires '\n' !in noteLanguage && '\n' !in version
    ensures var lines := Split(Embed(code, noteLanguage, paperCode, version), '\n');
      |lines| >= FirstLineOffset + |Split(code, '\n')|
      && lines[FirstLineOffset..FirstLineOffset + |Split(code, '\n')|] == Split(code, '\n')
      && lines[..FirstLineOffset] == HeaderLines(noteLanguage, version)
  {
    var h := HeaderLines(noteLanguage, version);
    HeaderLinesAreLines(noteLanguage, version);
    EmbedRegrouped(code, noteLanguage, paperCode, version);
    SplitAfterHeader(h, code, Trailer(code, paperCode));
    var lines := h + Split(code, '\n') + Split(Trailer(code, paperCode), '\n');
    assert lines[FirstLineOffset..FirstLineOffset + |Split(code, '\n')|] == Split(code, '\n');
    assert lines[..FirstLineOffset] == h;
  }

  /** Line l of the wrapped file (counting from 1) is line l - 7 of the user's code. */
  lemma WrappedLineIsCodeLine(code: string, noteLanguage: string, paperCode: string, version: string, l: int)
    requires '\n' !in noteLanguage && '\n' !in version
    requires FirstLineOffset < l <= FirstLineOffset + |Split(code, '\n')|
    ensures var lines := Split(Embed(code, noteLanguage, paperCode, version), '\n');
      l <= |lines| && lines[l - 1] == Split(code, '\n')[l - FirstLineOffset - 1]
  {
    CodeStartsOnLineEight(code, noteLanguage, paperCode, version);
    var lines := Split(Embed(code, noteLanguage, paperCode, version), '\n');
    var codeLines := Split(code, '\n');
    assert lines[FirstLineOffset..FirstLineOffset + |codeLines|][l - FirstLineOffset - 1] == codeLines[l - FirstLineOffset - 1];
  }

  lemma EmbedRegrouped(code: string, noteLanguage: string, paperCode: string, version: string)
    ensures Embed(code, noteLanguage, paperCode, version) ==
      Join(HeaderLines(noteLanguage, version), "\n") + "\n" + code + "\n" + Trailer(code, paperCode)
  {
  }

  lemma SplitAfterHeader(h: seq<string>, code: string, trailer: string)
    requires |h| >= 1 && forall i :: 0 <= i < |h| ==> '\n' !in h[i]
    ensures Split(Join(h, "\n") + "\n" + code + "\n" + trailer, '\n') ==
      h + Split(code, '\n') + Split(trailer, '\n')
  {
    var tail := code + ['\n'] + trailer;
    assert Join(h, "\n") + "\n" + code + "\n" + trailer == Join(h, "\n") + ['\n'] + tail;
    SplitJoin(h, '\n');
    SplitAppend(Join(h, "\n"), tail, '\n');
    SplitAppend(code, trailer, '\n');
  }

  lemma HeaderLinesAreLines(noteLanguage: string, version: string)
    requires '\n' !in noteLanguage && '\n' !in version
    ensures forall i :: 0 <= i < |HeaderLines(noteLanguage, version)| ==> '\n' !in HeaderLines(noteLanguage, version)[i]
  {
    var v := "\\version \"" + version + "\"";
    var l := "\\language \"" + noteLanguage + "\"";
    assert forall c :: c in v ==> c in "\\version \"" || c in version || c == '"';
    assert forall c :: c in l ==> c in "\\language \"" || c in noteLanguage || c == '"';
  }

  /** The blocks added after the code hold the commands the code lacks, and only those blocks are added. */
  lemma OptionsSupply(code: string)
    ensures !Contains(code, LayoutCommand) ==> Contains(ScoreOptions(code), LayoutCommand)
    ensures !Contains(code, MidiCommand) ==> Contains(ScoreOptions(code), MidiCommand)
    ensures Contains(code, LayoutCommand) ==> ScoreOptions(code) == "" || ScoreOptions(code) == MidiBlock
    ensures Contains(code, MidiCommand) ==> ScoreOptions(code) == "" || ScoreOptions(code) == LayoutBlock
  {
    var midi := if !Contains(code, MidiCommand) then MidiBlock else "";
    var layout := if !Contains(code, LayoutCommand) then LayoutBlock else "";
    if !Contains(code, LayoutCommand) {
      BlocksHaveCommands();
      ContainsLeft(LayoutBlock, midi, LayoutCommand);
    }
    if !Contains(code, MidiCommand) {
      BlocksHaveCommands();
      ContainsRight(layout, MidiBlock, MidiCommand);
    }
  }

  lemma BlocksHaveCommands()
    ensures Contains(LayoutBlock, LayoutCommand) && Contains(MidiBlock, MidiCommand)
  {
    ContainsInConcat("", LayoutCommand, " { }\n");
    assert "" + LayoutCommand + " { }\n" == LayoutBlock;
    ContainsInConcat("\t", MidiCommand, MidiSettings);
  }

  /** The wrapped file always has a \layout and a \midi block, supplied or added. */
  lemma EmbedHasLayoutAndMidi(code: string, noteLanguage: string, paperCode: string, version: string)
    ensures Contains(Embed(code, noteLanguage, paperCode, version), LayoutCommand)
    ensures Contains(Embed(code, noteLanguage, paperCode, version), MidiCommand)
  {
    var head := Join(HeaderLines(noteLanguage, version), "\n") + "\n";
    WrappedContains(head, code, "\n\n}\n", paperCode, LayoutCommand);
    WrappedContains(head, code, "\n\n}\n", paperCode, MidiCommand);
  }

  /** Whatever surrounds them, the code and the added blocks together hold both commands. */
  lemma WrappedContains(head: string, code: string, c: string, d: string, sub: string)
    requires sub == LayoutCommand || sub == MidiCommand
    ensures Contains(head + code + "\n" + ScoreOptions(code) + c + d, sub)
  {
    OptionsSupply(code);
    var opts := ScoreOptions(code);
    if Contains(code, sub) {
      ContainsRight(head, code, sub);
      ContainsLeft(head + code, "\n", sub);
      ContainsLeft(head + code + "\n", opts, sub);
    } else {
      ContainsRight(head + code + "\n", opts, sub);
    }
    ContainsLeft(head + code + "\n" + opts, c, sub);
    ContainsLeft(head + code + "\n" + opts + c, d, sub);
  }
}
