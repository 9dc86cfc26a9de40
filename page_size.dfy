/**
 * scripts/extractPostScriptPageSize.php: reads a PostScript file line by
 * line and prints the width and height of the first `%%DocumentMedia:`
 * comment (Adobe's PostScript Document Structuring Conventions 3.0), as
 * "<w> <h>\n". The file is modelled by what the successive fgets calls
 * return before feof becomes true: Some(line) for a line (with its "\n"),
 * None for a call that fails.
 */
module PageSize {
  import opened Wrappers
  import opened Text
  import opened ScriptOutput
  import opened ScriptExit

  const MediaPrefix := "%%DocumentMedia: "

  /** Length of the longest prefix of s without a space (`[^ ]*`). */
  function NonSpaceRun(s: string): (n: nat)
    ensures n <= |s| && ' ' !in s[..n]
    ensures n < |s| ==> s[n] == ' '
    decreases |s|
  {
    if |s| > 0 && s[0] != ' ' then
      var k := NonSpaceRun(s[1..]);
      assert s[..k + 1] == [s[0]] + s[1..][..k];
      1 + k
    else 0
  }

  /** Length of the longest prefix of s made of digits and dots (`[\d.]+` when positive). */
  function DecimalRun(s: string): (n: nat)
    ensures n <= |s| && AllDecimalChars(s[..n])
    ensures n < |s| ==> !IsDecimalChar(s[n])
    decreases |s|
  {
    if |s| > 0 && IsDecimalChar(s[0]) then
      var k := DecimalRun(s[1..]);
      assert s[..k + 1] == [s[0]] + s[1..][..k];
      1 + k
    else 0
  }

  /**
   * `preg_match('/^%%DocumentMedia: [^ ]* ([\d.]+) ([\d.]+)/', $line, $m)`,
   * giving ($m[1], $m[2]). Every quantifier is followed by a character it
   * cannot take, so the greedy runs are the only way to match: the medium
   * name runs up to the first space, the width up to the next space.
   */
  function MediaMatch(line: string): (r: Option<(string, string)>)
    ensures r.Some? ==> |r.value.0| > 0 && AllDecimalChars(r.value.0) && ' ' !in r.value.0
    ensures r.Some? ==> |r.value.1| > 0 && AllDecimalChars(r.value.1) && ' ' !in r.value.1
  {
    if !StartsWith(line, MediaPrefix) then None
    else
      var rest := line[|MediaPrefix|..];
      var n := NonSpaceRun(rest);
      if n == |rest| then None else SizeTokens(rest[n + 1..])
  }

  /** `([\d.]+) ([\d.]+)` at the start of u: the width, a space, the height. */
  function SizeTokens(u: string): (r: Option<(string, string)>)
    ensures r.Some? ==> |r.value.0| > 0 && AllDecimalChars(r.value.0) && ' ' !in r.value.0
    ensures r.Some? ==> |r.value.1| > 0 && AllDecimalChars(r.value.1) && ' ' !in r.value.1
  {
    var d1 := DecimalRun(u);
    if d1 == 0 || d1 == |u| || u[d1] != ' ' then None
    else
      var v := u[d1 + 1..];
      var d2 := DecimalRun(v);
      if d2 == 0 then None
      else
        DecimalLacksSpace(u[..d1]);
        DecimalLacksSpace(v[..d2]);
        Some((u[..d1], v[..d2]))
  }

  lemma DecimalLacksSpace(s: string)
    requires AllDecimalChars(s)
    ensures ' ' !in s
  {
    forall i | 0 <= i < |s| ensures s[i] != ' ' {
      assert IsDecimalChar(s[i]);
    }
  }

  /**
   * The size the loop finds: the match of the first line that matches, or
   * None when a read fails or the file ends first.
   */
  function FirstMedia(results: seq<Option<string>>): Option<(string, string)>
    decreases |results|
  {
    if |results| == 0 || results[0].None? then None
    else if MediaMatch(results[0].value).Some? then MediaMatch(results[0].value)
    else FirstMedia(results[1..])
  }

  /** The exit of the script for a file read (None: fopen failed). */
  function PageSizeExit(fromCommandLine: bool, argv: seq<string>, file: Option<seq<Option<string>>>): Exit {
    if !fromCommandLine then NotFromCommandLine
    else if |argv| < 2 then UsageExit("extractPostScriptPageSize.php")
    else if file.None? then ErrorExit("score-readerr")
    else match FirstMedia(file.value)
      case None => ErrorExit("score-readerr")
      case Some((w, h)) => Exit(0, w + " " + h + "\n", "")
  }

  /** The script: the `while (!feof($f))` loop returns at the first match. */
  method ExtractPostScriptPageSize(fromCommandLine: bool, argv: seq<string>, file: Option<seq<Option<string>>>)
    returns (exit: Exit)
    ensures exit == PageSizeExit(fromCommandLine, argv, file)
  {
    if !fromCommandLine {
      return NotFromCommandLine;
    }
    if |argv| < 2 {
      return UsageExit("extractPostScriptPageSize.php");
    }
    if file.None? {
      return ErrorExit("score-readerr");
    }
    var results := file.value;
    var i := 0;
    while i < |results|
      invariant 0 <= i <= |results|
      invariant FirstMedia(results[i..]) == FirstMedia(results)
      decreases |results| - i
    {
      var line := results[i];
      if line.None? {
        return ErrorExit("score-readerr");
      }
      var m := MediaMatch(line.value);
      if m.Some? {
        return Exit(0, m.value.0 + " " + m.value.1 + "\n", "");
      }
      assert results[i..][1..] == results[i + 1..];
      i := i + 1;
    }
    return ErrorExit("score-readerr");
  }

  // ---------------------------------------------------------------------------
  // Properties

  /** Lines that were read and did not match. */
  predicate Scanned(results: seq<Option<string>>) {
    forall j :: 0 <= j < |results| ==> results[j].Some? && MediaMatch(results[j].value).None?
  }

  lemma {:induction false} ScannedSkipped(a: seq<Option<string>>, b: seq<Option<string>>)
    requires Scanned(a)
    ensures FirstMedia(a + b) == FirstMedia(b)
    decreases |a|
  {
    if |a| > 0 {
      assert (a + b)[0] == a[0];
      assert (a + b)[1..] == a[1..] + b;
      ScannedSkipped(a[1..], b);
    } else {
      assert a + b == b;
    }
  }

  /** The first matching line decides the output; the lines after it are never looked at. */
  lemma LaterLinesIgnored(a: seq<Option<string>>, line: string, b: seq<Option<string>>)
    requires Scanned(a) && MediaMatch(line).Some?
    ensures FirstMedia(a + [Some(line)] + b) == MediaMatch(line)
  {
    assert a + [Some(line)] + b == a + ([Some(line)] + b);
    ScannedSkipped(a, [Some(line)] + b);
  }

  /** A failing fgets before any match ends the script with score-readerr. */
  lemma ReadFailureStops(a: seq<Option<string>>, b: seq<Option<string>>)
    requires Scanned(a)
    ensures FirstMedia(a + [None] + b) == None
  {
    assert a + [None] + b == a + ([None] + b);
    ScannedSkipped(a, [None] + b);
  }

  /** A file with no matching line ends the script with score-readerr. */
  lemma NoMediaLine(results: seq<Option<string>>)
    requires Scanned(results)
    ensures FirstMedia(results) == None
  {
    ScannedSkipped(results, []);
    assert results + [] == results;
  }

  /** Every error exit carries score-readerr, which the renderer reads back. */
  lemma PageSizeExitCases(fromCommandLine: bool, argv: seq<string>, file: Option<seq<Option<string>>>)
    ensures var e := PageSizeExit(fromCommandLine, argv, file);
      (e.status == 0 || e.status == 1 || e.status == 20)
      && (e.status == 0 <==> fromCommandLine && |argv| >= 2 && file.Some? && FirstMedia(file.value).Some?)
      && (e.status == 20 ==> FirstMessage(Split(e.stderr, '\n')) == Some(("score-readerr", [])))
  {
    ErrorExitIsRead("score-readerr");
  }

  /**
   * A `%%DocumentMedia:` comment with the medium's name, width and height,
   * followed by whatever comes after the height (the weight, colour and
   * type fields, the newline).
   */
  function MediaLine(name: string, w: string, h: string, rest: string): string {
    MediaPrefix + name + " " + w + " " + h + rest
  }

  /** The width and height fields of a `%%DocumentMedia:` comment are read back. */
  lemma MediaLineRead(name: string, w: string, h: string, rest: string)
    requires ' ' !in name
    requires |w| > 0 && AllDecimalChars(w) && |h| > 0 && AllDecimalChars(h)
    requires rest == [] || !IsDecimalChar(rest[0])
    ensures MediaMatch(MediaLine(name, w, h, rest)) == Some((w, h))
  {
    var u := w + " " + h + rest;
    var r := name + (" " + u);
    Regrouped(MediaPrefix, name, w, h, rest);
    NonSpaceRunOf(name, " " + u);
    Prefixed(r);
    MediaMatchAt(MediaPrefix + r, r, |name|);
    AfterSpace(name, u);
    SizeTokensRead(w, h, rest);
  }

  lemma Regrouped(p: string, name: string, w: string, h: string, rest: string)
    ensures p + name + " " + w + " " + h + rest == p + (name + (" " + (w + " " + h + rest)))
  {
  }

  lemma AfterSpace(name: string, u: string)
    ensures (name + (" " + u))[|name| + 1..] == u
  {
  }

  lemma MediaMatchAt(line: string, r: string, n: nat)
    requires StartsWith(line, MediaPrefix) && line[|MediaPrefix|..] == r
    requires NonSpaceRun(r) == n < |r|
    ensures MediaMatch(line) == SizeTokens(r[n + 1..])
  {
  }

  lemma Prefixed(r: string)
    ensures StartsWith(MediaPrefix + r, MediaPrefix) && (MediaPrefix + r)[|MediaPrefix|..] == r
  {
  }

  lemma SizeTokensRead(w: string, h: string, rest: string)
    requires |w| > 0 && AllDecimalChars(w) && |h| > 0 && AllDecimalChars(h)
    requires rest == [] || !IsDecimalChar(rest[0])
    ensures SizeTokens(w + " " + h + rest) == Some((w, h))
  {
    var v := h + rest;
    var u := w + (" " + v);
    assert w + " " + h + rest == u;
    assert u[|w| + 1..] == v && u[|w|] == ' ' && u[..|w|] == w;
    assert DecimalRun(u) == |w| by { DecimalRunOf(w, " " + v); }
    assert DecimalRun(v) == |h| && v[..|h|] == h by { DecimalRunOf(h, rest); }
    SizeTokensOf(u, |w|, |h|);
  }

  lemma SizeTokensOf(u: string, d1: nat, d2: nat)
    requires DecimalRun(u) == d1 && 0 < d1 < |u| && u[d1] == ' '
    requires DecimalRun(u[d1 + 1..]) == d2 > 0
    ensures SizeTokens(u) == Some((u[..d1], u[d1 + 1..][..d2]))
  {
  }

  lemma {:induction false} NonSpaceRunOf(a: string, b: string)
    requires ' ' !in a && |b| > 0 && b[0] == ' '
    ensures NonSpaceRun(a + b) == |a|
    decreases |a|
  {
    if |a| > 0 {
      assert (a + b)[1..] == a[1..] + b;
      NonSpaceRunOf(a[1..], b);
    } else {
      assert a + b == b;
    }
  }

  lemma {:induction false} DecimalRunOf(a: string, b: string)
    requires AllDecimalChars(a) && (b == [] || !IsDecimalChar(b[0]))
    ensures DecimalRun(a + b) == |a|
    decreases |a|
  {
    if |a| > 0 {
      assert (a + b)[1..] == a[1..] + b;
      DecimalRunOf(a[1..], b);
    } else {
      assert a + b == b;
    }
  }

  /** Conversely, every match comes from a line of exactly that shape. */
  lemma MediaMatchShape(line: string)
    requires MediaMatch(line).Some?
    ensures exists name: string, rest: string ::
      ' ' !in name && (rest == [] || !IsDecimalChar(rest[0]))
      && line == MediaLine(name, MediaMatch(line).value.0, MediaMatch(line).value.1, rest)
  {
    var name, rest := MediaFields(line);
  }

  lemma MediaFields(line: string) returns (name: string, rest: string)
    requires MediaMatch(line).Some?
    ensures ' ' !in name && (rest == [] || !IsDecimalChar(rest[0]))
    ensures line == MediaLine(name, MediaMatch(line).value.0, MediaMatch(line).value.1, rest)
  {
    var (w, h) := MediaMatch(line).value;
    var r := line[|MediaPrefix|..];
    var n := NonSpaceRun(r);
    assert n < |r|;
    var u := r[n + 1..];
    MediaMatchAt(line, r, n);
    SizeTokensShape(u);
    name, rest := r[..n], u[|w| + 1 + |h|..];
    Around(line, r, n);
    JoinFields(line, name, u, w, h, rest);
  }

  lemma Around(line: string, r: string, n: nat)
    requires StartsWith(line, MediaPrefix) && line[|MediaPrefix|..] == r && n < |r| && r[n] == ' '
    ensures line == MediaPrefix + (r[..n] + [' '] + r[n + 1..])
  {
    assert line == line[..|MediaPrefix|] + r;
    assert r == r[..n] + [r[n]] + r[n + 1..];
  }

  lemma JoinFields(line: string, name: string, u: string, w: string, h: string, rest: string)
    requires line == MediaPrefix + (name + [' '] + u) && u == w + " " + h + rest
    ensures line == MediaPrefix + name + " " + w + " " + h + rest
  {
  }

  lemma SizeTokensShape(u: string)
    requires SizeTokens(u).Some?
    ensures var (w, h) := SizeTokens(u).value;
      |w| + 1 + |h| <= |u| && u == w + " " + h + u[|w| + 1 + |h|..]
      && (|u| == |w| + 1 + |h| || !IsDecimalChar(u[|w| + 1 + |h|]))
  {
    var d1 := DecimalRun(u);
    var v := u[d1 + 1..];
    var d2 := DecimalRun(v);
    assert u == u[..d1] + " " + v[..d2] + v[d2..];
  }

  /** What the script prints splits back into the two tokens. */
  lemma OutputFields(w: string, h: string)
    requires ' ' !in w && ' ' !in h && '\n' !in w && '\n' !in h
    ensures Split(w + " " + h + "\n", '\n') == [w + " " + h, ""]
    ensures Split(w + " " + h, ' ') == [w, h]
  {
    var line := w + " " + h;
    SplitWithout(line, '\n');
    SplitAppend(line, "", '\n');
    assert line + ['\n'] + "" == w + " " + h + "\n";
    SplitWithout(w, ' ');
    SplitWithout(h, ' ');
    SplitAppend(w, h, ' ');
    assert w + [' '] + h == line;
  }
}
