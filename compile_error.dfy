/**
 * Score::throwCompileException: the error raised when the LilyPond or abc2ly
 * run fails. The script's first "mw-msg" line names the message; the
 * captured output, with message lines removed, becomes the last parameter,
 * and a plain compiler error has its output beautified with the offset that
 * undoes the wrapping of non-raw code.
 */
module CompileErrors {
  import opened Wrappers
  import opened Text
  import opened ScriptOutput
  import opened ErrorBeautifier
  import opened ScoreErrors
  import opened LilypondWrapping

  const CompilerErrorKey := "score-compilererr"

  /** The number of lines the renderer put in front of the user's code. */
  function Offset(raw: bool): int {
    if raw then 0 else FirstLineOffset
  }

  /**
   * The error for a failed compile whose captured output is stdout; the last
   * parameter is the output shown to the user (its HTML escaping is not
   * modelled).
   */
  function CompileError(stdout: string, raw: bool, debugOutput: bool): ScoreError {
    var lines := Split(stdout, '\n');
    var filtered := Filtered(lines);
    match FirstMessage(lines)
    case None => ScoreException(CompilerErrorKey, [filtered])
    case Some((name, params)) =>
      if !debugOutput && name == CompilerErrorKey then
        ScoreException(name, params + [Beautified(Offset(raw), filtered)])
      else
        ScoreException(name, params + [filtered])
  }

  /** The output a compile error shows: its last parameter. */
  function ShownOutput(e: ScoreError): string {
    if e.ScoreException? && |e.params| > 0 then e.params[|e.params| - 1] else ""
  }

  method ThrowCompileException(stdout: string, raw: bool, debugOutput: bool) returns (e: ScoreError)
    ensures e == CompileError(stdout, raw, debugOutput)
  {
    var message, output := ExtractMessage(stdout);
    if message.None? {
      message := Some((CompilerErrorKey, []));
    } else if !debugOutput && message.value.0 == CompilerErrorKey {
      var scoreFirstLineOffset := if raw then 0 else 7;
      var errMsgBeautifier := new LilypondErrorMessageBeautifier(scoreFirstLineOffset);
      output := errMsgBeautifier.BeautifyMessage(output);
    }
    e := ScoreException(message.value.0, message.value.1 + [output]);
  }

  // ---------------------------------------------------------------------------
  // Properties

  /**
   * The key and parameters come from the first message line, or are the
   * generic compiler error when there is none; the shown output follows them.
   */
  lemma CompileErrorMessage(stdout: string, raw: bool, debugOutput: bool)
    ensures var e := CompileError(stdout, raw, debugOutput);
      var m := FirstMessage(Split(stdout, '\n'));
      e.ScoreException? && IsTracked(e) && |e.params| >= 1
      && e.key == (if m.Some? then m.value.0 else CompilerErrorKey)
      && e.params[..|e.params| - 1] == (if m.Some? then m.value.1 else [])
  {
    var e := CompileError(stdout, raw, debugOutput);
    var m := FirstMessage(Split(stdout, '\n'));
    if m.Some? {
      assert e.params[..|e.params| - 1] == m.value.1;
    }
  }

  /**
   * Unless the script itself reported a compiler error and debugging output
   * is off, the shown output is the captured output with the message lines
   * removed and nothing else changed; in particular output without any
   * message line is not beautified.
   */
  lemma OnlyReportedErrorsBeautified(stdout: string, raw: bool, debugOutput: bool)
    requires FirstMessage(Split(stdout, '\n')) == None || debugOutput
      || FirstMessage(Split(stdout, '\n')).value.0 != CompilerErrorKey
    ensures var shown := ShownOutput(CompileError(stdout, raw, debugOutput));
      shown == Filtered(Split(stdout, '\n'))
      && forall i :: 0 <= i < |Split(shown, '\n')| ==> !IsMessageLine(Split(shown, '\n')[i])
  {
    FilteredLines(stdout);
  }

  /**
   * A reported compiler error is shown beautified: reading the shown text back
   * gives every error position of the filtered output with its line moved
   * back by 7 for wrapped code and by 0 for raw code.
   */
  lemma ReportedErrorsShifted(stdout: string, raw: bool)
    requires FirstMessage(Split(stdout, '\n')).Some?
    requires FirstMessage(Split(stdout, '\n')).value.0 == CompilerErrorKey
    ensures var shown := ShownOutput(CompileError(stdout, raw, false));
      var ms := ErrorMatches(Filtered(Split(stdout, '\n')));
      shown == Beautified(if raw then 0 else 7, Filtered(Split(stdout, '\n')))
      && (shown != "" ==> DecodeReport(Split(shown, '\n')) == Expected(if raw then 0 else 7, ms))
      && (shown == "" <==> ms == [])
  {
    var filtered := Filtered(Split(stdout, '\n'));
    BeautifiedRoundTrip(Offset(raw), filtered);
    EmptyIffNoMatch(Offset(raw), filtered);
  }

  lemma {:induction false} ExpectedAt(offset: int, ms: seq<ErrorMatch>, k: nat)
    requires k < |ms|
    ensures |Expected(offset, ms)| == |ms|
    ensures Expected(offset, ms)[k] == (ms[k].line - offset, ms[k].column, ms[k].message)
    decreases k
  {
    ExpectedLength(offset, ms);
    if k > 0 {
      ExpectedAt(offset, ms[1..], k - 1);
    }
  }

  lemma {:induction false} ExpectedLength(offset: int, ms: seq<ErrorMatch>)
    ensures |Expected(offset, ms)| == |ms|
    decreases |ms|
  {
    if |ms| > 0 {
      ExpectedLength(offset, ms[1..]);
    }
  }

  /**
   * The point of the offset: when LilyPond reports an error on a line of the
   * wrapped file that holds user code, the line number shown to the user
   * (counting from 1) is the number of that same line in the user's code.
   * The wrapped file and the user's code are given by their lines, placed as
   * EmbedPlacesCode shows Embed places them.
   */
  lemma {:induction false} ShownLineIsUserLine(codeLines: seq<string>, wrapped: seq<string>, stdout: string, k: nat)
    requires |wrapped| >= FirstLineOffset + |codeLines|
    requires wrapped[FirstLineOffset..FirstLineOffset + |codeLines|] == codeLines
    requires ReportedOnUserLine(stdout, k, |codeLines|)
    ensures k < |ShownReport(stdout)|
    ensures IsUserLine(wrapped, ErrorMatches(Filtered(Split(stdout, '\n')))[k].line, codeLines, ShownReport(stdout)[k].0)
  {
    var ms := ErrorMatches(Filtered(Split(stdout, '\n')));
    var report := ShownReport(stdout);
    assert k < |report| && report[k].0 == ms[k].line - 7 by {
      ShownLineNumber(stdout, k);
    }
    ReportPlacement(codeLines, wrapped, ms, report, k);
  }

  /**
   * LilyPond's output asks for the beautified compile error, and its k-th
   * error is reported on one of the n lines of user code in the wrapped file.
   */
  predicate ReportedOnUserLine(stdout: string, k: nat, n: nat) {
    && FirstMessage(Split(stdout, '\n')).Some?
    && FirstMessage(Split(stdout, '\n')).value.0 == CompilerErrorKey
    && k < |ErrorMatches(Filtered(Split(stdout, '\n')))|
    && FirstLineOffset < ErrorMatches(Filtered(Split(stdout, '\n')))[k].line <= FirstLineOffset + n
  }

  /** The errors as the user sees them: read back from the text throwCompileException shows. */
  function ShownReport(stdout: string): seq<(int, nat, string)> {
    DecodeReport(Split(ShownOutput(CompileError(stdout, false, false)), '\n'))
  }

  /** Line l of the wrapped file and line u of the user's code, both counted from 1, are the same line. */
  predicate IsUserLine(wrapped: seq<string>, l: int, codeLines: seq<string>, u: int) {
    0 < l <= |wrapped| && 0 < u <= |codeLines| && wrapped[l - 1] == codeLines[u - 1]
  }

  lemma ReportPlacement(codeLines: seq<string>, wrapped: seq<string>, ms: seq<ErrorMatch>, report: seq<(int, nat, string)>, k: nat)
    requires |wrapped| >= FirstLineOffset + |codeLines|
    requires wrapped[FirstLineOffset..FirstLineOffset + |codeLines|] == codeLines
    requires k < |ms| && FirstLineOffset < ms[k].line <= FirstLineOffset + |codeLines|
    requires k < |report| && report[k].0 == ms[k].line - 7
    ensures 1 <= report[k].0 <= |codeLines| && wrapped[ms[k].line - 1] == codeLines[report[k].0 - 1]
  {
    PlacedLine(codeLines, wrapped, ms[k].line, report[k].0);
  }

  lemma PlacedLine(codeLines: seq<string>, wrapped: seq<string>, l: int, u: int)
    requires |wrapped| >= FirstLineOffset + |codeLines|
    requires wrapped[FirstLineOffset..FirstLineOffset + |codeLines|] == codeLines
    requires FirstLineOffset < l <= FirstLineOffset + |codeLines| && u == l - 7
    ensures 1 <= u <= |codeLines| && wrapped[l - 1] == codeLines[u - 1]
  {
    assert wrapped[FirstLineOffset..FirstLineOffset + |codeLines|][u - 1] == codeLines[u - 1];
  }

  /** The lines of Embed's output meet the placement ShownLineIsUserLine asks for. */
  lemma EmbedPlacesCode(code: string, noteLanguage: string, paperCode: string, version: string)
    requires '\n' !in noteLanguage && '\n' !in version
    ensures var wrapped := Split(Embed(code, noteLanguage, paperCode, version), '\n');
      |wrapped| >= FirstLineOffset + |Split(code, '\n')|
      && wrapped[FirstLineOffset..FirstLineOffset + |Split(code, '\n')|] == Split(code, '\n')
  {
    CodeStartsOnLineEight(code, noteLanguage, paperCode, version);
  }

  /** The k-th error read back from the shown text is the k-th reported error, moved back by 7 lines. */
  lemma ShownLineNumber(stdout: string, k: nat)
    requires FirstMessage(Split(stdout, '\n')).Some?
    requires FirstMessage(Split(stdout, '\n')).value.0 == CompilerErrorKey
    requires k < |ErrorMatches(Filtered(Split(stdout, '\n')))|
    ensures var report := DecodeReport(Split(ShownOutput(CompileError(stdout, false, false)), '\n'));
      k < |report| && report[k].0 == ErrorMatches(Filtered(Split(stdout, '\n')))[k].line - 7
  {
    var ms := ErrorMatches(Filtered(Split(stdout, '\n')));
    var shown := ShownOutput(CompileError(stdout, false, false));
    ReportedErrorsShifted(stdout, false);
    assert shown != "";
    ExpectedAt(7, ms, k);
  }
}
