/**
 * LilypondErrorMessageBeautifier: turns LilyPond's compiler output into a short
 * list of "line L - column C:" headers, each followed by the error text, with
 * the line number moved back by the number of lines the wrapper put before the
 * user's code.
 */
module ErrorBeautifier {
  import opened Wrappers
  import opened Text

  /** One match of `\.ly:(?<line>\d+):(?<column>\d+): error: (?<message>.+)$`. */
  datatype ErrorMatch = ErrorMatch(line: nat, column: nat, message: string)

  /** BEAUTIFIED_ERR_SEPARATOR */
  const Separator := "\n--------\n"

  /** The line the separator puts between two reports. */
  const Dashes := "--------"

  /** A match's message is a non-empty tail of the text it was found in. */
  predicate MessageEndsText(t: string, r: Option<ErrorMatch>) {
    r.Some? ==> 0 < |r.value.message| <= |t| && t[|t| - |r.value.message|..] == r.value.message
  }

  /**
   * The pattern tried at the start of a text. The digit runs are maximal,
   * because each must be followed by ':'; the message is the rest of the text
   * and must not be empty.
   */
  function MatchText(t: string): (r: Option<ErrorMatch>)
    ensures MessageEndsText(t, r)
  {
    if !StartsWith(t, ".ly:") then None
    else
      var d1 := DigitRun(t[4..]);
      var p := 4 + d1;
      if d1 == 0 || p >= |t| || t[p] != ':' then None
      else
        var d2 := DigitRun(t[p + 1..]);
        var q := p + 1 + d2;
        if d2 == 0 || !StartsWith(t[q..], ": error: ") || q + 9 == |t| then None
        else
          assert t[4..][..d1] == t[4..p];
          assert t[p + 1..][..d2] == t[p + 1..q];
          Some(ErrorMatch(ParseNat(t[4..p]), ParseNat(t[p + 1..q]), t[q + 9..]))
  }

  /** The pattern tried at position i of one line of output. */
  function MatchAt(line: string, i: nat): (r: Option<ErrorMatch>)
    requires i <= |line|
    ensures MessageEndsText(line, r)
  {
    var r := MatchText(line[i..]);
    if r.Some? then
      TailOfSuffix(line, i, |r.value.message|);
      r
    else r
  }

  lemma TailOfSuffix(line: string, i: nat, k: nat)
    requires i <= |line| && k <= |line| - i
    ensures line[i..][|line| - i - k..] == line[|line| - k..]
  {
  }

  /** The leftmost match at or after position i of a line, as PCRE finds it. */
  function FindInLine(line: string, i: nat): (r: Option<ErrorMatch>)
    requires i <= |line|
    ensures MessageEndsText(line, r)
    decreases |line| - i
  {
    if i == |line| then None
    else if MatchAt(line, i).Some? then MatchAt(line, i)
    else FindInLine(line, i + 1)
  }

  function MatchesInLines(lines: seq<string>): seq<ErrorMatch>
    decreases |lines|
  {
    if |lines| == 0 then []
    else
      var m := FindInLine(lines[0], 0);
      (if m.Some? then [m.value] else []) + MatchesInLines(lines[1..])
  }

  /**
   * preg_match_all of the error pattern in multi-line mode. Neither the pattern
   * nor its `.` can cross a newline, and a match runs to the end of its line,
   * so the matches are the leftmost match of each line, in line order.
   */
  function ErrorMatches(output: string): seq<ErrorMatch> {
    MatchesInLines(Split(output, '\n'))
  }

  /** BEAUTIFIED_ERR_FORMAT without the message: "line %d - column %d:". */
  function Header(line: int, column: nat): string {
    "line " + IntToString(line) + " - column " + NatToString(column) + ":"
  }

  /** formatErrorMatchLine: sprintf("line %d - column %d:\n%s", line - offset, column, message). */
  function FormatErrorMatchLine(offset: int, m: ErrorMatch): string {
    Header(m.line - offset, m.column) + "\n" + m.message
  }

  function FormatAll(offset: int, ms: seq<ErrorMatch>): (r: seq<string>)
    ensures |r| == |ms|
    ensures forall k :: 0 <= k < |ms| ==> r[k] == FormatErrorMatchLine(offset, ms[k])
    decreases |ms|
  {
    if |ms| == 0 then [] else [FormatErrorMatchLine(offset, ms[0])] + FormatAll(offset, ms[1..])
  }

  /** What beautifyMessage returns for a given offset and compiler output. */
  function Beautified(offset: int, output: string): string {
    var ms := ErrorMatches(output);
    if |ms| == 0 then "" else Join(FormatAll(offset, ms), Separator)
  }

  class LilypondErrorMessageBeautifier {
    /** The number of wrapper lines before the user's first line. */
    const scoreFirstLineOffset: int

    constructor (scoreFirstLineOffset: int := 0)
      ensures this.scoreFirstLineOffset == scoreFirstLineOffset
    {
      this.scoreFirstLineOffset := scoreFirstLineOffset;
    }

    method BeautifyMessage(message: string) returns (r: string)
      ensures r == Beautified(scoreFirstLineOffset, message)
    {
      var errorMatches := ErrorMatches(message);
      if |errorMatches| == 0 {
        return "";
      }
      var beautifiedMessages: seq<string> := [];
      for k := 0 to |errorMatches|
        invariant beautifiedMessages == FormatAll(scoreFirstLineOffset, errorMatches[..k])
      {
        PrefixStep(errorMatches, k);
        FormatAllAppend(scoreFirstLineOffset, errorMatches[..k], errorMatches[k]);
        beautifiedMessages := beautifiedMessages + [FormatErrorMatchLine(scoreFirstLineOffset, errorMatches[k])];
      }
      assert errorMatches[..|errorMatches|] == errorMatches;
      r := Join(beautifiedMessages, Separator);
    }
  }

  lemma PrefixStep(ms: seq<ErrorMatch>, k: nat)
    requires k < |ms|
    ensures ms[..k + 1] == ms[..k] + [ms[k]]
  {
  }

  lemma FormatAllAppend(offset: int, ms: seq<ErrorMatch>, m: ErrorMatch)
    ensures FormatAll(offset, ms + [m]) == FormatAll(offset, ms) + [FormatErrorMatchLine(offset, m)]
  {
  }

  // ---------------------------------------------------------------------------
  // Properties

  lemma {:induction false} MatchesLackNewlines(lines: seq<string>)
    requires forall i :: 0 <= i < |lines| ==> '\n' !in lines[i]
    ensures |MatchesInLines(lines)| <= |lines|
    ensures forall k :: 0 <= k < |MatchesInLines(lines)| ==>
      '\n' !in MatchesInLines(lines)[k].message && |MatchesInLines(lines)[k].message| > 0
    decreases |lines|
  {
    if |lines| > 0 {
      MatchesLackNewlines(lines[1..]);
      var m := FindInLine(lines[0], 0);
      if m.Some? {
        var msg := m.value.message;
        assert forall j :: 0 <= j < |msg| ==> msg[j] == lines[0][|lines[0]| - |msg|..][j];
      }
    }
  }

  /**
   * Every line of output contributes at most one match, and a match's message
   * is a non-empty piece of a single line.
   */
  lemma ErrorMatchesShape(output: string)
    ensures |ErrorMatches(output)| <= Count(output, '\n') + 1
    ensures forall k :: 0 <= k < |ErrorMatches(output)| ==>
      '\n' !in ErrorMatches(output)[k].message && |ErrorMatches(output)[k].message| > 0
  {
    SplitPartsLackDelimiter(output, '\n');
    SplitLength(output, '\n');
    MatchesLackNewlines(Split(output, '\n'));
  }

  /** The beautified text is empty exactly when the output holds no error line. */
  lemma EmptyIffNoMatch(offset: int, output: string)
    ensures Beautified(offset, output) == "" <==> ErrorMatches(output) == []
  {
    var ms := ErrorMatches(output);
    if |ms| > 0 {
      var parts := FormatAll(offset, ms);
      JoinFirstPart(parts, Separator);
    }
  }

  lemma HeaderLacksNewline(line: int, column: nat)
    ensures '\n' !in Header(line, column)
  {
    var h := Header(line, column);
    IntToStringIsPlain(line);
    assert h == "line " + IntToString(line) + " - column " + NatToString(column) + ":";
    forall k | 0 <= k < |h| ensures h[k] != '\n' {
      if k >= 5 && k < 5 + |IntToString(line)| {
        assert h[k] == IntToString(line)[k - 5];
      } else if k >= 5 + |IntToString(line)| + 10 && k < |h| - 1 {
        assert h[k] == NatToString(column)[k - 5 - |IntToString(line)| - 10];
      }
    }
  }

  /** The lines the beautified text consists of: header, message, "--------", header, ... */
  function ReportLines(offset: int, ms: seq<ErrorMatch>): seq<string>
    decreases |ms|
  {
    if |ms| == 0 then []
    else if |ms| == 1 then [Header(ms[0].line - offset, ms[0].column), ms[0].message]
    else [Header(ms[0].line - offset, ms[0].column), ms[0].message, Dashes] + ReportLines(offset, ms[1..])
  }

  lemma FormattedSplit(offset: int, m: ErrorMatch)
    requires '\n' !in m.message
    ensures Split(FormatErrorMatchLine(offset, m), '\n') == [Header(m.line - offset, m.column), m.message]
  {
    HeaderLacksNewline(m.line - offset, m.column);
    SplitTwoLines(Header(m.line - offset, m.column), m.message);
  }

  lemma SplitTwoLines(h: string, m: string)
    requires '\n' !in h && '\n' !in m
    ensures Split(h + "\n" + m, '\n') == [h, m]
  {
    SplitWithout(h, '\n');
    SplitWithout(m, '\n');
    SplitAppend(h, m, '\n');
  }

  lemma SplitAroundSeparator(p: string, rest: string)
    ensures Split(p + Separator + rest, '\n') == Split(p, '\n') + [Dashes] + Split(rest, '\n')
  {
    var tail := Dashes + ['\n'] + rest;
    SeparatorRegrouped(p, rest);
    SplitAppend(p, tail, '\n');
    SplitAppend(Dashes, rest, '\n');
    DashesLine();
  }

  lemma SeparatorRegrouped(p: string, rest: string)
    ensures p + Separator + rest == p + ['\n'] + (Dashes + ['\n'] + rest)
  {
    assert Separator == ['\n'] + Dashes + ['\n'];
  }

  lemma DashesLine()
    ensures Split(Dashes, '\n') == [Dashes]
  {
    SplitWithout(Dashes, '\n');
  }

  lemma {:induction false} ReportLinesSplit(offset: int, ms: seq<ErrorMatch>)
    requires |ms| >= 1
    requires forall k :: 0 <= k < |ms| ==> '\n' !in ms[k].message
    ensures Split(Join(FormatAll(offset, ms), Separator), '\n') == ReportLines(offset, ms)
    decreases |ms|
  {
    FormattedSplit(offset, ms[0]);
    if |ms| == 1 {
      assert FormatAll(offset, ms) == [FormatErrorMatchLine(offset, ms[0])];
    } else {
      ReportLinesSplit(offset, ms[1..]);
      var first := FormatErrorMatchLine(offset, ms[0]);
      var more := FormatAll(offset, ms[1..]);
      assert FormatAll(offset, ms) == [first] + more;
      JoinCons(first, more, Separator);
      SplitAroundSeparator(first, Join(more, Separator));
      var h := Header(ms[0].line - offset, ms[0].column);
      assert ReportLines(offset, ms) == [h, ms[0].message, Dashes] + ReportLines(offset, ms[1..]);
      LinesRegrouped(h, ms[0].message, Dashes, ReportLines(offset, ms[1..]));
    }
  }

  lemma LinesRegrouped(h: string, m: string, d: string, rest: seq<string>)
    ensures [h, m] + [d] + rest == [h, m, d] + rest
  {
  }

  /** Reads a header line back: the number after "line " and the one after "column ". */
  function DecodeHeader(h: string): (int, nat) {
    var words := Split(h, ' ');
    if |words| == 5 && |words[4]| >= 1 && AllDigits(words[4][..|words[4]| - 1]) then
      (ParseInt(words[1]), ParseNat(words[4][..|words[4]| - 1]))
    else (0, 0)
  }

  /** Reads the beautified text back into (line, column, message) triples. */
  function DecodeReport(lines: seq<string>): seq<(int, nat, string)>
    decreases |lines|
  {
    if |lines| < 2 then []
    else
      var (l, c) := DecodeHeader(lines[0]);
      [(l, c, lines[1])] + (if |lines| > 3 then DecodeReport(lines[3..]) else [])
  }

  lemma DecodeHeaderInverse(line: int, column: nat)
    ensures DecodeHeader(Header(line, column)) == (line, column)
  {
    var last := NatToString(column) + ":";
    HeaderWords(line, column);
    assert last[..|last| - 1] == NatToString(column);
    ParseIntToString(line);
    ParseNatToString(column);
  }

  /** The words of a header, split at its spaces. */
  lemma HeaderWords(line: int, column: nat)
    ensures Split(Header(line, column), ' ') == ["line", IntToString(line), "-", "column", NatToString(column) + ":"]
  {
    var parts := ["line", IntToString(line), "-", "column", NatToString(column) + ":"];
    IntToStringIsPlain(line);
    HeaderJoined(line, column);
    forall i | 0 <= i < |parts| ensures ' ' !in parts[i] {
      if i == 4 {
        assert ' ' !in NatToString(column);
      }
    }
    SplitJoin(parts, ' ');
  }

  lemma HeaderJoined(line: int, column: nat)
    ensures Join(["line", IntToString(line), "-", "column", NatToString(column) + ":"], " ") == Header(line, column)
  {
    JoinFive("line", IntToString(line), "-", "column", NatToString(column) + ":", " ");
    SpacedHeader(IntToString(line), NatToString(column));
  }

  lemma JoinFive(a: string, b: string, c: string, d: string, e: string, sep: string)
    ensures Join([a, b, c, d, e], sep) == a + sep + (b + sep + (c + sep + (d + sep + e)))
  {
    assert [a, b, c, d, e] == [a] + [b, c, d, e];
    assert [b, c, d, e] == [b] + [c, d, e];
    assert [c, d, e] == [c] + [d, e];
    assert [d, e] == [d] + [e];
    JoinCons(a, [b, c, d, e], sep);
    JoinCons(b, [c, d, e], sep);
    JoinCons(c, [d, e], sep);
    JoinCons(d, [e], sep);
  }

  lemma SpacedHeader(x: string, y: string)
    ensures "line" + " " + (x + " " + ("-" + " " + ("column" + " " + (y + ":")))) == "line " + x + " - column " + y + ":"
  {
  }

  function Expected(offset: int, ms: seq<ErrorMatch>): seq<(int, nat, string)>
    decreases |ms|
  {
    if |ms| == 0 then [] else [(ms[0].line - offset, ms[0].column, ms[0].message)] + Expected(offset, ms[1..])
  }

  lemma {:induction false} DecodeReportLines(offset: int, ms: seq<ErrorMatch>)
    ensures DecodeReport(ReportLines(offset, ms)) == Expected(offset, ms)
    decreases |ms|
  {
    if |ms| > 0 {
      var h := Header(ms[0].line - offset, ms[0].column);
      DecodeHeaderInverse(ms[0].line - offset, ms[0].column);
      var e := (ms[0].line - offset, ms[0].column, ms[0].message);
      if |ms| > 1 {
        var rest := ReportLines(offset, ms[1..]);
        ReportLinesLength(offset, ms[1..]);
        DecodeReportCons(h, ms[0].message, rest);
        DecodeReportLines(offset, ms[1..]);
        assert ReportLines(offset, ms) == [h, ms[0].message, Dashes] + rest;
        assert Expected(offset, ms) == [e] + Expected(offset, ms[1..]);
      } else {
        assert ReportLines(offset, ms) == [h, ms[0].message];
        assert Expected(offset, ms) == [e];
      }
    }
  }

  lemma DecodeReportCons(h: string, message: string, rest: seq<string>)
    requires |rest| >= 2
    ensures DecodeReport([h, message, Dashes] + rest)
      == [(DecodeHeader(h).0, DecodeHeader(h).1, message)] + DecodeReport(rest)
  {
    assert ([h, message, Dashes] + rest)[3..] == rest;
  }

  /**
   * Nothing but the offset changes: reading the beautified text back gives,
   * for every error line of the output and in the same order, the line number
   * minus the offset, the column unchanged and the message unchanged.
   */
  lemma BeautifiedRoundTrip(offset: int, output: string)
    ensures Beautified(offset, output) != "" ==>
      DecodeReport(Split(Beautified(offset, output), '\n')) == Expected(offset, ErrorMatches(output))
    ensures Beautified(offset, output) == "" ==> Expected(offset, ErrorMatches(output)) == []
  {
    var ms := ErrorMatches(output);
    EmptyIffNoMatch(offset, output);
    if |ms| > 0 {
      ErrorMatchesShape(output);
      ReportLinesSplit(offset, ms);
      DecodeReportLines(offset, ms);
    }
  }

  /** k error lines give k - 1 separators: the text has 3k - 2 newlines. */
  lemma SeparatorCount(offset: int, output: string)
    requires |ErrorMatches(output)| >= 1
    ensures Count(Beautified(offset, output), '\n') == 3 * |ErrorMatches(output)| - 2
  {
    var ms := ErrorMatches(output);
    ErrorMatchesShape(output);
    ReportLinesSplit(offset, ms);
    SplitLength(Beautified(offset, output), '\n');
    ReportLinesLength(offset, ms);
  }

  lemma {:induction false} ReportLinesLength(offset: int, ms: seq<ErrorMatch>)
    requires |ms| >= 1
    ensures |ReportLines(offset, ms)| == 3 * |ms| - 1
    decreases |ms|
  {
    if |ms| > 1 {
      ReportLinesLength(offset, ms[1..]);
    }
  }

  lemma {:induction false} DigitRunOf(a: string, c: string)
    requires AllDigits(a) && (c == [] || !IsDigit(c[0]))
    ensures DigitRun(a + c) == |a|
    decreases |a|
  {
    if |a| > 0 {
      assert (a + c)[1..] == a[1..] + c;
      DigitRunOf(a[1..], c);
    } else {
      assert a + c == c;
    }
  }

  lemma MatchTextOf(t: string, d1: nat, d2: nat)
    requires StartsWith(t, ".ly:")
    requires 4 + d1 < |t| && DigitRun(t[4..]) == d1 > 0 && t[4 + d1] == ':'
    requires DigitRun(t[5 + d1..]) == d2 > 0
    requires StartsWith(t[5 + d1 + d2..], ": error: ") && 14 + d1 + d2 < |t|
    ensures AllDigits(t[4..4 + d1]) && AllDigits(t[5 + d1..5 + d1 + d2])
    ensures MatchText(t) == Some(ErrorMatch(ParseNat(t[4..4 + d1]), ParseNat(t[5 + d1..5 + d1 + d2]), t[14 + d1 + d2..]))
  {
    RunSlice(t, 4, d1);
    RunSlice(t, 5 + d1, d2);
  }

  /** The digit run found at position i, as a slice of the text itself. */
  lemma RunSlice(t: string, i: nat, d: nat)
    requires i <= |t| && DigitRun(t[i..]) == d
    ensures i + d <= |t| && t[i..][..d] == t[i..i + d] && AllDigits(t[i..i + d])
  {
    assert t[i..][..d] == t[i..i + d];
  }

  /** Whether a match starts at position i depends only on the text from i on. */
  lemma MatchAtShift(pre: string, t: string)
    ensures MatchAt(pre + t, |pre|) == MatchText(t)
  {
    assert (pre + t)[|pre|..] == t;
  }

  function ErrorText(a: string, b: string, m: string): string {
    ".ly:" + a + ":" + b + ": error: " + m
  }

  lemma ErrorTextParts(a: string, b: string, m: string)
    ensures var t := ErrorText(a, b, m);
      |t| == 14 + |a| + |b| + |m| && StartsWith(t, ".ly:")
      && t[4..] == a + (":" + b + ": error: " + m) && t[4 + |a|] == ':'
      && t[5 + |a|..] == b + (": error: " + m)
      && t[5 + |a| + |b|..] == ": error: " + m && t[14 + |a| + |b|..] == m
  {
  }

  lemma MatchTextError(a: string, b: string, m: string)
    requires |a| > 0 && AllDigits(a) && |b| > 0 && AllDigits(b) && |m| > 0
    ensures MatchText(ErrorText(a, b, m)) == Some(ErrorMatch(ParseNat(a), ParseNat(b), m))
  {
    var t := ErrorText(a, b, m);
    ErrorTextRuns(a, b, m);
    MatchTextOf(t, |a|, |b|);
  }

  /** The digit runs and the separators of an error text are where MatchTextOf expects them. */
  lemma ErrorTextRuns(a: string, b: string, m: string)
    requires |a| > 0 && AllDigits(a) && |b| > 0 && AllDigits(b) && |m| > 0
    ensures var t := ErrorText(a, b, m);
      StartsWith(t, ".ly:") && 4 + |a| < |t| && DigitRun(t[4..]) == |a| && t[4 + |a|] == ':'
      && DigitRun(t[5 + |a|..]) == |b| && StartsWith(t[5 + |a| + |b|..], ": error: ")
      && 14 + |a| + |b| < |t| && t[4..4 + |a|] == a && t[5 + |a|..5 + |a| + |b|] == b
      && t[14 + |a| + |b|..] == m
  {
    var t := ErrorText(a, b, m);
    ErrorTextParts(a, b, m);
    var x := ":" + b + ": error: " + m;
    var y := ": error: " + m;
    DigitRunOf(a, x);
    DigitRunOf(b, y);
    assert t[4..4 + |a|] == (a + x)[..|a|] == a;
    assert t[5 + |a|..5 + |a| + |b|] == (b + y)[..|b|] == b;
    assert y[..9] == ": error: ";
  }

  /** A line of the form `<pre>.ly:<line>:<column>: error: <message>` is matched where `.ly:` starts. */
  lemma MatchAtErrorLine(pre: string, a: string, b: string, m: string)
    requires |a| > 0 && AllDigits(a) && |b| > 0 && AllDigits(b) && |m| > 0
    ensures MatchAt(pre + ErrorText(a, b, m), |pre|) == Some(ErrorMatch(ParseNat(a), ParseNat(b), m))
  {
    MatchAtShift(pre, ErrorText(a, b, m));
    MatchTextError(a, b, m);
  }

  /** No match can start inside a prefix without a dot. */
  lemma {:induction false} NoMatchInPrefix(pre: string, rest: string, i: nat)
    requires '.' !in pre && i <= |pre|
    ensures FindInLine(pre + rest, i) == FindInLine(pre + rest, |pre|)
    decreases |pre| - i
  {
    if i < |pre| {
      var t := (pre + rest)[i..];
      assert t[0] == pre[i];
      assert !StartsWith(t, ".ly:");
      NoMatchInPrefix(pre, rest, i + 1);
    }
  }

  /**
   * Output made of one error line whose text before `.ly:` has no dot gives
   * exactly that line's line number, column and message.
   */
  lemma ErrorLineMatches(pre: string, a: string, b: string, m: string)
    requires '.' !in pre && '\n' !in pre && '\n' !in m
    requires |a| > 0 && AllDigits(a) && |b| > 0 && AllDigits(b) && |m| > 0
    ensures ErrorMatches(pre + ErrorText(a, b, m)) == [ErrorMatch(ParseNat(a), ParseNat(b), m)]
  {
    var rest := ErrorText(a, b, m);
    var line := pre + rest;
    assert '\n' !in line by {
      forall k | 0 <= k < |line| ensures line[k] != '\n' {
        if k < |pre| { assert line[k] == pre[k]; }
        else if k >= |line| - |m| { assert line[k] == m[k - (|line| - |m|)]; }
        else if k < |pre| + 4 + |a| { }
        else { }
      }
    }
    SplitWithout(line, '\n');
    NoMatchInPrefix(pre, rest, 0);
    MatchAtErrorLine(pre, a, b, m);
    assert MatchesInLines([line]) == [ErrorMatch(ParseNat(a), ParseNat(b), m)];
  }

  /** Output with exactly one error match is shown as that match's formatted line alone. */
  lemma BeautifiedSingle(offset: int, output: string, e: ErrorMatch)
    requires ErrorMatches(output) == [e]
    ensures Beautified(offset, output) == FormatErrorMatchLine(offset, e)
  {
    var parts := FormatAll(offset, [e]);
    assert |parts| == 1;
  }

  /** One error line is shown as its header, line number moved by the offset, and its message. */
  lemma ErrorLineBeautified(offset: int, pre: string, a: string, b: string, m: string)
    requires '.' !in pre && '\n' !in pre && '\n' !in m
    requires |a| > 0 && AllDigits(a) && |b| > 0 && AllDigits(b) && |m| > 0
    ensures Beautified(offset, pre + ErrorText(a, b, m)) == FormatErrorMatchLine(offset, ErrorMatch(ParseNat(a), ParseNat(b), m))
  {
    ErrorLineMatches(pre, a, b, m);
    BeautifiedSingle(offset, pre + ErrorText(a, b, m), ErrorMatch(ParseNat(a), ParseNat(b), m));
  }

  lemma ExampleDecomposed()
    ensures "test.ly:12:15: error: syntax error" == "test" + ErrorText("12", "15", "syntax error")
  {
  }

  lemma ExampleNumbers()
    ensures AllDigits("12") && ParseNat("12") == 12
    ensures AllDigits("15") && ParseNat("15") == 15
  {
    assert "12"[..1] == "1";
    assert "15"[..1] == "1";
  }

  /** The test's example: an error on line 12, column 15 of the wrapped file is shown as line 5 of the user's code. */
  lemma OffsetExample()
    ensures Beautified(7, "test.ly:12:15: error: syntax error") == "line 5 - column 15:\nsyntax error"
  {
    ExampleDecomposed();
    ExampleNumbers();
    ErrorLineBeautified(7, "test", "12", "15", "syntax error");
    ExampleHeader();
  }

  lemma ExampleHeader()
    ensures Header(5, 15) + "\n" + "syntax error" == "line 5 - column 15:\nsyntax error"
  {
    assert IntToString(5) == "5";
    assert NatToString(15) == NatToString(1) + [DigitChar(5)] == "15";
  }
}
