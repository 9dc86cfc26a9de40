/**
 * The text protocol between the sandboxed scripts and the renderer. A script
 * reports an error as an output line "mw-msg:\t<key>[\t<param>...]", and the
 * audio script reports the duration of the synthesised audio as a line
 * "wavDuration: <seconds>". The renderer reads both back from the captured
 * output (Score::extractMessage, Score::getDurationFromScriptOutput).
 */
module ScriptOutput {
  import opened Wrappers
  import opened Text

  const MessagePrefix := "mw-msg:\t"

  /** `preg_match('/^mw-msg:\t/', $line)` on one line of output. */
  predicate IsMessageLine(line: string) {
    StartsWith(line, MessagePrefix)
  }

  /** The message key and parameters a message line carries: its tab-separated fields after the prefix. */
  function MessageFields(line: string): (string, seq<string>)
    requires IsMessageLine(line)
  {
    var fields := Split(line[|MessagePrefix|..], '\t');
    (fields[0], fields[1..])
  }

  /** The fields of the first message line, or None when there is none. */
  function FirstMessage(lines: seq<string>): Option<(string, seq<string>)>
    decreases |lines|
  {
    if |lines| == 0 then None
    else if IsMessageLine(lines[0]) then Some(MessageFields(lines[0]))
    else FirstMessage(lines[1..])
  }

  /** The message as the flat list `[name, params...]` the PHP code keeps in $messageParams. */
  function FlatFields(m: Option<(string, seq<string>)>): seq<string> {
    match m
    case None => []
    case Some((name, params)) => [name] + params
  }

  /**
   * The output accumulated by extractMessage over the given lines: message
   * lines are skipped, and a newline is put before a kept line only once
   * something has been accumulated.
   */
  function Filtered(lines: seq<string>): string
    decreases |lines|
  {
    if |lines| == 0 then ""
    else
      var acc := Filtered(lines[..|lines| - 1]);
      var line := lines[|lines| - 1];
      if IsMessageLine(line) then acc
      else (if acc != "" then acc + "\n" else acc) + line
  }

  /**
   * Score::extractMessage: returns the first message line's key and
   * parameters, and the output with every message line removed (the PHP
   * code rewrites its by-reference argument; here it is a second result).
   */
  method ExtractMessage(stdout: string) returns (message: Option<(string, seq<string>)>, filteredStdout: string)
    ensures message == FirstMessage(Split(stdout, '\n'))
    ensures filteredStdout == Filtered(Split(stdout, '\n'))
  {
    filteredStdout := "";
    var messageParams: seq<string> := [];
    var lines := Split(stdout, '\n');
    for k := 0 to |lines|
      invariant filteredStdout == Filtered(lines[..k])
      invariant messageParams == FlatFields(FirstMessage(lines[..k]))
    {
      var line := lines[k];
      assert lines[..k + 1] == lines[..k] + [line];
      assert (lines[..k] + [line])[..k] == lines[..k];
      FirstMessageSnoc(lines[..k], line);
      if IsMessageLine(line) {
        if |messageParams| == 0 {
          ExplodeTail(line);
          messageParams := Split(line, '\t')[1..];
        }
      } else {
        if filteredStdout != "" {
          filteredStdout := filteredStdout + "\n";
        }
        filteredStdout := filteredStdout + line;
      }
    }
    assert lines[..|lines|] == lines;
    if |messageParams| > 0 {
      message := Some((messageParams[0], messageParams[1..]));
    } else {
      message := None;
    }
  }

  /** array_slice(explode("\t", $line), 1) is the fields after the prefix. */
  lemma ExplodeTail(line: string)
    requires IsMessageLine(line)
    ensures Split(line, '\t')[1..] == Split(line[|MessagePrefix|..], '\t')
  {
    assert line == "mw-msg:" + ['\t'] + line[|MessagePrefix|..];
    SplitAppend("mw-msg:", line[|MessagePrefix|..], '\t');
    SplitWithout("mw-msg:", '\t');
  }

  lemma {:induction false} FirstMessageSnoc(lines: seq<string>, line: string)
    ensures FirstMessage(lines + [line]) ==
      if FirstMessage(lines).Some? then FirstMessage(lines)
      else if IsMessageLine(line) then Some(MessageFields(line))
      else None
    decreases |lines|
  {
    if |lines| > 0 {
      assert (lines + [line])[1..] == lines[1..] + [line];
      FirstMessageSnoc(lines[1..], line);
    } else {
      assert (lines + [line])[1..] == [];
    }
  }

  /** The first message line decides: whatever follows it is not consulted. */
  lemma {:induction false} FirstMessageAppend(a: seq<string>, b: seq<string>)
    ensures FirstMessage(a + b) == if FirstMessage(a).Some? then FirstMessage(a) else FirstMessage(b)
    decreases |a|
  {
    if |a| > 0 {
      assert (a + b)[1..] == a[1..] + b;
      FirstMessageAppend(a[1..], b);
    } else {
      assert a + b == b;
    }
  }

  // ---------------------------------------------------------------------------
  // The filtered output, in closed form

  /** The lines that are not message lines, in their original order. */
  function Kept(lines: seq<string>): (r: seq<string>)
    ensures forall i :: 0 <= i < |r| ==> !IsMessageLine(r[i]) && r[i] in lines
    decreases |lines|
  {
    if |lines| == 0 then []
    else (if IsMessageLine(lines[0]) then [] else [lines[0]]) + Kept(lines[1..])
  }

  function DropLeadingEmpty(lines: seq<string>): (r: seq<string>)
    ensures |r| > 0 ==> r[0] != ""
    ensures forall i :: 0 <= i < |r| ==> r[i] in lines
    decreases |lines|
  {
    if |lines| > 0 && lines[0] == "" then DropLeadingEmpty(lines[1..]) else lines
  }

  lemma {:induction false} KeptSnoc(lines: seq<string>, line: string)
    ensures Kept(lines + [line]) == Kept(lines) + (if IsMessageLine(line) then [] else [line])
    decreases |lines|
  {
    if |lines| > 0 {
      assert (lines + [line])[1..] == lines[1..] + [line];
      KeptSnoc(lines[1..], line);
    } else {
      assert (lines + [line])[1..] == [];
    }
  }

  lemma {:induction false} DropLeadingEmptySnoc(lines: seq<string>, line: string)
    ensures DropLeadingEmpty(lines + [line]) ==
      if DropLeadingEmpty(lines) == [] then DropLeadingEmpty([line]) else DropLeadingEmpty(lines) + [line]
    decreases |lines|
  {
    if |lines| > 0 {
      assert (lines + [line])[1..] == lines[1..] + [line];
      if lines[0] == "" {
        DropLeadingEmptySnoc(lines[1..], line);
      }
    } else {
      assert lines + [line] == [line];
    }
  }

  /**
   * The filtered output is the kept lines joined with "\n", except that empty
   * lines before the first non-empty kept line disappear: the accumulator
   * adds a line's newline only once it is non-empty.
   */
  lemma {:induction false} FilteredIsJoin(lines: seq<string>)
    ensures Filtered(lines) == Join(DropLeadingEmpty(Kept(lines)), "\n")
    decreases |lines|
  {
    if |lines| > 0 {
      var init := lines[..|lines| - 1];
      var line := lines[|lines| - 1];
      FilteredIsJoin(init);
      KeptLast(lines);
      var acc := Filtered(init);
      assert Filtered(lines) == if IsMessageLine(line) then acc else (if acc != "" then acc + "\n" else acc) + line;
      if IsMessageLine(line) {
        assert Kept(lines) == Kept(init) + [];
        assert Kept(init) + [] == Kept(init);
      } else {
        AccumulateStep(Kept(init), line);
      }
    }
  }

  lemma KeptLast(lines: seq<string>)
    requires |lines| > 0
    ensures Kept(lines) == Kept(lines[..|lines| - 1]) + (if IsMessageLine(lines[|lines| - 1]) then [] else [lines[|lines| - 1]])
  {
    assert lines == lines[..|lines| - 1] + [lines[|lines| - 1]];
    KeptSnoc(lines[..|lines| - 1], lines[|lines| - 1]);
  }

  /** One step of the accumulator, on the joined form. */
  lemma AccumulateStep(kept: seq<string>, line: string)
    ensures var acc := Join(DropLeadingEmpty(kept), "\n");
      (if acc != "" then acc + "\n" else acc) + line == Join(DropLeadingEmpty(kept + [line]), "\n")
  {
    var d := DropLeadingEmpty(kept);
    DropLeadingEmptySnoc(kept, line);
    if d != [] {
      JoinFirstPart(d, "\n");
      JoinSnoc(d, line, "\n");
    }
  }

  lemma {:induction false} KeptOfUnmarked(lines: seq<string>)
    requires forall i :: 0 <= i < |lines| ==> !IsMessageLine(lines[i])
    ensures Kept(lines) == lines
    ensures FirstMessage(lines) == None
    decreases |lines|
  {
    if |lines| > 0 {
      KeptOfUnmarked(lines[1..]);
    }
  }

  /**
   * The lines of the filtered output are the kept lines, leading empty lines
   * aside; none of them is a message line.
   */
  lemma FilteredLines(stdout: string)
    ensures var f := Filtered(Split(stdout, '\n'));
      f != "" ==> Split(f, '\n') == DropLeadingEmpty(Kept(Split(stdout, '\n')))
    ensures var f := Filtered(Split(stdout, '\n'));
      forall i :: 0 <= i < |Split(f, '\n')| ==> !IsMessageLine(Split(f, '\n')[i])
  {
    var lines := Split(stdout, '\n');
    var kept := Kept(lines);
    var d := DropLeadingEmpty(kept);
    FilteredIsJoin(lines);
    SplitPartsLackDelimiter(stdout, '\n');
    forall i | 0 <= i < |d| ensures '\n' !in d[i] && !IsMessageLine(d[i]) {
      var j :| 0 <= j < |kept| && kept[j] == d[i];
      var k :| 0 <= k < |lines| && lines[k] == kept[j];
    }
    var f := Filtered(lines);
    if f != "" {
      assert |d| >= 1;
      assert "\n" == ['\n'];
      SplitJoin(d, '\n');
    } else {
      SplitWithout(f, '\n');
    }
  }

  /** Extracting again from the filtered output finds nothing and changes nothing. */
  lemma ExtractMessageIdempotent(stdout: string)
    ensures var f := Filtered(Split(stdout, '\n'));
      FirstMessage(Split(f, '\n')) == None && Filtered(Split(f, '\n')) == f
  {
    var f := Filtered(Split(stdout, '\n'));
    FilteredLines(stdout);
    KeptOfUnmarked(Split(f, '\n'));
    FilteredIsJoin(Split(f, '\n'));
    if f != "" {
      JoinSplit(f, '\n');
    } else {
      SplitWithout(f, '\n');
    }
  }

  // ---------------------------------------------------------------------------
  // Audio duration

  const DurationPrefix := "wavDuration: "

  /** The token of a line matching `^wavDuration: ([0-9.]+)$`. */
  function DurationToken(line: string): (r: Option<string>)
    ensures r.Some? ==> |r.value| > 0 && AllDecimalChars(r.value)
  {
    if StartsWith(line, DurationPrefix) && |line| > |DurationPrefix| && AllDecimalChars(line[|DurationPrefix|..])
    then Some(line[|DurationPrefix|..])
    else None
  }

  function FirstDurationToken(lines: seq<string>): (r: Option<string>)
    ensures r.Some? ==> |r.value| > 0 && AllDecimalChars(r.value)
    decreases |lines|
  {
    if |lines| == 0 then None
    else if DurationToken(lines[0]).Some? then DurationToken(lines[0])
    else FirstDurationToken(lines[1..])
  }

  /**
   * Score::getDurationFromScriptOutput: the first line of the output that is
   * exactly "wavDuration: " and a run of digits and dots, read as a number;
   * 0 when there is no such line.
   */
  function DurationFromScriptOutput(stdout: string): (d: real)
    ensures d >= 0.0
    ensures FirstDurationToken(Split(stdout, '\n')) == None ==> d == 0.0
  {
    match FirstDurationToken(Split(stdout, '\n'))
    case None => 0.0
    case Some(token) => DecimalValue(token)
  }

  lemma {:induction false} FirstDurationTokenAppend(a: seq<string>, b: seq<string>)
    ensures FirstDurationToken(a + b) == if FirstDurationToken(a).Some? then FirstDurationToken(a) else FirstDurationToken(b)
    decreases |a|
  {
    if |a| > 0 {
      assert (a + b)[1..] == a[1..] + b;
      FirstDurationTokenAppend(a[1..], b);
    } else {
      assert a + b == b;
    }
  }

  /**
   * A duration line is read back as its number, whatever follows it, provided
   * no earlier line of the output is a duration line.
   */
  lemma DurationLineIsRead(earlier: string, token: string, later: string)
    requires earlier == "" || earlier[|earlier| - 1] == '\n'
    requires FirstDurationToken(Split(earlier, '\n')) == None
    requires |token| > 0 && AllDecimalChars(token)
    ensures DurationFromScriptOutput(earlier + DurationPrefix + token + "\n" + later) == DecimalValue(token)
  {
    FirstDurationLine(earlier, token, later);
  }

  lemma FirstDurationLine(earlier: string, token: string, later: string)
    requires earlier == "" || earlier[|earlier| - 1] == '\n'
    requires FirstDurationToken(Split(earlier, '\n')) == None
    requires |token| > 0 && AllDecimalChars(token)
    ensures FirstDurationToken(Split(earlier + DurationPrefix + token + "\n" + later, '\n')) == Some(token)
  {
    var rest := DurationPrefix + token + ['\n'] + later;
    DurationLineSplit(token, later);
    assert earlier + DurationPrefix + token + "\n" + later == earlier + rest;
    SplitAfterLine(earlier, rest, '\n');
    if earlier != "" {
      FirstDurationTokenAppend(Split(earlier[..|earlier| - 1], '\n'), [""]);
      FirstDurationTokenAppend(Split(earlier[..|earlier| - 1], '\n'), Split(rest, '\n'));
    }
  }

  lemma DurationLineSplit(token: string, later: string)
    requires |token| > 0 && AllDecimalChars(token)
    ensures Split(DurationPrefix + token + ['\n'] + later, '\n') == [DurationPrefix + token] + Split(later, '\n')
    ensures DurationToken(DurationPrefix + token) == Some(token)
  {
    var line := DurationPrefix + token;
    assert '\n' !in line by {
      assert forall i :: 0 <= i < |token| ==> line[|DurationPrefix| + i] == token[i];
    }
    SplitWithout(line, '\n');
    SplitAppend(line, later, '\n');
    assert line[..|DurationPrefix|] == DurationPrefix;
    assert line[|DurationPrefix|..] == token;
  }

  /**
   * A message line is read back as its key with no parameters, whatever
   * follows it, provided no earlier line of the output is a message line.
   */
  lemma MessageLineIsRead(earlier: string, key: string, later: string)
    requires earlier == "" || earlier[|earlier| - 1] == '\n'
    requires FirstMessage(Split(earlier, '\n')) == None
    requires '\t' !in key && '\n' !in key
    ensures FirstMessage(Split(earlier + MessagePrefix + key + "\n" + later, '\n')) == Some((key, []))
  {
    var line := MessagePrefix + key;
    assert '\n' !in line by {
      assert forall i :: 0 <= i < |key| ==> line[|MessagePrefix| + i] == key[i];
    }
    SplitWithout(line, '\n');
    SplitAppend(line, later, '\n');
    assert line[..|MessagePrefix|] == MessagePrefix;
    assert line[|MessagePrefix|..] == key;
    SplitWithout(key, '\t');
    var rest := line + ['\n'] + later;
    assert earlier + MessagePrefix + key + "\n" + later == earlier + rest;
    SplitAfterLine(earlier, rest, '\n');
    assert Split(rest, '\n') == [line] + Split(later, '\n');
    if earlier != "" {
      FirstMessageAppend(Split(earlier[..|earlier| - 1], '\n'), [""]);
      FirstMessageAppend(Split(earlier[..|earlier| - 1], '\n'), Split(rest, '\n'));
    }
  }
}
