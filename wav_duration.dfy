/**
 * scripts/getWavDuration.php: estimates the duration of the uncompressed
 * WAV file the synthesiser wrote (16-bit stereo at 44100 Hz, after a 36-byte
 * header) from its size, and prints it as a "wavDuration: " line that
 * Score::getDurationFromScriptOutput reads back.
 */
module WavDuration {
  import opened Wrappers
  import opened Text
  import opened ScriptOutput
  import opened ScriptExit

  /** A PHP number: `/` on two ints gives an int when the division is exact, a float otherwise. */
  datatype PhpNumber = IntNum(i: int) | FloatNum(r: real)

  function Value(n: PhpNumber): real {
    match n
    case IntNum(i) => i as real
    case FloatNum(r) => r
  }

  /** PHP's `$a / $b` for a positive int divisor. */
  function PhpDivide(a: PhpNumber, b: int): (r: PhpNumber)
    requires b > 0
    ensures Value(r) == Value(a) / b as real
  {
    match a
    case IntNum(i) =>
      if i % b == 0 then
        assert (i / b) as real * b as real == i as real by {
          assert (i / b) * b == i;
        }
        IntNum(i / b)
      else FloatNum(i as real / b as real)
    case FloatNum(r) => FloatNum(r / b as real)
  }

  const HeaderBytes := 36
  const SampleRate := 44100
  const BytesPerFrame := 4

  /**
   * `( $size >= 36 ? $size - 36 : 0 ) / 44100 / 4`, where `$size` is what
   * filesize returned (None: false, which is not >= 36).
   */
  function WavDuration(size: Option<nat>): PhpNumber {
    var audioBytes := if size.Some? && size.value >= HeaderBytes then size.value - HeaderBytes else 0;
    PhpDivide(PhpDivide(IntNum(audioBytes), SampleRate), BytesPerFrame)
  }

  /** PHP's string conversion of a number; how a float is printed is a parameter. */
  function NumberText(n: PhpNumber, floatText: real -> string): string {
    match n
    case IntNum(i) => IntToString(i)
    case FloatNum(r) => floatText(r)
  }

  /** The script run with the given arguments on a file of the given size. */
  function GetWavDuration(fromCommandLine: bool, argv: seq<string>, size: Option<nat>, floatText: real -> string): (e: Exit)
    ensures e.status == 0 <==> fromCommandLine && |argv| >= 2
    ensures e.status != 0 ==> e.status == 1 && e.stdout == ""
    ensures fromCommandLine && |argv| < 2 ==> e == UsageExit("getWavDuration.php")
    ensures e.status == 0 ==> e.stdout == DurationLine(WavDuration(size), floatText)
  {
    if !fromCommandLine then NotFromCommandLine
    else if |argv| < 2 then UsageExit("getWavDuration.php")
    else Exit(0, DurationLine(WavDuration(size), floatText), "")
  }

  /** `print "wavDuration: " . $duration . "\n"` */
  function DurationLine(d: PhpNumber, floatText: real -> string): string {
    DurationPrefix + NumberText(d, floatText) + "\n"
  }

  // ---------------------------------------------------------------------------
  // Properties

  /** The duration is (size - 36) / 176400 seconds, and 0 for a short or unreadable file. */
  lemma DurationValue(size: Option<nat>)
    ensures Value(WavDuration(size)) ==
      if size.Some? && size.value >= 36 then (size.value - 36) as real / 176400.0 else 0.0
  {
    var x := if size.Some? && size.value >= 36 then size.value - 36 else 0;
    calc {
      Value(WavDuration(size));
      x as real / 44100.0 / 4.0;
      x as real / 176400.0;
    }
  }

  lemma DurationNonNegative(size: Option<nat>)
    ensures Value(WavDuration(size)) >= 0.0
  {
    DurationValue(size);
  }

  /** A larger file never has a shorter duration; an unreadable file counts as empty. */
  lemma DurationMonotone(a: nat, b: nat)
    requires a <= b
    ensures Value(WavDuration(Some(a))) <= Value(WavDuration(Some(b)))
    ensures Value(WavDuration(None)) <= Value(WavDuration(Some(a)))
  {
    DurationValue(Some(a));
    DurationValue(Some(b));
    DurationValue(None);
    if a >= 36 {
      assert (a - 36) as real <= (b - 36) as real;
    }
  }

  /** The result is an int exactly when the audio bytes are a whole number of seconds. */
  lemma DurationIsInt(size: Option<nat>)
    ensures var x := if size.Some? && size.value >= 36 then size.value - 36 else 0;
      WavDuration(size).IntNum? <==> x % 176400 == 0
  {
    var x := if size.Some? && size.value >= 36 then size.value - 36 else 0;
    WholeSeconds(x);
  }

  lemma WholeSeconds(x: int)
    ensures x % 176400 == 0 <==> x % 44100 == 0 && (x / 44100) % 4 == 0
  {
    if x % 176400 == 0 {
      var k := x / 176400;
      assert x == 44100 * (4 * k);
    }
    if x % 44100 == 0 && (x / 44100) % 4 == 0 {
      var q := x / 44100;
      assert x == 176400 * (q / 4);
    }
  }

  /**
   * A whole number of seconds is printed as its digits, and the renderer reads
   * back exactly the estimated duration, whatever the script printed before.
   */
  lemma WholeDurationRoundTrip(size: Option<nat>, floatText: real -> string, argv: seq<string>, earlier: string, later: string)
    requires |argv| >= 2 && WavDuration(size).IntNum?
    requires earlier == "" || earlier[|earlier| - 1] == '\n'
    requires FirstDurationToken(Split(earlier, '\n')) == None
    ensures var out := GetWavDuration(true, argv, size, floatText).stdout;
      DurationFromScriptOutput(earlier + out + later) == Value(WavDuration(size))
  {
    var n := WavDuration(size).i;
    DurationNonNegative(size);
    assert n >= 0;
    var text := NatToString(n);
    assert GetWavDuration(true, argv, size, floatText).stdout == DurationPrefix + text + "\n";
    DecimalValueOfNat(n);
    DurationLineIsRead(earlier, text, later);
    Regroup(earlier, DurationPrefix, text, "\n", later);
  }

  lemma Regroup(a: string, b: string, c: string, d: string, e: string)
    ensures a + (b + c + d) + e == a + b + c + d + e
  {
  }

  /**
   * A fractional duration is read back as the number its printed text denotes,
   * when that text is digits and dots; any other text (an exponent, say) leaves
   * no duration line, and the renderer reads 0.
   */
  lemma FractionalDurationRead(size: Option<nat>, floatText: real -> string, argv: seq<string>)
    requires |argv| >= 2 && WavDuration(size).FloatNum?
    requires '\n' !in floatText(WavDuration(size).r)
    ensures var text := floatText(WavDuration(size).r);
      var out := GetWavDuration(true, argv, size, floatText).stdout;
      DurationFromScriptOutput(out) ==
        if |text| > 0 && AllDecimalChars(text) then DecimalValue(text) else 0.0
  {
    var text := floatText(WavDuration(size).r);
    var line := DurationPrefix + text;
    var out := line + "\n";
    if |text| > 0 && AllDecimalChars(text) {
      DurationLineIsRead("", text, "");
      assert "" + DurationPrefix + text + "\n" + "" == out;
    } else {
      UnreadableLine(text);
    }
  }

  lemma UnreadableLine(text: string)
    requires '\n' !in text && !(|text| > 0 && AllDecimalChars(text))
    ensures DurationFromScriptOutput(DurationPrefix + text + "\n") == 0.0
  {
    var line := DurationPrefix + text;
    assert line[|DurationPrefix|..] == text;
    assert '\n' !in line by {
      assert forall i :: 0 <= i < |text| ==> line[|DurationPrefix| + i] == text[i];
    }
    SplitWithout(line, '\n');
    SplitAppend(line, "", '\n');
    assert line + ['\n'] + "" == DurationPrefix + text + "\n";
    assert DurationToken(line) == None;
    assert DurationToken("") == None;
    assert Split(DurationPrefix + text + "\n", '\n') == [line, ""];
    assert FirstDurationToken([line, ""]) == FirstDurationToken([""]);
  }

}
