/**
 * scripts/removeTagline.php: after abc2ly has converted ABC notation to
 * LilyPond, every `tagline = ...` assignment is replaced by `tagline = ##f`,
 * using preg_replace('/^(\s*tagline\s*=).*\/m', '$1 ##f', ...). The file
 * read and write are not modelled: the script is a function of the file's
 * contents.
 */
module RemoveTagline {
  import opened Wrappers
  import opened Text
  import opened ScriptOutput
  import opened ScriptExit

  /** PCRE's `\s`: space, tab, newline, vertical tab, form feed, carriage return. */
  predicate IsSpace(c: char) {
    c == ' ' || c == '\t' || c == '\n' || c as int == 0x0B || c as int == 0x0C || c == '\r'
  }

  /** The length of the longest run of `\s` characters at the start of s. */
  function WsRun(s: string): (n: nat)
    ensures n <= |s|
    ensures n < |s| ==> !IsSpace(s[n])
    decreases |s|
  {
    if |s| > 0 && IsSpace(s[0]) then 1 + WsRun(s[1..]) else 0
  }

  /** Every character WsRun counts is a space. */
  lemma {:induction false} WsRunSpaces(s: string, i: nat)
    requires i < WsRun(s)
    ensures IsSpace(s[i])
    decreases i
  {
    if i > 0 {
      WsRunSpaces(s[1..], i - 1);
    }
  }

  const Tagline := "tagline"

  /**
   * The length of the text `(\s*tagline\s*=)` captures when a match starts at
   * the beginning of s. Both `\s*` are greedy and what follows each of them
   * is not a space, so the first takes the whole leading run of spaces and the
   * second the whole run after "tagline"; no other split can match.
   */
  function CaptureLength(s: string): (r: Option<nat>)
    ensures r.Some? ==> WsRun(s) + 8 <= r.value <= |s| && s[r.value - 1] == '='
  {
    var w1 := WsRun(s);
    var a := AssignLength(s[w1..]);
    if a.Some? then Some(w1 + a.value) else None
  }

  /** The length of `tagline\s*=` at the start of u, when it matches there. */
  function AssignLength(u: string): (r: Option<nat>)
    ensures r.Some? ==> 8 <= r.value <= |u| && u[r.value - 1] == '='
  {
    if !StartsWith(u, Tagline) then None
    else
      var k := 7 + WsRun(u[7..]);
      if k < |u| && u[k] == '=' then Some(k + 1) else None
  }

  /** The number of characters `.*` takes: everything up to the next newline. */
  function LineRest(s: string): (n: nat)
    ensures n <= |s| && '\n' !in s[..n]
    ensures n < |s| ==> s[n] == '\n'
    decreases |s|
  {
    if |s| == 0 || s[0] == '\n' then 0
    else
      var n := LineRest(s[1..]);
      assert s[..n + 1] == [s[0]] + s[1..][..n];
      n + 1
  }

  /**
   * The replacement scan over the text t; atLineStart says whether `^` can
   * match at the start of t (the start of the subject, or right after a
   * newline). A match keeps the captured text, replaces the rest of its line by
   * " ##f", and the scan goes on after it; elsewhere one character is copied.
   */
  function Rewrite(t: string, atLineStart: bool): string
    decreases |t|
  {
    if |t| == 0 then ""
    else if atLineStart && CaptureLength(t).Some? then
      var j := CaptureLength(t).value;
      var e := j + LineRest(t[j..]);
      t[..j] + " ##f" + Rewrite(t[e..], false)
    else [t[0]] + Rewrite(t[1..], t[0] == '\n')
  }

  /** The preg_replace call of the script. */
  function RemoveTaglines(lyData: string): string {
    Rewrite(lyData, true)
  }

  // ---------------------------------------------------------------------------
  // The script

  datatype Outcome = Outcome(exit: Exit, written: Option<string>)

  /**
   * removeTagline.php run with the given arguments on a file whose contents
   * are `contents` (None: file_get_contents failed). `pcreFails` stands for
   * preg_replace returning null, which the lowered backtracking limit can
   * cause.
   */
  function RemoveTaglineScript(fromCommandLine: bool, argv: seq<string>, contents: Option<string>, pcreFails: bool): (r: Outcome)
    ensures r.written.Some? <==> r.exit.status == 0
    ensures r.exit.status == 20 ==> FirstMessage(Split(r.exit.stderr, '\n')).Some?
    ensures r.written.Some? ==> contents.Some? && Count(r.written.value, '\n') == Count(contents.value, '\n')
  {
    if !fromCommandLine then Outcome(NotFromCommandLine, None)
    else if |argv| < 2 then Outcome(UsageExit("removeTagline.php"), None)
    else if contents.None? then
      ErrorExitIsRead("score-abcconversionerr");
      Outcome(ErrorExit("score-abcconversionerr"), None)
    else if pcreFails then
      ErrorExitIsRead("score-pregreplaceerr");
      Outcome(ErrorExit("score-pregreplaceerr"), None)
    else
      NewlinesKept(contents.value, true);
      Outcome(Done, Some(RemoveTaglines(contents.value)))
  }

  // ---------------------------------------------------------------------------
  // Properties

  /** The rewrite never adds or removes a line: `.*` stops before the newline. */
  lemma {:induction false} NewlinesKept(t: string, b: bool)
    ensures Count(Rewrite(t, b), '\n') == Count(t, '\n')
    decreases |t|
  {
    if |t| > 0 {
      if b && CaptureLength(t).Some? {
        var j := CaptureLength(t).value;
        var e := j + LineRest(t[j..]);
        NewlinesKept(t[e..], false);
        assert t[j..e] == t[j..][..LineRest(t[j..])];
        CountReplaced(t, j, e, Rewrite(t[e..], false));
      } else {
        NewlinesKept(t[1..], t[0] == '\n');
        assert t == [t[0]] + t[1..];
        CountAppend([t[0]], t[1..], '\n');
        CountAppend([t[0]], Rewrite(t[1..], t[0] == '\n'), '\n');
      }
    }
  }

  /** Replacing a newline-free middle part by " ##f" keeps the newline count. */
  lemma CountReplaced(t: string, j: nat, e: nat, tail: string)
    requires j <= e <= |t| && '\n' !in t[j..e] && Count(tail, '\n') == Count(t[e..], '\n')
    ensures Count(t[..j] + " ##f" + tail, '\n') == Count(t, '\n')
  {
    CountZeroIsAbsent(t[j..e], '\n');
    assert t == t[..j] + t[j..e] + t[e..];
    CountAppend(t[..j] + t[j..e], t[e..], '\n');
    CountAppend(t[..j], t[j..e], '\n');
    CountAppend(t[..j] + " ##f", tail, '\n');
    CountAppend(t[..j], " ##f", '\n');
  }

  lemma {:induction false} ContainsAt(t: string, i: nat, sub: string)
    requires i <= |t| && StartsWith(t[i..], sub)
    ensures Contains(t, sub)
    decreases i
  {
    if i > 0 {
      assert t[1..][i - 1..] == t[i..];
      ContainsAt(t[1..], i - 1, sub);
    } else {
      assert t[0..] == t;
    }
  }

  /** A text that does not mention "tagline" is left exactly as it was. */
  lemma {:induction false} NoTaglineUnchanged(t: string, b: bool)
    requires !Contains(t, Tagline)
    ensures Rewrite(t, b) == t
    decreases |t|
  {
    if |t| > 0 {
      if CaptureLength(t).Some? {
        ContainsAt(t, WsRun(t), Tagline);
      }
      NoTaglineUnchanged(t[1..], t[0] == '\n');
      assert t == [t[0]] + t[1..];
    }
  }

  /**
   * A single line that matches keeps everything up to and including its '='
   * and ends in " ##f".
   */
  lemma LineRewrite(line: string)
    requires '\n' !in line && CaptureLength(line).Some?
    ensures var j := CaptureLength(line).value;
      RemoveTaglines(line) == line[..j] + " ##f" && line[j - 1] == '='
  {
    var j := CaptureLength(line).value;
    assert line[j..][..|line| - j] == line[j..];
    LineRestUnique(line[j..], |line| - j);
    assert Rewrite(line, true) == line[..j] + " ##f" + Rewrite(line[|line|..], false);
    assert line[|line|..] == "";
    assert line[..j] + " ##f" + "" == line[..j] + " ##f";
  }

  /** The scan of s meets no capture position before p. */
  predicate NoCaptureBefore(s: string, b: bool, p: nat) {
    forall q {:trigger CaptureAt(s, q, b)} :: 0 <= q < p && q < |s| ==> !CaptureAt(s, q, b)
  }

  /**
   * Text in which the scan meets no capture is copied as it is, and the scan
   * goes on after it knowing whether it ended a line.
   */
  lemma {:induction false} CopiedPrefix(a: string, c: string, b: bool)
    requires NoCaptureBefore(a + c, b, |a|)
    ensures Rewrite(a + c, b) == a + Rewrite(c, if |a| == 0 then b else a[|a| - 1] == '\n')
    decreases |a|
  {
    if |a| == 0 {
      assert a + c == c;
    } else {
      var s, nl, last := a + c, a[0] == '\n', a[|a| - 1] == '\n';
      assert s[0..] == s && !CaptureAt(s, 0, b);
      CopyStep(s, b);
      assert s[1..] == a[1..] + c;
      NoCaptureAfterFirst(a, c, b);
      CopiedPrefix(a[1..], c, nl);
      assert (if |a[1..]| == 0 then nl else a[1..][|a[1..]| - 1] == '\n') == last;
      assert Rewrite(s, b) == [a[0]] + (a[1..] + Rewrite(c, last));
      ConsRegrouped(a, Rewrite(c, last));
    }
  }

  lemma NoCaptureAfterFirst(a: string, c: string, b: bool)
    requires |a| > 0 && NoCaptureBefore(a + c, b, |a|)
    ensures NoCaptureBefore(a[1..] + c, a[0] == '\n', |a| - 1)
  {
    var s, nl := a + c, a[0] == '\n';
    forall q {:trigger CaptureAt(a[1..] + c, q, nl)} | 0 <= q < |a| - 1 && q < |a[1..] + c|
      ensures !CaptureAt(a[1..] + c, q, nl)
    {
      assert (a[1..] + c)[q..] == s[q + 1..];
      assert !CaptureAt(s, q + 1, b);
    }
  }

  lemma ConsRegrouped(a: string, r: string)
    requires |a| > 0
    ensures [a[0]] + (a[1..] + r) == a + r
  {
    assert a == [a[0]] + a[1..];
  }

  /**
   * A `tagline =` line inside a file: the lines before it, where nothing
   * matches, are unchanged, the line keeps everything up to its '=' and ends
   * in " ##f", and the scan goes on at the newline that ends it.
   */
  lemma TaglineLineInText(a: string, line: string, b: string)
    requires |a| == 0 || a[|a| - 1] == '\n'
    requires NoCaptureBefore(a + line + b, true, |a|)
    requires '\n' !in line && CaptureLength(line).Some?
    requires |b| == 0 || b[0] == '\n'
    ensures RemoveTaglines(a + line + b) == a + (line[..CaptureLength(line).value] + " ##f" + Rewrite(b, false))
  {
    Regrouped(a, line, b);
    CopiedPrefix(a, line + b, true);
    LineThenRest(line, b);
  }

  lemma Regrouped(a: string, line: string, b: string)
    ensures a + line + b == a + (line + b)
  {
  }

  /** A matching line followed by the rest of the text, which starts a new line. */
  lemma LineThenRest(line: string, b: string)
    requires '\n' !in line && CaptureLength(line).Some?
    requires |b| == 0 || b[0] == '\n'
    ensures Rewrite(line + b, true) == line[..CaptureLength(line).value] + " ##f" + Rewrite(b, false)
  {
    var j := CaptureLength(line).value;
    var c := line + b;
    assert c[..j] == line[..j];
    CaptureWindow(line, c);
    assert c[j..] == line[j..] + b;
    assert c[j..][..|line| - j] == line[j..];
    LineRestUnique(c[j..], |line| - j);
    assert c[|line|..] == b;
    assert Rewrite(c, true) == c[..j] + " ##f" + Rewrite(c[|line|..], false);
  }

  // ---------------------------------------------------------------------------
  // Idempotence

  lemma {:induction false} WsRunUnique(s: string, n: nat)
    requires n <= |s|
    requires forall i :: 0 <= i < n ==> IsSpace(s[i])
    requires n < |s| ==> !IsSpace(s[n])
    ensures WsRun(s) == n
    decreases n
  {
    if n > 0 {
      WsRunUnique(s[1..], n - 1);
    }
  }

  lemma {:induction false} LineRestUnique(s: string, n: nat)
    requires n <= |s| && '\n' !in s[..n]
    requires n < |s| ==> s[n] == '\n'
    ensures LineRest(s) == n
    decreases n
  {
    if n > 0 {
      assert s[0] == s[..n][0];
      assert s[1..][..n - 1] == s[..n][1..];
      LineRestUnique(s[1..], n - 1);
    }
  }

  lemma WsRunSuffix(s: string, q: nat)
    requires q <= WsRun(s)
    ensures WsRun(s[q..]) == WsRun(s) - q
  {
    forall i | 0 <= i < WsRun(s) - q ensures IsSpace(s[q..][i]) {
      WsRunSpaces(s, q + i);
    }
    WsRunUnique(s[q..], WsRun(s) - q);
  }

  lemma WsRunAgree(s: string, s2: string, m: nat)
    requires WsRun(s) < m <= |s| && m <= |s2| && s2[..m] == s[..m]
    ensures WsRun(s2) == WsRun(s)
  {
    var n := WsRun(s);
    assert s2[n] == s[..m][n];
    forall i | 0 <= i < n ensures IsSpace(s2[i]) {
      WsRunSpaces(s, i);
      assert s2[i] == s[..m][i];
    }
    WsRunUnique(s2, n);
  }

  lemma AssignWindow(u: string, u2: string)
    requires AssignLength(u).Some?
    requires AssignLength(u).value <= |u2| && u2[..AssignLength(u).value] == u[..AssignLength(u).value]
    ensures AssignLength(u2) == AssignLength(u)
  {
    var m := AssignLength(u).value;
    assert u2[..7] == u[..7] by {
      assert u2[..7] == u2[..m][..7];
    }
    assert u2[7..][..m - 7] == u[7..][..m - 7] by {
      assert u2[7..][..m - 7] == u2[..m][7..];
    }
    WsRunAgree(u[7..], u2[7..], m - 7);
    assert u2[m - 1] == u2[..m][m - 1];
  }

  /** A capture depends only on the text it captures. */
  lemma CaptureWindow(s: string, s2: string)
    requires CaptureLength(s).Some?
    requires CaptureLength(s).value <= |s2| && s2[..CaptureLength(s).value] == s[..CaptureLength(s).value]
    ensures CaptureLength(s2) == CaptureLength(s)
  {
    var j := CaptureLength(s).value;
    var w1 := WsRun(s);
    WsRunAgree(s, s2, j);
    assert s2[w1..][..j - w1] == s[w1..][..j - w1] by {
      assert s2[w1..][..j - w1] == s2[..j][w1..];
    }
    AssignWindow(s[w1..], s2[w1..]);
    CaptureOfParts(s, s2);
  }

  /** Captures agree when the leading spaces and the assignments after them agree. */
  lemma CaptureOfParts(s: string, s2: string)
    requires WsRun(s2) == WsRun(s)
    requires AssignLength(s2[WsRun(s)..]) == AssignLength(s[WsRun(s)..])
    ensures CaptureLength(s2).Some? == CaptureLength(s).Some?
    ensures CaptureLength(s2).Some? ==> CaptureLength(s2).value == CaptureLength(s).value
  {
  }

  /** How many leading characters of u decide that `tagline\s*=` does not match there. */
  function AssignDecided(u: string): nat {
    if !StartsWith(u, Tagline) then 7 else 7 + WsRun(u[7..]) + 1
  }

  /** How many leading characters decide that no capture starts at the beginning of t. */
  function Decided(t: string): nat {
    WsRun(t) + AssignDecided(t[WsRun(t)..])
  }

  lemma NoAssignWindow(u: string, u2: string)
    requires AssignLength(u).None?
    requires AssignDecided(u) <= |u| && AssignDecided(u) <= |u2| && u2[..AssignDecided(u)] == u[..AssignDecided(u)]
    ensures AssignLength(u2).None?
  {
    var d := AssignDecided(u);
    assert u2[..7] == u[..7] by {
      assert u2[..7] == u2[..d][..7];
    }
    if StartsWith(u, Tagline) {
      assert u2[7..][..d - 7] == u[7..][..d - 7] by {
        assert u2[7..][..d - 7] == u2[..d][7..];
      }
      WsRunAgree(u[7..], u2[7..], d - 7);
      assert u2[d - 1] == u2[..d][d - 1];
    }
  }

  lemma NoCaptureWindow(t: string, t2: string)
    requires CaptureLength(t).None?
    requires Decided(t) <= |t| && Decided(t) <= |t2| && t2[..Decided(t)] == t[..Decided(t)]
    ensures CaptureLength(t2).None?
  {
    var d := Decided(t);
    var w1 := WsRun(t);
    WsRunAgree(t, t2, d);
    assert t2[w1..][..d - w1] == t[w1..][..d - w1] by {
      assert t2[w1..][..d - w1] == t2[..d][w1..];
    }
    NoAssignWindow(t[w1..], t2[w1..]);
  }

  lemma CaptureUnfold(t: string)
    ensures CaptureLength(t) == (var a := AssignLength(t[WsRun(t)..]); if a.Some? then Some(WsRun(t) + a.value) else None)
  {
  }

  /** Starting inside the leading spaces leads to the same "tagline" and '='. */
  lemma CaptureShift(t: string, q: nat)
    requires q <= WsRun(t)
    ensures CaptureLength(t).None? ==> CaptureLength(t[q..]).None?
    ensures CaptureLength(t).Some? ==> CaptureLength(t[q..]).Some? && CaptureLength(t[q..]).value + q == CaptureLength(t).value
  {
    var w1 := WsRun(t);
    var s := t[q..];
    WsRunSuffix(t, q);
    assert s[w1 - q..] == t[w1..];
    CaptureAfterSpaces(t, s);
  }

  /** Two texts that agree after their leading spaces capture the same assignment. */
  lemma CaptureAfterSpaces(t: string, s: string)
    requires s[WsRun(s)..] == t[WsRun(t)..]
    ensures CaptureLength(s).Some? <==> CaptureLength(t).Some?
    ensures CaptureLength(s).Some? ==> CaptureLength(s).value - WsRun(s) == CaptureLength(t).value - WsRun(t)
  {
    CaptureUnfold(t);
    CaptureUnfold(s);
  }

  /** No capture at the start of t means none after some of its leading spaces either. */
  lemma NoCaptureInSpaces(t: string, q: nat)
    requires CaptureLength(t).None? && q <= |t|
    ensures CaptureLength(t[q..]).Some? ==> q > WsRun(t)
  {
    if q <= WsRun(t) {
      CaptureShift(t, q);
    }
  }

  /**
   * When no capture starts at the beginning of t, every capture starting at a
   * later line start ends beyond the characters that decided so.
   */
  lemma LateCapture(t: string, q: nat)
    requires CaptureLength(t).None?
    requires 1 <= q < |t| && t[q - 1] == '\n' && CaptureLength(t[q..]).Some?
    ensures q + CaptureLength(t[q..]).value > Decided(t)
  {
    var w1 := WsRun(t);
    NoCaptureInSpaces(t, q);
    if StartsWith(t[w1..], Tagline) {
      TaglineLacksNewline(t[w1..]);
      assert t[w1..][q - 1 - w1] == '\n';
      var v := t[w1 + 7..];
      assert t[w1..][7..] == v;
      var w2 := WsRun(v);
      var qv := q - (w1 + 7);
      if qv <= w2 {
        WsRunSuffix(v, qv);
        assert v[qv..] == t[q..];
      }
    }
  }

  lemma TaglineLacksNewline(u: string)
    requires StartsWith(u, Tagline)
    ensures forall i :: 0 <= i < 7 ==> u[i] != '\n'
  {
    assert forall i :: 0 <= i < 7 ==> u[i] == u[..7][i];
  }

  /** Every capture position the scan of s can meet. */
  predicate CaptureAt(s: string, q: nat, b: bool)
    requires q < |s|
  {
    (if q == 0 then b else s[q - 1] == '\n') && CaptureLength(s[q..]).Some?
  }

  /** Every capture position the scan of s meets has its capture end beyond p. */
  predicate CapturesEndBeyond(s: string, b: bool, p: int) {
    forall q {:trigger CaptureAt(s, q, b)} :: 0 <= q < |s| && CaptureAt(s, q, b) ==> q + CaptureLength(s[q..]).value > p
  }

  /** The scan of s meets no capture position. */
  predicate NoCaptureIn(s: string, b: bool) {
    forall q {:trigger CaptureAt(s, q, b)} :: 0 <= q < |s| ==> !CaptureAt(s, q, b)
  }

  /** A capture at the start of s keeps the captured text. */
  lemma CapturedPrefix(s: string, p: nat)
    requires CaptureLength(s).Some? && p < CaptureLength(s).value
    ensures |Rewrite(s, true)| >= p && Rewrite(s, true)[..p] == s[..p]
  {
    var j := CaptureLength(s).value;
    var e := j + LineRest(s[j..]);
    var rest := Rewrite(s[e..], false);
    assert Rewrite(s, true) == s[..j] + " ##f" + rest;
    PrefixOfConcat(s[..j], " ##f", rest, p);
    assert s[..j][..p] == s[..p];
  }

  lemma PrefixOfConcat(x: string, y: string, z: string, p: nat)
    requires p <= |x|
    ensures |x + y + z| >= p && (x + y + z)[..p] == x[..p]
  {
  }

  lemma CapturesAfterFirst(s: string, b: bool, p: nat)
    requires 0 < p <= |s|
    requires CapturesEndBeyond(s, b, p)
    ensures CapturesEndBeyond(s[1..], s[0] == '\n', p - 1)
  {
    var nl := s[0] == '\n';
    forall q {:trigger CaptureAt(s[1..], q, nl)} | 0 <= q < |s| - 1 && CaptureAt(s[1..], q, nl)
      ensures q + CaptureLength(s[1..][q..]).value > p - 1
    {
      assert s[1..][q..] == s[q + 1..];
      assert CaptureAt(s, q + 1, b);
    }
  }

  /** The rewrite copies the text up to p when every capture ends beyond p. */
  lemma {:induction false} RewriteKeepsPrefix(s: string, b: bool, p: nat)
    requires p <= |s|
    requires CapturesEndBeyond(s, b, p)
    ensures |Rewrite(s, b)| >= p && Rewrite(s, b)[..p] == s[..p]
    decreases |s|
  {
    if p > 0 {
      if b && CaptureLength(s).Some? {
        assert CaptureAt(s, 0, b) && s[0..] == s;
        CapturedPrefix(s, p);
      } else {
        var nl := s[0] == '\n';
        assert CapturesEndBeyond(s[1..], nl, p - 1) by {
          CapturesAfterFirst(s, b, p);
        }
        RewriteKeepsPrefix(s[1..], nl, p - 1);
        assert Rewrite(s, b) == [s[0]] + Rewrite(s[1..], nl) by {
          CopyStep(s, b);
        }
        ConsKeepsPrefix(s, Rewrite(s[1..], nl), p);
      }
    }
  }

  /** Where no capture starts, the rewrite copies the first character. */
  lemma CopyStep(s: string, b: bool)
    requires |s| > 0 && !(b && CaptureLength(s).Some?)
    ensures Rewrite(s, b) == [s[0]] + Rewrite(s[1..], s[0] == '\n')
  {
  }

  lemma ConsKeepsPrefix(s: string, r: string, p: nat)
    requires 0 < p <= |s| && |r| >= p - 1 && r[..p - 1] == s[1..][..p - 1]
    ensures |[s[0]] + r| >= p && ([s[0]] + r)[..p] == s[..p]
  {
    assert ([s[0]] + r)[..p] == [s[0]] + r[..p - 1];
    assert s[..p] == [s[0]] + s[1..][..p - 1];
  }

  /** With no capture position at all, the rewrite changes nothing. */
  lemma {:induction false} NoCaptureUnchanged(s: string, b: bool)
    requires NoCaptureIn(s, b)
    ensures Rewrite(s, b) == s
    decreases |s|
  {
    if |s| > 0 {
      assert !CaptureAt(s, 0, b) && s[0..] == s;
      var nl := s[0] == '\n';
      forall q {:trigger CaptureAt(s[1..], q, nl)} | 0 <= q < |s| - 1 ensures !CaptureAt(s[1..], q, nl) {
        assert s[1..][q..] == s[q + 1..];
        assert !CaptureAt(s, q + 1, b);
      }
      NoCaptureUnchanged(s[1..], nl);
      assert s == [s[0]] + s[1..];
    }
  }

  /** Rewriting after a position where nothing matched does not create a match there. */
  lemma NoNewCapture(t: string)
    requires |t| > 0 && CaptureLength(t).None?
    ensures CaptureLength([t[0]] + Rewrite(t[1..], t[0] == '\n')).None?
  {
    CapturesBeyondDecided(t);
    if Decided(t) <= |t| {
      CopyKeepsPrefix(t, Decided(t));
      NoCaptureWindow(t, [t[0]] + Rewrite(t[1..], t[0] == '\n'));
    } else {
      NoCaptureUnchanged(t[1..], t[0] == '\n');
      assert [t[0]] + t[1..] == t;
    }
  }

  /** Every capture the scan after the first character of t meets ends beyond what decided t. */
  lemma CapturesBeyondDecided(t: string)
    requires |t| > 0 && CaptureLength(t).None?
    ensures CapturesEndBeyond(t[1..], t[0] == '\n', Decided(t) - 1)
  {
    var nl := t[0] == '\n';
    var s := t[1..];
    forall q {:trigger CaptureAt(s, q, nl)} | 0 <= q < |s| && CaptureAt(s, q, nl)
      ensures q + CaptureLength(s[q..]).value > Decided(t) - 1
    {
      CaptureAfterFirstIsLate(t, q);
    }
  }

  lemma CaptureAfterFirstIsLate(t: string, q: nat)
    requires |t| > 0 && CaptureLength(t).None?
    requires q < |t| - 1 && CaptureAt(t[1..], q, t[0] == '\n')
    ensures q + CaptureLength(t[1..][q..]).value > Decided(t) - 1
  {
    var s := t[1..];
    assert s[q..] == t[q + 1..];
    assert t[q] == '\n' by {
      if q > 0 {
        assert t[q] == s[q - 1];
      }
    }
    LateCapture(t, q + 1);
  }

  /** Copying the first character and rewriting the rest keeps the first d characters. */
  lemma CopyKeepsPrefix(t: string, d: nat)
    requires 0 < d <= |t|
    requires CapturesEndBeyond(t[1..], t[0] == '\n', d - 1)
    ensures var t2 := [t[0]] + Rewrite(t[1..], t[0] == '\n');
      d <= |t2| && t2[..d] == t[..d]
  {
    var nl := t[0] == '\n';
    RewriteKeepsPrefix(t[1..], nl, d - 1);
    ConsKeepsPrefix(t, Rewrite(t[1..], nl), d);
  }

  /** The rewritten text of a line that is not at a line start begins like the text. */
  lemma RewriteMidLine(s: string)
    requires |s| > 0
    ensures |Rewrite(s, false)| > 0 && Rewrite(s, false)[0] == s[0]
  {
  }

  /** Running the rewrite twice gives the same text as running it once. */
  lemma {:induction false} RewriteIdempotent(t: string, b: bool)
    ensures Rewrite(Rewrite(t, b), b) == Rewrite(t, b)
    decreases |t|
  {
    if |t| > 0 {
      if b && CaptureLength(t).Some? {
        var j := CaptureLength(t).value;
        var e := j + LineRest(t[j..]);
        var rest := Rewrite(t[e..], false);
        var t1 := Rewrite(t, true);
        assert t1 == t[..j] + " ##f" + rest;
        PrefixOfConcat(t[..j], " ##f", rest, j);
        CaptureWindow(t, t1);
        if e < |t| {
          RewriteMidLine(t[e..]);
        }
        SuffixesOfConcat(t[..j], " ##f", rest);
        RewriteRecapture(t1, j, rest);
        RewriteIdempotent(t[e..], false);
      } else {
        var nl := t[0] == '\n';
        if b {
          NoNewCapture(t);
        }
        RewriteIdempotent(t[1..], nl);
        IdempotentAfterCopy(t, b);
      }
    }
  }

  lemma SuffixesOfConcat(x: string, y: string, z: string)
    ensures (x + y + z)[|x|..][..|y|] == y && (x + y + z)[|x| + |y|..] == z
  {
    assert (x + y + z)[|x|..] == y + z;
  }

  /** A line the rewrite has already replaced is captured and replaced the same way again. */
  lemma RewriteRecapture(u: string, j: nat, rest: string)
    requires CaptureLength(u) == Some(j)
    requires j + 4 <= |u| && u[j..][..4] == " ##f" && u[j + 4..] == rest
    requires rest == [] || rest[0] == '\n'
    ensures Rewrite(u, true) == u[..j] + " ##f" + Rewrite(rest, false)
  {
    assert '\n' !in u[j..][..4];
    assert 4 < |u[j..]| ==> u[j..][4] == rest[0];
    LineRestUnique(u[j..], 4);
  }

  lemma IdempotentAfterCopy(t: string, b: bool)
    requires |t| > 0 && !(b && CaptureLength(t).Some?)
    requires b ==> CaptureLength([t[0]] + Rewrite(t[1..], t[0] == '\n')).None?
    requires Rewrite(Rewrite(t[1..], t[0] == '\n'), t[0] == '\n') == Rewrite(t[1..], t[0] == '\n')
    ensures Rewrite(Rewrite(t, b), b) == Rewrite(t, b)
  {
    var t1 := Rewrite(t, b);
    assert t1 == [t[0]] + Rewrite(t[1..], t[0] == '\n');
    assert t1[0] == t[0] && t1[1..] == Rewrite(t[1..], t[0] == '\n');
  }

  /** removeTagline.php applied to its own output writes the same text. */
  lemma RemoveTaglinesIdempotent(lyData: string)
    ensures RemoveTaglines(RemoveTaglines(lyData)) == RemoveTaglines(lyData)
  {
    RewriteIdempotent(lyData, true);
  }
}
