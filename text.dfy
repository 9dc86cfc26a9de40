/**
 * String primitives of the PHP runtime that the Score code relies on:
 * explode/implode on a one-character delimiter, strpos as a substring test,
 * decimal rendering of integers (sprintf "%d", string interpolation) and
 * decimal parsing of digit runs (intval).
 */
module Text {

  predicate IsDigit(c: char) {
    '0' <= c <= '9'
  }

  predicate AllDigits(s: string) {
    forall i :: 0 <= i < |s| ==> IsDigit(s[i])
  }

  /** Number of occurrences of c in s. */
  function Count(s: string, c: char): nat {
    if |s| == 0 then 0 else (if s[0] == c then 1 else 0) + Count(s[1..], c)
  }

  lemma {:induction false} CountAppend(a: string, b: string, c: char)
    ensures Count(a + b, c) == Count(a, c) + Count(b, c)
  {
    if |a| > 0 {
      assert (a + b)[1..] == a[1..] + b;
      CountAppend(a[1..], b, c);
    } else {
      assert a + b == b;
    }
  }

  lemma {:induction false} CountZeroIsAbsent(s: string, c: char)
    ensures Count(s, c) == 0 <==> c !in s
  {
    if |s| > 0 {
      CountZeroIsAbsent(s[1..], c);
      assert s == [s[0]] + s[1..];
    }
  }

  predicate StartsWith(s: string, prefix: string) {
    |prefix| <= |s| && s[..|prefix|] == prefix
  }

  /** PHP `strpos($s, $sub) !== false` for a non-empty needle. */
  predicate Contains(s: string, sub: string)
    decreases |s|
  {
    StartsWith(s, sub) || (|s| > 0 && Contains(s[1..], sub))
  }

  lemma {:induction false} ContainsInConcat(a: string, sub: string, b: string)
    ensures Contains(a + sub + b, sub)
  {
    if |a| == 0 {
      assert a + sub + b == sub + b;
      assert (sub + b)[..|sub|] == sub;
    } else {
      assert (a + sub + b)[1..] == a[1..] + sub + b;
      ContainsInConcat(a[1..], sub, b);
    }
  }

  lemma {:induction false} ContainsLeft(a: string, b: string, sub: string)
    requires Contains(a, sub)
    ensures Contains(a + b, sub)
    decreases |a|
  {
    if StartsWith(a, sub) {
      assert (a + b)[..|sub|] == a[..|sub|];
    } else {
      assert (a + b)[1..] == a[1..] + b;
      ContainsLeft(a[1..], b, sub);
    }
  }

  lemma {:induction false} ContainsRight(a: string, b: string, sub: string)
    requires Contains(b, sub)
    ensures Contains(a + b, sub)
    decreases |a|
  {
    if |a| == 0 {
      assert a + b == b;
    } else {
      assert (a + b)[1..] == a[1..] + b;
      ContainsRight(a[1..], b, sub);
    }
  }

  // ---------------------------------------------------------------------------
  // explode / implode on a one-character delimiter

  /** PHP `explode(c, s)`: the pieces of s between occurrences of c; never empty. */
  function Split(s: string, c: char): (r: seq<string>)
    ensures |r| >= 1
    decreases |s|
  {
    if |s| == 0 then [""]
    else
      var rest := Split(s[1..], c);
      if s[0] == c then [""] + rest else [[s[0]] + rest[0]] + rest[1..]
  }

  /** PHP `implode(sep, parts)`. */
  function Join(parts: seq<string>, sep: string): string
    decreases |parts|
  {
    if |parts| == 0 then ""
    else if |parts| == 1 then parts[0]
    else parts[0] + sep + Join(parts[1..], sep)
  }

  lemma {:induction false} SplitWithout(s: string, c: char)
    requires c !in s
    ensures Split(s, c) == [s]
    decreases |s|
  {
    if |s| > 0 {
      SplitWithout(s[1..], c);
      assert [s[0]] + s[1..] == s;
    }
  }

  lemma SplitCons(x: char, t: string, c: char)
    ensures Split([x] + t, c) ==
      if x == c then [""] + Split(t, c) else [[x] + Split(t, c)[0]] + Split(t, c)[1..]
  {
    assert ([x] + t)[1..] == t;
  }

  lemma {:induction false} SplitPartsLackDelimiter(s: string, c: char)
    ensures forall i :: 0 <= i < |Split(s, c)| ==> c !in Split(s, c)[i]
    decreases |s|
  {
    if |s| > 0 {
      SplitPartsLackDelimiter(s[1..], c);
      SplitCons(s[0], s[1..], c);
      assert s == [s[0]] + s[1..];
    }
  }

  lemma {:induction false} SplitLength(s: string, c: char)
    ensures |Split(s, c)| == Count(s, c) + 1
    decreases |s|
  {
    if |s| > 0 {
      SplitLength(s[1..], c);
    }
  }

  /** Splitting at a delimiter splits the two sides independently. */
  lemma {:induction false} SplitAppend(a: string, b: string, c: char)
    ensures Split(a + [c] + b, c) == Split(a, c) + Split(b, c)
    decreases |a|
  {
    if |a| == 0 {
      assert a + [c] + b == [c] + b;
      SplitCons(c, b, c);
    } else {
      var t := a[1..] + [c] + b;
      assert a + [c] + b == [a[0]] + t;
      assert a == [a[0]] + a[1..];
      SplitCons(a[0], t, c);
      SplitCons(a[0], a[1..], c);
      SplitAppend(a[1..], b, c);
      if a[0] == c {
        DelimiterOntoParts(Split(a[1..], c), Split(b, c));
      } else {
        CharOntoParts([a[0]], Split(a[1..], c), Split(b, c));
      }
    }
  }

  /** A delimiter in front of split parts adds an empty first part. */
  lemma DelimiterOntoParts(ra: seq<string>, rb: seq<string>)
    ensures [""] + (ra + rb) == [""] + ra + rb
  {
  }

  /** Other text in front of split parts extends only the first part. */
  lemma CharOntoParts(h: string, ra: seq<string>, rb: seq<string>)
    requires |ra| >= 1
    ensures [h + (ra + rb)[0]] + (ra + rb)[1..] == [h + ra[0]] + ra[1..] + rb
  {
    assert (ra + rb)[0] == ra[0];
    assert (ra + rb)[1..] == ra[1..] + rb;
  }

  /** Text that ends a line (or is empty) splits apart from what follows it. */
  lemma SplitAfterLine(e: string, x: string, c: char)
    requires e == [] || e[|e| - 1] == c
    ensures e != [] ==> Split(e, c) == Split(e[..|e| - 1], c) + [""]
    ensures Split(e + x, c) == if e == [] then Split(x, c) else Split(e[..|e| - 1], c) + Split(x, c)
  {
    if e != [] {
      assert e == e[..|e| - 1] + [c] + [];
      SplitAppend(e[..|e| - 1], [], c);
      assert e + x == e[..|e| - 1] + [c] + x;
      SplitAppend(e[..|e| - 1], x, c);
    } else {
      assert e + x == x;
    }
  }

  lemma JoinCons(h: string, t: seq<string>, sep: string)
    requires |t| >= 1
    ensures Join([h] + t, sep) == h + sep + Join(t, sep)
  {
    assert ([h] + t)[1..] == t;
  }

  lemma {:induction false} JoinFirstPart(parts: seq<string>, sep: string)
    requires |parts| >= 1
    ensures |Join(parts, sep)| >= |parts[0]|
    ensures Join(parts, sep)[..|parts[0]|] == parts[0]
  {
  }

  lemma {:induction false} JoinSnoc(parts: seq<string>, last: string, sep: string)
    ensures Join(parts + [last], sep) == if |parts| == 0 then last else Join(parts, sep) + sep + last
    decreases |parts|
  {
    if |parts| > 1 {
      JoinSnoc(parts[1..], last, sep);
      assert (parts + [last])[1..] == parts[1..] + [last];
    } else if |parts| == 1 {
      assert (parts + [last])[1..] == [last];
    } else {
      assert parts + [last] == [last];
    }
  }

  /** implode(c, explode(c, s)) == s. */
  lemma {:induction false} JoinSplit(s: string, c: char)
    ensures Join(Split(s, c), [c]) == s
    decreases |s|
  {
    if |s| > 0 {
      var rest := Split(s[1..], c);
      JoinSplit(s[1..], c);
      if s[0] == c {
        JoinCons("", rest, [c]);
        assert s == [c] + s[1..];
      } else if |rest| == 1 {
        assert s == [s[0]] + s[1..];
      } else {
        JoinCons([s[0]] + rest[0], rest[1..], [c]);
        JoinCons(rest[0], rest[1..], [c]);
        assert [rest[0]] + rest[1..] == rest;
        assert s == [s[0]] + s[1..];
      }
    }
  }

  /** explode(c, implode(c, parts)) == parts when no part holds the delimiter. */
  lemma {:induction false} SplitJoin(parts: seq<string>, c: char)
    requires |parts| >= 1
    requires forall i :: 0 <= i < |parts| ==> c !in parts[i]
    ensures Split(Join(parts, [c]), c) == parts
    decreases |parts|
  {
    if |parts| == 1 {
      SplitWithout(parts[0], c);
    } else {
      SplitJoin(parts[1..], c);
      SplitWithout(parts[0], c);
      SplitAppend(parts[0], Join(parts[1..], [c]), c);
      assert [parts[0]] + parts[1..] == parts;
    }
  }

  lemma {:induction false} CountJoin(parts: seq<string>, c: char)
    requires |parts| >= 1
    ensures Count(Join(parts, [c]), c) == |parts| - 1 + SumCounts(parts, c)
    decreases |parts|
  {
    if |parts| > 1 {
      CountJoin(parts[1..], c);
      CountAppend(parts[0] + [c], Join(parts[1..], [c]), c);
      CountAppend(parts[0], [c], c);
    }
  }

  function SumCounts(parts: seq<string>, c: char): nat
    decreases |parts|
  {
    if |parts| == 0 then 0 else Count(parts[0], c) + SumCounts(parts[1..], c)
  }

  // ---------------------------------------------------------------------------
  // Decimal numbers

  function DigitChar(d: nat): char
    requires d < 10
  {
    (('0' as int) + d) as char
  }

  function DigitValue(c: char): nat
    requires IsDigit(c)
  {
    (c as int - '0' as int) as nat
  }

  /** The decimal rendering PHP gives a non-negative integer. */
  function NatToString(n: nat): (r: string)
    ensures |r| >= 1 && AllDigits(r)
    ensures n >= 10 ==> r[0] != '0'
  {
    if n < 10 then [DigitChar(n)] else NatToString(n / 10) + [DigitChar(n % 10)]
  }

  /** sprintf("%d", i) and "$i": a minus sign before the magnitude's digits. */
  function IntToString(i: int): string {
    if i < 0 then "-" + NatToString(-i) else NatToString(i)
  }

  /** intval of a run of decimal digits (leading zeros allowed). */
  function ParseNat(s: string): nat
    requires AllDigits(s)
    decreases |s|
  {
    if |s| == 0 then 0 else ParseNat(s[..|s| - 1]) * 10 + DigitValue(s[|s| - 1])
  }

  lemma {:induction false} ParseNatToString(n: nat)
    ensures ParseNat(NatToString(n)) == n
  {
    if n >= 10 {
      ParseNatToString(n / 10);
      var s := NatToString(n);
      assert s[..|s| - 1] == NatToString(n / 10);
    }
  }

  /** Inverse of IntToString. */
  function ParseInt(s: string): int {
    if |s| > 0 && s[0] == '-' && AllDigits(s[1..]) then 0 - ParseNat(s[1..])
    else if AllDigits(s) then ParseNat(s)
    else 0
  }

  lemma ParseIntToString(i: int)
    ensures ParseInt(IntToString(i)) == i
  {
    if i < 0 {
      ParseNatToString(-i);
      assert IntToString(i)[1..] == NatToString(-i);
    } else {
      ParseNatToString(i);
    }
  }

  lemma IntToStringIsPlain(i: int)
    ensures |IntToString(i)| >= 1
    ensures forall k :: 0 <= k < |IntToString(i)| ==> IntToString(i)[k] == '-' || IsDigit(IntToString(i)[k])
  {
  }

  lemma NatToStringInjective(a: nat, b: nat)
    requires NatToString(a) == NatToString(b)
    ensures a == b
  {
    ParseNatToString(a);
    ParseNatToString(b);
  }

  function Pow10(k: nat): (r: nat)
    ensures r >= 1
  {
    if k == 0 then 1 else 10 * Pow10(k - 1)
  }

  /** Length of the longest prefix of s made of digits. */
  function DigitRun(s: string): (n: nat)
    ensures n <= |s| && AllDigits(s[..n])
    ensures n < |s| ==> !IsDigit(s[n])
    decreases |s|
  {
    if |s| > 0 && IsDigit(s[0]) then
      var k := DigitRun(s[1..]);
      assert s[..k + 1] == [s[0]] + s[1..][..k];
      1 + k
    else 0
  }

  lemma DigitRunOfDigits(s: string)
    requires AllDigits(s)
    ensures DigitRun(s) == |s|
  {
  }

  predicate IsDecimalChar(c: char) {
    IsDigit(c) || c == '.'
  }

  predicate AllDecimalChars(s: string) {
    forall i :: 0 <= i < |s| ==> IsDecimalChar(s[i])
  }

  /**
   * PHP's `(float)` of a string made of digits and dots: the leading
   * "digits[.digits]" part is read, anything after a second dot is ignored,
   * and a string with no digit before or right after its first dot reads 0.
   * The value is exact; rounding to a double is not modelled.
   */
  function DecimalValue(s: string): (v: real)
    requires AllDecimalChars(s)
    ensures v >= 0.0
  {
    var n := DigitRun(s);
    var whole := ParseNat(s[..n]) as real;
    if n == |s| then whole
    else
      var f := DigitRun(s[n + 1..]);
      whole + ParseNat(s[n + 1..][..f]) as real / Pow10(f) as real
  }

  lemma DecimalValueOfNat(n: nat)
    ensures AllDecimalChars(NatToString(n))
    ensures DecimalValue(NatToString(n)) == n as real
  {
    var s := NatToString(n);
    DigitRunOfDigits(s);
    assert s[..|s|] == s;
    ParseNatToString(n);
  }
}
