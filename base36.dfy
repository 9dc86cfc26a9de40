/**
 * Wikimedia\base_convert from hexadecimal to base 36 with padding, as the
 * renderer uses it to name cached files after a SHA-1 digest. The digest is
 * taken as the number its 40 hexadecimal digits denote.
 */
module Base36 {
  /** 16^40: the number of distinct 40-digit hexadecimal SHA-1 digests. */
  const DigestLimit: nat := 1461501637330902918203684832716283019655932542976

  type Digest = n: nat | n < DigestLimit

  function Pow36(k: nat): (r: nat)
    ensures r >= 1
  {
    if k == 0 then 1 else 36 * Pow36(k - 1)
  }

  function Digit36(d: nat): char
    requires d < 36
  {
    if d < 10 then '0' + d as char else 'a' + (d - 10) as char
  }

  function Digit36Value(c: char): nat {
    if '0' <= c <= '9' then (c - '0') as nat
    else if 'a' <= c <= 'z' then (c - 'a') as nat + 10
    else 0
  }

  predicate IsDigit36(c: char) {
    '0' <= c <= '9' || 'a' <= c <= 'z'
  }

  /** The base-36 digits of n, most significant first, without leading zeros. */
  function ToBase36(n: nat): (r: string)
    ensures |r| >= 1 && forall i :: 0 <= i < |r| ==> IsDigit36(r[i])
    decreases n
  {
    if n < 36 then [Digit36(n)] else ToBase36(n / 36) + [Digit36(n % 36)]
  }

  function Zeros(k: nat): (r: string)
    ensures |r| == k && forall i :: 0 <= i < k ==> r[i] == '0'
  {
    if k == 0 then "" else Zeros(k - 1) + "0"
  }

  /** Wikimedia's base_convert from a number to base 36, left-padded with '0' to pad characters. */
  function BaseConvert(n: nat, pad: nat): (r: string)
    ensures |r| >= pad && forall i :: 0 <= i < |r| ==> IsDigit36(r[i])
  {
    var digits := ToBase36(n);
    if |digits| < pad then Zeros(pad - |digits|) + digits else digits
  }

  /** The number a string of base-36 digits denotes. */
  function Base36Value(s: string): nat
    decreases |s|
  {
    if |s| == 0 then 0 else 36 * Base36Value(s[..|s| - 1]) + Digit36Value(s[|s| - 1])
  }

  lemma {:induction false} ToBase36Value(n: nat)
    ensures Base36Value(ToBase36(n)) == n
    decreases n
  {
    if n >= 36 {
      var r := ToBase36(n);
      assert r[..|r| - 1] == ToBase36(n / 36);
      ToBase36Value(n / 36);
    }
  }

  lemma {:induction false} ZerosValue(k: nat, s: string)
    ensures Base36Value(Zeros(k) + s) == Base36Value(s)
    decreases |s|
  {
    if |s| == 0 {
      assert Zeros(k) + s == Zeros(k);
      ZerosAlone(k);
    } else {
      assert (Zeros(k) + s)[..|Zeros(k) + s| - 1] == Zeros(k) + s[..|s| - 1];
      ZerosValue(k, s[..|s| - 1]);
    }
  }

  lemma {:induction false} ZerosAlone(k: nat)
    ensures Base36Value(Zeros(k)) == 0
  {
    if k > 0 {
      assert Zeros(k)[..k - 1] == Zeros(k - 1);
      ZerosAlone(k - 1);
    }
  }

  /** Reading the padded digits back gives the number: the conversion loses nothing. */
  lemma BaseConvertRoundTrip(n: nat, pad: nat)
    ensures Base36Value(BaseConvert(n, pad)) == n
  {
    ToBase36Value(n);
    var digits := ToBase36(n);
    if |digits| < pad {
      ZerosValue(pad - |digits|, digits);
    }
  }

  lemma {:induction false} ToBase36Length(n: nat, k: nat)
    requires k >= 1 && n < Pow36(k)
    ensures |ToBase36(n)| <= k
    decreases n
  {
    if n >= 36 {
      assert k >= 2;
      assert n / 36 < Pow36(k - 1);
      ToBase36Length(n / 36, k - 1);
    }
  }

  lemma DigestFits()
    ensures DigestLimit < Pow36(31)
  {
    assert Pow36(1) == 36;
    assert Pow36(2) == 1296;
    assert Pow36(3) == 46656;
    assert Pow36(4) == 1679616;
    assert Pow36(5) == 60466176;
    assert Pow36(6) == 2176782336;
    assert Pow36(7) == 78364164096;
    assert Pow36(8) == 2821109907456;
    assert Pow36(9) == 101559956668416;
    assert Pow36(10) == 3656158440062976;
    assert Pow36(11) == 131621703842267136;
    assert Pow36(12) == 4738381338321616896;
    assert Pow36(13) == 170581728179578208256;
    assert Pow36(14) == 6140942214464815497216;
    assert Pow36(15) == 221073919720733357899776;
    assert Pow36(16) == 7958661109946400884391936;
    assert Pow36(17) == 286511799958070431838109696;
    assert Pow36(18) == 10314424798490535546171949056;
    assert Pow36(19) == 371319292745659279662190166016;
    assert Pow36(20) == 13367494538843734067838845976576;
    assert Pow36(21) == 481229803398374426442198455156736;
    assert Pow36(22) == 17324272922341479351919144385642496;
    assert Pow36(23) == 623673825204293256669089197883129856;
    assert Pow36(24) == 22452257707354557240087211123792674816;
    assert Pow36(25) == 808281277464764060643139600456536293376;
    assert Pow36(26) == 29098125988731506183153025616435306561536;
    assert Pow36(27) == 1047532535594334222593508922191671036215296;
    assert Pow36(28) == 37711171281396032013366321198900157303750656;
    assert Pow36(29) == 1357602166130257152481187563160405662935023616;
    assert Pow36(30) == 48873677980689257489322752273774603865660850176;
    assert Pow36(31) == 1759452407304813269615619081855885739163790606336;
  }

  /** A digest always converts to exactly 31 base-36 digits. */
  lemma DigestNameLength(d: Digest)
    ensures |BaseConvert(d, 31)| == 31
  {
    DigestFits();
    ToBase36Length(d, 31);
  }
}
