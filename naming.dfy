/**
 Output file names of `MetaDataZaKo.run`: `f"{filename}_{counter:05}_.png"`.
 */
module Naming {
  import opened Wrappers

  predicate IsDigit(c: char) {
    '0' <= c <= '9'
  }

  predicate AllDigits(s: string) {
    forall i :: 0 <= i < |s| ==> IsDigit(s[i])
  }

  function DigitChar(d: nat): (c: char)
    requires d < 10
    ensures IsDigit(c) && c as int - '0' as int == d
  {
    ('0' as int + d) as char
  }

  /** The numeric value of a string of decimal digits, leading zeros allowed. */
  function DecimalValue(s: string): nat
    requires AllDigits(s)
  {
    if s == [] then 0
    else 10 * DecimalValue(s[..|s| - 1]) + (s[|s| - 1] as int - '0' as int)
  }

  /** `str(n)`: the decimal representation of `n`, without leading zeros. */
  function Decimal(n: nat): (s: string)
    ensures |s| >= 1 && AllDigits(s)
    ensures |s| > 1 ==> s[0] != '0'
    decreases n
  {
    if n < 10 then [DigitChar(n)] else Decimal(n / 10) + [DigitChar(n % 10)]
  }

  function Zeros(k: nat): (s: string)
    ensures |s| == k && AllDigits(s)
  {
    seq(k, _ => '0')
  }

  /** `f"{n:05}"`: the decimal representation, left-padded with zeros to five
      characters; longer representations are kept whole. */
  function Pad5(n: nat): (s: string)
    ensures |s| >= 5 && AllDigits(s)
  {
    var d := Decimal(n);
    if |d| < 5 then Zeros(5 - |d|) + d else d
  }

  /** The name a frame is saved under. */
  function FileName(base: string, counter: nat): (name: string)
    ensures |name| >= |base| + 11
  {
    base + "_" + Pad5(counter) + "_.png"
  }

  /** Reads the counter back out of a file name built from `base`. */
  function ParseFileName(base: string, name: string): Option<nat> {
    if |name| >= |base| + 11 && name[..|base| + 1] == base + "_" &&
       name[|name| - 5..] == "_.png" && AllDigits(name[|base| + 1..|name| - 5])
    then Some(DecimalValue(name[|base| + 1..|name| - 5]))
    else None
  }

  lemma {:induction false} DecimalRoundTrip(n: nat)
    ensures DecimalValue(Decimal(n)) == n
    decreases n
  {
    var s := Decimal(n);
    if n < 10 {
      assert s[..|s| - 1] == [];
    } else {
      assert s[..|s| - 1] == Decimal(n / 10);
      DecimalRoundTrip(n / 10);
    }
  }

  lemma {:induction false} ZerosValue(k: nat)
    ensures DecimalValue(Zeros(k)) == 0
  {
    if k > 0 {
      assert Zeros(k)[..k - 1] == Zeros(k - 1);
      ZerosValue(k - 1);
    }
  }

  /** Leading zeros do not change the value of a digit string. */
  lemma {:induction false} LeadingZeros(k: nat, s: string)
    requires AllDigits(s)
    ensures AllDigits(Zeros(k) + s) && DecimalValue(Zeros(k) + s) == DecimalValue(s)
    decreases |s|
  {
    var z := Zeros(k) + s;
    if s == [] {
      assert z == Zeros(k);
      ZerosValue(k);
    } else {
      assert z[..|z| - 1] == Zeros(k) + s[..|s| - 1];
      LeadingZeros(k, s[..|s| - 1]);
    }
  }

  /** The padded counter denotes the counter. */
  lemma Pad5Value(n: nat)
    ensures DecimalValue(Pad5(n)) == n
  {
    var d := Decimal(n);
    DecimalRoundTrip(n);
    if |d| < 5 {
      LeadingZeros(5 - |d|, d);
    }
  }

  function Pow10(k: nat): (r: nat)
    ensures r >= 1
  {
    if k == 0 then 1 else 10 * Pow10(k - 1)
  }

  /** A number below 10^k has at most k decimal digits. */
  lemma {:induction false} DecimalLength(n: nat, k: nat)
    requires 1 <= k && n < Pow10(k)
    ensures |Decimal(n)| <= k
    decreases n
  {
    if n >= 10 {
      assert k >= 2;
      DecimalLength(n / 10, k - 1);
    }
  }

  /** Counters below 100000 give exactly five characters. */
  lemma Pad5Width(n: nat)
    requires n < 100000
    ensures |Pad5(n)| == 5
  {
    assert Pow10(5) == 100000;
    DecimalLength(n, 5);
  }

  /** Parsing a built file name gives back its counter. */
  lemma FileNameRoundTrip(base: string, counter: nat)
    ensures ParseFileName(base, FileName(base, counter)) == Some(counter)
  {
    var name := FileName(base, counter);
    var p := Pad5(counter);
    assert name[..|base| + 1] == base + "_";
    assert name[|name| - 5..] == "_.png";
    assert name[|base| + 1..|name| - 5] == p;
    Pad5Value(counter);
  }

  /** Distinct counters give distinct file names. */
  lemma FileNameInjective(base: string, a: nat, b: nat)
    requires FileName(base, a) == FileName(base, b)
    ensures a == b
  {
    FileNameRoundTrip(base, a);
    FileNameRoundTrip(base, b);
  }
}
