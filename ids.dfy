/**
 * Identifiers of records: a fixed prefix followed by a counter written as
 * with Python's "{:03d}" format (decimal, left-padded with zeros to three
 * digits). Decimal parsing undoes the padding, so distinct counters give
 * distinct identifiers.
 */
module Ids {

  function DigitChar(d: nat): (c: char)
    requires d < 10
  {
    (('0' as int) + d) as char
  }

  function DigitValue(c: char): int
  {
    (c as int) - ('0' as int)
  }

  /** Decimal notation of n without leading zeros ("0" for zero). */
  function Decimal(n: nat): (s: string)
    ensures 1 <= |s|
    ensures n < 10 <==> |s| == 1
    ensures n < 1000 ==> |s| <= 3
  {
    if n < 10 then [DigitChar(n)] else Decimal(n / 10) + [DigitChar(n % 10)]
  }

  /** Reads a string of digits as a number, most significant digit first. */
  function ParseDecimal(s: string): int
  {
    if s == [] then 0 else 10 * ParseDecimal(s[..|s| - 1]) + DigitValue(s[|s| - 1])
  }

  function Zeros(k: nat): (z: string)
  {
    seq(k, _ => '0')
  }

  /** "{:03d}" */
  function Pad3(n: nat): (s: string)
    ensures n < 1000 ==> |s| == 3
    ensures n >= 1000 ==> s == Decimal(n)
  {
    var d := Decimal(n);
    if |d| >= 3 then d else Zeros(3 - |d|) + d
  }

  lemma {:induction false} ParseDecimalOfDecimal(n: nat)
    ensures ParseDecimal(Decimal(n)) == n
  {
    if n >= 10 {
      var s := Decimal(n);
      assert s[..|s| - 1] == Decimal(n / 10);
      ParseDecimalOfDecimal(n / 10);
    }
  }

  /** Leading zeros do not change the value read. */
  lemma {:induction false} ParseDecimalLeadingZeros(k: nat, s: string)
    ensures ParseDecimal(Zeros(k) + s) == ParseDecimal(s)
    decreases |s|, k
  {
    if s == [] {
      assert Zeros(k) + s == Zeros(k);
      if k > 0 {
        assert Zeros(k)[..k - 1] == Zeros(k - 1) + [];
        ParseDecimalLeadingZeros(k - 1, []);
      }
    } else {
      var t := Zeros(k) + s;
      assert t[..|t| - 1] == Zeros(k) + s[..|s| - 1];
      ParseDecimalLeadingZeros(k, s[..|s| - 1]);
    }
  }

  /** Reading the padded counter back gives the counter. */
  lemma Pad3RoundTrip(n: nat)
    ensures ParseDecimal(Pad3(n)) == n
  {
    var d := Decimal(n);
    ParseDecimalOfDecimal(n);
    if |d| < 3 {
      ParseDecimalLeadingZeros(3 - |d|, d);
    }
  }

  lemma Pad3Injective(m: nat, n: nat)
    ensures Pad3(m) == Pad3(n) <==> m == n
  {
    Pad3RoundTrip(m);
    Pad3RoundTrip(n);
  }

  /** prefix + Pad3(n), the shape of every identifier the generator emits. */
  function Numbered(prefix: string, n: nat): string
  {
    prefix + Pad3(n)
  }

  /** Identifiers with one prefix are equal exactly when their counters are. */
  lemma NumberedInjective(prefix: string, m: nat, n: nat)
    ensures Numbered(prefix, m) == Numbered(prefix, n) <==> m == n
  {
    if Numbered(prefix, m) == Numbered(prefix, n) {
      assert |Numbered(prefix, m)| == |prefix| + |Pad3(m)|;
      assert Pad3(m) == Numbered(prefix, m)[|prefix|..];
      assert Pad3(n) == Numbered(prefix, n)[|prefix|..];
      Pad3Injective(m, n);
    }
  }

  const GradeCallPrefix: string := "grade_call_"
  const ComparisonCallPrefix: string := "comp_call_"
  const ComparisonPrefix: string := "comp_"
  const AnchorCallPrefix: string := "ext_comp_call_"
  const AnchorPrefix: string := "ext_comp_"

  function GradeCallId(i: nat): string { Numbered(GradeCallPrefix, i) }
  function ComparisonCallId(k: nat): string { Numbered(ComparisonCallPrefix, k) }
  function ComparisonId(k: nat): string { Numbered(ComparisonPrefix, k) }
  function AnchorCallId(i: nat): string { Numbered(AnchorCallPrefix, i) }
  function AnchorId(i: nat): string { Numbered(AnchorPrefix, i) }

  /** Comparison identifiers of the pair pass and of the anchor pass never coincide. */
  lemma ComparisonIdsDistinct(k: nat, i: nat)
    ensures ComparisonId(k) != AnchorId(i)
  {
    assert ComparisonId(k)[0] == 'c';
    assert AnchorId(i)[0] == 'e';
  }

  /** Call identifiers of the three passes never coincide. */
  lemma CallIdsDistinct(i: nat, k: nat, j: nat)
    ensures GradeCallId(i) != ComparisonCallId(k)
    ensures GradeCallId(i) != AnchorCallId(j)
    ensures ComparisonCallId(k) != AnchorCallId(j)
  {
    assert GradeCallId(i)[0] == 'g';
    assert ComparisonCallId(k)[0] == 'c';
    assert AnchorCallId(j)[0] == 'e';
  }
}
