/** Per-page artifact names: `page_{i:03d}.png`, `page_{i:03d}.mp3` and
    `page_{i:03d}_video.mp4`, where `{i:03d}` is the decimal ordinal
    zero-padded to a minimum width of three. */
module Naming {

  import opened Wrappers

  /** The minimum width of the padded ordinal. */
  const OrdinalWidth: nat := 3

  const NamePrefix: string := "page_"
  const ImageSuffix: string := ".png"
  const AudioSuffix: string := ".mp3"
  const VideoSuffix: string := "_video.mp4"

  predicate IsDigit(c: char)
  {
    '0' <= c <= '9'
  }

  predicate AllDigits(s: string)
  {
    forall k :: 0 <= k < |s| ==> IsDigit(s[k])
  }

  function DigitChar(d: nat): (c: char)
    requires d < 10
    ensures IsDigit(c) && c as int - '0' as int == d
  {
    ('0' as int + d) as char
  }

  function DigitValue(c: char): (d: nat)
    requires IsDigit(c)
    ensures d < 10
  {
    c as int - '0' as int
  }

  function Pow10(k: nat): (p: nat)
    ensures p >= 1
  {
    if k == 0 then 1 else 10 * Pow10(k - 1)
  }

  /** The decimal digits of n, most significant first, without leading
      zeros ("0" for zero), as Python's `format(n, 'd')`. */
  function Decimal(n: nat): (s: string)
    ensures |s| >= 1 && AllDigits(s)
    ensures n > 0 ==> s[0] != '0'
  {
    if n < 10 then [DigitChar(n)] else Decimal(n / 10) + [DigitChar(n % 10)]
  }

  function Zeros(k: nat): string
  {
    seq(k, _ => '0')
  }

  /** `format(i, '03d')` for a non-negative i: the decimal digits, preceded
      by as many zeros as make up a width of three. */
  function Ordinal(i: nat): string
  {
    var d := Decimal(i);
    if |d| >= OrdinalWidth then d else Zeros(OrdinalWidth - |d|) + d
  }

  /** The value of a string of decimal digits. */
  function ParseDecimal(s: string): nat
    requires AllDigits(s)
  {
    if s == [] then 0 else 10 * ParseDecimal(s[..|s| - 1]) + DigitValue(s[|s| - 1])
  }

  /** The file name of an artifact of page i with the given suffix. */
  function PageFileName(i: nat, suffix: string): string
  {
    NamePrefix + Ordinal(i) + suffix
  }

  function ImageName(i: nat): string { PageFileName(i, ImageSuffix) }

  function AudioName(i: nat): string { PageFileName(i, AudioSuffix) }

  function VideoName(i: nat): string { PageFileName(i, VideoSuffix) }

  /** Reads the page ordinal back out of a file name `page_<digits><suffix>`;
      None when the name does not have that shape. */
  function ParsePageFileName(name: string, suffix: string): Option<nat>
  {
    var p := |NamePrefix|;
    if |name| > p + |suffix| && name[..p] == NamePrefix && name[|name| - |suffix|..] == suffix
       && AllDigits(name[p..|name| - |suffix|])
    then Some(ParseDecimal(name[p..|name| - |suffix|]))
    else None
  }

  lemma {:induction false} ParseDecimalOfDecimal(n: nat)
    ensures ParseDecimal(Decimal(n)) == n
  {
    var s := Decimal(n);
    if n >= 10 {
      assert s[..|s| - 1] == Decimal(n / 10);
      ParseDecimalOfDecimal(n / 10);
    } else {
      assert s[..0] == [];
    }
  }

  lemma {:induction false} ParseDecimalOfZeros(k: nat)
    ensures ParseDecimal(Zeros(k)) == 0
  {
    if k > 0 {
      assert Zeros(k)[..k - 1] == Zeros(k - 1);
      ParseDecimalOfZeros(k - 1);
    }
  }

  /** Leading zeros do not change the value of a digit string. */
  lemma {:induction false} ParseDecimalLeadingZeros(k: nat, s: string)
    requires AllDigits(s)
    ensures AllDigits(Zeros(k) + s) && ParseDecimal(Zeros(k) + s) == ParseDecimal(s)
    decreases |s|
  {
    var t := Zeros(k) + s;
    if s == [] {
      assert t == Zeros(k);
      ParseDecimalOfZeros(k);
    } else {
      assert t[..|t| - 1] == Zeros(k) + s[..|s| - 1];
      ParseDecimalLeadingZeros(k, s[..|s| - 1]);
    }
  }

  /** A number has at most k >= 1 decimal digits exactly when it is below 10^k. */
  lemma {:induction false} DecimalLength(n: nat, k: nat)
    requires k >= 1
    ensures |Decimal(n)| <= k <==> n < Pow10(k)
  {
    if n >= 10 {
      if k == 1 {
        assert Pow10(1) == 10;
      } else {
        DecimalLength(n / 10, k - 1);
        assert n / 10 < Pow10(k - 1) <==> n < 10 * Pow10(k - 1);
      }
    } else {
      assert k >= 1 ==> Pow10(k) == 10 * Pow10(k - 1);
    }
  }

  /** The padded ordinal is all digits, has length max(3, digits(i)), and
      decodes back to i. */
  lemma OrdinalRoundTrip(i: nat)
    ensures AllDigits(Ordinal(i))
    ensures |Ordinal(i)| == if |Decimal(i)| >= OrdinalWidth then |Decimal(i)| else OrdinalWidth
    ensures ParseDecimal(Ordinal(i)) == i
  {
    var d := Decimal(i);
    ParseDecimalOfDecimal(i);
    if |d| < OrdinalWidth {
      ParseDecimalLeadingZeros(OrdinalWidth - |d|, d);
    }
  }

  /** The ordinal is exactly three characters wide for i below 1000, and
      is the plain decimal (no padding) from 100 on. */
  lemma OrdinalWidthBound(i: nat)
    ensures |Ordinal(i)| == 3 <==> i < 1000
    ensures i >= 100 ==> Ordinal(i) == Decimal(i)
  {
    DecimalLength(i, 3);
    DecimalLength(i, 2);
    assert Pow10(3) == 1000 && Pow10(2) == 100;
  }

  /** Distinct pages get distinct ordinals. */
  lemma OrdinalInjective(i: nat, j: nat)
    requires Ordinal(i) == Ordinal(j)
    ensures i == j
  {
    OrdinalRoundTrip(i);
    OrdinalRoundTrip(j);
  }

  /** The page ordinal can be read back from any artifact file name. */
  lemma PageFileNameRoundTrip(i: nat, suffix: string)
    ensures ParsePageFileName(PageFileName(i, suffix), suffix) == Some(i)
  {
    var name := PageFileName(i, suffix);
    var p := |NamePrefix|;
    OrdinalRoundTrip(i);
    assert name[..p] == NamePrefix;
    assert name[|name| - |suffix|..] == suffix;
    assert name[p..|name| - |suffix|] == Ordinal(i);
  }

  /** Distinct pages get distinct image, audio and video file names. */
  lemma PageFileNameInjective(i: nat, j: nat, suffix: string)
    requires PageFileName(i, suffix) == PageFileName(j, suffix)
    ensures i == j
  {
    PageFileNameRoundTrip(i, suffix);
    PageFileNameRoundTrip(j, suffix);
  }

  /** The image, audio and video names of any two pages never coincide. */
  lemma KindsDistinct(i: nat, j: nat)
    ensures ImageName(i) != AudioName(j)
    ensures ImageName(i) != VideoName(j)
    ensures AudioName(i) != VideoName(j)
  {
    var a, b, c := ImageName(i), AudioName(j), VideoName(j);
    var b2 := AudioName(i);
    assert a[|a| - 1] == 'g';
    assert b[|b| - 1] == '3';
    assert c[|c| - 1] == '4';
    assert b2[|b2| - 1] == '3';
  }
}
