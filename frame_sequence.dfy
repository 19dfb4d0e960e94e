/**
 * Names of the frames of an image sequence (components/ParallaxHero.tsx,
 * `TOTAL_FRAMES` and the URL built inside the preload loop).
 *
 * Frame `i` of the sequence stored under folder `base` is fetched from
 * `base + "frame_" + pad3(i) + "_delay-0.04s.png"`, where `pad3(i)` is
 * `i.toString().padStart(3, '0')`.
 */
module FrameSequence {
  import opened Wrappers

  /** Number of frames of every sequence. */
  const TOTAL_FRAMES: nat := 192

  const FRAME_PREFIX: string := "frame_"
  const FRAME_SUFFIX: string := "_delay-0.04s.png"

  predicate IsDigit(c: char) {
    '0' <= c <= '9'
  }

  predicate AllDigits(s: string) {
    forall k :: 0 <= k < |s| ==> IsDigit(s[k])
  }

  function DigitChar(d: nat): (c: char)
    requires d < 10
    ensures IsDigit(c)
  {
    ('0' as int + d) as char
  }

  function DigitValue(c: char): nat
    requires IsDigit(c)
  {
    c as int - '0' as int
  }

  /** `n.toString()` for a non-negative integer: its decimal digits, most significant first. */
  function ToDecimal(n: nat): (s: string)
    ensures |s| >= 1 && AllDigits(s)
    decreases n
  {
    if n < 10 then [DigitChar(n)] else ToDecimal(n / 10) + [DigitChar(n % 10)]
  }

  /** The number a string of decimal digits denotes (leading zeros allowed). */
  function DigitsValue(s: string): nat
    requires AllDigits(s)
  {
    if s == [] then 0 else 10 * DigitsValue(s[..|s| - 1]) + DigitValue(s[|s| - 1])
  }

  /**
   * `s.padStart(targetLength, fill)` for a one-character fill string:
   * `s` itself when it is already long enough, otherwise `s` preceded by
   * as many `fill` characters as make up the difference.
   */
  function PadStart(s: string, targetLength: nat, fill: char): (r: string)
    ensures |r| == if |s| >= targetLength then |s| else targetLength
    ensures r[|r| - |s|..] == s
    ensures forall k :: 0 <= k < |r| - |s| ==> r[k] == fill
  {
    if |s| >= targetLength then s else seq(targetLength - |s|, _ => fill) + s
  }

  /** `i.toString().padStart(3, '0')`. */
  function Pad3(i: nat): string {
    PadStart(ToDecimal(i), 3, '0')
  }


  /** The URL of frame `i` of the sequence stored under `base`. */
  function FrameUrl(base: string, i: nat): string {
    base + FRAME_PREFIX + Pad3(i) + FRAME_SUFFIX
  }

  /**
   * Reads a frame index back out of a URL built under `base`: `None` unless the
   * URL is `base`, the prefix, exactly three digits and the suffix.
   */
  function ParseFrameUrl(base: string, url: string): (r: Option<nat>)
    ensures r.Some? ==> r.value < 1000
  {
    var p := |base| + |FRAME_PREFIX|;
    if |url| == p + 3 + |FRAME_SUFFIX| && url[..|base|] == base && url[|base|..p] == FRAME_PREFIX
       && AllDigits(url[p..p + 3]) && url[p + 3..] == FRAME_SUFFIX
    then
      ThreeDigitsBelow1000(url[p..p + 3]);
      Some(DigitsValue(url[p..p + 3]))
    else None
  }

  lemma ThreeDigitsBelow1000(s: string)
    requires |s| == 3 && AllDigits(s)
    ensures DigitsValue(s) < 1000
  {
    var a, b := s[..1], s[..2];
    assert b[..1] == a && s[..|s| - 1] == b && a[..0] == [];
    assert DigitsValue(a) < 10;
    assert DigitsValue(b) < 100;
  }

  lemma {:induction false} ToDecimalValue(n: nat)
    ensures DigitsValue(ToDecimal(n)) == n
    decreases n
  {
    if n >= 10 {
      var s := ToDecimal(n);
      assert s[..|s| - 1] == ToDecimal(n / 10);
      ToDecimalValue(n / 10);
    }
  }

  lemma {:induction false} ToDecimalLength(n: nat)
    ensures n < 10 ==> |ToDecimal(n)| == 1
    ensures n < 100 ==> |ToDecimal(n)| <= 2
    ensures n < 1000 ==> |ToDecimal(n)| <= 3
    decreases n
  {
    if n >= 10 {
      ToDecimalLength(n / 10);
    }
  }

  lemma {:induction false} ZerosValue(z: string)
    requires forall k :: 0 <= k < |z| ==> z[k] == '0'
    ensures AllDigits(z) && DigitsValue(z) == 0
  {
    if z != [] {
      ZerosValue(z[..|z| - 1]);
    }
  }

  /** Leading zeros do not change the value of a digit string. */
  lemma {:induction false} LeadingZerosValue(z: string, s: string)
    requires forall k :: 0 <= k < |z| ==> z[k] == '0'
    requires AllDigits(s)
    ensures AllDigits(z + s) && DigitsValue(z + s) == DigitsValue(s)
    decreases |s|
  {
    if s == [] {
      assert z + s == z;
      ZerosValue(z);
    } else {
      var t := z + s;
      assert t[..|t| - 1] == z + s[..|s| - 1];
      LeadingZerosValue(z, s[..|s| - 1]);
    }
  }

  /**
   * For every index below 1000, `pad3(i)` is exactly three decimal digits
   * whose value is `i`.
   */
  lemma Pad3Digits(i: nat)
    requires i < 1000
    ensures |Pad3(i)| == 3 && AllDigits(Pad3(i)) && DigitsValue(Pad3(i)) == i
  {
    var d := ToDecimal(i);
    ToDecimalLength(i);
    ToDecimalValue(i);
    var z := seq(3 - |d|, _ => '0');
    assert Pad3(i) == z + d;
    LeadingZerosValue(z, d);
  }

  /** Parsing a frame URL gives back the index it was built from. */
  lemma FrameUrlRoundTrip(base: string, i: nat)
    requires i < 1000
    ensures ParseFrameUrl(base, FrameUrl(base, i)) == Some(i)
  {
    Pad3Digits(i);
    var url := FrameUrl(base, i);
    var p := |base| + |FRAME_PREFIX|;
    assert url[..|base|] == base;
    assert url[|base|..p] == FRAME_PREFIX;
    assert url[p..p + 3] == Pad3(i);
    assert url[p + 3..] == FRAME_SUFFIX;
  }

  /** Distinct frame indices (below 1000) name distinct URLs under the same base. */
  lemma FrameUrlInjective(base: string, i: nat, j: nat)
    requires i < 1000 && j < 1000
    ensures FrameUrl(base, i) == FrameUrl(base, j) <==> i == j
  {
    FrameUrlRoundTrip(base, i);
    FrameUrlRoundTrip(base, j);
  }

  /** `s` holds no path separator. */
  predicate NoSlash(s: string) {
    forall k :: 0 <= k < |s| ==> s[k] != '/'
  }

  /** The fixed parts of a frame's file name hold no `/`. */
  lemma AffixesHaveNoSlash()
    ensures NoSlash(FRAME_PREFIX) && NoSlash(FRAME_SUFFIX)
  {
  }

  /** Nothing after `base` in `base + a + b + c` is a `/` when none of `a`, `b`, `c` holds one. */
  lemma NoSlashAfter(base: string, a: string, b: string, c: string)
    requires NoSlash(a) && NoSlash(b) && NoSlash(c)
    ensures forall k :: |base| <= k < |base + a + b + c| ==> (base + a + b + c)[k] != '/'
  {
    var s := base + a + b + c;
    forall k | |base| <= k < |s|
      ensures s[k] != '/'
    {
      if k < |base| + |a| {
        assert s[k] == a[k - |base|];
      } else if k < |base| + |a| + |b| {
        assert s[k] == b[k - |base| - |a|];
      } else {
        assert s[k] == c[k - |base| - |a| - |b|];
      }
    }
  }

  /**
   * A frame URL starts with the folder URL and what follows it holds no `/`:
   * when `base` ends in `/`, the frame is a file directly inside that folder.
   */
  lemma FrameUrlInFolder(base: string, i: nat)
    requires i < 1000
    ensures |FrameUrl(base, i)| == |base| + 25
    ensures FrameUrl(base, i)[..|base|] == base
    ensures forall k :: |base| <= k < |FrameUrl(base, i)| ==> FrameUrl(base, i)[k] != '/'
  {
    Pad3Digits(i);
    var digits := Pad3(i);
    assert NoSlash(digits) by {
      forall k | 0 <= k < |digits|
        ensures digits[k] != '/'
      {
        assert IsDigit(digits[k]);
      }
    }
    AffixesHaveNoSlash();
    NoSlashAfter(base, FRAME_PREFIX, digits, FRAME_SUFFIX);
  }
}
