/** Decimal digits: the zero-padded rendering that `strftime` and Go's `%d`
    produce, and the value a digit string denotes. Shared by the rollup
    model (shard names, artifact paths) and the offset-index model
    (`strconv.ParseInt`, the Range header). */
module Digits {

  predicate IsDigit(c: char) {
    '0' <= c <= '9'
  }

  predicate AllDigits(s: string) {
    forall i :: 0 <= i < |s| ==> IsDigit(s[i])
  }

  function DigitChar(v: nat): (c: char)
    requires v < 10
    ensures IsDigit(c) && DigitValue(c) == v
  {
    (('0' as int) + v) as char
  }

  function DigitValue(c: char): (v: nat)
    requires IsDigit(c)
    ensures v < 10
  {
    (c as int) - ('0' as int)
  }

  /** `v` in decimal, with leading zeros up to at least `width` digits
      (`%04d`-style); width 0 or 1 gives the plain decimal rendering. */
  function Padded(v: nat, width: nat): (s: string)
    ensures |s| >= 1 && |s| >= width
    ensures AllDigits(s)
    decreases v, width
  {
    if v < 10 && width <= 1 then [DigitChar(v)]
    else Padded(v / 10, if width == 0 then 0 else width - 1) + [DigitChar(v % 10)]
  }

  /** The plain decimal rendering, as Go's `%d` and Python's str() print a
      non-negative integer. */
  function Decimal(v: nat): (s: string)
    ensures AllDigits(s) && |s| >= 1
  {
    Padded(v, 1)
  }

  /** Reading digits left to right onto an accumulator: `acc` followed
      by the digits of `s`. This is how `strconv` accumulates a number. */
  function DigitsFrom(acc: nat, s: string): nat
    requires AllDigits(s)
    decreases |s|
  {
    if s == [] then acc else DigitsFrom(10 * acc + DigitValue(s[0]), s[1..])
  }

  /** The number a non-empty or empty digit string denotes (empty is 0). */
  function DigitsValue(s: string): nat
    requires AllDigits(s)
  {
    DigitsFrom(0, s)
  }

  /** Appending a digit multiplies the value read so far by ten and adds
      that digit. */
  lemma {:induction false} DigitsFromSnoc(acc: nat, s: string, c: char)
    requires AllDigits(s) && IsDigit(c)
    ensures AllDigits(s + [c])
    ensures DigitsFrom(acc, s + [c]) == 10 * DigitsFrom(acc, s) + DigitValue(c)
    decreases |s|
  {
    assert AllDigits(s + [c]) by {
      forall i | 0 <= i < |s + [c]| ensures IsDigit((s + [c])[i]) {
        if i < |s| { assert (s + [c])[i] == s[i]; }
      }
    }
    if s == [] {
      assert [c][1..] == [];
    } else {
      assert (s + [c])[0] == s[0];
      assert (s + [c])[1..] == s[1..] + [c];
      DigitsFromSnoc(10 * acc + DigitValue(s[0]), s[1..], c);
    }
  }

  /** Reading the digits onto an accumulator never decreases it. */
  lemma {:induction false} DigitsFromAtLeast(acc: nat, s: string)
    requires AllDigits(s)
    ensures DigitsFrom(acc, s) >= acc
    ensures s != [] ==> DigitsFrom(acc, s) >= 10 * acc
    decreases |s|
  {
    if s != [] {
      DigitsFromAtLeast(10 * acc + DigitValue(s[0]), s[1..]);
    }
  }

  /** The padded rendering denotes `v`: printing then reading is the
      identity. */
  lemma {:induction false} PaddedValue(v: nat, width: nat)
    ensures DigitsValue(Padded(v, width)) == v
    decreases v, width
  {
    if v < 10 && width <= 1 {
      var s := Padded(v, width);
      assert s == [DigitChar(v)] && s[1..] == [];
      assert DigitsFrom(0, s) == DigitsFrom(DigitValue(s[0]), []);
    } else {
      var w' := if width == 0 then 0 else width - 1;
      PaddedValue(v / 10, w');
      DigitsFromSnoc(0, Padded(v / 10, w'), DigitChar(v % 10));
    }
  }

  /** Distinct numbers never print alike at the same width. */
  lemma PaddedInjective(a: nat, b: nat, width: nat)
    requires Padded(a, width) == Padded(b, width)
    ensures a == b
  {
    PaddedValue(a, width);
    PaddedValue(b, width);
  }

  /** A number below 10^width prints in exactly `width` digits. */
  lemma {:induction false} PaddedWidth(v: nat, width: nat)
    requires 1 <= width && v < Pow10(width)
    ensures |Padded(v, width)| == width
    decreases width
  {
    if width > 1 {
      assert v / 10 < Pow10(width - 1);
      PaddedWidth(v / 10, width - 1);
    }
  }

  /** A number with at least `width` digits prints the same padded to
      `width` as unpadded. */
  lemma {:induction false} PaddedNarrow(v: nat, width: nat)
    requires 1 <= width && Pow10(width - 1) <= v
    ensures Padded(v, width) == Padded(v, 0)
    decreases width
  {
    if width > 1 {
      assert v >= 10 by {
        Pow10Positive(width - 2);
      }
      assert Pow10(width - 2) <= v / 10;
      PaddedNarrow(v / 10, width - 1);
    }
  }

  lemma {:induction false} Pow10Positive(n: nat)
    ensures Pow10(n) >= 1
  {
    if n > 0 {
      Pow10Positive(n - 1);
    }
  }

  /** A number of exactly `n` digits prints in `n` characters. */
  lemma DecimalWidth(v: nat, n: nat)
    requires 1 <= n && Pow10(n - 1) <= v < Pow10(n)
    ensures |Decimal(v)| == n
  {
    PaddedNarrow(v, 1);
    PaddedNarrow(v, n);
    PaddedWidth(v, n);
  }

  function Pow10(n: nat): nat {
    if n == 0 then 1 else 10 * Pow10(n - 1)
  }
}
