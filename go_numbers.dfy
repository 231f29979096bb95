/** Go's fixed-width unsigned integers and the base-10 parsing that
    `makeInt` (heka/cmd/get-clients/main.go) builds on:
    `strconv.ParseUint(s, 10, 64)`, `strconv.ParseInt(s, 10, 64)` and
    `makeInt` itself, which narrows the result to `uint32`. */
module GoNumbers {
  import opened Wrappers
  import opened Digits

  const MaxUint32: nat := 0xFFFF_FFFF
  const MaxInt64: nat := 0x7FFF_FFFF_FFFF_FFFF
  const MaxUint64: nat := 0xFFFF_FFFF_FFFF_FFFF

  /** Go's `uint32`. */
  type Uint32 = x: int | 0 <= x <= 0xFFFF_FFFF

  /** Go's `uint64`, the type of a `flag.Uint64` value. */
  type Uint64 = x: int | 0 <= x <= 0xFFFF_FFFF_FFFF_FFFF

  /** Addition in `uint32`: the sum modulo 2^32. */
  function AddUint32(a: Uint32, b: int): (r: Uint32)
    ensures 0 <= a + b <= MaxUint32 ==> r == a + b
    ensures (r - (a + b)) % 0x1_0000_0000 == 0
  {
    (a + b) % 0x1_0000_0000
  }

  /** `strconv.ErrSyntax` and `strconv.ErrRange`. */
  datatype NumError = ErrSyntax | ErrRange

  /** `makeInt`'s errors: the one `strconv.ParseInt` returned, or the
      out-of-range error it makes itself. */
  datatype IntError = Strconv(cause: NumError) | OutOfUint32

  /** The loop of `strconv.ParseUint(s, 10, 64)` from the digit `s[0]` on,
      with `n` read so far: a non-digit is a syntax error, and the first
      step past 2^64 - 1 is a range error returning the largest value. */
  function ParseUintFrom(s: string, n: nat): (nat, Option<NumError>)
    decreases |s|
  {
    if s == [] then (n, None)
    else if !IsDigit(s[0]) then (0, Some(ErrSyntax))
    else if n >= MaxUint64 / 10 + 1 then (MaxUint64, Some(ErrRange))
    else
      var n1 := 10 * n + DigitValue(s[0]);
      if n1 > MaxUint64 then (MaxUint64, Some(ErrRange))
      else ParseUintFrom(s[1..], n1)
  }

  /** `strconv.ParseUint(s, 10, 64)`: the empty string is a syntax error. */
  function ParseUint(s: string): (nat, Option<NumError>) {
    if s == [] then (0, Some(ErrSyntax)) else ParseUintFrom(s, 0)
  }

  predicate IsSign(c: char) {
    c == '+' || c == '-'
  }

  /** The string without its leading sign, if it has one. */
  function Unsigned(s: string): (u: string)
    ensures |u| <= |s|
  {
    if |s| > 0 && IsSign(s[0]) then s[1..] else s
  }

  /** `strconv.ParseInt(s, 10, 64)`: an optional sign, then the unsigned
      parse of the rest, checked against the `int64` bounds. */
  function ParseInt(s: string): (int, Option<NumError>) {
    if s == [] then (0, Some(ErrSyntax))
    else
      var neg := s[0] == '-';
      var un := ParseUint(Unsigned(s));
      if un.1.Some? && un.1.value != ErrRange then (0, un.1)
      else if !neg && un.0 >= MaxInt64 + 1 then (MaxInt64, Some(ErrRange))
      else if neg && un.0 > MaxInt64 + 1 then (-(MaxInt64 + 1), Some(ErrRange))
      else (if neg then -(un.0 as int) else un.0 as int, None)
  }

  /** `makeInt`: the string as a base-10 `int64`, if that lies in the
      `uint32` range; 0 and an error otherwise. */
  function MakeInt(numstr: string): (Uint32, Option<IntError>) {
    var i := ParseInt(numstr);
    if i.1.Some? then (0, Some(Strconv(i.1.value)))
    else if i.0 < 0 || i.0 > MaxUint32 then (0, Some(OutOfUint32))
    else (i.0, None)
  }

  // ----- What the parsers accept -----

  /** Go's base-10 integer syntax: an optional sign, then one or more
      decimal digits. */
  predicate IsDecimalInt(s: string) {
    |Unsigned(s)| > 0 && AllDigits(Unsigned(s))
  }

  /** The integer a decimal string denotes. */
  function DecimalIntValue(s: string): int
    requires IsDecimalInt(s)
  {
    var m: int := DigitsValue(Unsigned(s));
    if s[0] == '-' then -m else m
  }

  /** The unsigned loop succeeds exactly on digit strings whose value fits
      in 64 bits, and then returns that value; an overflow returns the
      largest value. */
  lemma {:induction false} ParseUintFromMeaning(s: string, n: nat)
    requires n <= MaxUint64
    ensures ParseUintFrom(s, n).1.None? <==> AllDigits(s) && DigitsFrom(n, s) <= MaxUint64
    ensures ParseUintFrom(s, n).1.None? ==> ParseUintFrom(s, n).0 == DigitsFrom(n, s)
    ensures ParseUintFrom(s, n).1 == Some(ErrRange) ==> ParseUintFrom(s, n).0 == MaxUint64
    decreases |s|
  {
    if s != [] && IsDigit(s[0]) {
      var n1 := 10 * n + DigitValue(s[0]);
      assert AllDigits(s) ==> AllDigits(s[1..]) && DigitsFrom(n, s) == DigitsFrom(n1, s[1..]);
      if n >= MaxUint64 / 10 + 1 || n1 > MaxUint64 {
        if AllDigits(s) {
          DigitsFromAtLeast(n1, s[1..]);
        }
      } else {
        ParseUintFromMeaning(s[1..], n1);
        assert AllDigits(s[1..]) ==> AllDigits(s) by {
          if AllDigits(s[1..]) {
            forall i | 0 <= i < |s| ensures IsDigit(s[i]) {
              if i > 0 { assert s[i] == s[1..][i - 1]; }
            }
          }
        }
      }
    }
  }

  /** `strconv.ParseUint(s, 10, 64)` succeeds exactly on non-empty digit
      strings below 2^64, and returns their value. */
  lemma ParseUintMeaning(s: string)
    ensures ParseUint(s).1.None? <==> |s| > 0 && AllDigits(s) && DigitsValue(s) <= MaxUint64
    ensures ParseUint(s).1.None? ==> ParseUint(s).0 == DigitsValue(s)
    ensures ParseUint(s).1 == Some(ErrRange) ==> ParseUint(s).0 == MaxUint64
  {
    if s != [] {
      ParseUintFromMeaning(s, 0);
    }
  }

  /** `strconv.ParseInt(s, 10, 64)` succeeds exactly on decimal strings
      whose value lies in the `int64` range, and returns that value. */
  lemma ParseIntMeaning(s: string)
    ensures ParseInt(s).1.None? <==> IsDecimalInt(s) && -(MaxInt64 + 1) <= DecimalIntValue(s) <= MaxInt64
    ensures ParseInt(s).1.None? ==> ParseInt(s).0 == DecimalIntValue(s)
  {
    ParseUintMeaning(Unsigned(s));
  }

  /** `makeInt` succeeds exactly when the string is a decimal integer
      between 0 and 4294967295, and returns its value; on failure it
      returns 0. */
  lemma MakeIntMeaning(s: string)
    ensures MakeInt(s).1.None? <==> IsDecimalInt(s) && 0 <= DecimalIntValue(s) <= MaxUint32
    ensures MakeInt(s).1.None? ==> MakeInt(s).0 == DecimalIntValue(s)
    ensures MakeInt(s).1.Some? ==> MakeInt(s).0 == 0
  {
    ParseIntMeaning(s);
  }

  /** Reading back what `%d` prints: `makeInt` inverts the decimal
      rendering of every `uint32`. */
  lemma MakeIntDecimal(v: Uint32)
    ensures MakeInt(Decimal(v)) == (v, None)
  {
    var s := Decimal(v);
    assert IsDigit(s[0]);
    assert Unsigned(s) == s;
    PaddedValue(v, 1);
    MakeIntMeaning(s);
  }

  /** A leading `+` is accepted and a leading `-` is accepted on zero. */
  lemma MakeIntSigned(v: Uint32)
    ensures MakeInt("+" + Decimal(v)) == (v, None)
    ensures MakeInt("-" + Decimal(v)) == if v == 0 then (0, None) else (0, Some(OutOfUint32))
  {
    var s := Decimal(v);
    assert Unsigned("+" + s) == s && Unsigned("-" + s) == s;
    PaddedValue(v, 1);
    MakeIntMeaning("+" + s);
    MakeIntMeaning("-" + s);
    ParseIntMeaning("-" + s);
  }
}
