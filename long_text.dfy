/**
  Java's `long` and the decimal text that string concatenation (`"..." + id`)
  produces for it, i.e. `Long.toString`. Both services splice member ids into
  strings this way: request paths, audit details and the not-found message.
  `ParseLong` is a reference reader for exactly that text; the round trip
  `ParseLong(LongToString(n)) == Some(n)` shows that the text names its id.
*/
module LongText {
  import opened Wrappers

  const LONG_MIN: int := -0x8000_0000_0000_0000
  const LONG_MAX: int := 0x7FFF_FFFF_FFFF_FFFF

  /** A value of Java's 64-bit signed `long` (`Long`). */
  type Long = n: int | LONG_MIN <= n <= LONG_MAX

  predicate IsDigit(c: char) {
    '0' <= c <= '9'
  }

  predicate AllDigits(s: string) {
    forall i :: 0 <= i < |s| ==> IsDigit(s[i])
  }

  function DigitChar(d: nat): (c: char)
    requires d < 10
    ensures IsDigit(c) && c as int - '0' as int == d
  {
    (d + '0' as int) as char
  }

  /** The decimal digits of `n`, most significant first, without leading zeros. */
  function Digits(n: nat): (s: string)
    ensures s != [] && AllDigits(s)
    ensures n > 0 ==> s[0] != '0'
    decreases n
  {
    if n < 10 then [DigitChar(n)] else Digits(n / 10) + [DigitChar(n % 10)]
  }

  /** `Long.toString(n)`: a minus sign for negative values, then the digits of the magnitude. */
  function LongToString(n: Long): (s: string)
    ensures s != []
    ensures (s[0] == '-') <==> n < 0
    ensures AllDigits(if n < 0 then s[1..] else s)
    // canonical form: zero is "0", any other value has no leading zero
    ensures n == 0 ==> s == "0"
    ensures n != 0 ==> |s| > (if n < 0 then 1 else 0) && s[if n < 0 then 1 else 0] != '0'
  {
    if n < 0 then "-" + Digits(-(n as int)) else Digits(n)
  }

  /** The number a string of decimal digits denotes. */
  function DigitsValue(s: string): nat
    requires AllDigits(s)
  {
    if s == [] then 0 else DigitsValue(s[..|s| - 1]) * 10 + (s[|s| - 1] as int - '0' as int)
  }

  /** Reads an optional minus sign followed by at least one decimal digit, within the `long` range. */
  function ParseLong(s: string): (r: Option<Long>)
  {
    if s != [] && s[0] == '-' then
      var t := s[1..];
      if t != [] && AllDigits(t) && LONG_MIN <= -(DigitsValue(t) as int) then Some(-(DigitsValue(t) as int)) else None
    else if s != [] && AllDigits(s) && DigitsValue(s) <= LONG_MAX then Some(DigitsValue(s))
    else None
  }

  lemma {:induction false} DigitsValueOfDigits(n: nat)
    ensures DigitsValue(Digits(n)) == n
    decreases n
  {
    if n >= 10 {
      var s := Digits(n);
      assert s[..|s| - 1] == Digits(n / 10);
      DigitsValueOfDigits(n / 10);
    }
  }

  /** The text of a `long` reads back as that `long`. */
  lemma LongRoundTrip(n: Long)
    ensures ParseLong(LongToString(n)) == Some(n)
  {
    var s := LongToString(n);
    if n < 0 {
      assert s[1..] == Digits(-(n as int));
      DigitsValueOfDigits(-(n as int));
    } else {
      DigitsValueOfDigits(n);
    }
  }

  /** Distinct ids never print alike. */
  lemma LongToStringInjective(a: Long, b: Long)
    ensures LongToString(a) == LongToString(b) ==> a == b
  {
    LongRoundTrip(a);
    LongRoundTrip(b);
  }

  /** Whatever fixed text precedes it, the id can be read back from the end of the string. */
  lemma IdAfterPrefix(prefix: string, id: Long)
    ensures ParseLong((prefix + LongToString(id))[|prefix|..]) == Some(id)
  {
    assert (prefix + LongToString(id))[|prefix|..] == LongToString(id);
    LongRoundTrip(id);
  }

  /** Two strings made of the same prefix and an id are equal only for equal ids. */
  lemma PrefixedIdInjective(prefix: string, a: Long, b: Long)
    ensures prefix + LongToString(a) == prefix + LongToString(b) ==> a == b
  {
    IdAfterPrefix(prefix, a);
    IdAfterPrefix(prefix, b);
  }
}
