/** The pieces of Rust's standard library that the BDF parser relies on:
    integer widths, `str::starts_with`, `str::split_whitespace`,
    `str::parse::<usize>()`, `str::parse::<isize>()`,
    `u16::from_str_radix(_, 16)` and `usize::to_string()`.
    A 64-bit target is assumed for `usize` and `isize`. */
module Lexical {
  import opened Results

  const USIZE_MAX: int := 0xFFFF_FFFF_FFFF_FFFF
  const ISIZE_MIN: int := -0x8000_0000_0000_0000
  const ISIZE_MAX: int := 0x7FFF_FFFF_FFFF_FFFF
  const U16_LIMIT: int := 0x1_0000

  type usize = x: int | 0 <= x <= USIZE_MAX
  type isize = x: int | ISIZE_MIN <= x <= ISIZE_MAX
  type u16 = x: int | 0 <= x < U16_LIMIT

  /** `s.starts_with(prefix)` */
  predicate StartsWith(s: string, prefix: string) {
    |prefix| <= |s| && s[..|prefix|] == prefix
  }

  /** `char::is_whitespace`: the Unicode White_Space property. */
  predicate IsWhitespace(c: char) {
    ('\t' <= c <= '\r') || c == ' ' || c == '\U{0085}' || c == '\U{00A0}' || c == '\U{1680}'
    || ('\U{2000}' <= c <= '\U{200A}') || c == '\U{2028}' || c == '\U{2029}'
    || c == '\U{202F}' || c == '\U{205F}' || c == '\U{3000}'
  }

  predicate NoWhitespace(s: string) {
    forall k | 0 <= k < |s| :: !IsWhitespace(s[k])
  }

  /** Length of the run of non-whitespace characters that starts `s`. */
  function TokenLength(s: string): (n: nat)
    ensures n <= |s|
    ensures NoWhitespace(s[..n])
    ensures n == |s| || IsWhitespace(s[n])
  {
    if s == [] || IsWhitespace(s[0]) then 0 else 1 + TokenLength(s[1..])
  }

  /** `s.split_whitespace().collect()` */
  function SplitWhitespace(s: string): (parts: seq<string>)
    ensures forall k | 0 <= k < |parts| :: parts[k] != [] && NoWhitespace(parts[k])
    ensures Concat(parts) == Unspaced(s)
    decreases |s|
  {
    if s == [] then []
    else if IsWhitespace(s[0]) then SplitWhitespace(s[1..])
    else
      var n := TokenLength(s);
      TokenThenRest(s, n);
      [s[..n]] + SplitWhitespace(s[n..])
  }

  function Concat(parts: seq<string>): string {
    if parts == [] then [] else parts[0] + Concat(parts[1..])
  }

  /** The characters of `s` that are not whitespace, in order. */
  function Unspaced(s: string): string {
    if s == [] then []
    else if IsWhitespace(s[0]) then Unspaced(s[1..])
    else [s[0]] + Unspaced(s[1..])
  }

  lemma {:induction false} UnspacedAppend(a: string, b: string)
    ensures Unspaced(a + b) == Unspaced(a) + Unspaced(b)
    decreases |a|
  {
    if a != [] {
      assert (a + b)[1..] == a[1..] + b;
      UnspacedAppend(a[1..], b);
    } else {
      assert a + b == b;
    }
  }

  lemma {:induction false} UnspacedOfToken(t: string)
    requires NoWhitespace(t)
    ensures Unspaced(t) == t
    decreases |t|
  {
    if t != [] {
      UnspacedOfToken(t[1..]);
    }
  }

  lemma TokenThenRest(s: string, n: nat)
    requires n == TokenLength(s)
    ensures Unspaced(s) == s[..n] + Unspaced(s[n..])
  {
    assert s == s[..n] + s[n..];
    UnspacedAppend(s[..n], s[n..]);
    UnspacedOfToken(s[..n]);
  }

  /** The token length does not look past the first whitespace character. */
  lemma {:induction false} TokenLengthAppend(a: string, w: char, b: string)
    requires IsWhitespace(w)
    ensures TokenLength(a + [w] + b) == TokenLength(a)
    decreases |a|
  {
    if a == [] {
      assert (a + [w] + b)[0] == w;
    } else if !IsWhitespace(a[0]) {
      assert (a + [w] + b)[1..] == a[1..] + [w] + b;
      TokenLengthAppend(a[1..], w, b);
    }
  }

  lemma {:induction false} TokenLengthOfToken(t: string)
    requires NoWhitespace(t)
    ensures TokenLength(t) == |t|
    decreases |t|
  {
    if t != [] {
      assert forall k | 0 <= k < |t| - 1 :: t[1..][k] == t[k + 1];
      TokenLengthOfToken(t[1..]);
    }
  }

  /** A non-empty string without whitespace is a single token. */
  lemma SingleToken(t: string)
    requires t != [] && NoWhitespace(t)
    ensures SplitWhitespace(t) == [t]
  {
    TokenLengthOfToken(t);
    assert t[..|t|] == t && t[|t|..] == [];
  }

  /** Splitting at a whitespace character splits the token list there. */
  lemma {:induction false} SplitWhitespaceAppend(a: string, w: char, b: string)
    requires IsWhitespace(w)
    ensures SplitWhitespace(a + [w] + b) == SplitWhitespace(a) + SplitWhitespace(b)
    decreases |a|
  {
    var s := a + [w] + b;
    if a == [] {
      assert s[1..] == b;
    } else if IsWhitespace(a[0]) {
      assert s[1..] == a[1..] + [w] + b;
      SplitWhitespaceAppend(a[1..], w, b);
    } else {
      var n := TokenLength(a);
      TokenLengthAppend(a, w, b);
      assert s[..n] == a[..n];
      assert s[n..] == a[n..] + [w] + b;
      SplitWhitespaceAppend(a[n..], w, b);
    }
  }

  // Decimal digits

  predicate IsDigit(c: char) {
    '0' <= c <= '9'
  }

  predicate AllDigits(s: string) {
    forall k | 0 <= k < |s| :: IsDigit(s[k])
  }

  function DigitValue(c: char): nat
    requires IsDigit(c)
  {
    (c as int) - ('0' as int)
  }

  function DigitChar(d: nat): (c: char)
    requires d < 10
    ensures IsDigit(c) && DigitValue(c) == d
  {
    ('0' as int + d) as char
  }

  /** The number written by a string of decimal digits, most significant first. */
  function DecimalValue(s: string): nat
    requires AllDigits(s)
  {
    if s == [] then 0 else 10 * DecimalValue(s[..|s| - 1]) + DigitValue(s[|s| - 1])
  }

  /** `n.to_string()`: decimal digits without leading zeros. */
  function DecimalString(n: nat): (s: string)
    ensures s != [] && AllDigits(s)
    ensures |s| > 1 ==> s[0] != '0'
  {
    if n < 10 then [DigitChar(n)] else DecimalString(n / 10) + [DigitChar(n % 10)]
  }

  // Hexadecimal digits

  predicate IsHexDigit(c: char) {
    IsDigit(c) || 'a' <= c <= 'f' || 'A' <= c <= 'F'
  }

  predicate AllHexDigits(s: string) {
    s == [] || (AllHexDigits(s[..|s| - 1]) && IsHexDigit(s[|s| - 1]))
  }

  function HexDigitValue(c: char): (d: nat)
    requires IsHexDigit(c)
    ensures d < 16
  {
    if IsDigit(c) then DigitValue(c)
    else if 'a' <= c <= 'f' then 10 + ((c as int) - ('a' as int))
    else 10 + ((c as int) - ('A' as int))
  }

  function HexValue(s: string): nat
    requires AllHexDigits(s)
  {
    if s == [] then 0 else 16 * HexValue(s[..|s| - 1]) + HexDigitValue(s[|s| - 1])
  }

  // The integer parsers of the standard library. Each accepts an optional
  // leading '+', a leading '-' only for signed types, trims nothing, and
  // fails on an empty string, a stray character or an out-of-range value.

  /** The digits that follow an optional leading '+'. */
  function Unsigned(s: string): string {
    if |s| > 0 && s[0] == '+' then s[1..] else s
  }

  /** `s.parse::<usize>()` */
  function ParseUsize(s: string): (r: Option<usize>)
    ensures r.Some? ==> |s| > 0 && NoWhitespace(s)
  {
    var digits := Unsigned(s);
    if digits != [] && AllDigits(digits) && DecimalValue(digits) <= USIZE_MAX
    then Some(DecimalValue(digits))
    else None
  }

  /** `s.parse::<isize>()` */
  function ParseIsize(s: string): (r: Option<isize>)
    ensures r.Some? ==> |s| > 0 && NoWhitespace(s)
  {
    if |s| > 0 && s[0] == '-' then
      var digits := s[1..];
      if digits != [] && AllDigits(digits) && DecimalValue(digits) <= -ISIZE_MIN
      then Some(-(DecimalValue(digits) as int))
      else None
    else
      var digits := Unsigned(s);
      if digits != [] && AllDigits(digits) && DecimalValue(digits) <= ISIZE_MAX
      then Some(DecimalValue(digits))
      else None
  }

  /** `u16::from_str_radix(s, 16)` */
  function ParseHexU16(s: string): (r: Option<u16>)
    ensures r.Some? ==> |s| > 0 && s[0] != '-' && NoWhitespace(s)
  {
    var digits := Unsigned(s);
    if digits != [] && AllHexDigits(digits) && HexValue(digits) < U16_LIMIT then
      HexDigitsAreNotWhitespace(digits);
      assert s[0] == '+' ==> s == "+" + digits;
      Some(HexValue(digits))
    else None
  }

  lemma {:induction false} HexDigitsAreNotWhitespace(s: string)
    requires AllHexDigits(s)
    ensures NoWhitespace(s) && (s != [] ==> s[0] != '-')
  {
    if s != [] {
      HexDigitsAreNotWhitespace(s[..|s| - 1]);
      assert forall k | 0 <= k < |s| - 1 :: s[k] == s[..|s| - 1][k];
    }
  }

  /** At most two characters write a number below 256. */
  lemma ShortHexBelow256(s: string)
    requires ParseHexU16(s).Some? && |s| <= 2
    ensures ParseHexU16(s).value < 256
  {
    var digits := Unsigned(s);
    if |digits| == 1 {
      assert digits[..0] == [];
      assert HexValue(digits) == HexDigitValue(digits[0]);
    } else if |digits| == 2 {
      var high := digits[..1];
      assert high[..0] == [] && high == digits[..|digits| - 1];
      assert AllHexDigits(high);
      assert IsHexDigit(high[|high| - 1]);
      assert HexValue(high) == HexDigitValue(high[0]);
      assert HexValue(digits) == 16 * HexValue(high) + HexDigitValue(digits[1]);
    }
  }

  // Properties of the parsers

  lemma {:induction false} DecimalValueOfString(n: nat)
    ensures DecimalValue(DecimalString(n)) == n
  {
    if n >= 10 {
      var s := DecimalString(n);
      var init := DecimalString(n / 10);
      assert s[..|s| - 1] == init;
      DecimalValueOfString(n / 10);
    }
  }

  /** `n.to_string().parse::<usize>() == Ok(n)` */
  lemma DecimalRoundTrip(n: usize)
    ensures ParseUsize(DecimalString(n)) == Some(n)
    ensures ParseUsize("+" + DecimalString(n)) == Some(n)
  {
    DecimalValueOfString(n);
    var s := DecimalString(n);
    assert s[0] != '+';
    assert ("+" + s)[1..] == s;
  }

  /** Signed parsing agrees with unsigned parsing on what both accept, and
      reads a leading '-' as negation down to `isize::MIN`. */
  lemma SignedRoundTrip(n: nat)
    requires n <= -ISIZE_MIN
    ensures n <= ISIZE_MAX ==> ParseIsize(DecimalString(n)) == Some(n)
    ensures ParseIsize("-" + DecimalString(n)) == Some(-(n as int))
  {
    DecimalValueOfString(n);
    var s := DecimalString(n);
    assert s[0] != '+' && s[0] != '-';
    assert ("-" + s)[1..] == s;
  }

  /** Unsigned parsing refuses a sign of '-', an empty string and `usize::MAX + 1`. */
  lemma UnsignedRejects(t: string)
    ensures ParseUsize("-" + t) == None
    ensures ParseUsize("") == None
    ensures ParseUsize("+") == None
    ensures ParseUsize(DecimalString(USIZE_MAX + 1)) == None
  {
    assert !IsDigit(("-" + t)[0]);
    DecimalValueOfString(USIZE_MAX + 1);
  }
}
