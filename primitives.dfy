/** The behaviour of the Rust primitives the orchestrator core relies on:
    fixed-width unsigned integers, `str::trim`, `str::starts_with`,
    `u8::from_str`, and decimal and lower-case hexadecimal rendering. */
module Primitives {
  import opened Wrappers

  type U8 = x: int | 0 <= x < 0x100
  type U32 = x: int | 0 <= x < 0x1_0000_0000

  const U32Modulus: int := 0x1_0000_0000

  // ---------------------------------------------------------------- whitespace

  /** `char::is_whitespace`: the characters with the Unicode White_Space property. */
  predicate IsWhitespace(c: char) {
    var n := c as int;
    (0x09 <= n <= 0x0D) || n == 0x20 || n == 0x85 || n == 0xA0 || n == 0x1680
    || (0x2000 <= n <= 0x200A) || n == 0x2028 || n == 0x2029 || n == 0x202F
    || n == 0x205F || n == 0x3000
  }

  /** The number of whitespace characters `str::trim_start` removes. */
  function LeadingWhitespace(s: string): (k: nat)
    ensures k <= |s|
    ensures forall i :: 0 <= i < k ==> IsWhitespace(s[i])
    ensures k < |s| ==> !IsWhitespace(s[k])
  {
    if |s| > 0 && IsWhitespace(s[0]) then 1 + LeadingWhitespace(s[1..]) else 0
  }

  /** The number of whitespace characters `str::trim_end` removes. */
  function TrailingWhitespace(s: string): (k: nat)
    ensures k <= |s|
    ensures forall i :: |s| - k <= i < |s| ==> IsWhitespace(s[i])
    ensures k < |s| ==> !IsWhitespace(s[|s| - 1 - k])
  {
    if |s| > 0 && IsWhitespace(s[|s| - 1]) then 1 + TrailingWhitespace(s[..|s| - 1]) else 0
  }

  /** `str::trim`: `s` without its leading and trailing whitespace. The result
      is the slice of `s` that starts at the first non-whitespace character and
      ends at the last one; everything cut off on either side is whitespace. */
  function Trim(s: string): (r: string)
    ensures LeadingWhitespace(s) + |r| <= |s|
    ensures r == s[LeadingWhitespace(s)..LeadingWhitespace(s) + |r|]
    ensures forall i :: LeadingWhitespace(s) + |r| <= i < |s| ==> IsWhitespace(s[i])
    ensures r == [] || (!IsWhitespace(r[0]) && !IsWhitespace(r[|r| - 1]))
  {
    var t := s[LeadingWhitespace(s)..];
    t[..|t| - TrailingWhitespace(t)]
  }

  /** Trimming a string whose ends are not whitespace leaves it unchanged. */
  lemma TrimNoop(s: string)
    requires s == [] || (!IsWhitespace(s[0]) && !IsWhitespace(s[|s| - 1]))
    ensures Trim(s) == s
  {
  }

  /** Trimming is idempotent: a trimmed string is trimmed. */
  lemma TrimIdempotent(s: string)
    ensures Trim(Trim(s)) == Trim(s)
  {
    TrimNoop(Trim(s));
  }

  /** A whitespace character at the front makes no difference to trimming. */
  lemma TrimDropsLeadingWhitespace(s: string)
    requires |s| > 0 && IsWhitespace(s[0])
    ensures Trim(s) == Trim(s[1..])
  {
    assert LeadingWhitespace(s) == 1 + LeadingWhitespace(s[1..]);
    assert s[LeadingWhitespace(s)..] == s[1..][LeadingWhitespace(s[1..])..];
  }

  /** A run of whitespace in front of a string is removed by trimming. */
  lemma {:induction false} TrimAfterWhitespace(w: string, s: string)
    requires forall i :: 0 <= i < |w| ==> IsWhitespace(w[i])
    ensures Trim(w + s) == Trim(s)
  {
    if w != [] {
      var ws := w + s;
      assert ws[0] == w[0];
      assert ws[1..] == w[1..] + s;
      TrimDropsLeadingWhitespace(ws);
      TrimAfterWhitespace(w[1..], s);
    } else {
      assert w + s == s;
    }
  }

  // ---------------------------------------------------------------- prefixes

  /** `str::starts_with`. */
  predicate StartsWith(s: string, prefix: string) {
    |prefix| <= |s| && s[..|prefix|] == prefix
  }

  /** `str::strip_prefix`: what follows `prefix`, when `s` starts with it. */
  function StripPrefix(s: string, prefix: string): (r: Option<string>)
    ensures r.Some? <==> StartsWith(s, prefix)
    ensures r.Some? ==> s == prefix + r.value
  {
    if StartsWith(s, prefix) then
      assert s == s[..|prefix|] + s[|prefix|..];
      Some(s[|prefix|..])
    else None
  }

  /** `sub` occurs in `s` starting at offset `p`. */
  predicate OccursAt(s: string, sub: string, p: int) {
    0 <= p && p + |sub| <= |s| && s[p..p + |sub|] == sub
  }

  /** `str::contains`. */
  ghost predicate Contains(s: string, sub: string) {
    exists p :: OccursAt(s, sub, p)
  }

  /** The middle part of a concatenation occurs right after the first part. */
  lemma OccursInConcat(a: string, x: string, c: string)
    ensures OccursAt(a + x + c, x, |a|)
  {
    assert (a + x + c)[|a|..|a| + |x|] == x;
  }

  /** An occurrence is kept when text is appended. */
  lemma OccursBefore(s: string, c: string, x: string, p: int)
    requires OccursAt(s, x, p)
    ensures OccursAt(s + c, x, p)
  {
    assert (s + c)[p..p + |x|] == s[p..p + |x|];
  }

  /** A string starts every concatenation it begins. */
  lemma StartsConcat(a: string, b: string)
    ensures StartsWith(a + b, a)
  {
    assert (a + b)[..|a|] == a;
  }

  /** The last part of a concatenation occurs at its end. */
  lemma OccursAtEnd(a: string, x: string)
    ensures OccursAt(a + x, x, |a|)
  {
    assert (a + x)[|a|..|a| + |x|] == x;
  }

  /** An occurrence moves by the length of text prepended. */
  lemma OccursAfter(a: string, s: string, x: string, p: int)
    requires OccursAt(s, x, p)
    ensures OccursAt(a + s, x, |a| + p)
  {
    assert (a + s)[|a| + p..|a| + p + |x|] == s[p..p + |x|];
  }

  // ---------------------------------------------------------------- decimal numbers

  predicate IsDigit(c: char) {
    '0' <= c <= '9'
  }

  predicate AllDigits(s: string) {
    forall i :: 0 <= i < |s| ==> IsDigit(s[i])
  }

  function DigitChar(d: nat): (c: char)
    requires d < 10
    ensures IsDigit(c)
  {
    ('0' as int + d) as char
  }

  /** `char::to_digit(10)` on an ASCII digit. */
  function DigitValue(c: char): (d: nat)
    requires IsDigit(c)
    ensures d < 10 && DigitChar(d) == c
  {
    c as int - '0' as int
  }

  /** The value of a string of decimal digits, most significant first. */
  function DigitsValue(s: string): nat
    requires AllDigits(s)
  {
    if s == [] then 0 else 10 * DigitsValue(s[..|s| - 1]) + DigitValue(s[|s| - 1])
  }

  /** `Display` of an unsigned integer: its decimal digits without leading zeros. */
  function NatToString(n: nat): (s: string)
    ensures |s| >= 1 && AllDigits(s)
    ensures |s| > 1 ==> s[0] != '0'
  {
    if n < 10 then [DigitChar(n)] else NatToString(n / 10) + [DigitChar(n % 10)]
  }

  /** Reading back the decimal rendering of `n` gives `n`. */
  lemma {:induction false} NatToStringValue(n: nat)
    ensures DigitsValue(NatToString(n)) == n
  {
    if n >= 10 {
      var s := NatToString(n);
      assert s[..|s| - 1] == NatToString(n / 10);
      NatToStringValue(n / 10);
    }
  }

  /** Distinct numbers have distinct decimal renderings. */
  lemma NatToStringInjective(m: nat, n: nat)
    requires NatToString(m) == NatToString(n)
    ensures m == n
  {
    NatToStringValue(m);
    NatToStringValue(n);
  }

  /** `u8::from_str` (`str::parse::<u8>`): an optional `+` followed by at least
      one ASCII decimal digit, whose value must not exceed 255. Leading zeros
      are accepted; a sign alone, a `-`, any other character or an overflow
      is an error. */
  function ParseU8(s: string): (r: Option<U8>)
    ensures r.Some? ==> |s| >= 1
  {
    if s == [] then None
    else
      var digits := if s[0] == '+' then s[1..] else s;
      if digits == [] || !AllDigits(digits) then None
      else if DigitsValue(digits) <= 255 then Some(DigitsValue(digits))
      else None
  }

  /** Parsing the decimal rendering of a byte-sized number gives it back,
      with or without a leading `+`. */
  lemma ParseU8RoundTrip(n: U8)
    ensures ParseU8(NatToString(n)) == Some(n)
    ensures ParseU8("+" + NatToString(n)) == Some(n)
  {
    NatToStringValue(n);
    assert ("+" + NatToString(n))[1..] == NatToString(n);
  }

  /** What `u8::from_str` accepts: a successful parse of `s` means `s` is the
      digits of the value, possibly signed with `+` and padded with zeros. */
  lemma ParseU8Sound(s: string)
    requires ParseU8(s).Some?
    ensures var digits := if s[0] == '+' then s[1..] else s;
      digits != [] && AllDigits(digits) && DigitsValue(digits) == ParseU8(s).value
  {
  }

  /** `10^k`. */
  function Pow10(k: nat): (p: nat)
    ensures p >= 1
  {
    if k == 0 then 1 else 10 * Pow10(k - 1)
  }

  /** Digit strings written one after the other are a digit string. */
  lemma AllDigitsAppend(a: string, b: string)
    requires AllDigits(a) && AllDigits(b)
    ensures AllDigits(a + b)
  {
    forall i | 0 <= i < |a + b|
      ensures IsDigit((a + b)[i])
    {
      if i >= |a| {
        assert (a + b)[i] == b[i - |a|];
      }
    }
  }

  /** The value of two digit strings written one after the other. */
  lemma {:induction false} DigitsValueAppend(a: string, b: string)
    requires AllDigits(a) && AllDigits(b)
    ensures AllDigits(a + b)
    ensures DigitsValue(a + b) == DigitsValue(a) * Pow10(|b|) + DigitsValue(b)
    decreases |b|
  {
    AllDigitsAppend(a, b);
    if b == [] {
      assert a + b == a;
    } else {
      var ab, front, last := a + b, b[..|b| - 1], b[|b| - 1];
      assert ab[..|ab| - 1] == a + front;
      assert ab[|ab| - 1] == last;
      DigitsValueAppend(a, front);
      var va, vf, p := DigitsValue(a), DigitsValue(front), Pow10(|front|);
      assert DigitsValue(ab) == 10 * (va * p + vf) + DigitValue(last);
      assert DigitsValue(b) == 10 * vf + DigitValue(last);
      assert Pow10(|b|) == 10 * p;
      MulRegroup(va, p);
    }
  }

  lemma MulRegroup(x: nat, p: nat)
    ensures 10 * (x * p) == x * (10 * p)
  {
  }

  /** `z` zero characters. */
  function Zeros(z: nat): (s: string)
    ensures |s| == z && AllDigits(s)
  {
    seq(z, _ => '0')
  }

  /** A run of zeros is worth nothing. */
  lemma {:induction false} ZerosValue(z: nat)
    ensures DigitsValue(Zeros(z)) == 0
  {
    if z > 0 {
      assert Zeros(z)[..z - 1] == Zeros(z - 1);
      ZerosValue(z - 1);
    }
  }

  /** Leading zeros are accepted: the decimal rendering of a byte-sized
      number, padded with any number of zeros and signed or not, parses to it. */
  lemma ParseU8Padded(z: nat, n: U8)
    ensures ParseU8(Zeros(z) + NatToString(n)) == Some(n)
    ensures ParseU8("+" + (Zeros(z) + NatToString(n))) == Some(n)
  {
    var digits := Zeros(z) + NatToString(n);
    DigitsValueAppend(Zeros(z), NatToString(n));
    ZerosValue(z);
    NatToStringValue(n);
    assert digits[0] != '+' by {
      if z > 0 { assert digits[0] == Zeros(z)[0]; } else { assert digits == NatToString(n); }
    }
    assert ("+" + digits)[1..] == digits;
  }

  /** A digit string whose value exceeds 255 is refused, signed or not. */
  lemma ParseU8Overflow(s: string)
    requires |s| > 0 && AllDigits(s) && DigitsValue(s) > 255
    ensures ParseU8(s) == None
    ensures ParseU8("+" + s) == None
  {
    assert IsDigit(s[0]);
    assert ("+" + s)[1..] == s;
  }

  /** The empty text, a lone sign and a negative number are refused. */
  lemma ParseU8Refuses(s: string)
    ensures ParseU8("") == None && ParseU8("+") == None
    ensures |s| > 0 && s[0] == '-' ==> ParseU8(s) == None
  {
    if |s| > 0 && s[0] == '-' {
      assert !IsDigit(s[0]);
    }
  }

  // ---------------------------------------------------------------- hexadecimal

  /** A lower-case hexadecimal digit character. */
  predicate IsHexLower(c: char) {
    IsDigit(c) || 'a' <= c <= 'f'
  }

  /** The value of a lower-case hexadecimal digit. */
  function HexValue(c: char): nat
    requires IsHexLower(c)
  {
    if IsDigit(c) then DigitValue(c) else c as int - 'a' as int + 10
  }

  /** The lower-case hexadecimal digit of a value below 16. */
  function HexDigit(d: nat): (c: char)
    requires d < 16
    ensures IsHexLower(c) && HexValue(c) == d
  {
    if d < 10 then DigitChar(d) else ('a' as int + (d - 10)) as char
  }

  /** `{:02x}` of a byte: two lower-case hexadecimal digits, most significant first. */
  function HexByte(b: U8): (s: string)
    ensures |s| == 2 && IsHexLower(s[0]) && IsHexLower(s[1])
    ensures 16 * HexValue(s[0]) + HexValue(s[1]) == b
  {
    [HexDigit(b / 16), HexDigit(b % 16)]
  }

  /** Distinct bytes are written differently. */
  lemma HexByteInjective(a: U8, b: U8)
    requires HexByte(a) == HexByte(b)
    ensures a == b
  {
  }

  /** `{:02x}` of every byte in turn: byte `i` is written at offset `2 * i`. */
  function HexBytes(bs: seq<U8>): (s: string)
    ensures |s| == 2 * |bs|
    ensures forall i :: 0 <= i < |bs| ==> s[2 * i..2 * i + 2] == HexByte(bs[i])
  {
    if bs == [] then ""
    else
      var head, rest := HexByte(bs[0]), HexBytes(bs[1..]);
      assert forall i :: 1 <= i < |bs| ==> (head + rest)[2 * i..2 * i + 2] == rest[2 * (i - 1)..2 * (i - 1) + 2];
      head + rest
  }
}
