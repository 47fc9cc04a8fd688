/** The numeric normalisers the decoders are built from: `BigInt` on decimal
    literals, its inverse `toString`, and the `0x`-hex to byte decoding used
    for a market's emoji bytes. */
module Numeric {
  import opened Wrappers

  type byte = b: int | 0 <= b < 256

  // ---------------------------------------------------------------------------
  // Decimal literals
  // ---------------------------------------------------------------------------

  predicate IsDigit(c: char) {
    '0' <= c <= '9'
  }

  predicate AllDigits(s: string) {
    forall i | 0 <= i < |s| :: IsDigit(s[i])
  }

  /** A decimal integer literal: one or more ASCII digits. */
  predicate IsDecimal(s: string) {
    |s| > 0 && AllDigits(s)
  }

  /** A decimal literal without redundant leading zeros, as `toString` writes it. */
  predicate IsCanonicalDecimal(s: string) {
    IsDecimal(s) && (s[0] == '0' ==> |s| == 1)
  }

  function DigitValue(c: char): nat
    requires IsDigit(c)
  {
    c as int - '0' as int
  }

  function DigitChar(d: nat): char
    requires d < 10
  {
    ('0' as int + d) as char
  }

  /** The number a digit string denotes, most significant digit first. */
  function DecimalValue(s: string): nat
    requires AllDigits(s)
  {
    if s == [] then 0 else 10 * DecimalValue(s[..|s| - 1]) + DigitValue(s[|s| - 1])
  }

  /** `BigInt(s)` on a string field of a wire record: the integer a decimal
      literal denotes, and a failure for anything that is not one. */
  function ParseBigInt(s: string): (r: Result<nat>)
    ensures r.Ok? <==> IsDecimal(s)
    ensures r.Err? ==> r.error == MalformedNumber(s)
  {
    if IsDecimal(s) then Ok(DecimalValue(s)) else Err(MalformedNumber(s))
  }

  /** `n.toString()`: the canonical decimal rendering of a non-negative integer. */
  function Render(n: nat): (s: string)
    ensures IsDecimal(s)
  {
    if n < 10 then [DigitChar(n)] else Render(n / 10) + [DigitChar(n % 10)]
  }

  /** Drops redundant leading zeros, keeping a last digit. */
  function StripLeadingZeros(s: string): string
  {
    if |s| > 1 && s[0] == '0' then StripLeadingZeros(s[1..]) else s
  }

  /** Parsing the rendering of any integer gives that integer back. */
  lemma {:induction false} ParseRender(n: nat)
    ensures ParseBigInt(Render(n)) == Ok(n)
  {
    var s := Render(n);
    if n < 10 {
      assert DigitValue(DigitChar(n)) == n;
      assert DecimalValue(s) == n;
    } else {
      ParseRender(n / 10);
      assert s[..|s| - 1] == Render(n / 10);
      assert DigitValue(s[|s| - 1]) == n % 10;
      assert DecimalValue(s) == 10 * (n / 10) + n % 10;
    }
  }

  /** Rendering never writes a redundant leading zero. */
  lemma {:induction false} RenderIsCanonical(n: nat)
    ensures IsCanonicalDecimal(Render(n))
  {
    if n >= 10 {
      RenderIsCanonical(n / 10);
      assert Render(n)[0] == Render(n / 10)[0];
      assert n / 10 > 0;
      if Render(n / 10)[0] == '0' {
        ParseRender(0);
        ParseRender(n / 10);
      }
    }
  }

  /** A literal whose first digit is not zero denotes a positive number. */
  lemma {:induction false} LeadingNonZeroIsPositive(s: string)
    requires IsDecimal(s) && s[0] != '0'
    ensures DecimalValue(s) > 0
  {
    if |s| > 1 {
      LeadingNonZeroIsPositive(s[..|s| - 1]);
    }
  }

  /** A leading zero does not change the value. */
  lemma {:induction false} LeadingZeroIsRedundant(t: string)
    requires AllDigits(t)
    ensures AllDigits("0" + t) && DecimalValue("0" + t) == DecimalValue(t)
  {
    var s := "0" + t;
    if t != [] {
      assert s[..|s| - 1] == "0" + t[..|t| - 1];
      LeadingZeroIsRedundant(t[..|t| - 1]);
    }
  }

  /** A canonical literal is the rendering of the number it denotes. */
  lemma {:induction false} CanonicalRoundTrip(s: string)
    requires IsCanonicalDecimal(s)
    ensures Render(DecimalValue(s)) == s
  {
    if |s| > 1 {
      var p := s[..|s| - 1];
      CanonicalRoundTrip(p);
      LeadingNonZeroIsPositive(p);
      var n := DecimalValue(s);
      assert n / 10 == DecimalValue(p) && n % 10 == DigitValue(s[|s| - 1]);
      assert s == p + [s[|s| - 1]];
    }
  }

  /** The round-trip law of `BigInt` and `toString`: rendering the parsed value
      gives the literal back without its redundant leading zeros. */
  lemma {:induction false} RenderParse(s: string)
    requires IsDecimal(s)
    ensures ParseBigInt(s).Ok? && Render(ParseBigInt(s).value) == StripLeadingZeros(s)
  {
    if |s| > 1 && s[0] == '0' {
      RenderParse(s[1..]);
      assert s == "0" + s[1..];
      LeadingZeroIsRedundant(s[1..]);
    } else {
      CanonicalRoundTrip(s);
    }
  }

  /** Two canonical literals denote the same number only if they are equal, so
      a canonical literal is a faithful key. */
  lemma CanonicalIsInjective(s: string, t: string)
    requires IsCanonicalDecimal(s) && IsCanonicalDecimal(t)
    requires DecimalValue(s) == DecimalValue(t)
    ensures s == t
  {
    CanonicalRoundTrip(s);
    CanonicalRoundTrip(t);
  }

  // ---------------------------------------------------------------------------
  // Hex strings
  // ---------------------------------------------------------------------------

  predicate IsHexDigit(c: char) {
    '0' <= c <= '9' || 'a' <= c <= 'f' || 'A' <= c <= 'F'
  }

  function HexDigitValue(c: char): (v: nat)
    requires IsHexDigit(c)
    ensures v < 16
  {
    if '0' <= c <= '9' then c as int - '0' as int
    else if 'a' <= c <= 'f' then c as int - 'a' as int + 10
    else c as int - 'A' as int + 10
  }

  /** Lower-case hex digit for a nibble. */
  function HexDigitChar(v: nat): (c: char)
    requires v < 16
    ensures IsHexDigit(c) && HexDigitValue(c) == v
  {
    if v < 10 then ('0' as int + v) as char else ('a' as int + v - 10) as char
  }

  /** What `hexToBytes` accepts: an even number of hex digits. */
  predicate IsHexBytes(s: string) {
    |s| % 2 == 0 && forall i | 0 <= i < |s| :: IsHexDigit(s[i])
  }

  /** Each pair of hex digits, high nibble first, is one byte. */
  function HexPairs(s: string): (bs: seq<byte>)
    requires IsHexBytes(s)
    ensures |bs| * 2 == |s|
  {
    if s == [] then [] else [16 * HexDigitValue(s[0]) + HexDigitValue(s[1])] + HexPairs(s[2..])
  }

  /** `hexToBytes(s)`: fails on odd length or a non-hex character. */
  function HexToBytes(s: string): (r: Result<seq<byte>>)
    ensures r.Ok? <==> IsHexBytes(s)
    ensures r.Err? ==> r.error == MalformedHex(s)
    ensures r.Ok? ==> 2 * |r.value| == |s|
  {
    if IsHexBytes(s) then Ok(HexPairs(s)) else Err(MalformedHex(s))
  }

  /** The lower-case hex rendering of a byte sequence. */
  function BytesToHex(bs: seq<byte>): (s: string)
    ensures IsHexBytes(s) && |s| == 2 * |bs|
  {
    if bs == [] then [] else [HexDigitChar(bs[0] / 16), HexDigitChar(bs[0] % 16)] + BytesToHex(bs[1..])
  }

  /** Decoding the hex rendering of any byte sequence gives it back. */
  lemma {:induction false} HexRoundTrip(bs: seq<byte>)
    ensures HexToBytes(BytesToHex(bs)) == Ok(bs)
  {
    var s := BytesToHex(bs);
    if bs != [] {
      HexRoundTrip(bs[1..]);
      assert s[2..] == BytesToHex(bs[1..]);
      assert HexPairs(s) == [16 * (bs[0] / 16) + bs[0] % 16] + HexPairs(s[2..]);
      assert HexPairs(s[2..]) == bs[1..];
      assert bs == [bs[0]] + bs[1..];
    }
  }

  /** Drops one leading `0x`, if there is one, and leaves any other string alone. */
  function StripHexPrefix(s: string): (r: string)
    ensures if "0x" <= s then "0x" + r == s else r == s
  {
    if "0x" <= s then s[2..] else s
  }

  /** Exactly one `0x` is stripped, even when the rest starts with `0x` again. */
  lemma StripHexPrefixOnce(t: string)
    ensures StripHexPrefix("0x" + t) == t
  {
  }

  /** The emoji `😀` as the wire writes it decodes to its four UTF-8 bytes. */
  lemma EmojiBytesExample()
    ensures HexToBytes(StripHexPrefix("0xF09F9880")) == Ok([0xF0, 0x9F, 0x98, 0x80])
  {
    var s := StripHexPrefix("0xF09F9880");
    assert s == "F09F9880";
    assert IsHexBytes(s);
    assert s[2..] == "9F9880" && s[2..][2..] == "9880" && s[2..][2..][2..] == "80";
    assert s[2..][2..][2..][2..] == [];
    assert HexDigitValue('F') == 15 && HexDigitValue('0') == 0 && HexDigitValue('9') == 9;
    assert HexDigitValue('8') == 8;
    assert HexPairs("") == [];
    assert HexPairs("80") == [0x80];
    assert HexPairs("9880") == [0x98, 0x80];
    assert HexPairs("9F9880") == [0x9F, 0x98, 0x80];
    assert HexPairs(s) == [0xF0] + HexPairs("9F9880");
    var expected: seq<byte> := [0xF0, 0x9F, 0x98, 0x80];
    assert HexPairs(s) == expected;
    assert HexToBytes(s) == Ok(expected);
  }
}
