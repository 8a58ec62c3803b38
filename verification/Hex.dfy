/** Lower-case hex text of 32-byte values, and the laxer parser that reads it back
    (crates/server/src/lease_store.rs, crates/core/src/identity.rs). */
module Hex {
  import opened Common

  const DIGITS := "0123456789abcdef"

  function Nibble(n: nat): char
    requires n < 16
  {
    DIGITS[n]
  }

  predicate IsAscii(s: string) {
    forall c | c in s :: c as int < 128
  }

  /** The digits `char::to_digit(16)` accepts: both cases. */
  function DigitValue(c: char): Option<nat> {
    if '0' <= c <= '9' then Some((c as int - '0' as int) as nat)
    else if 'a' <= c <= 'f' then Some((c as int - 'a' as int + 10) as nat)
    else if 'A' <= c <= 'F' then Some((c as int - 'A' as int + 10) as nat)
    else None
  }

  /** `u8::from_str_radix` on two characters: a leading `+` is accepted. */
  function ParsePair(high: char, low: char): Option<byte> {
    var l := DigitValue(low);
    if l.None? then None
    else if high == '+' then Some(l.value)
    else
      var h := DigitValue(high);
      if h.None? then None else Some(16 * h.value + l.value)
  }

  const UPPER_DIGITS := "0123456789ABCDEF"

  lemma DigitMeans(c: char, n: nat)
    requires n < 16
    ensures DigitValue(c) == Some(n) <==> c == DIGITS[n] || c == UPPER_DIGITS[n]
  {
  }

  lemma DigitIsListed(c: char)
    ensures DigitValue(c).Some? ==> c in DIGITS + UPPER_DIGITS
  {
    if DigitValue(c).Some? {
      var n := DigitValue(c).value;
      DigitMeans(c, n);
      assert (DIGITS + UPPER_DIGITS)[n] == DIGITS[n] && (DIGITS + UPPER_DIGITS)[n + 16] == UPPER_DIGITS[n];
    }
  }

  /** Two characters are read as a byte if they are two digits, each of either case, or `+` and one
      digit, and in no other case. */
  lemma PairMeans(high: char, low: char, h: nat, l: nat)
    requires h < 16 && l < 16 && (low == DIGITS[l] || low == UPPER_DIGITS[l])
    ensures high == DIGITS[h] || high == UPPER_DIGITS[h] ==> ParsePair(high, low) == Some(16 * h + l)
    ensures ParsePair('+', low) == Some(l)
  {
    DigitMeans(low, l);
    DigitMeans(high, h);
  }

  lemma PairIsRead(high: char, low: char)
    ensures ParsePair(high, low).Some? ==> low in DIGITS + UPPER_DIGITS && (high == '+' || high in DIGITS + UPPER_DIGITS)
  {
    DigitIsListed(low);
    DigitIsListed(high);
  }

  predicate IsLowerHexDigit(c: char) {
    '0' <= c <= '9' || 'a' <= c <= 'f'
  }

  /** The text printed for the bytes: two lower-case digits for each. */
  function HexOf(bytes: seq<byte>): string {
    if bytes == [] then ""
    else HexOf(bytes[..|bytes| - 1]) + [Nibble(bytes[|bytes| - 1] / 16), Nibble(bytes[|bytes| - 1] % 16)]
  }

  method FormatHex(bytes: Token) returns (code: string)
    ensures code == HexOf(bytes)
  {
    code := "";
    for i := 0 to |bytes|
      invariant code == HexOf(bytes[..i])
    {
      assert bytes[..i + 1][..i] == bytes[..i];
      code := code + [Nibble(bytes[i] / 16), Nibble(bytes[i] % 16)];
    }
    assert bytes[..|bytes|] == bytes;
  }

  /** What the parser accepts: 64 ASCII characters, each pair of them a byte. */
  predicate IsHex32(s: string) {
    |s| == 64 && IsAscii(s) && forall i :: 0 <= i < 32 ==> ParsePair(s[2 * i], s[2 * i + 1]).Some?
  }

  function HexBytes(s: string): Token
    requires IsHex32(s)
  {
    seq(32, i requires 0 <= i < 32 => ParsePair(s[2 * i], s[2 * i + 1]).value)
  }

  function ParsedHex(s: string): Option<Token> {
    if IsHex32(s) then Some(HexBytes(s)) else None
  }

  method ParseHex32(s: string) returns (r: Option<Token>)
    ensures r == ParsedHex(s)
  {
    if !(|s| == 64 && IsAscii(s)) {
      return None;
    }
    var bytes: seq<byte> := [];
    for i := 0 to 32
      invariant |bytes| == i
      invariant forall j :: 0 <= j < i ==> ParsePair(s[2 * j], s[2 * j + 1]) == Some(bytes[j])
    {
      var parsed := ParsePair(s[2 * i], s[2 * i + 1]);
      if parsed.None? {
        return None;
      }
      bytes := bytes + [parsed.value];
    }
    assert bytes == HexBytes(s);
    return Some(bytes);
  }

  lemma {:induction false} HexAt(bytes: seq<byte>, i: nat)
    requires i < |bytes|
    ensures |HexOf(bytes)| == 2 * |bytes|
    ensures HexOf(bytes)[2 * i] == Nibble(bytes[i] / 16) && HexOf(bytes)[2 * i + 1] == Nibble(bytes[i] % 16)
  {
    var n := |bytes| - 1;
    if n > 0 {
      HexAt(bytes[..n], if i < n then i else 0);
    }
  }

  lemma NibbleIsDigit(n: nat)
    requires n < 16
    ensures IsLowerHexDigit(Nibble(n)) && DigitValue(Nibble(n)) == Some(n)
    ensures forall c: char :: IsLowerHexDigit(c) && DigitValue(c) == Some(n) ==> c == Nibble(n)
  {
  }

  lemma LowerPairs(s: string)
    requires |s| == 64 && forall i :: 0 <= i < 32 ==> IsLowerHexDigit(s[2 * i]) && IsLowerHexDigit(s[2 * i + 1])
    ensures forall k :: 0 <= k < 64 ==> IsLowerHexDigit(s[k])
  {
    forall k | 0 <= k < 64 ensures IsLowerHexDigit(s[k]) {
      var i := k / 2;
      assert k == 2 * i || k == 2 * i + 1;
    }
  }

  lemma SamePairs(s: string, t: string)
    requires |s| == |t| == 64 && forall i :: 0 <= i < 32 ==> s[2 * i] == t[2 * i] && s[2 * i + 1] == t[2 * i + 1]
    ensures s == t
  {
    forall k | 0 <= k < 64 ensures s[k] == t[k] {
      var i := k / 2;
      assert k == 2 * i || k == 2 * i + 1;
    }
  }

  /** Everything printed is read back. */
  lemma HexRoundTrip(bytes: Token)
    ensures ParsedHex(HexOf(bytes)) == Some(bytes)
    ensures forall c | c in HexOf(bytes) :: IsLowerHexDigit(c)
  {
    var s := HexOf(bytes);
    forall i | 0 <= i < 32
      ensures |s| == 64 && ParsePair(s[2 * i], s[2 * i + 1]) == Some(bytes[i])
      ensures IsLowerHexDigit(s[2 * i]) && IsLowerHexDigit(s[2 * i + 1])
    {
      HexAt(bytes, i);
      NibbleIsDigit(bytes[i] / 16);
      NibbleIsDigit(bytes[i] % 16);
    }
    assert |s| == 64 by { HexAt(bytes, 0); }
    LowerPairs(s);
    assert IsHex32(s);
    assert HexBytes(s) == bytes;
  }

  /** The text printed for what was read is the text itself exactly when all its characters are
      lower-case digits: upper case and `+` are read but never printed. */
  lemma HexCanonical(s: string)
    requires IsHex32(s)
    ensures HexOf(HexBytes(s)) == s <==> forall c | c in s :: IsLowerHexDigit(c)
  {
    var bytes := HexBytes(s);
    HexRoundTrip(bytes);
    if forall c | c in s :: IsLowerHexDigit(c) {
      assert |HexOf(bytes)| == 64 by { HexAt(bytes, 0); }
      forall i | 0 <= i < 32
        ensures HexOf(bytes)[2 * i] == s[2 * i] && HexOf(bytes)[2 * i + 1] == s[2 * i + 1]
      {
        HexAt(bytes, i);
        PairIsPrinted(s[2 * i], s[2 * i + 1]);
      }
      SamePairs(HexOf(bytes), s);
    }
  }

  lemma PairIsPrinted(high: char, low: char)
    requires IsLowerHexDigit(high) && IsLowerHexDigit(low)
    ensures ParsePair(high, low).Some?
    ensures var b := ParsePair(high, low).value; Nibble(b / 16) == high && Nibble(b % 16) == low
  {
    var h, l := DigitValue(high).value, DigitValue(low).value;
    NibbleIsDigit(h);
    NibbleIsDigit(l);
    PairSplits(h, l);
  }

  lemma PairSplits(h: nat, l: nat)
    requires h < 16 && l < 16
    ensures (16 * h + l) / 16 == h && (16 * h + l) % 16 == l
  {
  }
}
