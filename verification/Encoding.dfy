/** Bytes of texts and of fixed-width integers, and hexadecimal digits. */
module Encoding {
  import opened Prelude
  import opened Positional

  /** The bytes of an ASCII text. */
  function Ascii(text: string): (b: Bytes)
    ensures |b| == |text|
  {
    seq(|text|, i requires 0 <= i < |text| => text[i] as int % 256)
  }

  /** `to_be_bytes` for a width of n bytes. */
  function ToBytes(value: nat, n: nat): (b: Bytes)
    ensures |b| == n
  {
    if n == 0 then [] else ToBytes(value / 256, n - 1) + [value % 256]
  }

  /** `from_be_bytes`. */
  function FromBytes(b: Bytes): nat {
    ValueOf(b, 256)
  }

  lemma {:induction false} RoundTrip(value: nat, n: nat)
    requires value < Power(256, n)
    ensures FromBytes(ToBytes(value, n)) == value
  {
    if n > 0 {
      RoundTrip(value / 256, n - 1);
      var b := ToBytes(value, n);
      assert b[..|b| - 1] == ToBytes(value / 256, n - 1);
    }
  }

  /** Bytes are the only ones of their length with their value. */
  lemma {:induction false} RoundTripBack(b: Bytes)
    ensures ToBytes(FromBytes(b), |b|) == b
  {
    if b != [] {
      var front: Bytes := b[..|b| - 1];
      RoundTripBack(front);
      LastDigit(FromBytes(front), 256, b[|b| - 1]);
      assert b == front + [b[|b| - 1]];
    }
  }

  lemma Widths()
    ensures Power(256, 4) == U32_LIMIT && Power(256, 8) == U64_LIMIT && Power(16, 16) == U64_LIMIT
  {
    assert Power(256, 2) == 0x1_0000;
    assert Power(256, 4) == 256 * (256 * Power(256, 2));
    assert Power(256, 6) == 256 * (256 * Power(256, 4));
    assert Power(256, 8) == 256 * (256 * Power(256, 6));
    assert Power(16, 2) == 256;
    assert Power(16, 4) == 16 * (16 * Power(16, 2));
    assert Power(16, 6) == 16 * (16 * Power(16, 4));
    assert Power(16, 8) == 16 * (16 * Power(16, 6));
    assert Power(16, 10) == 16 * (16 * Power(16, 8));
    assert Power(16, 12) == 16 * (16 * Power(16, 10));
    assert Power(16, 14) == 16 * (16 * Power(16, 12));
    assert Power(16, 16) == 16 * (16 * Power(16, 14));
  }

  // ---- Hexadecimal -------------------------------------------------------------------------------

  predicate IsHex(c: char) {
    '0' <= c <= '9' || 'a' <= c <= 'f' || 'A' <= c <= 'F'
  }

  function HexValue(c: char): (v: nat)
    requires IsHex(c)
    ensures v < 16
  {
    if '0' <= c <= '9' then c as int - '0' as int
    else if 'a' <= c <= 'f' then c as int - 'a' as int + 10
    else c as int - 'A' as int + 10
  }

  function LowerHex(v: nat): (c: char)
    requires v < 16
    ensures IsHex(c) && HexValue(c) == v && !('A' <= c <= 'F')
  {
    if v < 10 then (v + '0' as int) as char else (v - 10 + 'a' as int) as char
  }

  lemma HexDigits(v: nat)
    requires v < 16
    ensures var (lower, upper) := ("0123456789abcdef"[v], "0123456789ABCDEF"[v]);
            IsHex(lower) && IsHex(upper) && HexValue(lower) == HexValue(upper) == v
    ensures forall c :: IsHex(c) && HexValue(c) == v ==> c == "0123456789abcdef"[v] || c == "0123456789ABCDEF"[v]
  {
  }

  predicate AllHex(s: string) {
    forall i :: 0 <= i < |s| ==> IsHex(s[i])
  }

  function HexValues(s: string): (d: seq<nat>)
    requires AllHex(s)
    ensures |d| == |s| && forall i :: 0 <= i < |d| ==> d[i] == HexValue(s[i])
  {
    seq(|s|, i requires 0 <= i < |s| => HexValue(s[i]))
  }

  /** The number a string of hexadecimal digits stands for. */
  function HexNumber(s: string): nat
    requires AllHex(s)
  {
    ValueOf(HexValues(s), 16)
  }

  /** `hex::decode`: two digits a byte, in either case. */
  function DecodeHex(s: string): Option<Bytes> {
    if |s| % 2 != 0 || !AllHex(s) then None
    else Some(seq(|s| / 2, i requires 0 <= i < |s| / 2 => HexValue(s[2 * i]) * 16 + HexValue(s[2 * i + 1])))
  }

  function HexPair(b: byte): (s: string)
    ensures |s| == 2 && IsHex(s[0]) && IsHex(s[1]) && HexValue(s[0]) * 16 + HexValue(s[1]) == b
  {
    [LowerHex(b / 16), LowerHex(b % 16)]
  }

  /** `hex::encode`: lower case. */
  function EncodeHex(b: Bytes): (s: string)
    ensures |s| == 2 * |b|
  {
    if b == [] then "" else EncodeHex(b[..|b| - 1]) + HexPair(b[|b| - 1])
  }

  lemma {:induction false} DecodeEncoded(b: Bytes)
    ensures DecodeHex(EncodeHex(b)) == Some(b)
  {
    if b != [] {
      var front: Bytes := b[..|b| - 1];
      DecodeEncoded(front);
      var pair := HexPair(b[|b| - 1]);
      DecodeSnoc(EncodeHex(front), pair);
      var r := DecodeHex(EncodeHex(b));
      assert r == Some(front + [b[|b| - 1]]);
      assert front + [b[|b| - 1]] == b;
    } else {
      assert DecodeHex("").value == b;
    }
  }

  lemma DecodeSnoc(s: string, pair: string)
    requires DecodeHex(s).Some? && |pair| == 2 && IsHex(pair[0]) && IsHex(pair[1])
    ensures DecodeHex(s + pair) == Some(DecodeHex(s).value + [HexValue(pair[0]) * 16 + HexValue(pair[1])])
  {
    var all := s + pair;
    assert AllHex(all);
    assert |all| / 2 == |s| / 2 + 1;
    var a, b := DecodeHex(all).value, DecodeHex(s).value + [HexValue(pair[0]) * 16 + HexValue(pair[1])];
    forall i | 0 <= i < |a| ensures a[i] == b[i] {
      if i < |s| / 2 {
        assert all[2 * i] == s[2 * i] && all[2 * i + 1] == s[2 * i + 1];
      } else {
        assert all[2 * i] == pair[0] && all[2 * i + 1] == pair[1];
      }
    }
    assert a == b;
  }

  // ---- White space ----------------------------------------------------------------------------------

  function TrimStart(isSpace: char -> bool, s: string): string {
    if s != [] && isSpace(s[0]) then TrimStart(isSpace, s[1..]) else s
  }

  function TrimEnd(isSpace: char -> bool, s: string): string {
    if s != [] && isSpace(s[|s| - 1]) then TrimEnd(isSpace, s[..|s| - 1]) else s
  }

  function Trim(isSpace: char -> bool, s: string): string {
    TrimEnd(isSpace, TrimStart(isSpace, s))
  }

  /** No white space at either end. */
  predicate Trimmed(isSpace: char -> bool, s: string) {
    s != [] ==> !isSpace(s[0]) && !isSpace(s[|s| - 1])
  }

  lemma TrimNothing(isSpace: char -> bool, s: string)
    requires Trimmed(isSpace, s)
    ensures Trim(isSpace, s) == s
  {
  }

  ghost predicate Blank(isSpace: char -> bool, s: string) {
    forall i :: 0 <= i < |s| ==> isSpace(s[i])
  }

  /** White space around a text is dropped, and nothing else. */
  lemma TrimIs(isSpace: char -> bool, before: string, s: string, after: string)
    requires Blank(isSpace, before) && Blank(isSpace, after) && Trimmed(isSpace, s)
    ensures Trim(isSpace, before + s + after) == s
  {
    assert before + s + after == before + (s + after);
    TrimStartIs(isSpace, before, s + after);
    if s == [] {
      TrimStartIs(isSpace, after, []);
      assert s + after == after == after + [];
    } else {
      TrimEndIs(isSpace, s, after);
    }
  }

  lemma {:induction false} TrimStartIs(isSpace: char -> bool, before: string, s: string)
    requires Blank(isSpace, before)
    ensures TrimStart(isSpace, before + s) == TrimStart(isSpace, s)
  {
    if before == [] {
      assert before + s == s;
    } else {
      assert (before + s)[1..] == before[1..] + s;
      TrimStartIs(isSpace, before[1..], s);
    }
  }

  lemma {:induction false} TrimEndIs(isSpace: char -> bool, s: string, after: string)
    requires Blank(isSpace, after)
    ensures TrimEnd(isSpace, s + after) == TrimEnd(isSpace, s)
  {
    if after == [] {
      assert s + after == s;
    } else {
      var all := s + after;
      assert all[..|all| - 1] == s + after[..|after| - 1];
      TrimEndIs(isSpace, s, after[..|after| - 1]);
    }
  }

  function StripPrefix(prefix: string, s: string): Option<string> {
    if prefix <= s then Some(s[|prefix|..]) else None
  }

  /** Letters, digits, `+` and `_` are not white space. */
  ghost predicate SaneSpace(isSpace: char -> bool) {
    forall c: char :: isSpace(c) ==> !('0' <= c <= '9' || 'a' <= c <= 'z' || 'A' <= c <= 'Z' || c == '+' || c == '_')
  }

  /** Two inputs of a hash function that it does not tell apart. */
  ghost predicate Collision(hash: Bytes -> Bytes32, a: Bytes, b: Bytes) {
    a != b && hash(a) == hash(b)
  }
}
