/** Base-58 text with the Bitcoin alphabet. */
module Base58 {
  import opened Prelude
  import opened Positional

  /** Digits, upper-case and lower-case letters without 0, I, O and l. */
  predicate IsBase58(c: char) {
    ('1' <= c <= '9') || ('A' <= c <= 'Z' && c != 'I' && c != 'O') || ('a' <= c <= 'z' && c != 'l')
  }

  /** The place of a character in the alphabet. */
  function Base58Value(c: char): (v: nat)
    requires IsBase58(c)
    ensures v < 58
  {
    var n := c as int;
    if n <= '9' as int then n - '1' as int
    else if n <= 'H' as int then n - 'A' as int + 9
    else if n <= 'N' as int then n - 'J' as int + 17
    else if n <= 'Z' as int then n - 'P' as int + 22
    else if n <= 'k' as int then n - 'a' as int + 33
    else n - 'm' as int + 44
  }

  function Base58Char(v: nat): (c: char)
    requires v < 58
    ensures IsBase58(c) && Base58Value(c) == v
  {
    var n := if v < 9 then v + '1' as int
             else if v < 17 then v - 9 + 'A' as int
             else if v < 22 then v - 17 + 'J' as int
             else if v < 33 then v - 22 + 'P' as int
             else if v < 44 then v - 33 + 'a' as int
             else v - 44 + 'm' as int;
    n as char
  }

  lemma SameChar(c: char)
    requires IsBase58(c)
    ensures Base58Char(Base58Value(c)) == c
  {
  }

  /** The alphabet is in the order of the character codes, from `1` for zero to `z` for 57. */
  lemma AlphabetInOrder(c: char, d: char)
    requires IsBase58(c) && IsBase58(d)
    ensures Base58Value(c) < Base58Value(d) <==> c < d
    ensures Base58Value('1') == 0 && Base58Value('z') == 57
  {
  }

  predicate AllBase58(s: string) {
    forall i :: 0 <= i < |s| ==> IsBase58(s[i])
  }

  function Chars(d: seq<nat>): (s: string)
    requires AreDigits(d, 58)
    ensures |s| == |d| && AllBase58(s)
    ensures forall i :: 0 <= i < |d| ==> s[i] == Base58Char(d[i])
  {
    seq(|d|, i requires 0 <= i < |d| => Base58Char(d[i]))
  }

  function Values(s: string): (d: seq<nat>)
    requires AllBase58(s)
    ensures |d| == |s| && AreDigits(d, 58)
    ensures forall i :: 0 <= i < |d| ==> d[i] == Base58Value(s[i])
  {
    seq(|s|, i requires 0 <= i < |s| => Base58Value(s[i]))
  }

  /** `bs58::encode`: a leading `1` for every leading zero byte. */
  function EncodeBase58(b: Bytes): (s: string)
    ensures AllBase58(s)
  {
    ConvertDigits(b, 256, 58);
    Chars(Convert(b, 256, 58))
  }

  function DecodeBase58(s: string): Option<Bytes> {
    if !AllBase58(s) then None
    else
      ConvertDigits(Values(s), 58, 256);
      Some(AsBytes(Convert(Values(s), 58, 256)))
  }

  function AsBytes(d: seq<nat>): (b: Bytes)
    requires AreDigits(d, 256)
    ensures b == d
  {
    seq(|d|, i requires 0 <= i < |d| => d[i])
  }

  lemma BytesAreDigits(b: Bytes)
    ensures AreDigits(b, 256)
  {
  }

  lemma DecodeEncoded58(b: Bytes)
    ensures DecodeBase58(EncodeBase58(b)) == Some(b)
  {
    hide Convert, Base58Char, Base58Value;
    BytesAreDigits(b);
    ConvertDigits(b, 256, 58);
    var d := Convert(b, 256, 58);
    assert Values(Chars(d)) == d;
    ConvertBack(b, 256, 58);
  }

  /** Every text of the alphabet is the encoding of what it decodes to: there are no two texts for the same bytes. */
  lemma EncodeDecoded58(s: string)
    requires DecodeBase58(s).Some?
    ensures EncodeBase58(DecodeBase58(s).value) == s
  {
    hide Convert, Base58Char, Base58Value;
    ConvertBack(Values(s), 58, 256);
    forall i | 0 <= i < |s| ensures Base58Char(Values(s)[i]) == s[i] {
      SameChar(s[i]);
    }
    assert Chars(Values(s)) == s;
  }
}
