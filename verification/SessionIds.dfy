/** Session ids in activation requests: decimal, or hexadecimal after `0x`. */
module SessionIds {
  import opened Prelude
  import opened Positional
  import opened Encoding

  /** The digits of a text in a base up to sixteen. */
  predicate AllDigits(s: string, radix: nat) {
    AllHex(s) && forall i :: 0 <= i < |s| ==> HexValue(s[i]) < radix
  }

  /** `u64::from_str_radix`: an optional plus sign and at least one digit; too large a value is an error. */
  function FromStrRadix(s: string, radix: nat): Result<u64> {
    var digits := if |s| > 1 && s[0] == '+' then s[1..] else s;
    if digits == [] then Err("empty")
    else if !AllDigits(digits, radix) then Err("invalid digit")
    else
      var value := ValueOf(HexValues(digits), radix);
      if value >= U64_LIMIT then Err("overflow") else Ok(value)
  }

  function TrimZeros(s: string): (t: string)
    ensures |t| <= |s| && t == s[|s| - |t|..]
    ensures forall i :: 0 <= i < |s| - |t| ==> s[i] == '0'
    ensures t != [] ==> t[0] != '0'
  {
    if s != [] && s[0] == '0' then TrimZeros(s[1..]) else s
  }

  /** Zeros in front, up to a width of 64. */
  function Padded(s: string): (t: string)
    ensures |t| == Max(|s|, 64)
  {
    if |s| < 64 then seq(64 - |s|, i => '0') + s else s
  }

  function ParseHexId(hex: string): Result<u64> {
    var h := TrimZeros(hex);
    if h == [] then Ok(0)
    else if |h| <= 16 then FromStrRadix(h, 16)
    else LongHexId(h)
  }

  /** The branch for more than sixteen digits. */
  function LongHexId(h: string): Result<u64> {
    var padded := Padded(h);
    var bytes := DecodeHex(padded[..Min(64, |padded|)]);
    if bytes.None? then Err("invalid session id")
    else if |bytes.value| != 32 || bytes.value[..24] != Zeros(24) then Err("exceeds u64")
    else
      LastEight(bytes.value);
      Ok(FromBytes(bytes.value[24..32]))
  }

  lemma LastEight(b: Bytes)
    requires |b| == 32
    ensures FromBytes(b[24..32]) < U64_LIMIT
  {
    Widths();
    ValueBounds(b[24..32], 256);
  }

  /** `parse_session_id_u64`. */
  function ParseSessionIdU64(isSpace: char -> bool, s: string): Result<u64> {
    var t := Trim(isSpace, s);
    if "0x" <= t then ParseHexId(t[2..]) else FromStrRadix(t, 10)
  }

  // ---- Decimal ids ----------------------------------------------------------------------------

  predicate IsDecimal(c: char) {
    '0' <= c <= '9'
  }

  predicate AllDecimal(s: string) {
    forall i :: 0 <= i < |s| ==> IsDecimal(s[i])
  }

  function DecimalValues(s: string): (d: seq<nat>)
    requires AllDecimal(s)
    ensures |d| == |s| && forall i :: 0 <= i < |d| ==> d[i] == s[i] as int - '0' as int
  {
    seq(|s|, i requires 0 <= i < |s| => s[i] as int - '0' as int)
  }

  /** The number a text of decimal digits stands for. */
  function DecimalNumber(s: string): nat
    requires AllDecimal(s)
  {
    ValueOf(DecimalValues(s), 10)
  }

  /** A number in decimal, without leading zeros. */
  function DecimalText(n: nat): (s: string)
    ensures s != "" && AllDecimal(s)
  {
    ValueOfDigits(n, 10);
    var d := Digits(n, 10);
    if n == 0 then "0" else seq(|d|, i requires 0 <= i < |d| => (d[i] + '0' as int) as char)
  }

  lemma NumberOfText(zeros: nat, n: nat)
    ensures var s := seq(zeros, i => '0') + DecimalText(n); AllDecimal(s) && DecimalNumber(s) == n
  {
    hide ValueOf, Digits;
    var z := seq(zeros, i => '0');
    var s := z + DecimalText(n);
    ValueOfDigits(n, 10);
    if n == 0 {
      AllZeros(DecimalValues(s), 10);
    } else {
      ValueWithoutZeros(DecimalValues(s), zeros, 10);
      assert DecimalValues(s)[zeros..] == Digits(n, 10);
    }
  }

  /** `from_str_radix` in base ten: digits with an optional plus sign in front, below the limit, and no other text. */
  lemma DecimalRadix(s: string)
    ensures AllDecimal(s) && s != "" ==>
              (FromStrRadix(s, 10).Ok? <==> DecimalNumber(s) < U64_LIMIT)
              && (FromStrRadix(s, 10).Ok? ==> FromStrRadix(s, 10) == Ok(DecimalNumber(s)))
    ensures !AllDecimal(s) && FromStrRadix(s, 10).Ok? ==>
              |s| > 1 && s[0] == '+' && AllDecimal(s[1..]) && FromStrRadix(s, 10) == Ok(DecimalNumber(s[1..]))
    ensures |s| > 1 && s[0] == '+' && AllDecimal(s[1..]) && DecimalNumber(s[1..]) < U64_LIMIT ==>
              FromStrRadix(s, 10) == Ok(DecimalNumber(s[1..]))
  {
    hide ValueOf;
    if AllDecimal(s) {
      SameDigits(s);
    }
    if |s| > 1 && s[0] == '+' && (AllDecimal(s[1..]) || AllDigits(s[1..], 10)) {
      SameDigits(s[1..]);
    }
    if AllDigits(s, 10) {
      SameDigits(s);
    }
  }

  lemma SameDigits(s: string)
    ensures AllDecimal(s) <==> AllDigits(s, 10)
    ensures AllDecimal(s) ==> DecimalValues(s) == HexValues(s)
  {
    if AllDigits(s, 10) {
      forall i | 0 <= i < |s| ensures IsDecimal(s[i]) {
        assert HexValue(s[i]) < 10;
      }
    }
  }

  /** The decimal text of a number, with any leading zeros, is read as that number, if and only if it fits 64 bits. */
  lemma DecimalIdExact(isSpace: char -> bool, zeros: nat, n: nat)
    requires SaneSpace(isSpace)
    ensures var s := seq(zeros, i => '0') + DecimalText(n);
            && (ParseSessionIdU64(isSpace, s).Ok? <==> n < U64_LIMIT)
            && (n < U64_LIMIT ==> ParseSessionIdU64(isSpace, s) == Ok(n))
  {
    hide FromStrRadix, DecimalNumber, ParseHexId, Trim, DecimalText, SaneSpace;
    var s := seq(zeros, i => '0') + DecimalText(n);
    NumberOfText(zeros, n);
    DecimalRadix(s);
    DecimalTrims(isSpace, s);
  }

  lemma DecimalTrims(isSpace: char -> bool, s: string)
    requires SaneSpace(isSpace) && AllDecimal(s)
    ensures Trim(isSpace, s) == s && !("0x" <= s) && !("sk_" <= s)
  {
    if s != "" {
      assert IsDecimal(s[0]) && IsDecimal(s[|s| - 1]);
    }
    assert |s| > 1 ==> IsDecimal(s[1]);
    TrimNothing(isSpace, s);
  }

  /**
   Without `0x` exactly the texts of decimal digits below 2^64 are accepted, with or
   without a plus sign, white space around them aside.
   */
  lemma DecimalOnly(isSpace: char -> bool, s: string)
    requires !("0x" <= Trim(isSpace, s))
    ensures var t := Trim(isSpace, s);
            var digits := if |t| > 1 && t[0] == '+' then t[1..] else t;
            ParseSessionIdU64(isSpace, s).Ok? <==>
              digits != "" && AllDecimal(digits) && DecimalNumber(digits) < U64_LIMIT
  {
    hide FromStrRadix, DecimalNumber, ParseHexId, Trim;
    var t := Trim(isSpace, s);
    DecimalRadix(t);
    EmptyFails();
    if AllDecimal(t) && t != "" {
      assert IsDecimal(t[0]);
    }
  }

  lemma EmptyFails()
    ensures FromStrRadix("", 10).Err?
  {
  }

  // ---- Exactness ------------------------------------------------------------------------------

  /** The long branch never succeeds: its leading digit is not zero and lands before the last 8 bytes. */
  lemma LongNeverSucceeds(h: string)
    requires |h| > 16 && h[0] != '0'
    ensures LongHexId(h).Err?
  {
    var padded := Padded(h);
    var text := padded[..64];
    var k := if |h| < 64 then 64 - |h| else 0;
    assert text[k] == h[0];
    if DecodeHex(text).Some? {
      var bytes := DecodeHex(text).value;
      var i := k / 2;
      assert bytes[i] == HexValue(text[2 * i]) * 16 + HexValue(text[2 * i + 1]);
      assert HexValue(h[0]) != 0;
      assert bytes[i] != 0;
      assert bytes[..24][i] == bytes[i];
    }
  }

  /** Leading zeros do not change the number. */
  lemma TrimmedNumber(s: string)
    requires AllHex(s)
    ensures AllHex(TrimZeros(s)) && HexNumber(TrimZeros(s)) == HexNumber(s)
  {
    var t := TrimZeros(s);
    var z := |s| - |t|;
    assert HexValues(t) == HexValues(s)[z..];
    ValueWithoutZeros(HexValues(s), z, 16);
  }

  /** A number of more than sixteen digits without leading zeros does not fit 64 bits; a shorter one does. */
  lemma FitsIff(h: string)
    requires AllHex(h) && h != [] && h[0] != '0'
    ensures HexNumber(h) < U64_LIMIT <==> |h| <= 16
  {
    hide Power;
    Widths();
    ValueBounds(HexValues(h), 16);
    if |h| <= 16 {
      PowerGrows(16, |h|, 16);
    } else {
      PowerGrows(16, 16, |h| - 1);
    }
  }

  lemma HexDigitsExact(hex: string)
    requires AllHex(hex)
    ensures ParseHexId(hex).Ok? <==> HexNumber(hex) < U64_LIMIT
    ensures HexNumber(hex) < U64_LIMIT ==> ParseHexId(hex) == Ok(HexNumber(hex))
  {
    hide Power, LongHexId, ValueOf;
    var h := TrimZeros(hex);
    TrimmedNumber(hex);
    if h == [] {
      Nothing();
    } else {
      FitsIff(h);
      if |h| <= 16 {
        assert h[0] != '+';
      } else {
        LongNeverSucceeds(h);
      }
    }
  }

  lemma Nothing()
    ensures HexNumber("") == 0
  {
  }

  lemma Prefixed(isSpace: char -> bool, s: string)
    requires SaneSpace(isSpace) && AllHex(s)
    ensures Trim(isSpace, "0x" + s) == "0x" + s && ("0x" + s)[2..] == s
  {
    var text := "0x" + s;
    assert text[|text| - 1] == if s == [] then 'x' else s[|s| - 1];
    TrimNothing(isSpace, text);
  }

  /**
   A text of hexadecimal digits, of any length and with any leading zeros, is
   accepted exactly when its number fits 64 bits, and then that number is the id.
   */
  lemma HexIdExact(isSpace: char -> bool, s: string)
    requires SaneSpace(isSpace) && AllHex(s)
    ensures ParseSessionIdU64(isSpace, "0x" + s).Ok? <==> HexNumber(s) < U64_LIMIT
    ensures HexNumber(s) < U64_LIMIT ==> ParseSessionIdU64(isSpace, "0x" + s) == Ok(HexNumber(s))
  {
    hide ParseHexId, HexNumber;
    Prefixed(isSpace, s);
    HexDigitsExact(s);
  }

  /**
   Other texts after `0x` are rejected, but for one family: up to fifteen digits
   behind a plus sign, with any zeros before the sign, which the integer parser lets pass.
   */
  lemma OtherwiseOnlySigned(hex: string)
    requires !AllHex(hex)
    ensures var h := TrimZeros(hex);
            ParseHexId(hex).Ok? <==> 2 <= |h| <= 16 && h[0] == '+' && AllHex(h[1..])
    ensures var h := TrimZeros(hex); ParseHexId(hex).Ok? ==> ParseHexId(hex) == Ok(HexNumber(h[1..]))
  {
    hide Power, LongHexId, ValueOf, FromStrRadix, TrimZeros, AllHex;
    var h := TrimZeros(hex);
    EmptyIsHex();
    NotHexStill(hex);
    if |h| > 16 {
      LongNeverSucceeds(h);
    } else {
      SignedOnly(h);
    }
  }

  /** The failing input. */
  lemma SignPasses(isSpace: char -> bool)
    requires SaneSpace(isSpace)
    ensures !AllHex("+1") && ParseSessionIdU64(isSpace, "0x+1") == Ok(1)
  {
    hide LongHexId, FromStrRadix, ParseHexId, TrimZeros, HexNumber, Trim, AllHex;
    SignedOne();
    assert Trim(isSpace, "0x+1") == "0x+1" by { TrimNothing(isSpace, "0x+1"); }
    assert "0x+1"[2..] == "+1";
  }

  lemma SignedOne()
    ensures !AllHex("+1") && ParseHexId("+1") == Ok(1)
  {
    hide LongHexId, FromStrRadix, ParseHexId, HexNumber;
    assert !IsHex("+1"[0]) && "+1"[1..] == "1";
    One();
    OtherwiseOnlySigned("+1");
  }

  lemma One()
    ensures AllHex("1") && HexNumber("1") == 1
  {
    assert HexValues("1") == [1] && [1][..0] == [];
  }

  /** What the integer parser makes of a text that is not all digits. */
  lemma SignedOnly(h: string)
    requires |h| <= 16 && !AllHex(h)
    ensures FromStrRadix(h, 16).Ok? <==> 2 <= |h| && h[0] == '+' && AllHex(h[1..])
    ensures FromStrRadix(h, 16).Ok? ==> FromStrRadix(h, 16) == Ok(HexNumber(h[1..]))
  {
    hide ValueOf;
    if |h| >= 2 && h[0] == '+' && AllHex(h[1..]) {
      Short(h[1..]);
    }
  }

  lemma EmptyIsHex()
    ensures AllHex("")
  {
  }

  lemma NotHexStill(hex: string)
    requires !AllHex(hex)
    ensures !AllHex(TrimZeros(hex))
  {
    hide TrimZeros;
    var h := TrimZeros(hex);
    var z := |hex| - |h|;
    var i :| 0 <= i < |hex| && !IsHex(hex[i]);
    assert i >= z;
    var j := i - z;
    assert h[j] == hex[i];
  }

  lemma Short(s: string)
    requires AllHex(s) && |s| <= 15
    ensures HexNumber(s) < U64_LIMIT
  {
    hide Power;
    Widths();
    ValueBounds(HexValues(s), 16);
    PowerGrows(16, |s|, 16);
  }

  lemma {:induction false} PowerGrows(base: nat, a: nat, b: nat)
    requires base >= 1 && a <= b
    ensures 1 <= Power(base, a) <= Power(base, b)
    decreases b
  {
    if a < b {
      PowerGrows(base, a, b - 1);
      Grows(base, Power(base, b - 1));
    } else if a > 0 {
      PowerGrows(base, a - 1, a - 1);
      Grows(base, Power(base, a - 1));
    }
  }

  lemma Grows(base: nat, p: nat)
    requires base >= 1
    ensures base * p >= p
  {
    MulMonotone(p, 1, base);
    Swap(p, base);
  }
}
