/** Numbers written as digits of a base, most significant first. */
module Positional {
  import opened Prelude
  import Scheduler

  ghost predicate AreDigits(d: seq<nat>, base: nat) {
    forall i :: 0 <= i < |d| ==> d[i] < base
  }

  function ValueOf(d: seq<nat>, base: nat): nat {
    if d == [] then 0 else ValueOf(d[..|d| - 1], base) * base + d[|d| - 1]
  }

  /** The shortest digits of a number; none for zero. */
  function Digits(n: nat, base: nat): seq<nat>
    requires base >= 2
  {
    if n == 0 then [] else Digits(Quotient(n, base), base) + [n % base]
  }

  function Quotient(n: nat, base: nat): (q: nat)
    requires base >= 2
    ensures n > 0 ==> q < n
  {
    Smaller(n, base);
    n / base
  }

  lemma Smaller(n: nat, base: nat)
    requires base >= 2
    ensures 0 <= n / base && (n > 0 ==> n / base < n)
  {
    var q := n / base;
    assert n == base * q + n % base;
    if q >= 1 {
      assert base * q >= 2 * q by { assert (base - 2) * q >= 0; }
    }
  }

  lemma LastDigit(v: nat, base: nat, d: nat)
    requires base >= 2 && d < base
    ensures (v * base + d) / base == v && (v * base + d) % base == d
  {
    assert v * base == base * v;
    Scheduler.DivMod(base, v, d);
  }

  lemma {:induction false} ValueOfDigits(n: nat, base: nat)
    requires base >= 2
    ensures ValueOf(Digits(n, base), base) == n
    ensures AreDigits(Digits(n, base), base)
    ensures if n == 0 then Digits(n, base) == [] else Digits(n, base) != [] && Digits(n, base)[0] != 0
  {
    if n > 0 {
      var q := Quotient(n, base);
      ValueOfDigits(q, base);
      var d := Digits(n, base);
      assert d[..|d| - 1] == Digits(q, base);
      Split(n, base);
    }
  }

  lemma Split(n: nat, base: nat)
    requires base >= 2
    ensures var q := Quotient(n, base); n == q * base + n % base && n % base < base && (q == 0 ==> n % base == n)
  {
    var q := n / base;
    assert n == base * q + n % base;
  }

  /** A number without leading zeros is at least as large as its length demands. */
  lemma {:induction false} NotZero(d: seq<nat>, base: nat)
    requires base >= 2 && d != [] && d[0] != 0
    ensures ValueOf(d, base) > 0
  {
    if |d| > 1 {
      var front := d[..|d| - 1];
      NotZero(front, base);
      assert ValueOf(front, base) * base >= 1 by { assert ValueOf(front, base) * base > 0; }
    } else {
      assert d[..0] == [];
    }
  }

  lemma {:induction false} DigitsOfValue(d: seq<nat>, base: nat)
    requires base >= 2 && AreDigits(d, base) && (d != [] ==> d[0] != 0)
    ensures Digits(ValueOf(d, base), base) == d
  {
    if d != [] {
      var front, last := d[..|d| - 1], d[|d| - 1];
      var v := ValueOf(front, base);
      DigitsOfValue(front, base);
      NotZero(d, base);
      LastDigit(v, base, last);
      assert d == front + [last];
    }
  }

  function Power(base: nat, n: nat): nat {
    if n == 0 then 1 else base * Power(base, n - 1)
  }

  /** A number of n digits without a leading zero lies between two powers of the base. */
  lemma {:induction false} ValueBounds(d: seq<nat>, base: nat)
    requires base >= 2 && AreDigits(d, base)
    ensures ValueOf(d, base) < Power(base, |d|)
    ensures d != [] && d[0] != 0 ==> ValueOf(d, base) >= Power(base, |d| - 1)
  {
    if d != [] {
      var front := d[..|d| - 1];
      ValueBounds(front, base);
      ShiftedBelow(ValueOf(front, base), Power(base, |d| - 1), base, d[|d| - 1]);
      if |d| > 1 {
        ShiftedAbove(ValueOf(front, base), Power(base, |d| - 2), base, d[|d| - 1]);
      }
    }
  }

  lemma ShiftedBelow(v: nat, p: nat, base: nat, d: nat)
    requires d < base
    ensures v < p ==> v * base + d < base * p
  {
    NextMultiple(base, v, p);
    Swap(base, v);
  }

  lemma ShiftedAbove(v: nat, q: nat, base: nat, d: nat)
    ensures v >= q ==> v * base + d >= base * q
  {
    if v >= q {
      MulMonotone(base, q, v);
      Swap(base, v);
    }
  }

  lemma Swap(x: int, y: int)
    ensures x * y == y * x
  {
  }

  // ---- Leading zeros ------------------------------------------------------------------------

  function LeadingZeros(d: seq<nat>): (z: nat)
    ensures z <= |d| && (forall i :: 0 <= i < z ==> d[i] == 0)
    ensures z < |d| ==> d[z] != 0
  {
    if d == [] || d[0] != 0 then 0 else 1 + LeadingZeros(d[1..])
  }

  function Zeros(n: nat): seq<nat> {
    seq(n, i => 0)
  }

  /** Leading zeros do not count. */
  lemma {:induction false} ValueWithoutZeros(d: seq<nat>, z: nat, base: nat)
    requires z <= |d| && forall i :: 0 <= i < z ==> d[i] == 0
    ensures ValueOf(d[z..], base) == ValueOf(d, base)
  {
    if z == |d| {
      AllZeros(d, base);
      assert d[z..] == [];
    } else {
      var front := d[..|d| - 1];
      ValueWithoutZeros(front, z, base);
      assert d[z..][..|d[z..]| - 1] == front[z..];
    }
  }

  lemma {:induction false} AllZeros(d: seq<nat>, base: nat)
    requires forall i :: 0 <= i < |d| ==> d[i] == 0
    ensures ValueOf(d, base) == 0
  {
    if d != [] {
      AllZeros(d[..|d| - 1], base);
    }
  }

  // ---- Change of base --------------------------------------------------------------------------

  /** The digits of the same number in another base, with as many leading zeros. */
  function Convert(d: seq<nat>, a: nat, b: nat): seq<nat>
    requires b >= 2
  {
    var z := LeadingZeros(d);
    Zeros(z) + Digits(ValueOf(d[z..], a), b)
  }

  lemma ConvertDigits(d: seq<nat>, a: nat, b: nat)
    requires b >= 2
    ensures AreDigits(Convert(d, a, b), b)
  {
    ValueOfDigits(ValueOf(d[LeadingZeros(d)..], a), b);
  }

  /** Changing the base and changing it back loses nothing. */
  lemma ConvertBack(d: seq<nat>, a: nat, b: nat)
    requires a >= 2 && b >= 2 && AreDigits(d, a)
    ensures Convert(Convert(d, a, b), b, a) == d
  {
    hide ValueOf, Digits, LeadingZeros;
    var z := LeadingZeros(d);
    var rest := d[z..];
    var n := ValueOf(rest, a);
    var e := Convert(d, a, b);
    ValueOfDigits(n, b);
    CountZeros(Digits(n, b), z);
    assert e[z..] == Digits(n, b);
    DigitsOfValue(rest, a);
    assert d[..z] == Zeros(z) && d == d[..z] + rest;
  }

  lemma {:induction false} CountZeros(rest: seq<nat>, z: nat)
    requires rest == [] || rest[0] != 0
    ensures LeadingZeros(Zeros(z) + rest) == z
  {
    var d := Zeros(z) + rest;
    if z > 0 {
      CountZeros(rest, z - 1);
      assert d[1..] == Zeros(z - 1) + rest;
    } else {
      assert d == rest;
    }
  }
}
