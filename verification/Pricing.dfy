/** What the escrow contract charges for a usage report, and what is lost by splitting one. */
module Pricing {
  import opened Prelude

  /** Prices per thousand tokens, and the multiplier of the TEE tier in basis points. */
  datatype Rates = Rates(inputPer1k: u256, outputPer1k: u256, teeMultiplierBps: u256)

  /** The price before the multiplier: each kind of token is rounded down on its own. */
  function BaseCost(r: Rates, input: nat, output: nat): nat {
    (input * r.inputPer1k) / 1000 + (output * r.outputPer1k) / 1000
  }

  /** The price of a report; the TEE tier rounds down once more. */
  function Cost(r: Rates, tee: bool, input: nat, output: nat): nat {
    if tee then (BaseCost(r, input, output) * r.teeMultiplierBps) / 10000 else BaseCost(r, input, output)
  }

  /** None of the checked multiplications and additions overflows. */
  predicate Priceable(r: Rates, tee: bool, input: nat, output: nat) {
    && input * r.inputPer1k < U256_LIMIT && output * r.outputPer1k < U256_LIMIT
    && BaseCost(r, input, output) < U256_LIMIT
    && (tee ==> BaseCost(r, input, output) * r.teeMultiplierBps < U256_LIMIT)
  }

  /** Computes the price step by step; a product or a sum that needs more than 256 bits reverts. */
  method Price(r: Rates, tee: bool, input: nat, output: nat) returns (ok: bool, cost: nat)
    ensures ok <==> Priceable(r, tee, input, output)
    ensures ok ==> cost == Cost(r, tee, input, output)
  {
    ok, cost := false, 0;
    var inputCost := input * r.inputPer1k;
    var outputCost := output * r.outputPer1k;
    if inputCost >= U256_LIMIT || outputCost >= U256_LIMIT {
      return;
    }
    cost := inputCost / 1000 + outputCost / 1000;
    if cost >= U256_LIMIT {
      return;
    }
    if tee {
      cost := cost * r.teeMultiplierBps;
      if cost >= U256_LIMIT {
        return;
      }
      cost := cost / 10000;
    }
    ok := true;
  }

  /**
   The price against the exact one: rounding takes less than two units from a price
   per thousand tokens, and less than one more where the TEE multiplier applies.
   */
  lemma CostIs(r: Rates, input: nat, output: nat)
    ensures var exact, base := input * r.inputPer1k + output * r.outputPer1k, Cost(r, false, input, output);
            1000 * base <= exact < 1000 * base + 1999
    ensures var base, c := Cost(r, false, input, output), Cost(r, true, input, output);
            10000 * c <= base * r.teeMultiplierBps < 10000 * c + 10000
  {
  }

  /** A report and its continuation. */
  datatype Tokens = Tokens(input: nat, output: nat)

  function CarryOf(a: nat, b: nat, d: nat): nat
    requires d >= 1
  {
    if a % d + b % d >= d then 1 else 0
  }

  /** How many times rounding strikes when a report is split before the multiplier: 0, 1 or 2. */
  function BaseLoss(r: Rates, a: Tokens, b: Tokens): nat {
    CarryOf(a.input * r.inputPer1k, b.input * r.inputPer1k, 1000)
    + CarryOf(a.output * r.outputPer1k, b.output * r.outputPer1k, 1000)
  }

  /** The remainders a split leaves behind do not make up another unit. */
  predicate SplitsEvenly(r: Rates, tee: bool, a: Tokens, b: Tokens) {
    var loss := BaseLoss(r, a, b);
    if tee then
      (BaseCost(r, a.input, a.output) * r.teeMultiplierBps) % 10000
      + (BaseCost(r, b.input, b.output) * r.teeMultiplierBps) % 10000
      + loss * r.teeMultiplierBps < 10000
    else loss == 0
  }

  // ---- Quotients of sums ----------------------------------------------------------------------

  function Div(n: nat, d: nat): nat
    requires d >= 1
  {
    n / d
  }

  function Mod(n: nat, d: nat): nat
    requires d >= 1
  {
    n % d
  }

  lemma Recompose(n: nat, d: nat)
    requires d >= 1
    ensures n == d * Div(n, d) + Mod(n, d) && Mod(n, d) < d
  {
  }

  lemma QuotientIs(n: nat, d: nat, q: nat, r: nat)
    requires d >= 1 && r < d && n == d * q + r
    ensures Div(n, d) == q
  {
    hide Div, Mod;
    Recompose(n, d);
    NextMultiple(d, q, Div(n, d));
    NextMultiple(d, Div(n, d), q);
  }

  lemma Assembled(d: nat, a: nat, qa: nat, ra: nat, b: nat, qb: nat, rb: nat, c: nat, q: nat, r: nat)
    requires a == d * qa + ra && b == d * qb + rb && ra + rb + c == d * q + r
    ensures a + b + c == d * (qa + qb + q) + r
  {
    MulDistributes(d, qa, qb);
    MulDistributes(d, qa + qb, q);
  }

  /** Rounding down a sum of three: what the remainders of the first two and the third make up comes on top. */
  lemma ThreeQuotients(a: nat, b: nat, c: nat, d: nat)
    requires d >= 1
    ensures Div(a + b + c, d) == Div(a, d) + Div(b, d) + Div(Mod(a, d) + Mod(b, d) + c, d)
  {
    hide Div, Mod;
    var rest := Mod(a, d) + Mod(b, d) + c;
    Recompose(a, d);
    Recompose(b, d);
    Recompose(rest, d);
    Assembled(d, a, Div(a, d), Mod(a, d), b, Div(b, d), Mod(b, d), c, Div(rest, d), Mod(rest, d));
    QuotientIs(a + b + c, d, Div(a, d) + Div(b, d) + Div(rest, d), Mod(rest, d));
  }

  lemma SumQuotient(a: nat, b: nat)
    ensures (a + b) / 1000 == a / 1000 + b / 1000 + CarryOf(a, b, 1000)
  {
    ThreeQuotients(a, b, 0, 1000);
  }

  lemma BaseSplit(r: Rates, a: Tokens, b: Tokens)
    ensures BaseCost(r, a.input + b.input, a.output + b.output)
         == BaseCost(r, a.input, a.output) + BaseCost(r, b.input, b.output) + BaseLoss(r, a, b)
  {
    MulRight(a.input, b.input, r.inputPer1k);
    MulRight(a.output, b.output, r.outputPer1k);
    SumQuotient(a.input * r.inputPer1k, b.input * r.inputPer1k);
    SumQuotient(a.output * r.outputPer1k, b.output * r.outputPer1k);
  }

  lemma MulRight(x: nat, y: nat, z: nat)
    ensures (x + y) * z == x * z + y * z
  {
  }

  /**
   Splitting a report never costs the user more, and it costs the same if and only
   if the remainders make up no further unit.
   */
  lemma SplitLosesNothingIff(r: Rates, tee: bool, a: Tokens, b: Tokens)
    ensures var (whole, parts) := (Cost(r, tee, a.input + b.input, a.output + b.output),
                                   Cost(r, tee, a.input, a.output) + Cost(r, tee, b.input, b.output));
            whole >= parts && (whole == parts <==> SplitsEvenly(r, tee, a, b))
  {
    hide BaseCost, BaseLoss;
    BaseSplit(r, a, b);
    if tee {
      Multiplied(BaseCost(r, a.input, a.output), BaseCost(r, b.input, b.output), BaseLoss(r, a, b), r.teeMultiplierBps);
    }
  }

  lemma Multiplied(x: nat, y: nat, loss: nat, bps: nat)
    ensures var (whole, parts) := (((x + y + loss) * bps) / 10000, (x * bps) / 10000 + (y * bps) / 10000);
            && whole >= parts
            && (whole == parts <==> (x * bps) % 10000 + (y * bps) % 10000 + loss * bps < 10000)
  {
    MulRight(x, y, bps);
    MulRight(x + y, loss, bps);
    ThreeQuotients(x * bps, y * bps, loss * bps, 10000);
  }

  /** Two reports of one token each, at 999 units per thousand, are free; one report of both is not. */
  lemma SplitCanLose(r: Rates)
    requires r.inputPer1k == 999 && r.outputPer1k == 0
    ensures Cost(r, false, 1, 0) == 0 && Cost(r, false, 2, 0) == 1
    ensures !SplitsEvenly(r, false, Tokens(1, 0), Tokens(1, 0))
  {
    hide BaseLoss;
    assert 1 * r.inputPer1k == 999 && 2 * r.inputPer1k == 1998 && 0 * r.outputPer1k == 0;
    SplitLosesNothingIff(r, false, Tokens(1, 0), Tokens(1, 0));
  }
}
