/**
 The escrow contract as the settlement loop sees it.

 Amounts are unsigned 256-bit integers whose checked arithmetic reverts instead of
 wrapping. `paid` is gross of the protocol fee. What the contract accepts is on
 record in two ghost logs that only the contract writes.
 */
module Escrow {
  import opened Prelude
  import opened Pricing
  import opened Sessions

  type ChainId = u64

  /** An account; zero is no account. */
  type Address = nat

  datatype ChainSession = ChainSession(
    opening: u256,
    locked: u256,
    usage: u256,
    paid: u256,
    refunded: nat,
    settled: bool,
    tee: bool,
    inputTokens: u64,
    outputTokens: u64)

  function NewSession(amount: u256, tee: bool): ChainSession {
    ChainSession(amount, amount, 0, 0, 0, false, tee, 0, 0)
  }

  /** An accepted transaction; those of this node carry the local session they were sent for. */
  datatype Entry =
    | Recorded(id: Uuid, chain: ChainId, input: nat, output: nat, cost: nat)
    | Metered(chain: ChainId, input: nat, output: nat, cost: nat)  // by the router
    | Partial(id: Uuid, chain: ChainId, toProvider: u256, toUser: u256)
    | Full(id: Uuid, chain: ChainId, toProvider: u256, toUser: u256)

  // ---- Sums over a log -----------------------------------------------------------------------

  function InputSum(log: seq<Entry>, id: Uuid): nat {
    if log == [] then 0
    else InputSum(log[..|log| - 1], id) +
         var e := log[|log| - 1]; if e.Recorded? && e.id == id then e.input else 0
  }

  function OutputSum(log: seq<Entry>, id: Uuid): nat {
    if log == [] then 0
    else OutputSum(log[..|log| - 1], id) +
         var e := log[|log| - 1]; if e.Recorded? && e.id == id then e.output else 0
  }

  function Partials(log: seq<Entry>, id: Uuid): nat {
    if log == [] then 0
    else Partials(log[..|log| - 1], id) +
         var e := log[|log| - 1]; if e.Partial? && e.id == id then 1 else 0
  }

  function PartialsAt(log: seq<Entry>, id: Uuid): set<nat> {
    set i | 0 <= i < |log| && log[i].Partial? && log[i].id == id
  }

  lemma OneEntry(log: seq<Entry>, id: Uuid)
    requires log != []
    ensures var front, n := log[..|log| - 1], |log| - 1;
            && PartialsAt(log, id) == PartialsAt(front, id) + (if log[n].Partial? && log[n].id == id then {n} else {})
            && n !in PartialsAt(front, id)
  {
  }

  /** The partial settlements of a session, one by one. */
  lemma {:induction false} PartialsAre(log: seq<Entry>, id: Uuid)
    ensures Partials(log, id) == |PartialsAt(log, id)|
  {
    if log == [] {
      assert PartialsAt(log, id) == {};
    } else {
      PartialsAre(log[..|log| - 1], id);
      OneEntry(log, id);
    }
  }

  /** What an entry adds to the books of its escrow session. */
  datatype Quantity = Paid | Refunded | Usage | Input | Output

  /** The contract truncates token counts to 64 bits. */
  function Amount(e: Entry, q: Quantity): nat {
    if e.Recorded? || e.Metered? then
      (match q
       case Usage => e.cost
       case Input => e.input % U64_LIMIT
       case Output => e.output % U64_LIMIT
       case _ => 0)
    else
      (match q
       case Paid => e.toProvider
       case Refunded => e.toUser
       case _ => 0)
  }

  function Total(log: seq<Entry>, c: ChainId, q: Quantity): nat {
    if log == [] then 0
    else Total(log[..|log| - 1], c, q) +
         var e := log[|log| - 1]; if e.chain == c then Amount(e, q) else 0
  }

  // ---- The contract's rules -------------------------------------------------------------------

  /** What the contract guards by itself. */
  predicate ChainOk(c: ChainSession) {
    c.paid + c.refunded + c.locked == c.opening && c.paid <= c.usage && (c.settled <==> c.locked == 0)
  }

  /** The checks of an operator settlement. */
  predicate Accepts(c: ChainSession, toProvider: u256, toUser: u256, mustDrain: bool) {
    && !c.settled
    && (if mustDrain then toProvider + toUser == c.locked else 0 < toProvider + toUser <= c.locked)
    && c.paid + toProvider <= c.usage
  }

  function Released(c: ChainSession, toProvider: u256, toUser: u256): ChainSession
    requires toProvider + toUser <= c.locked && c.paid + toProvider <= c.usage
  {
    c.(locked := c.locked - toProvider - toUser,
       paid := c.paid + toProvider,
       refunded := c.refunded + toUser,
       settled := c.locked == toProvider + toUser)
  }

  /** A report can be booked at a price: the session is open, something is new, and no checked addition overflows. */
  predicate CanBook(s: ChainSession, input: nat, output: nat, cost: nat) {
    && !s.settled && (input != 0 || output != 0)
    && s.usage + cost < U256_LIMIT
    && s.inputTokens + input % U64_LIMIT < U64_LIMIT && s.outputTokens + output % U64_LIMIT < U64_LIMIT
  }

  function Booked(s: ChainSession, input: nat, output: nat, cost: nat): ChainSession
    requires CanBook(s, input, output, cost)
  {
    s.(usage := s.usage + cost,
       inputTokens := s.inputTokens + input % U64_LIMIT,
       outputTokens := s.outputTokens + output % U64_LIMIT)
  }

  /** A report is accepted at the rates in force. */
  predicate Reportable(chain: map<ChainId, ChainSession>, c: ChainId, input: nat, output: nat, rates: Rates) {
    && c in chain && Priceable(rates, chain[c].tee, input, output)
    && CanBook(chain[c], input, output, Cost(rates, chain[c].tee, input, output))
  }

  class SettlementEscrow {
    const operator: Address               // the one account that may settle
    const operatorOf: ChainId -> Address  // the registry: who operates the node of a session
    var chain: map<ChainId, ChainSession>
    ghost var log: seq<Entry>             // this node's accepted transactions, oldest first
    ghost var metered: seq<Entry>         // the router's accepted usage records
    ghost var confirmed: seq<Entry>       // the part of `log` whose confirmations have arrived
    ghost var seen: map<ChainId, nat>    // the usage of each open session when this node last read it
    ghost var reverted: nat               // operator settlements that reached the contract and were refused

    constructor (operator: Address, operatorOf: ChainId -> Address)
      ensures this.operator == operator && this.operatorOf == operatorOf
      ensures chain == map[] && log == [] && metered == [] && confirmed == [] && seen == map[] && reverted == 0
    {
      this.operator, this.operatorOf := operator, operatorOf;
      chain, log, metered, confirmed, seen, reverted := map[], [], [], [], map[], 0;
    }

    /** A consumer locks funds for a new session. */
    method OpenSession(c: ChainId, amount: u256, tee: bool)
      modifies this`chain
      ensures chain == if amount > 0 && c !in old(chain) then old(chain)[c := NewSession(amount, tee)] else old(chain)
    {
      if amount > 0 && c !in chain {
        chain := chain[c := ChainSession(amount, amount, 0, 0, 0, false, tee, 0, 0)];
      }
    }

    /** Books a report if it can be booked at the rates in force, and says at what price. */
    method ApplyUsage(c: ChainId, input: nat, output: nat, rates: Rates) returns (ok: bool, cost: nat)
      modifies this`chain
      ensures ok <==> Reportable(old(chain), c, input, output, rates)
      ensures ok ==> cost == Cost(rates, old(chain)[c].tee, input, output)
                     && chain == old(chain)[c := Booked(old(chain)[c], input, output, cost)]
      ensures !ok ==> chain == old(chain)
    {
      ok, cost := false, 0;
      var priced := false;
      if c in chain && !chain[c].settled && !(input == 0 && output == 0) {
        priced, cost := Price(rates, chain[c].tee, input, output);
      }
      hide Cost, Priceable;
      if priced {
        var s := chain[c];
        if s.usage + cost < U256_LIMIT && s.inputTokens + input % U64_LIMIT < U64_LIMIT
           && s.outputTokens + output % U64_LIMIT < U64_LIMIT
        {
          s := s.(usage := s.usage + cost);
          s := s.(inputTokens := s.inputTokens + input % U64_LIMIT);
          s := s.(outputTokens := s.outputTokens + output % U64_LIMIT);
          chain := chain[c := s];
          ok := true;
        }
      }
    }

    /** The router records usage on its own. */
    method RecordUsageByRouter(c: ChainId, input: nat, output: nat, rates: Rates)
      returns (ok: bool, ghost entry: Entry)
      modifies this`chain, this`metered
      ensures ok <==> Reportable(old(chain), c, input, output, rates)
      ensures ok ==>
                && entry == Metered(c, input, output, Cost(rates, old(chain)[c].tee, input, output))
                && chain == old(chain)[c := Booked(old(chain)[c], input, output, entry.cost)]
                && metered == old(metered) + [entry]
      ensures !ok ==> chain == old(chain) && metered == old(metered)
    {
      hide Cost, Priceable;
      var cost;
      ok, cost := ApplyUsage(c, input, output, rates);
      entry := Metered(c, input, output, cost);
      if ok {
        metered := metered + [entry];
      }
    }

    /** This node records usage, for its session `id`. */
    method RecordUsage(sender: Address, c: ChainId, input: nat, output: nat, rates: Rates, ghost id: Uuid)
      returns (ok: bool, ghost entry: Entry)
      modifies this`chain, this`log
      ensures ok <==> sender == operatorOf(c) && Reportable(old(chain), c, input, output, rates)
      ensures ok ==>
                && entry == Recorded(id, c, input, output, Cost(rates, old(chain)[c].tee, input, output))
                && chain == old(chain)[c := Booked(old(chain)[c], input, output, entry.cost)]
                && log == old(log) + [entry]
      ensures !ok ==> chain == old(chain) && log == old(log)
    {
      hide Cost, Priceable;
      ok := false;
      var cost := 0;
      if sender == operatorOf(c) {
        ok, cost := ApplyUsage(c, input, output, rates);
      }
      entry := Recorded(id, c, input, output, cost);
      if ok {
        log := log + [entry];
      }
    }

    /** The confirmations of all this node's accepted transactions have arrived. */
    ghost method Confirm()
      modifies this`confirmed
      ensures confirmed == log
    {
      confirmed := log;
    }

    /** The `sessions(sessionId)` view; an unknown session reads as all zeros. */
    method Read(c: ChainId) returns (s: Option<ChainSession>)
      modifies this`seen
      ensures s == if c in chain then Some(chain[c]) else None
      ensures seen == if c in chain && !chain[c].settled then old(seen)[c := chain[c].usage] else old(seen)
    {
      if c in chain {
        if !chain[c].settled {
          seen := seen[c := chain[c].usage];
        }
        s := Some(chain[c]);
      } else {
        s := None;
      }
    }

    /** `settleByOperatorFull` and `settleByOperatorPartial`, for this node's session `id`. */
    method SettleByOperator(sender: Address, c: ChainId, toProvider: u256, toUser: u256, mustDrain: bool,
                            ghost id: Uuid) returns (ok: bool)
      modifies this`chain, this`log, this`reverted
      ensures ok <==> sender == operator && c in old(chain) && Accepts(old(chain)[c], toProvider, toUser, mustDrain)
      ensures ok ==>
                && chain == old(chain)[c := Released(old(chain)[c], toProvider, toUser)]
                && log == old(log) + [if mustDrain then Full(id, c, toProvider, toUser)
                                      else Partial(id, c, toProvider, toUser)]
      ensures !ok ==> chain == old(chain) && log == old(log)
      ensures reverted == old(reverted) + if ok then 0 else 1
    {
      var out := toProvider + toUser;
      if sender != operator || c !in chain || chain[c].settled {
        ok := false;
      } else if mustDrain && out != chain[c].locked {
        ok := false;
      } else if !mustDrain && (out == 0 || out > chain[c].locked) {
        ok := false;
      } else if chain[c].paid + toProvider > chain[c].usage {
        ok := false;
      } else {
        ok := true;
      }
      if ok {
        chain := chain[c := Released(chain[c], toProvider, toUser)];
        log := log + [if mustDrain then Full(id, c, toProvider, toUser) else Partial(id, c, toProvider, toUser)];
      } else {
        reverted := reverted + 1;
      }
    }
  }
}
