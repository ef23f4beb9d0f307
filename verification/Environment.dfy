/**
 What goes on around the settlement loop while it waits.

 Every remote call may fail, and while the loop waits for it streams go on,
 sessions open and close, consumers lock funds and the router records usage. A
 script fixes what happens at each wait; since it is arbitrary, what is proved
 on top of it holds for every interleaving and every pattern of failures. A
 transaction whose confirmation arrives has taken effect, and one that fails has not.
 */
module Environments {
  import opened Prelude
  import opened Pricing
  import opened Sessions
  import opened Escrow
  import opened SettlementState

  datatype EnvEvent =
    | Stream(op: Op)
    | Lock(chain: ChainId, amount: u256, tee: bool)
    | RouterUsage(chain: ChainId, input: nat, output: nat, rates: Rates)

  /** What happens while the loop waits for one remote call, and how that call ends. */
  datatype Turn = Turn(events: seq<EnvEvent>, ok: bool, rates: Rates, head: u64, now: int)

  /** What happens while the loop waits for a confirmation. */
  datatype Pause = Pause(events: seq<EnvEvent>, now: int)

  /** One of the remote calls from number p up to number q failed. */
  ghost predicate CallFailed(script: nat -> Turn, p: nat, q: nat) {
    exists k: nat :: p <= k < q && !script(k).ok
  }

  lemma NoCall(script: nat -> Turn, p: nat)
    ensures !CallFailed(script, p, p)
  {
  }

  lemma OneCall(script: nat -> Turn, p: nat)
    ensures CallFailed(script, p, p + 1) <==> !script(p).ok
  {
    if !script(p).ok {
      assert p <= p < p + 1;
    }
  }

  lemma CallsThen(script: nat -> Turn, p: nat, q: nat, r: nat)
    requires p <= q <= r
    ensures CallFailed(script, p, r) <==> CallFailed(script, p, q) || CallFailed(script, q, r)
  {
  }

  ghost function Now(manager: SessionManager, escrow: SettlementEscrow): (v: View)
    reads manager, manager.store, escrow
    ensures v.inMemory == manager.sessions && v.stored == manager.store.sessions
    ensures v.log == escrow.confirmed && v.accepted == escrow.log && v.metered == escrow.metered
    ensures v.chain == escrow.chain && v.seen == escrow.seen && v.reverted == escrow.reverted
  {
    View(manager.sessions, manager.store.sessions, escrow.confirmed, escrow.log, escrow.metered,
         escrow.chain, escrow.seen, escrow.reverted)
  }

  /**
   Streams count tokens and attach receipts, and each closes its session once; only
   the settlement loop moves watermarks.
   */
  predicate StreamOp(sessions: map<Uuid, Session>, op: Op) {
    match op
    case Open(_, _, _, _, _, _, _) => true
    case Apply(id, change) =>
      change.AddTokens? || change.Attach? || (change.CloseAs? && id in sessions && !sessions[id].state.Completed?)
    case Restart => false
  }

  /** The scripts of a run, and how far they have been played. */
  class Environment {
    const script: nat -> Turn
    const pauses: nat -> Pause
    var position: nat  // of the next remote call
    var pause: nat     // of the next wait for a confirmation
    var clock: int

    constructor (script: nat -> Turn, pauses: nat -> Pause)
      ensures this.script == script && this.pauses == pauses && position == 0
    {
      this.script, this.pauses := script, pauses;
      position, pause, clock := 0, 0, 0;
    }

    /** Waits for a remote call: the other tasks run, then the call ends one way or the other. */
    method Await(manager: SessionManager, escrow: SettlementEscrow, ghost threshold: nat) returns (turn: Turn)
      requires Inv(Now(manager, escrow), threshold)
      modifies this`position, this`clock, manager, manager.store, escrow`chain, escrow`metered
      ensures Inv(Now(manager, escrow), threshold)
      ensures Progress(old(Now(manager, escrow)), Now(manager, escrow), None, None)
      ensures turn == script(old(position)) && position == old(position) + 1
      ensures CallFailed(script, old(position), position) <==> !turn.ok
    {
      hide *;
      OneCall(script, position);
      turn := script(position);
      position, clock := position + 1, turn.now;
      Others(manager, escrow, turn.events, threshold);
    }

    /** Waits for the confirmation of a transaction that has taken effect. */
    method AwaitConfirmation(manager: SessionManager, escrow: SettlementEscrow, ghost threshold: nat)
      requires Inv(Now(manager, escrow), threshold)
      modifies this`pause, this`clock, manager, manager.store, escrow`chain, escrow`metered
      ensures Inv(Now(manager, escrow), threshold)
      ensures Progress(old(Now(manager, escrow)), Now(manager, escrow), None, None)
    {
      hide *;
      var p := pauses(pause);
      pause, clock := pause + 1, p.now;
      Others(manager, escrow, p.events, threshold);
    }
  }

  method Others(manager: SessionManager, escrow: SettlementEscrow, events: seq<EnvEvent>, ghost threshold: nat)
    requires Inv(Now(manager, escrow), threshold)
    modifies manager, manager.store, escrow`chain, escrow`metered
    ensures Inv(Now(manager, escrow), threshold)
    ensures Progress(old(Now(manager, escrow)), Now(manager, escrow), None, None)
    ensures escrow.log == old(escrow.log)
  {
    hide Inv, Progress;
    Stays(Now(manager, escrow));
    for i := 0 to |events|
      invariant Inv(Now(manager, escrow), threshold)
      invariant Progress(old(Now(manager, escrow)), Now(manager, escrow), None, None)
      invariant escrow.log == old(escrow.log)
    {
      ghost var v := Now(manager, escrow);
      match events[i] {
        case Stream(op) => StreamStep(manager, escrow, op, threshold);
        case Lock(c, amount, tee) =>
          escrow.OpenSession(c, amount, tee);
          LockKeeps(v, Now(manager, escrow), c, amount, tee, threshold);
        case RouterUsage(c, input, output, rates) =>
          RouterStep(manager, escrow, c, input, output, rates, threshold);
      }
      Then(old(Now(manager, escrow)), v, Now(manager, escrow), None, None);
    }
  }

  method RouterStep(manager: SessionManager, escrow: SettlementEscrow, c: ChainId, input: nat, output: nat,
                    rates: Rates, ghost threshold: nat)
    requires Inv(Now(manager, escrow), threshold)
    modifies escrow`chain, escrow`metered
    ensures Inv(Now(manager, escrow), threshold)
    ensures Progress(old(Now(manager, escrow)), Now(manager, escrow), None, None)
  {
    hide Inv, Progress, Cost, Priceable;
    ghost var v := Now(manager, escrow);
    ghost var entry;
    var ok;
    ok, entry := escrow.RecordUsageByRouter(c, input, output, rates);
    if ok {
      MeteredKeeps(v, Now(manager, escrow), entry, threshold);
    } else {
      Stays(v);
    }
  }

  method StreamStep(manager: SessionManager, escrow: SettlementEscrow, op: Op, ghost threshold: nat)
    requires Inv(Now(manager, escrow), threshold)
    modifies manager, manager.store
    ensures Inv(Now(manager, escrow), threshold)
    ensures Progress(old(Now(manager, escrow)), Now(manager, escrow), None, None)
  {
    ghost var v := Now(manager, escrow);
    if StreamOp(manager.sessions, op) {
      PerformOp(manager, op);
      if op.Open? && op.id !in v.inMemory && op.id !in v.stored {
        OpenKeeps(v, Now(manager, escrow), manager.sessions[op.id], threshold);
      } else if op.Apply? && op.id in v.inMemory {
        ChangeKeeps(v, Now(manager, escrow), op.id, op.change, None, threshold);
      } else {
        Stays(v);
      }
    } else {
      Stays(v);
    }
  }
}
