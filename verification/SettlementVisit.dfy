/** The settlement of one session: report its usage, read the escrow back, release what is due. */
module SettlementVisit {
  import opened Prelude
  import opened Pricing
  import opened Sessions
  import opened Escrow
  import opened SettlementState
  import opened Environments

  /** The settings the settlement depends on. */
  datatype Settings = Settings(
    configured: bool, operator: Address, nodeOperator: Address,
    threshold: nat, everyNBlocks: u64, skipRecordUsage: bool)

  /** All that a visit depends on and cannot change. */
  datatype World = World(
    settings: Settings, script: nat -> Turn, operator: Address, operatorOf: ChainId -> Address)

  ghost function WorldOf(settings: Settings, env: Environment, escrow: SettlementEscrow): (w: World)
    ensures w.settings == settings && w.script == env.script
    ensures w.operator == escrow.operator && w.operatorOf == escrow.operatorOf
  {
    World(settings, env.script, escrow.operator, escrow.operatorOf)
  }

  // ---- Why a visit may fail -------------------------------------------------------------------

  /** Something of `s` is new, and the contract cannot book it: a checked operation overflows. */
  ghost predicate Unbookable(v: View, c: ChainId, s: Session, rates: Rates) {
    var input := SaturatingSub(s.tokensInput, s.evmInputTokensSynced);
    var output := SaturatingSub(s.tokensOutput, s.evmOutputTokensSynced);
    && Snapshot(s, v.inMemory) && (input != 0 || output != 0)
    && !Reportable(v.chain, c, input, output, rates)
  }

  /**
   The only excuses for a visit that made the calls from number p up to number q
   and left `v` behind: a call failed, the contract does not know the session, the
   registry names another operator for it, or its last call sent a report of new
   tokens that the contract cannot book.
   */
  ghost predicate Excused(w: World, v: View, s: Session, c: ChainId, p: nat, q: nat) {
    || CallFailed(w.script, p, q)
    || c !in v.chain
    || w.operatorOf(c) != w.settings.nodeOperator
    || (p < q && !w.settings.skipRecordUsage && !v.chain[c].settled && Unbookable(v, c, s, w.script(q - 1).rates))
  }

  lemma ExcusedFrom(w: World, v: View, s: Session, c: ChainId, p: nat, q: nat, r: nat)
    requires p <= q <= r && Excused(w, v, s, c, q, r)
    ensures Excused(w, v, s, c, p, r)
  {
    CallsThen(w.script, p, q, r);
  }

  // ---- Reporting usage ------------------------------------------------------------------------

  /** What the contract accepts of a report of `s`: its deltas, once, or nothing when nothing is new. */
  ghost predicate IsReport(report: seq<Entry>, s: Session, c: ChainId) {
    if s.tokensInput <= s.evmInputTokensSynced && s.tokensOutput <= s.evmOutputTokensSynced then report == []
    else
      && |report| == 1 && report[0].Recorded? && report[0].id == s.id && report[0].chain == c
      && report[0].input == s.tokensInput - s.evmInputTokensSynced
      && report[0].output == s.tokensOutput - s.evmOutputTokensSynced
  }

  /**
   After a report the contract has accepted exactly the deltas, and the watermarks
   are the counts of the copy; after a failure it has accepted nothing.
   */
  method SyncTokenUsageOnChain(manager: SessionManager, escrow: SettlementEscrow, env: Environment,
                               nodeOperator: Address, c: ChainId, s: Session, ghost threshold: nat)
    returns (ok: bool, ghost report: seq<Entry>)
    requires Inv(Now(manager, escrow), threshold) && AtRest(Now(manager, escrow))
    requires Snapshot(s, manager.sessions) && s.evmSessionId == Some(c)
    modifies env, manager, manager.store, escrow
    ensures Inv(Now(manager, escrow), threshold) && AtRest(Now(manager, escrow)) && Anchored(s, manager.sessions)
    ensures Progress(old(Now(manager, escrow)), Now(manager, escrow), Some(s.id), None)
    ensures old(env.position) <= env.position <= old(env.position) + 1
    ensures CallFailed(env.script, old(env.position), env.position) ==> !ok
    ensures !ok ==> && env.position == old(env.position) + 1
                    && (CallFailed(env.script, old(env.position), env.position)
                        || nodeOperator != escrow.operatorOf(c)
                        || Unbookable(Now(manager, escrow), c, s, env.script(old(env.position)).rates))
    ensures escrow.log == old(escrow.log) + report && if ok then IsReport(report, s, c) else report == []
    ensures ok ==> manager.sessions[s.id].evmInputTokensSynced == s.tokensInput
                   && manager.sessions[s.id].evmOutputTokensSynced == s.tokensOutput
    ensures !ok ==> Snapshot(s, manager.sessions)
  {
    hide Inv, Progress, Onwards, Cost, Priceable, CanBook;
    ghost var before := Now(manager, escrow);
    NoCall(env.script, env.position);
    var inputDelta := SaturatingSub(s.tokensInput, s.evmInputTokensSynced);
    var outputDelta := SaturatingSub(s.tokensOutput, s.evmOutputTokensSynced);
    report := [];
    if inputDelta == 0 && outputDelta == 0 {
      Unmoved(before, Some(s.id), None);
      SnapshotIsAnchored(s, before.inMemory);
      return true, [];
    }
    ok, report := SendRecordUsage(manager, escrow, env, nodeOperator, c, inputDelta, outputDelta, s, threshold);
    ghost var v := Now(manager, escrow);
    SnapshotAfter(s, before, v, None);
    SnapshotIsAnchored(s, v.inMemory);
    Widen(before, v, Some(s.id), None);
    if ok {
      assert report == [report[0]];
      MarkSynced(manager, escrow, report[0], s, threshold);
      Then(before, v, Now(manager, escrow), Some(s.id), None);
    }
  }

  lemma Unmoved(v: View, id: Option<Uuid>, c: Option<ChainId>)
    ensures Progress(v, v, id, c)
  {
  }

  lemma SnapshotIsAnchored(s: Session, sessions: map<Uuid, Session>)
    requires Snapshot(s, sessions)
    ensures Anchored(s, sessions)
  {
  }

  /** The confirmation arrives and the watermarks move. */
  method MarkSynced(manager: SessionManager, escrow: SettlementEscrow, ghost e: Entry, s: Session, ghost threshold: nat)
    requires Inv(Now(manager, escrow), threshold) && Snapshot(s, manager.sessions)
    requires IsReport([e], s, e.chain) && escrow.log == escrow.confirmed + [e]
    modifies manager, manager.store, escrow`confirmed
    ensures Inv(Now(manager, escrow), threshold) && AtRest(Now(manager, escrow)) && Anchored(s, manager.sessions)
    ensures Progress(old(Now(manager, escrow)), Now(manager, escrow), Some(s.id), None)
    ensures manager.sessions[s.id].evmInputTokensSynced == s.tokensInput
            && manager.sessions[s.id].evmOutputTokensSynced == s.tokensOutput
  {
    hide Inv, Progress, SessionOk, AtRest;
    ghost var v := Now(manager, escrow);
    InvIsValid(manager, escrow, threshold);
    SyncedOk(v, s, e, threshold);
    escrow.Confirm();
    manager.UpdateEvmTokensSynced(s.id, s.tokensInput, s.tokensOutput);
    ConfirmedKeeps(v, Now(manager, escrow), manager.sessions[s.id], e, threshold);
  }

  lemma InvIsValid(manager: SessionManager, escrow: SettlementEscrow, threshold: nat)
    requires Inv(Now(manager, escrow), threshold)
    ensures manager.Valid()
  {
  }

  /** Sends the report of `s` and waits until it is confirmed. */
  method SendRecordUsage(manager: SessionManager, escrow: SettlementEscrow, env: Environment,
                         nodeOperator: Address, c: ChainId, inputDelta: nat, outputDelta: nat,
                         ghost s: Session, ghost threshold: nat)
    returns (ok: bool, ghost sent: seq<Entry>)
    requires Inv(Now(manager, escrow), threshold) && AtRest(Now(manager, escrow))
    requires Snapshot(s, manager.sessions) && s.evmSessionId == Some(c)
    modifies env, manager, manager.store, escrow`chain, escrow`metered, escrow`log
    ensures Inv(Now(manager, escrow), threshold)
    ensures Progress(old(Now(manager, escrow)), Now(manager, escrow), None, None)
    ensures env.position == old(env.position) + 1
    ensures CallFailed(env.script, old(env.position), env.position) ==> !ok
    ensures !ok ==> || CallFailed(env.script, old(env.position), env.position)
                    || nodeOperator != escrow.operatorOf(c)
                    || !Reportable(escrow.chain, c, inputDelta, outputDelta, env.script(old(env.position)).rates)
    ensures escrow.log == old(escrow.log) + sent
    ensures if ok then && |sent| == 1 && sent[0].Recorded?
                       && sent[0] == Recorded(s.id, c, inputDelta, outputDelta, sent[0].cost)
            else sent == []
  {
    hide Inv, Progress, Cost, Priceable, CanBook, CallFailed;
    ghost var before := Now(manager, escrow);
    sent := [];
    var turn := env.Await(manager, escrow, threshold);
    if !turn.ok {
      return false, [];
    }
    ghost var v := Now(manager, escrow);
    SnapshotAfter(s, before, v, None);
    LinkedCopy(s, v, threshold);
    ghost var entry;
    ok, entry := escrow.RecordUsage(nodeOperator, c, inputDelta, outputDelta, turn.rates, s.id);
    if ok {
      sent := [entry];
      RecordedKeeps(v, Now(manager, escrow), entry, threshold);
      Then(before, v, Now(manager, escrow), None, None);
      ghost var mined := Now(manager, escrow);
      env.AwaitConfirmation(manager, escrow, threshold);
      Then(before, mined, Now(manager, escrow), None, None);
    }
  }

  /** The stored record of a copy is linked to the same escrow session. */
  lemma LinkedCopy(s: Session, v: View, threshold: nat)
    requires Inv(v, threshold) && Snapshot(s, v.inMemory)
    ensures s.id in v.stored && v.stored[s.id].evmSessionId == s.evmSessionId
  {
  }

  // ---- Splitting the lock ------------------------------------------------------------------------

  datatype Split = Split(toProvider: u256, toUser: u256, out: u256)

  /** How the lock is divided: the provider's claim, and at the end the rest back to the user. */
  function SplitOf(c: ChainSession, partial: bool): Split {
    var remainingClaim := SaturatingSub(c.usage, c.paid);
    var toProvider := Min(remainingClaim, c.locked);
    var toUser := if partial then 0 else SaturatingSub(c.locked, toProvider);
    Split(toProvider, toUser, SaturatingAdd256(toProvider, toUser))
  }

  /**
   On an open session no saturating operation saturates, the contract accepts the
   split exactly when it moves anything, a full one always does, and the provider
   then has the smaller of usage and opening lock; so it has when nothing moves.
   Usage recorded meanwhile does not matter.
   */
  lemma SplitIsExact(read: ChainSession, live: ChainSession, partial: bool)
    requires ChainOk(read) && ChainOk(live) && !read.settled && read.refunded == 0 && MoneySame(read, live)
    ensures var split := SplitOf(read, partial); var (p, u, out) := (split.toProvider, split.toUser, split.out);
            && read.paid <= read.usage && p <= read.locked && out == p + u <= read.locked
            && (Accepts(live, p, u, !partial) <==> out != 0)
            && (!partial ==> out == read.locked != 0)
            && (if out == 0 then read.paid == Min(read.usage, read.opening)
                else var r := Released(live, p, u);
                     && r.paid == Min(read.usage, read.opening)
                     && r.refunded == u
                     && (!partial ==> r.settled && r.refunded == r.opening - r.paid)
                     && (partial && r.settled ==> r.paid == r.opening))
  {
  }

  /** The provider has been paid what the usage last read entitles it to; at the end the rest went back. */
  ghost predicate Served(v: View, c: ChainId, atEnd: bool) {
    && c in v.chain && c in v.seen
    && v.chain[c].paid == Min(v.seen[c], v.chain[c].opening)
    && (atEnd ==> v.chain[c].settled)
  }

  /** The transaction that settles `s` by a split of what was read. */
  function Settlement(s: Session, c: ChainId, read: ChainSession, partial: bool): Entry {
    var split := SplitOf(read, partial);
    if partial then Partial(s.id, c, split.toProvider, split.toUser) else Full(s.id, c, split.toProvider, split.toUser)
  }

  /** A settlement as the loop makes it keeps the escrow sessions and their books in order. */
  lemma SettleKeeps(v: View, v': View, s: Session, c: ChainId, read: ChainSession, partial: bool, threshold: nat)
    requires Inv(v, threshold) && OpenAs(v, c, read) && Sent(v, Settlement(s, c, read, partial))
    requires var p := SplitOf(read, partial);
             && Accepts(v.chain[c], p.toProvider, p.toUser, !partial)
             && v' == v.(chain := v.chain[c := Released(v.chain[c], p.toProvider, p.toUser)],
                         accepted := v.accepted + [Settlement(s, c, read, partial)])
    ensures Inv(v', threshold) && Progress(v, v', None, Some(c)) && Served(v', c, !partial)
  {
    hide ChainsGood, ChainsBooked, SessionsOk, WrittenThrough, NoneForgotten, SessionsProgress, ChainProgress,
         SplitOf, Released, Served, Accepts;
    SameSessions(v.inMemory);
    SameSessions(v.stored);
    NowOk(v, c, threshold);
    SplitIsExact(read, v.chain[c], partial);
    ReleasedIsGood(v.chain, v.seen, c, read, partial);
    ReleasedIsServed(v, v', c, read, partial);
    SettlementAmounts(s, c, read, v.chain[c], partial);
    AcceptedIsBooked(v.chain, v.accepted, v.metered, Settlement(s, c, read, partial), v'.chain[c]);
  }

  lemma ReleasedIsGood(chain: map<ChainId, ChainSession>, seen: map<ChainId, nat>, c: ChainId,
                       read: ChainSession, partial: bool)
    requires ChainsGood(chain, seen) && c in chain && c in seen && seen[c] == read.usage
    requires ChainOk(read) && !read.settled && read.refunded == 0 && MoneySame(read, chain[c])
    requires var p := SplitOf(read, partial); Accepts(chain[c], p.toProvider, p.toUser, !partial)
    ensures var p := SplitOf(read, partial); var chain' := chain[c := Released(chain[c], p.toProvider, p.toUser)];
            ChainsGood(chain', seen) && ChainProgress(chain, chain', Some(c))
  {
    assert ChainGood(chain[c], Seen(seen, c));
    SplitIsExact(read, chain[c], partial);
  }

  lemma ReleasedIsServed(v: View, v': View, c: ChainId, read: ChainSession, partial: bool)
    requires OpenAs(v, c, read) && ChainOk(v.chain[c]) && v'.seen == v.seen
    requires var p := SplitOf(read, partial);
             && Accepts(v.chain[c], p.toProvider, p.toUser, !partial)
             && v'.chain == v.chain[c := Released(v.chain[c], p.toProvider, p.toUser)]
    ensures Served(v', c, !partial)
  {
    SplitIsExact(read, v.chain[c], partial);
  }

  lemma SettlementAmounts(s: Session, c: ChainId, read: ChainSession, live: ChainSession, partial: bool)
    requires var p := SplitOf(read, partial); Accepts(live, p.toProvider, p.toUser, !partial)
    ensures var p, e := SplitOf(read, partial), Settlement(s, c, read, partial);
            var r := if p.toProvider + p.toUser <= live.locked then Released(live, p.toProvider, p.toUser) else live;
            && r.paid == live.paid + Amount(e, Paid) && r.refunded == live.refunded + Amount(e, Refunded)
            && r.usage == live.usage + Amount(e, Usage) && r.inputTokens == live.inputTokens + Amount(e, Input)
            && r.outputTokens == live.outputTokens + Amount(e, Output)
  {
  }

  // ---- Reading the escrow --------------------------------------------------------------------------

  datatype Outcome = Noop | DidMutateChain | Failed

  /** Reads a session of the escrow. */
  method CallSessions(manager: SessionManager, escrow: SettlementEscrow, env: Environment,
                      c: ChainId, ghost threshold: nat) returns (ok: bool, read: Option<ChainSession>)
    requires Inv(Now(manager, escrow), threshold)
    modifies env, manager, manager.store, escrow`chain, escrow`metered, escrow`seen
    ensures Inv(Now(manager, escrow), threshold)
    ensures Progress(old(Now(manager, escrow)), Now(manager, escrow), None, Some(c))
    ensures NoMoney(old(Now(manager, escrow)), Now(manager, escrow))
    ensures old(env.position) <= env.position <= old(env.position) + 1
    ensures ok <==> !CallFailed(env.script, old(env.position), env.position)
    ensures ok ==> read == if c in escrow.chain then Some(escrow.chain[c]) else None
    ensures ok && read.Some? && !read.value.settled ==> c in escrow.seen && escrow.seen[c] == read.value.usage
  {
    hide *;
    ghost var before := Now(manager, escrow);
    var turn := env.Await(manager, escrow, threshold);
    ghost var v := Now(manager, escrow);
    Widen(before, v, None, Some(c));
    NoneMoved(before, v, None);
    ok, read := turn.ok, None;
    if ok {
      read := escrow.Read(c);
      ReadKeeps(v, Now(manager, escrow), c, threshold);
      Then(before, v, Now(manager, escrow), None, Some(c));
      SameMoney(before, v, Now(manager, escrow));
    }
  }

  /** No money moved: at most usage and tokens were recorded, and sessions opened. */
  ghost predicate NoMoney(a: View, b: View) {
    ChainProgress(a.chain, b.chain, None)
  }

  lemma NoneMoved(a: View, b: View, id: Option<Uuid>)
    requires Progress(a, b, id, None)
    ensures NoMoney(a, b)
  {
  }

  lemma SameMoney(a: View, b: View, d: View)
    requires NoMoney(a, b) && d.chain == b.chain
    ensures NoMoney(a, d)
  {
  }

  lemma NoMoneyThen(a: View, b: View, d: View)
    requires NoMoney(a, b) && NoMoney(b, d)
    ensures NoMoney(a, d)
  {
  }

  /** The registry names the operator of the session's node, and it is this one. */
  method CheckNodeOperator(manager: SessionManager, escrow: SettlementEscrow, env: Environment,
                           nodeOperator: Address, c: ChainId, ghost threshold: nat) returns (ok: bool)
    requires Inv(Now(manager, escrow), threshold)
    modifies env, manager, manager.store, escrow`chain, escrow`metered
    ensures Inv(Now(manager, escrow), threshold)
    ensures Progress(old(Now(manager, escrow)), Now(manager, escrow), None, None)
    ensures old(env.position) <= env.position <= old(env.position) + 2
    ensures ok <==> !CallFailed(env.script, old(env.position), env.position) && escrow.operatorOf(c) == nodeOperator
  {
    hide *;
    ghost var before := Now(manager, escrow);
    var registry := env.Await(manager, escrow, threshold);
    if !registry.ok {
      return false;
    }
    ghost var v := Now(manager, escrow);
    var operator := env.Await(manager, escrow, threshold);
    Then(before, v, Now(manager, escrow), None, None);
    CallsThen(env.script, old(env.position), env.position - 1, env.position);
    ok := operator.ok && escrow.operatorOf(c) == nodeOperator;
  }

  /** The local session is closed as settled. */
  method CloseSettled(manager: SessionManager, escrow: SettlementEscrow, id: Uuid, now: int, ghost threshold: nat)
    requires Inv(Now(manager, escrow), threshold) && id in manager.sessions
    modifies manager, manager.store
    ensures Inv(Now(manager, escrow), threshold)
    ensures Progress(old(Now(manager, escrow)), Now(manager, escrow), Some(id), None)
    ensures id in manager.sessions && manager.sessions[id].state.Settled?
  {
    hide Progress;
    ghost var v := Now(manager, escrow);
    manager.Close(id, SessionState.Settled, now);
    ChangeKeeps(v, Now(manager, escrow), id, CloseAs(SessionState.Settled, now), Some(id), threshold);
  }

  ghost predicate IsSettled(s: Session, sessions: map<Uuid, Session>) {
    s.id in sessions && sessions[s.id].state.Settled?
  }

  /** The first look at the escrow session of `s`: a settled one closes the record, an unknown one is an error. */
  method FirstLook(manager: SessionManager, escrow: SettlementEscrow, env: Environment,
                   s: Session, c: ChainId, ghost threshold: nat) returns (outcome: Option<Outcome>)
    requires Inv(Now(manager, escrow), threshold) && Snapshot(s, manager.sessions)
    modifies env, manager, manager.store, escrow`chain, escrow`metered, escrow`seen
    ensures Inv(Now(manager, escrow), threshold)
    ensures Progress(old(Now(manager, escrow)), Now(manager, escrow),
                     if outcome == Some(Noop) then Some(s.id) else None, Some(c))
    ensures NoMoney(old(Now(manager, escrow)), Now(manager, escrow))
    ensures old(env.position) <= env.position <= old(env.position) + 1
    ensures outcome == Some(Failed) <==>
              CallFailed(env.script, old(env.position), env.position) || c !in escrow.chain
    ensures outcome.Some? ==> outcome.value.Noop? || outcome.value.Failed?
    ensures outcome == Some(Noop) ==> c in escrow.chain && escrow.chain[c].settled
    ensures outcome == Some(Noop) ==> Served(Now(manager, escrow), c, true) && IsSettled(s, manager.sessions)
    ensures outcome == None ==> c in escrow.chain && !escrow.chain[c].settled
  {
    hide *;
    ghost var before := Now(manager, escrow);
    var ok, read := CallSessions(manager, escrow, env, c, threshold);
    if !ok {
      return Some(Failed);
    }
    if read == None {
      return Some(Failed);
    }
    if !read.value.settled {
      return None;
    }
    ghost var v := Now(manager, escrow);
    SettledIsServed(v, c, threshold);
    SnapshotAfter(s, before, v, Some(c));
    CloseSettled(manager, escrow, s.id, env.clock, threshold);
    ServedStays(v, Now(manager, escrow), Some(s.id), c, true);
    Widen(before, v, Some(s.id), Some(c));
    Widen(v, Now(manager, escrow), Some(s.id), Some(c));
    Then(before, v, Now(manager, escrow), Some(s.id), Some(c));
    SameMoney(before, v, Now(manager, escrow));
    ClosedNow(s, manager.sessions);
    return Some(Noop);
  }

  lemma ClosedNow(s: Session, sessions: map<Uuid, Session>)
    requires s.id in sessions && sessions[s.id].state.Settled?
    ensures IsSettled(s, sessions)
  {
  }

  lemma SettledIsServed(v: View, c: ChainId, threshold: nat)
    requires Inv(v, threshold) && c in v.chain && v.chain[c].settled
    ensures Served(v, c, true)
  {
    assert ChainGood(v.chain[c], Seen(v.seen, c));
  }

  /** Money elsewhere does not matter, and what is settled stays so. */
  lemma ServedStays(a: View, b: View, id: Option<Uuid>, c: ChainId, atEnd: bool)
    requires Progress(a, b, id, None) && Served(a, c, atEnd)
    ensures Served(b, c, atEnd)
  {
  }

  lemma MoneyStays(a: View, b: View, id: Option<Uuid>, c: ChainId)
    requires Progress(a, b, id, None) && c in a.chain
    ensures c in b.chain && MoneySame(a.chain[c], b.chain[c])
    ensures c in a.seen ==> c in b.seen && b.seen[c] == a.seen[c]
    ensures b.chain[c].settled == a.chain[c].settled
  {
  }

  /** The first look, and the check that this node may settle the session. */
  method BeginVisit(manager: SessionManager, escrow: SettlementEscrow, env: Environment,
                    nodeOperator: Address, s: Session, c: ChainId, ghost threshold: nat)
    returns (outcome: Option<Outcome>)
    requires Inv(Now(manager, escrow), threshold) && Snapshot(s, manager.sessions)
    modifies env, manager, manager.store, escrow`chain, escrow`metered, escrow`seen
    ensures Inv(Now(manager, escrow), threshold)
    ensures Progress(old(Now(manager, escrow)), Now(manager, escrow),
                     if outcome == Some(Noop) then Some(s.id) else None, Some(c))
    ensures NoMoney(old(Now(manager, escrow)), Now(manager, escrow))
    ensures old(env.position) <= env.position <= old(env.position) + 3
    ensures outcome == Some(Failed) <==>
              || CallFailed(env.script, old(env.position), env.position)
              || c !in escrow.chain
              || (!escrow.chain[c].settled && escrow.operatorOf(c) != nodeOperator)
    ensures outcome.Some? ==> outcome.value.Noop? || outcome.value.Failed?
    ensures outcome == Some(Noop) ==> c in escrow.chain && escrow.chain[c].settled
    ensures outcome == Some(Noop) ==> Served(Now(manager, escrow), c, true) && IsSettled(s, manager.sessions)
    ensures outcome == None ==> c in escrow.chain && !escrow.chain[c].settled && escrow.operatorOf(c) == nodeOperator
  {
    hide *;
    ghost var before := Now(manager, escrow);
    outcome := FirstLook(manager, escrow, env, s, c, threshold);
    if outcome == None {
      ghost var v := Now(manager, escrow);
      ghost var looked := env.position;
      var mine := CheckNodeOperator(manager, escrow, env, nodeOperator, c, threshold);
      ThenWait(before, v, Now(manager, escrow), None, Some(c));
      MoneyStays(v, Now(manager, escrow), None, c);
      NoneMoved(v, Now(manager, escrow), None);
      NoMoneyThen(before, v, Now(manager, escrow));
      CallsThen(env.script, old(env.position), looked, env.position);
      outcome := if mine then None else Some(Failed);
    }
  }

  /** The contract has accepted all tokens of the copy `s`. */
  ghost predicate UpToDate(s: Session, sessions: map<Uuid, Session>) {
    && s.id in sessions
    && sessions[s.id].evmInputTokensSynced >= s.tokensInput && sessions[s.id].evmOutputTokensSynced >= s.tokensOutput
  }

  /** Reports the usage of `s`, unless the router meters it. */
  method Report(manager: SessionManager, escrow: SettlementEscrow, env: Environment, settings: Settings,
                s: Session, c: ChainId, ghost threshold: nat) returns (ok: bool, ghost report: seq<Entry>)
    requires Inv(Now(manager, escrow), threshold) && AtRest(Now(manager, escrow))
    requires Snapshot(s, manager.sessions) && s.evmSessionId == Some(c)
    modifies env, manager, manager.store, escrow
    ensures Inv(Now(manager, escrow), threshold) && AtRest(Now(manager, escrow)) && Anchored(s, manager.sessions)
    ensures Progress(old(Now(manager, escrow)), Now(manager, escrow), Some(s.id), None)
    ensures old(env.position) <= env.position <= old(env.position) + 1
    ensures CallFailed(env.script, old(env.position), env.position) ==> !ok
    ensures !ok && c in escrow.chain && !escrow.chain[c].settled ==>
              Excused(WorldOf(settings, env, escrow), Now(manager, escrow), s, c, old(env.position), env.position)
    ensures ok ==> settings.skipRecordUsage || UpToDate(s, manager.sessions)
    ensures escrow.log == old(escrow.log) + report && Reported(report, settings, s, c, ok)
  {
    hide Inv, Progress, AtRest, Onwards, Snapshot, Unbookable, CallFailed;
    report := [];
    NoCall(env.script, env.position);
    if settings.skipRecordUsage {
      Unmoved(Now(manager, escrow), Some(s.id), None);
      SnapshotIsAnchored(s, manager.sessions);
      return true, [];
    }
    ok, report := SyncTokenUsageOnChain(manager, escrow, env, settings.nodeOperator, c, s, threshold);
  }

  /** What a visit reports: the deltas, unless the router meters usage or the report failed. */
  ghost predicate Reported(report: seq<Entry>, settings: Settings, s: Session, c: ChainId, ok: bool) {
    if ok && !settings.skipRecordUsage then IsReport(report, s, c) else report == []
  }

  /** The escrow session is open and was read as `read`. */
  ghost predicate OpenAs(v: View, c: ChainId, read: ChainSession) {
    && !read.settled && c in v.chain && MoneySame(read, v.chain[c])
    && c in v.seen && v.seen[c] == read.usage && ChainOk(read) && read.refunded == 0
  }

  lemma OpenRead(v: View, c: ChainId, threshold: nat)
    requires Inv(v, threshold) && c in v.chain && !v.chain[c].settled && c in v.seen && v.seen[c] == v.chain[c].usage
    ensures OpenAs(v, c, v.chain[c])
  {
    assert ChainGood(v.chain[c], Seen(v.seen, c));
  }

  lemma OpenAsStays(a: View, b: View, c: ChainId, read: ChainSession)
    requires Progress(a, b, None, None) && OpenAs(a, c, read)
    ensures OpenAs(b, c, read)
  {
  }

  lemma SnapshotAfter(s: Session, a: View, b: View, c: Option<ChainId>)
    requires Progress(a, b, None, c) && Snapshot(s, a.inMemory)
    ensures Snapshot(s, b.inMemory) && s.id in b.inMemory
  {
  }

  lemma AnchoredStays(s: Session, a: View, b: View, c: Option<ChainId>)
    requires Progress(a, b, None, c) && Anchored(s, a.inMemory)
    ensures Anchored(s, b.inMemory)
  {
  }

  /** The second look, after usage was reported. The session is still open: only this loop settles it. */
  method LookAgain(manager: SessionManager, escrow: SettlementEscrow, env: Environment,
                   c: ChainId, ghost threshold: nat) returns (read: Option<ChainSession>)
    requires Inv(Now(manager, escrow), threshold) && c in escrow.chain && !escrow.chain[c].settled
    modifies env, manager, manager.store, escrow`chain, escrow`metered, escrow`seen
    ensures Inv(Now(manager, escrow), threshold)
    ensures Progress(old(Now(manager, escrow)), Now(manager, escrow), None, Some(c))
    ensures NoMoney(old(Now(manager, escrow)), Now(manager, escrow))
    ensures old(env.position) <= env.position <= old(env.position) + 1
    ensures read.Some? <==> !CallFailed(env.script, old(env.position), env.position)
    ensures read.Some? ==> OpenAs(Now(manager, escrow), c, read.value) && read.value == escrow.chain[c]
  {
    hide *;
    ghost var before := Now(manager, escrow);
    var turn := env.Await(manager, escrow, threshold);
    ghost var v := Now(manager, escrow);
    Widen(before, v, None, Some(c));
    NoneMoved(before, v, None);
    if !turn.ok {
      return None;
    }
    MoneyStays(before, v, None, c);
    read := escrow.Read(c);
    ReadKeeps(v, Now(manager, escrow), c, threshold);
    Then(before, v, Now(manager, escrow), None, Some(c));
    SameMoney(before, v, Now(manager, escrow));
    OpenRead(Now(manager, escrow), c, threshold);
  }

  // ---- Settling ------------------------------------------------------------------------------------------

  /** Sends the settlement of `s` and waits until it is confirmed. The contract never refuses it. */
  method SendSettlement(manager: SessionManager, escrow: SettlementEscrow, env: Environment, operator: Address,
                        ghost s: Session, c: ChainId, read: ChainSession, partial: bool, ghost threshold: nat)
    returns (ok: bool)
    requires operator == escrow.operator && s.evmSessionId == Some(c)
    requires Inv(Now(manager, escrow), threshold) && OpenAs(Now(manager, escrow), c, read)
    requires Anchored(s, manager.sessions) && SplitOf(read, partial).out != 0
    modifies env, manager, manager.store, escrow`chain, escrow`metered, escrow`log, escrow`reverted
    ensures Inv(Now(manager, escrow), threshold)
    ensures Progress(old(Now(manager, escrow)), Now(manager, escrow), None, Some(c))
    ensures old(env.position) <= env.position <= old(env.position) + 1
    ensures ok <==> !CallFailed(env.script, old(env.position), env.position)
    ensures escrow.log == old(escrow.log) + if ok then [Settlement(s, c, read, partial)] else []
    ensures ok ==> Served(Now(manager, escrow), c, !partial)
  {
    hide *;
    ghost var before := Now(manager, escrow);
    var turn := env.Await(manager, escrow, threshold);
    ghost var v := Now(manager, escrow);
    Widen(before, v, None, Some(c));
    ok := turn.ok;
    if ok {
      OpenAsStays(before, v, c, read);
      AnchoredStays(s, before, v, None);
      Settle(manager, escrow, operator, s, c, read, partial, threshold);
      ghost var mined := Now(manager, escrow);
      Then(before, v, mined, None, Some(c));
      env.AwaitConfirmation(manager, escrow, threshold);
      ThenWait(before, mined, Now(manager, escrow), None, Some(c));
      ServedStays(mined, Now(manager, escrow), None, c, !partial);
    }
  }

  method Settle(manager: SessionManager, escrow: SettlementEscrow, operator: Address,
                ghost s: Session, c: ChainId, read: ChainSession, partial: bool, ghost threshold: nat)
    requires operator == escrow.operator && s.evmSessionId == Some(c)
    requires Inv(Now(manager, escrow), threshold) && OpenAs(Now(manager, escrow), c, read)
    requires Anchored(s, manager.sessions) && SplitOf(read, partial).out != 0
    modifies escrow`chain, escrow`log, escrow`reverted
    ensures Inv(Now(manager, escrow), threshold)
    ensures Progress(old(Now(manager, escrow)), Now(manager, escrow), None, Some(c))
    ensures escrow.log == old(escrow.log) + [Settlement(s, c, read, partial)]
    ensures Served(Now(manager, escrow), c, !partial)
  {
    hide Inv, Progress, Served, OpenAs, Accepts, Released, Anchored, Sent, SplitOf;
    ghost var v := Now(manager, escrow);
    WillBeAccepted(v, s, c, read, partial, threshold);
    var split := SplitOf(read, partial);
    var accepted := escrow.SettleByOperator(operator, c, split.toProvider, split.toUser, !partial, s.id);
    assert accepted;
    SettleKeeps(v, Now(manager, escrow), s, c, read, partial, threshold);
  }

  /** A split of an open session that moves anything is one the contract accepts. */
  lemma WillBeAccepted(v: View, s: Session, c: ChainId, read: ChainSession, partial: bool, threshold: nat)
    requires Inv(v, threshold) && OpenAs(v, c, read) && SplitOf(read, partial).out != 0
    requires Anchored(s, v.inMemory) && s.evmSessionId == Some(c)
    ensures c in v.chain && Sent(v, Settlement(s, c, read, partial))
    ensures var p := SplitOf(read, partial); Accepts(v.chain[c], p.toProvider, p.toUser, !partial)
  {
    NowOk(v, c, threshold);
    SplitIsExact(read, v.chain[c], partial);
  }

  lemma NowOk(v: View, c: ChainId, threshold: nat)
    requires Inv(v, threshold) && c in v.chain
    ensures ChainOk(v.chain[c])
  {
    assert ChainGood(v.chain[c], Seen(v.seen, c));
  }

  /** What the local record shows of a confirmed settlement. */
  ghost predicate Marked(s: Session, sessions: map<Uuid, Session>, partial: bool) {
    s.id in sessions &&
    if partial then sessions[s.id].evmTeeAnchorTokens == s.tokensOutput else sessions[s.id].state.Settled?
  }

  /** The confirmation arrives: the anchor moves, or the session is closed. */
  method Finish(manager: SessionManager, escrow: SettlementEscrow,
                s: Session, partial: bool, now: int, ghost e: Entry, ghost threshold: nat)
    requires Inv(Now(manager, escrow), threshold) && Anchored(s, manager.sessions)
    requires escrow.log == escrow.confirmed + [e]
    requires !e.Metered? && e.id == s.id && if partial then e.Partial? else e.Full?
    requires partial ==> s.tokensOutput - s.evmTeeAnchorTokens >= Max(threshold, 1)
    modifies manager, manager.store, escrow`confirmed
    ensures Inv(Now(manager, escrow), threshold) && AtRest(Now(manager, escrow)) && Marked(s, manager.sessions, partial)
    ensures Progress(old(Now(manager, escrow)), Now(manager, escrow), Some(s.id), None)
  {
    hide Inv, Progress, SessionOk, AtRest, Onwards;
    ghost var v := Now(manager, escrow);
    InvIsValid(manager, escrow, threshold);
    escrow.Confirm();
    if partial {
      AnchorOk(v, s, e, threshold);
      manager.UpdateEvmTeeAnchorTokens(s.id, s.tokensOutput);
    } else {
      ClosedOk(v, s, e, now, threshold);
      manager.Close(s.id, SessionState.Settled, now);
    }
    ConfirmedKeeps(v, Now(manager, escrow), manager.sessions[s.id], e, threshold);
  }

  /** Divides and releases the lock as it was last read. */
  method Release(manager: SessionManager, escrow: SettlementEscrow, env: Environment,
                 operator: Address, s: Session, c: ChainId, read: ChainSession, partial: bool, ghost threshold: nat)
    returns (outcome: Outcome)
    requires operator == escrow.operator && s.evmSessionId == Some(c)
    requires Inv(Now(manager, escrow), threshold) && AtRest(Now(manager, escrow))
    requires Anchored(s, manager.sessions) && OpenAs(Now(manager, escrow), c, read)
    requires partial ==> s.tokensOutput - s.evmTeeAnchorTokens >= Max(threshold, 1)
    modifies env, manager, manager.store, escrow
    ensures Inv(Now(manager, escrow), threshold) && AtRest(Now(manager, escrow))
    ensures Progress(old(Now(manager, escrow)), Now(manager, escrow), Some(s.id), Some(c))
    ensures old(env.position) <= env.position <= old(env.position) + 1
    ensures outcome == Failed <==> CallFailed(env.script, old(env.position), env.position)
    ensures outcome != Failed ==> Served(Now(manager, escrow), c, !partial)
    ensures outcome == Noop ==> partial
    ensures outcome == DidMutateChain ==> Marked(s, manager.sessions, partial)
    ensures escrow.log == old(escrow.log) + if outcome == DidMutateChain then [Settlement(s, c, read, partial)] else []
  {
    hide *;
    NoCall(env.script, env.position);
    if SplitOf(read, partial).out == 0 {
      NothingDue(Now(manager, escrow), s, c, read, partial, threshold);
      outcome := Noop;
    } else {
      outcome := ReleaseSome(manager, escrow, env, operator, s, c, read, partial, threshold);
    }
  }

  lemma NothingDue(v: View, s: Session, c: ChainId, read: ChainSession, partial: bool, threshold: nat)
    requires Inv(v, threshold) && OpenAs(v, c, read) && SplitOf(read, partial).out == 0
    ensures Served(v, c, !partial) && Progress(v, v, Some(s.id), Some(c)) && partial
  {
    NowOk(v, c, threshold);
    SplitIsExact(read, v.chain[c], partial);
  }

  method ReleaseSome(manager: SessionManager, escrow: SettlementEscrow, env: Environment,
                     operator: Address, s: Session, c: ChainId, read: ChainSession, partial: bool, ghost threshold: nat)
    returns (outcome: Outcome)
    requires operator == escrow.operator && s.evmSessionId == Some(c)
    requires Inv(Now(manager, escrow), threshold) && AtRest(Now(manager, escrow))
    requires Anchored(s, manager.sessions) && OpenAs(Now(manager, escrow), c, read)
    requires partial ==> s.tokensOutput - s.evmTeeAnchorTokens >= Max(threshold, 1)
    requires SplitOf(read, partial).out != 0
    modifies env, manager, manager.store, escrow
    ensures Inv(Now(manager, escrow), threshold) && AtRest(Now(manager, escrow))
    ensures Progress(old(Now(manager, escrow)), Now(manager, escrow), Some(s.id), Some(c))
    ensures old(env.position) <= env.position <= old(env.position) + 1
    ensures outcome == if CallFailed(env.script, old(env.position), env.position) then Failed else DidMutateChain
    ensures outcome == DidMutateChain ==>
              Served(Now(manager, escrow), c, !partial) && Marked(s, manager.sessions, partial)
    ensures escrow.log == old(escrow.log) + if outcome == DidMutateChain then [Settlement(s, c, read, partial)] else []
  {
    hide Inv, Progress, Served, OpenAs, Anchored, Marked, SplitOf, CallFailed;
    ghost var before := Now(manager, escrow);
    var ok := SendSettlement(manager, escrow, env, operator, s, c, read, partial, threshold);
    ghost var v := Now(manager, escrow);
    Widen(before, v, Some(s.id), Some(c));
    if ok {
      AnchoredStays(s, before, v, Some(c));
      Finish(manager, escrow, s, partial, env.clock, Settlement(s, c, read, partial), threshold);
      Widen(v, Now(manager, escrow), Some(s.id), Some(c));
      Then(before, v, Now(manager, escrow), Some(s.id), Some(c));
      ServedStays(v, Now(manager, escrow), Some(s.id), c, !partial);
    }
    outcome := if ok then DidMutateChain else Failed;
  }

  // ---- A whole visit ---------------------------------------------------------------------------------

  /**
   The usage behind a payment includes every report of this node, that of the visit
   too, and what the router had recorded when the visit began.
   */
  ghost predicate Fresh(a: View, b: View, c: ChainId) {
    c in a.chain && !a.chain[c].settled ==>
      c in b.seen && b.seen[c] >= Total(b.accepted, c, Usage) + Total(a.metered, c, Usage)
  }

  lemma UpToDateStays(s: Session, a: View, b: View, id: Option<Uuid>, c: Option<ChainId>)
    requires UpToDate(s, a.inMemory) && Progress(a, b, id, c)
    ensures UpToDate(s, b.inMemory)
  {
  }

  /**
   What a visit to `s` without an excuse achieves from `a` to `b`: the provider is
   paid what fresh usage entitles it to; the tokens of `s` are reported, unless the
   router meters them or the escrow session turned out settled and nothing was sent;
   and at the end the escrow session and the record are both settled.
   */
  ghost predicate Attended(settings: Settings, a: View, b: View, s: Session, c: ChainId, atEnd: bool) {
    && Served(b, c, atEnd) && Fresh(a, b, c)
    && (settings.skipRecordUsage || UpToDate(s, b.inMemory) || (b.chain[c].settled && b.accepted == a.accepted))
    && (atEnd ==> IsSettled(s, b.inMemory))
  }

  lemma SettledBefore(a: View, b: View, c: ChainId)
    requires NoMoney(a, b) && Served(b, c, true)
    ensures Fresh(a, b, c)
  {
  }

  lemma FreshlyRead(a: View, b: View, id: Option<Uuid>, c: ChainId, read: ChainSession, threshold: nat)
    requires Progress(a, b, id, Some(c)) && OpenAs(b, c, read) && b.chain[c] == read && Inv(b, threshold)
    ensures Fresh(a, b, c)
  {
    hide Total;
    assert SessionBooked(b.chain[c], c, b.accepted, b.metered);
    TotalOfPrefix(a.metered, b.metered, c, Usage);
  }

  lemma {:induction false} TotalOfPrefix(a: seq<Entry>, b: seq<Entry>, c: ChainId, q: Quantity)
    requires a <= b
    ensures Total(a, c, q) <= Total(b, c, q)
    decreases |b|
  {
    if |a| < |b| {
      TotalOfPrefix(a, b[..|b| - 1], c, q);
    } else {
      assert a == b;
    }
  }

  /** A settlement adds no usage. */
  lemma FreshStays(a: View, b: View, d: View, id: Option<Uuid>, c: ChainId, settlement: seq<Entry>)
    requires Fresh(a, b, c) && Progress(b, d, id, Some(c)) && d.accepted == b.accepted + settlement
    requires settlement == [] || (|settlement| == 1 && (settlement[0].Partial? || settlement[0].Full?))
    ensures Fresh(a, d, c)
  {
    hide Total;
    if settlement != [] {
      TotalGrows(b.accepted, settlement[0], c, Usage);
      assert d.accepted == b.accepted + [settlement[0]];
    } else {
      assert d.accepted == b.accepted;
    }
  }

  datatype Refreshed = Stop(outcome: Outcome) | Ready(read: ChainSession)

  /** Everything up to the division of the lock: no money moves. */
  method Refresh(manager: SessionManager, escrow: SettlementEscrow, env: Environment, settings: Settings,
                 s: Session, c: ChainId, ghost threshold: nat) returns (r: Refreshed, ghost report: seq<Entry>)
    requires Inv(Now(manager, escrow), threshold) && AtRest(Now(manager, escrow))
    requires Snapshot(s, manager.sessions) && s.evmSessionId == Some(c)
    modifies env, manager, manager.store, escrow
    ensures Inv(Now(manager, escrow), threshold) && AtRest(Now(manager, escrow))
    ensures Progress(old(Now(manager, escrow)), Now(manager, escrow), Some(s.id), Some(c))
    ensures NoMoney(old(Now(manager, escrow)), Now(manager, escrow))
    ensures old(env.position) <= env.position <= old(env.position) + 5
    ensures CallFailed(env.script, old(env.position), env.position) ==> r == Stop(Failed)
    ensures r == Stop(Failed) ==>
              Excused(WorldOf(settings, env, escrow), Now(manager, escrow), s, c, old(env.position), env.position)
    ensures r != Stop(DidMutateChain)
    ensures r == Stop(Noop) ==> Served(Now(manager, escrow), c, true) && IsSettled(s, manager.sessions)
    ensures r != Stop(Failed) ==> Fresh(old(Now(manager, escrow)), Now(manager, escrow), c)
    ensures r.Ready? ==> OpenAs(Now(manager, escrow), c, r.read) && Anchored(s, manager.sessions)
    ensures r.Ready? ==> escrow.operatorOf(c) == settings.nodeOperator && Reported(report, settings, s, c, true)
    ensures r.Ready? ==> settings.skipRecordUsage || UpToDate(s, manager.sessions)
    ensures r == Stop(Noop) ==> c in escrow.chain && escrow.chain[c].settled && report == []
    ensures escrow.log == old(escrow.log) + report
    ensures report == [] || IsReport(report, s, c)
  {
    hide *;
    report := [];
    ghost var before := Now(manager, escrow);
    var stop := BeginVisit(manager, escrow, env, settings.nodeOperator, s, c, threshold);
    ghost var begun := Now(manager, escrow);
    ghost var looked := env.position;
    RestKept(before, begun);
    if stop.Some? {
      WidenIf(before, begun, stop.value == Noop, s.id, c);
      r := Stop(stop.value);
      FailedToBegin(WorldOf(settings, env, escrow), begun, s, c, old(env.position), looked);
      if stop.value == Noop {
        SettledBefore(before, begun, c);
      }
    } else {
      r, report := ReportAndLook(manager, escrow, env, settings, s, c, before, threshold);
      CallsThen(env.script, old(env.position), looked, env.position);
      if r == Stop(Failed) {
        ExcusedFrom(WorldOf(settings, env, escrow), Now(manager, escrow), s, c,
                    old(env.position), looked, env.position);
      }
    }
  }

  lemma WidenIf(a: View, b: View, moved: bool, id: Uuid, c: ChainId)
    requires Progress(a, b, if moved then Some(id) else None, Some(c))
    ensures Progress(a, b, Some(id), Some(c))
  {
    if !moved {
      Widen(a, b, Some(id), Some(c));
    }
  }

  lemma FailedToBegin(w: World, v: View, s: Session, c: ChainId, p: nat, q: nat)
    ensures CallFailed(w.script, p, q) || c !in v.chain || w.operatorOf(c) != w.settings.nodeOperator ==>
              Excused(w, v, s, c, p, q)
  {
  }

  lemma RestKept(a: View, b: View)
    requires AtRest(a) && b.log == a.log && b.accepted == a.accepted
    ensures AtRest(b)
  {
  }

  method ReportAndLook(manager: SessionManager, escrow: SettlementEscrow, env: Environment, settings: Settings,
                       s: Session, c: ChainId, ghost before: View, ghost threshold: nat)
    returns (r: Refreshed, ghost report: seq<Entry>)
    requires Inv(Now(manager, escrow), threshold) && AtRest(Now(manager, escrow))
    requires Progress(before, Now(manager, escrow), None, Some(c)) && NoMoney(before, Now(manager, escrow))
    requires Snapshot(s, before.inMemory) && s.evmSessionId == Some(c)
    requires c in escrow.chain && !escrow.chain[c].settled
    modifies env, manager, manager.store, escrow
    ensures Inv(Now(manager, escrow), threshold) && AtRest(Now(manager, escrow))
    ensures Progress(before, Now(manager, escrow), Some(s.id), Some(c)) && NoMoney(before, Now(manager, escrow))
    ensures old(env.position) <= env.position <= old(env.position) + 2
    ensures r == Stop(Failed) || r.Ready?
    ensures CallFailed(env.script, old(env.position), env.position) ==> r == Stop(Failed)
    ensures r == Stop(Failed) ==>
              Excused(WorldOf(settings, env, escrow), Now(manager, escrow), s, c, old(env.position), env.position)
    ensures r.Ready? ==> && OpenAs(Now(manager, escrow), c, r.read) && Anchored(s, manager.sessions)
                         && Fresh(before, Now(manager, escrow), c) && Reported(report, settings, s, c, true)
                         && (settings.skipRecordUsage || UpToDate(s, manager.sessions))
    ensures escrow.log == old(escrow.log) + report
    ensures report == [] || IsReport(report, s, c)
  {
    hide *;
    ghost var begun := Now(manager, escrow);
    SnapshotAfter(s, before, begun, Some(c));
    Widen(before, begun, Some(s.id), Some(c));
    var reported;
    reported, report := Report(manager, escrow, env, settings, s, c, threshold);
    ghost var synced := Now(manager, escrow);
    ReportedIs(report, settings, s, c, reported);
    Widen(begun, synced, Some(s.id), Some(c));
    Then(before, begun, synced, Some(s.id), Some(c));
    MoneyStays(begun, synced, Some(s.id), c);
    NoneMoved(begun, synced, Some(s.id));
    NoMoneyThen(before, begun, synced);
    r := Stop(Failed);
    ghost var sent := env.position;
    if reported {
      var read := LookAgain(manager, escrow, env, c, threshold);
      ghost var v := Now(manager, escrow);
      RestKept(synced, v);
      Widen(synced, v, Some(s.id), Some(c));
      Then(before, synced, v, Some(s.id), Some(c));
      NoMoneyThen(before, synced, v);
      AnchoredStays(s, synced, v, Some(c));
      CallsThen(env.script, old(env.position), sent, env.position);
      FailedToBegin(WorldOf(settings, env, escrow), v, s, c, old(env.position), env.position);
      if read.Some? {
        FreshlyRead(before, v, Some(s.id), c, read.value, threshold);
        if !settings.skipRecordUsage {
          UpToDateStays(s, synced, v, None, Some(c));
        }
        r := Ready(read.value);
      }
    }
  }

  lemma ReportedIs(report: seq<Entry>, settings: Settings, s: Session, c: ChainId, ok: bool)
    requires Reported(report, settings, s, c, ok)
    ensures report == [] || IsReport(report, s, c)
  {
  }

  /**
   One visit to a session. It makes six calls at most, and it fails only with an
   excuse, and always when one of its calls does. Otherwise the provider ends up paid exactly what the usage just read
   entitles it to, a completed session ends up settled, and the contract has
   accepted the report and the settlement, each once.
   */
  method SettleSession(manager: SessionManager, escrow: SettlementEscrow, env: Environment, settings: Settings,
                       s: Session, partial: bool, ghost threshold: nat)
    returns (outcome: Outcome, ghost report: seq<Entry>, ghost read: Option<ChainSession>)
    requires Inv(Now(manager, escrow), threshold) && AtRest(Now(manager, escrow)) && Snapshot(s, manager.sessions)
    requires partial ==> s.tokensOutput - s.evmTeeAnchorTokens >= Max(threshold, 1)
    requires settings.operator == escrow.operator
    modifies env, manager, manager.store, escrow
    ensures Inv(Now(manager, escrow), threshold) && AtRest(Now(manager, escrow))
    ensures Progress(old(Now(manager, escrow)), Now(manager, escrow), Some(s.id), s.evmSessionId)
    ensures old(env.position) <= env.position <= old(env.position) + 6
    ensures CallFailed(env.script, old(env.position), env.position) ==> outcome == Failed
    ensures outcome == Failed ==>
              && s.evmSessionId.Some?
              && Excused(WorldOf(settings, env, escrow), Now(manager, escrow), s, s.evmSessionId.value,
                         old(env.position), env.position)
    ensures outcome != Failed && s.evmSessionId.Some? ==>
              Attended(settings, old(Now(manager, escrow)), Now(manager, escrow), s, s.evmSessionId.value, !partial)
    ensures report == [] || (s.evmSessionId.Some? && IsReport(report, s, s.evmSessionId.value))
    ensures outcome != DidMutateChain ==> escrow.log == old(escrow.log) + report
    ensures outcome == DidMutateChain ==>
              && s.evmSessionId.Some? && read.Some? && Marked(s, manager.sessions, partial)
              && var c := s.evmSessionId.value;
                 escrow.operatorOf(c) == settings.nodeOperator && Reported(report, settings, s, c, true)
                 && escrow.log == old(escrow.log) + report + [Settlement(s, c, read.value, partial)]
  {
    hide *;
    report, read := [], None;
    ghost var before := Now(manager, escrow);
    NoCall(env.script, env.position);
    if s.evmSessionId == None {
      Unmoved(before, Some(s.id), None);
      outcome := Noop;
    } else {
      var c := s.evmSessionId.value;
      var r;
      r, report := Refresh(manager, escrow, env, settings, s, c, threshold);
      ghost var v := Now(manager, escrow);
      ghost var refreshed := env.position;
      if r.Stop? {
        outcome := r.outcome;
        if outcome == Noop {
          SettledAlready(settings, before, v, s, c, !partial);
        }
      } else {
        read := Some(r.read);
        outcome := Release(manager, escrow, env, settings.operator, s, c, r.read, partial, threshold);
        Then(before, v, Now(manager, escrow), Some(s.id), Some(c));
        if outcome != Failed {
          AttendedTo(settings, before, v, Now(manager, escrow), s, c, r.read, partial, outcome);
        }
        CallsThen(env.script, old(env.position), refreshed, env.position);
        FailedToBegin(WorldOf(settings, env, escrow), Now(manager, escrow), s, c, old(env.position), env.position);
      }
    }
  }

  lemma SettledAlready(settings: Settings, a: View, b: View, s: Session, c: ChainId, atEnd: bool)
    requires Served(b, c, true) && IsSettled(s, b.inMemory) && Fresh(a, b, c) && b.accepted == a.accepted
    ensures Attended(settings, a, b, s, c, atEnd)
  {
  }

  lemma AttendedTo(settings: Settings, a: View, b: View, d: View, s: Session, c: ChainId,
                   read: ChainSession, partial: bool, outcome: Outcome)
    requires Fresh(a, b, c) && (settings.skipRecordUsage || UpToDate(s, b.inMemory))
    requires Progress(b, d, Some(s.id), Some(c)) && Served(d, c, !partial)
    requires if outcome == DidMutateChain then Marked(s, d.inMemory, partial) else partial
    requires d.accepted == b.accepted + if outcome == DidMutateChain then [Settlement(s, c, read, partial)] else []
    ensures Attended(settings, a, d, s, c, !partial)
  {
    hide Served, Fresh, Progress, UpToDate, SplitOf;
    FreshStays(a, b, d, Some(s.id), c, d.accepted[|b.accepted|..]);
    if !settings.skipRecordUsage {
      UpToDateStays(s, b, d, Some(s.id), Some(c));
    }
  }
}
