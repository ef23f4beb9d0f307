/**
 Session records, kept in memory and written through to a store.

 The store is a map that survives a restart of the process; every save replaces
 the stored record. Times are integers handed in by the caller.
 */
module Sessions {
  import opened Prelude

  type Uuid = nat

  datatype SecurityTier = BestEffort | TeeVerified

  datatype SessionState =
    | Opening | Active | Completed | ConsumerDisconnected | ProviderError | Disputed | Settled

  datatype ChunkReceipt = ChunkReceipt(
    sessionId: Uuid,
    providerId: string,
    seqNo: nat,
    tokenCount: nat,
    contentHash: Bytes32,
    timestampMs: nat,
    providerSig: Bytes,
    teeQuoteHash: Option<Bytes32>)

  datatype Session = Session(
    id: Uuid,
    consumerPubkey: Option<Bytes32>,
    model: string,
    state: SessionState,
    startedAt: int,
    endedAt: Option<int>,
    tokensInput: nat,
    tokensOutput: nat,
    receipts: seq<ChunkReceipt>,
    lastReceiptSeq: nat,
    amountMicroUsd: nat,
    securityTier: SecurityTier,
    evmSessionId: Option<u64>,
    evmTeeAnchorTokens: nat,
    evmInputTokensSynced: nat,
    evmOutputTokensSynced: nat,
    teeQuoteHash: Option<Bytes32>)

  predicate Live(s: Session) {
    s.state.Opening? || s.state.Active?
  }

  function LiveOnly(sessions: map<Uuid, Session>): map<Uuid, Session> {
    map id | id in sessions && Live(sessions[id]) :: sessions[id]
  }

  /** The three questions asked of the session map. */
  datatype Filter = CompletedOnly | BestEffortDone | TeeTouch(threshold: nat)

  predicate Chosen(f: Filter, s: Session) {
    match f
    case CompletedOnly => s.state.Completed?
    case BestEffortDone => s.state.Completed? && s.securityTier.BestEffort?
    case TeeTouch(threshold) =>
      s.securityTier.TeeVerified? && s.evmSessionId.Some? &&
      (s.state.Completed? ||
       (s.state.Active? && SaturatingSub(s.tokensOutput, s.evmTeeAnchorTokens) >= Max(threshold, 1)))
  }

  /** A list that holds each of the chosen sessions exactly once. */
  ghost predicate Lists(list: seq<Session>, sessions: map<Uuid, Session>, f: Filter) {
    && (forall i :: 0 <= i < |list| ==> list[i].id in sessions && list[i] == sessions[list[i].id] && Chosen(f, list[i]))
    && (forall i, j :: 0 <= i < j < |list| ==> list[i].id != list[j].id)
    && (forall id :: id in sessions && Chosen(f, sessions[id]) ==> sessions[id] in list)
  }

  /**
   A linked TEE session is due when it is completed, or streaming with new output
   since its anchor, at least the threshold.
   */
  predicate TeeDue(s: Session, threshold: nat) {
    && s.securityTier == SecurityTier.TeeVerified && s.evmSessionId != None
    && (|| s.state == SessionState.Completed
        || (s.state == SessionState.Active && s.tokensOutput > s.evmTeeAnchorTokens
            && s.tokensOutput >= s.evmTeeAnchorTokens + threshold))
  }

  lemma TeeTouchIff(s: Session, threshold: nat)
    ensures Chosen(TeeTouch(threshold), s) <==> TeeDue(s, threshold)
  {
  }

  lemma ListedIff(list: seq<Session>, sessions: map<Uuid, Session>, f: Filter, stored: map<Uuid, Session>)
    requires Lists(list, sessions, f) && WrittenThrough(sessions, stored)
    ensures forall s :: s in list <==> s.id in sessions && sessions[s.id] == s && Chosen(f, s)
  {
    hide Chosen;
    forall s ensures s in list <==> s.id in sessions && sessions[s.id] == s && Chosen(f, s) {
    }
  }

  /** What the manager can do to one record. */
  datatype Change =
    | AddTokens(tokens: nat)
    | SetSynced(input: nat, output: nat)
    | Attach(receipt: ChunkReceipt)
    | CloseAs(state: SessionState, now: int)
    | SetAnchor(tokens: nat)

  function Changed(s: Session, c: Change): Session {
    match c
    case AddTokens(n) => s.(tokensOutput := s.tokensOutput + n)
    case SetSynced(input, output) => s.(evmInputTokensSynced := input, evmOutputTokensSynced := output)
    case Attach(r) => s.(lastReceiptSeq := r.seqNo, receipts := s.receipts + [r])
    case CloseAs(state, now) => s.(state := state, endedAt := Some(now))
    case SetAnchor(n) => s.(evmTeeAnchorTokens := n)
  }

  /** The map after one record changed; an unknown id changes nothing. */
  function Updated(sessions: map<Uuid, Session>, id: Uuid, c: Change): map<Uuid, Session> {
    if id in sessions then sessions[id := Changed(sessions[id], c)] else sessions
  }

  function Opened(id: Uuid, now: int, model: string, consumerPubkey: Option<Bytes32>, tier: SecurityTier,
                  quoteHash: Option<Bytes32>, evmSessionId: Option<u64>): Session
  {
    Session(id, consumerPubkey, model, SessionState.Active, now, None, 0, 0, [], 0, 0,
            tier, evmSessionId, 0, 0, 0, quoteHash)
  }

  /** Records sit under their own id, and every record in memory is the stored one. */
  ghost predicate WrittenThrough(inMemory: map<Uuid, Session>, stored: map<Uuid, Session>) {
    && (forall id :: id in inMemory ==> id in stored && stored[id] == inMemory[id])
    && (forall id :: id in stored ==> stored[id].id == id)
  }

  /** Every stored record that is still live is in memory. */
  ghost predicate NoneForgotten(inMemory: map<Uuid, Session>, stored: map<Uuid, Session>) {
    forall id :: id in stored && Live(stored[id]) ==> id in inMemory
  }

  /** What survives a restart: the session records and the receipts, by session and number. */
  class Store {
    var sessions: map<Uuid, Session>
    var receipts: map<(Uuid, nat), ChunkReceipt>

    constructor ()
      ensures sessions == map[] && receipts == map[]
    {
      sessions, receipts := map[], map[];
    }

    method SaveSession(session: Session)
      modifies this
      ensures sessions == old(sessions)[session.id := session] && receipts == old(receipts)
    {
      sessions := sessions[session.id := session];
    }

    method SaveReceipt(receipt: ChunkReceipt)
      modifies this
      ensures receipts == old(receipts)[(receipt.sessionId, receipt.seqNo) := receipt] && sessions == old(sessions)
    {
      receipts := receipts[(receipt.sessionId, receipt.seqNo) := receipt];
    }
  }

  class SessionManager {
    var sessions: map<Uuid, Session>
    const store: Store

    constructor (store: Store)
      ensures this.store == store && sessions == map[]
    {
      this.store := store;
      sessions := map[];
    }

    ghost predicate Valid()
      reads this, store
    {
      WrittenThrough(sessions, store.sessions) && NoneForgotten(sessions, store.sessions)
    }

    /** The store changed at most at `id`, which now holds the record in memory. */
    ghost predicate Wrote(inMemory: map<Uuid, Session>, stored: map<Uuid, Session>, id: Uuid)
      reads this, store
    {
      store.sessions == if id in inMemory && id in sessions then stored[id := sessions[id]] else stored
    }

    /** Writes a changed record to memory and to the store. */
    method Put(session: Session)
      requires Valid()
      modifies this, store
      ensures Valid()
      ensures sessions == old(sessions)[session.id := session]
      ensures store.sessions == old(store.sessions)[session.id := session] && store.receipts == old(store.receipts)
    {
      store.SaveSession(session);
      sessions := sessions[session.id := session];
    }

    method OpenWithTee(id: Uuid, now: int, model: string, consumerPubkey: Option<Bytes32>, tier: SecurityTier,
                       quoteHash: Option<Bytes32>, evmSessionId: Option<u64>)
      requires Valid() && id !in store.sessions && id !in sessions  // a fresh v4 identifier
      modifies this, store
      ensures Valid()
      ensures sessions == old(sessions)[id := Opened(id, now, model, consumerPubkey, tier, quoteHash, evmSessionId)]
      ensures var s := sessions[id];
              && s.id == id && s.model == model && s.consumerPubkey == consumerPubkey && s.securityTier == tier
              && s.evmSessionId == evmSessionId && s.teeQuoteHash == quoteHash && s.startedAt == now
              && s.state == SessionState.Active && s.endedAt == None && s.amountMicroUsd == 0
              && s.tokensInput == s.tokensOutput == 0 && s.receipts == [] && s.lastReceiptSeq == 0
              && s.evmTeeAnchorTokens == s.evmInputTokensSynced == s.evmOutputTokensSynced == 0
      ensures store.sessions == old(store.sessions)[id := sessions[id]]
      ensures store.receipts == old(store.receipts)
    {
      Put(Session(id, consumerPubkey, model, SessionState.Active, now, None, 0, 0, [], 0, 0,
                  tier, evmSessionId, 0, 0, 0, quoteHash));
    }

    method RecordChunk(id: Uuid, tokens: nat)
      requires Valid()
      modifies this, store
      ensures Valid() && store.receipts == old(store.receipts) && Wrote(old(sessions), old(store.sessions), id)
      ensures sessions == Updated(old(sessions), id, AddTokens(tokens))
    {
      if id in sessions {
        var s := sessions[id];
        s := s.(tokensOutput := s.tokensOutput + tokens);
        Put(s);
      }
    }

    method UpdateEvmTokensSynced(id: Uuid, input: nat, output: nat)
      requires Valid()
      modifies this, store
      ensures Valid() && store.receipts == old(store.receipts) && Wrote(old(sessions), old(store.sessions), id)
      ensures sessions == Updated(old(sessions), id, SetSynced(input, output))
    {
      if id in sessions {
        var s := sessions[id];
        s := s.(evmInputTokensSynced := input);
        s := s.(evmOutputTokensSynced := output);
        Put(s);
      }
    }

    method AddReceipt(id: Uuid, receipt: ChunkReceipt)
      requires Valid()
      modifies this, store
      ensures Valid() && Wrote(old(sessions), old(store.sessions), id)
      ensures sessions == Updated(old(sessions), id, Attach(receipt))
      ensures store.receipts == if id in old(sessions)
                                then old(store.receipts)[(receipt.sessionId, receipt.seqNo) := receipt]
                                else old(store.receipts)
    {
      if id in sessions {
        var s := sessions[id];
        s := s.(lastReceiptSeq := receipt.seqNo);
        s := s.(receipts := s.receipts + [receipt]);
        store.SaveReceipt(receipt);
        Put(s);
      }
    }

    method Close(id: Uuid, state: SessionState, now: int)
      requires Valid()
      modifies this, store
      ensures Valid() && store.receipts == old(store.receipts) && Wrote(old(sessions), old(store.sessions), id)
      ensures sessions == Updated(old(sessions), id, CloseAs(state, now))
    {
      if id in sessions {
        var s := sessions[id];
        s := s.(state := state);
        s := s.(endedAt := Some(now));
        Put(s);
      }
    }

    method UpdateEvmTeeAnchorTokens(id: Uuid, anchorTokens: nat)
      requires Valid()
      modifies this, store
      ensures Valid() && store.receipts == old(store.receipts) && Wrote(old(sessions), old(store.sessions), id)
      ensures sessions == Updated(old(sessions), id, SetAnchor(anchorTokens))
    {
      if id in sessions {
        var s := sessions[id];
        s := s.(evmTeeAnchorTokens := anchorTokens);
        Put(s);
      }
    }

    /** Snapshots of the chosen sessions, in the order the map happens to be walked. */
    method Collect(f: Filter) returns (list: seq<Session>)
      requires Valid()
      ensures Lists(list, sessions, f)
    {
      list := [];
      var rest := sessions.Keys;
      while rest != {}
        invariant rest <= sessions.Keys
        invariant forall i :: 0 <= i < |list| ==>
                    list[i].id in sessions && list[i].id !in rest
                    && list[i] == sessions[list[i].id] && Chosen(f, list[i])
        invariant forall i, j :: 0 <= i < j < |list| ==> list[i].id != list[j].id
        invariant forall id :: id in sessions && id !in rest && Chosen(f, sessions[id]) ==> sessions[id] in list
        decreases rest
      {
        var id :| id in rest;
        rest := rest - {id};
        if Chosen(f, sessions[id]) {
          list := list + [sessions[id]];
        }
      }
    }

    method PendingSettlement() returns (list: seq<Session>)
      requires Valid()
      ensures Lists(list, sessions, CompletedOnly)
      ensures forall s :: s in list <==> s.id in sessions && sessions[s.id] == s && s.state == SessionState.Completed
    {
      list := Collect(CompletedOnly);
      ListedIff(list, sessions, CompletedOnly, store.sessions);
    }

    method PendingBestEffortCompletedSettlement() returns (list: seq<Session>)
      requires Valid()
      ensures Lists(list, sessions, BestEffortDone)
      ensures forall s :: s in list <==>
                s.id in sessions && sessions[s.id] == s
                && s.state == SessionState.Completed && s.securityTier == SecurityTier.BestEffort
    {
      list := Collect(BestEffortDone);
      ListedIff(list, sessions, BestEffortDone, store.sessions);
    }

    method TeeTouchCandidates(tokensThreshold: nat) returns (list: seq<Session>)
      requires Valid()
      ensures Lists(list, sessions, TeeTouch(tokensThreshold))
      ensures forall s :: s in list <==> s.id in sessions && sessions[s.id] == s && TeeDue(s, tokensThreshold)
    {
      list := Collect(TeeTouch(tokensThreshold));
      ListedIff(list, sessions, TeeTouch(tokensThreshold), store.sessions);
      forall s: Session ensures Chosen(TeeTouch(tokensThreshold), s) <==> TeeDue(s, tokensThreshold) {
        TeeTouchIff(s, tokensThreshold);
      }
    }

    /** Takes over the stored records that are still live, as a new process does at its start. */
    method RecoverFromStore()
      requires WrittenThrough(sessions, store.sessions)
      modifies this
      ensures Valid()
      ensures sessions == Overlaid(old(sessions), LiveOnly(store.sessions))
    {
      var rest := store.sessions.Keys;
      while rest != {}
        invariant rest <= store.sessions.Keys
        invariant WrittenThrough(sessions, store.sessions)
        invariant forall id :: id in sessions <==>
                    id in old(sessions) || (id in store.sessions && Live(store.sessions[id]) && id !in rest)
        decreases rest
      {
        var id :| id in rest;
        var session := store.sessions[id];
        rest := rest - {id};
        if session.state == SessionState.Opening || session.state == SessionState.Active {
          sessions := sessions[session.id := session];
        }
      }
    }
  }

  /** The entries of both maps; those of the second win. */
  function Overlaid(a: map<Uuid, Session>, b: map<Uuid, Session>): map<Uuid, Session> {
    map id | id in a.Keys + b.Keys :: if id in b then b[id] else a[id]
  }

  // ---- Whole runs ---------------------------------------------------------------------------

  datatype Op =
    | Open(id: Uuid, now: int, model: string, consumerPubkey: Option<Bytes32>, tier: SecurityTier,
           quoteHash: Option<Bytes32>, evmSessionId: Option<u64>)
    | Apply(id: Uuid, change: Change)
    | Restart

  /** The records of the running process and those in the store. */
  datatype Node = Node(inMemory: map<Uuid, Session>, stored: map<Uuid, Session>)

  /** One operation; identifiers are never used twice, and a restart keeps the live records only. */
  function After(n: Node, op: Op): Node {
    match op
    case Open(id, now, model, key, tier, hash, evm) =>
      if id in n.inMemory || id in n.stored then n
      else var s := Opened(id, now, model, key, tier, hash, evm);
           Node(n.inMemory[id := s], n.stored[id := s])
    case Apply(id, change) =>
      if id in n.inMemory
      then var s := Changed(n.inMemory[id], change); Node(n.inMemory[id := s], n.stored[id := s])
      else n
    case Restart => Node(LiveOnly(n.stored), n.stored)
  }

  /** The stored receipts after one operation. */
  function ReceiptsAfter(receipts: map<(Uuid, nat), ChunkReceipt>, inMemory: map<Uuid, Session>, op: Op)
    : map<(Uuid, nat), ChunkReceipt>
  {
    if op.Apply? && op.change.Attach? && op.id in inMemory
    then receipts[(op.change.receipt.sessionId, op.change.receipt.seqNo) := op.change.receipt]
    else receipts
  }

  function AfterAll(ops: seq<Op>): Node
    decreases |ops|
  {
    if ops == [] then Node(map[], map[]) else After(AfterAll(ops[..|ops| - 1]), ops[|ops| - 1])
  }

  /** Performs any run of operations on a real manager and store. */
  method Perform(ops: seq<Op>) returns (manager: SessionManager)
    ensures manager.Valid()
    ensures Node(manager.sessions, manager.store.sessions) == AfterAll(ops)
  {
    var store := new Store();
    manager := new SessionManager(store);
    for i := 0 to |ops|
      invariant manager.store == store && fresh(manager) && fresh(store) && manager.Valid()
      invariant Node(manager.sessions, store.sessions) == AfterAll(ops[..i])
    {
      assert ops[..i + 1][..i] == ops[..i];
      if ops[i].Restart? {
        manager := new SessionManager(store);
        manager.RecoverFromStore();
        assert Overlaid(map[], LiveOnly(store.sessions)) == LiveOnly(store.sessions);
      } else {
        PerformOp(manager, ops[i]);
      }
    }
    assert ops[..|ops|] == ops;
  }

  method PerformOp(manager: SessionManager, op: Op)
    requires manager.Valid() && !op.Restart?
    modifies manager, manager.store
    ensures manager.Valid()
    ensures Node(manager.sessions, manager.store.sessions)
         == After(Node(old(manager.sessions), old(manager.store.sessions)), op)
    ensures manager.store.receipts == ReceiptsAfter(old(manager.store.receipts), old(manager.sessions), op)
  {
    match op
    case Open(id, now, model, key, tier, hash, evm) =>
      if id !in manager.sessions && id !in manager.store.sessions {
        manager.OpenWithTee(id, now, model, key, tier, hash, evm);
      }
    case Apply(id, change) =>
      PerformChange(manager, id, change);
  }

  method PerformChange(manager: SessionManager, id: Uuid, change: Change)
    requires manager.Valid()
    modifies manager, manager.store
    ensures manager.Valid() && manager.Wrote(old(manager.sessions), old(manager.store.sessions), id)
    ensures manager.sessions == Updated(old(manager.sessions), id, change)
    ensures manager.store.receipts
         == ReceiptsAfter(old(manager.store.receipts), old(manager.sessions), Apply(id, change))
  {
    match change
    case AddTokens(n) => manager.RecordChunk(id, n);
    case SetSynced(input, output) => manager.UpdateEvmTokensSynced(id, input, output);
    case Attach(r) => manager.AddReceipt(id, r);
    case CloseAs(state, now) => manager.Close(id, state, now);
    case SetAnchor(n) => manager.UpdateEvmTeeAnchorTokens(id, n);
  }

  /**
   After any run, restarts included: every record in memory is the stored one, and
   another restart recovers exactly the live records, field for field.
   */
  lemma {:induction false} RestartIsExact(ops: seq<Op>)
    ensures var n := AfterAll(ops);
            && (forall id :: id in n.inMemory ==> id in n.stored && n.stored[id] == n.inMemory[id])
            && AfterAll(ops + [Restart]).inMemory == LiveOnly(n.inMemory)
    decreases |ops|
  {
    var n := AfterAll(ops);
    assert (ops + [Restart])[..|ops|] == ops;
    if ops != [] {
      var front, op := ops[..|ops| - 1], ops[|ops| - 1];
      RestartIsExact(front);
      var m := AfterAll(front);
      assert (front + [Restart])[..|front|] == front;
      assert LiveOnly(m.stored) == LiveOnly(m.inMemory);
      if op.Apply? && op.id in m.inMemory {
        LiveUpdate(m, op.id, n.inMemory[op.id]);
      } else if op.Open? && op.id !in m.inMemory && op.id !in m.stored {
        LiveUpdate(m, op.id, n.inMemory[op.id]);
      } else if op.Restart? {
        assert LiveOnly(LiveOnly(m.stored)) == LiveOnly(m.stored);
      }
    }
  }

  /** The failing input: a session is opened and completed, and the process restarts before it is settled. */
  lemma CompletedIsLost(open: Op, end: int)
    requires open.Open?
    ensures var run := [open, Apply(open.id, CloseAs(SessionState.Completed, end))];
            var n, m := AfterAll(run), AfterAll(run + [Restart]);
            && open.id in n.inMemory && Chosen(CompletedOnly, n.inMemory[open.id])
            && open.id in m.stored && Chosen(CompletedOnly, m.stored[open.id]) && open.id !in m.inMemory
  {
    var close := Apply(open.id, CloseAs(SessionState.Completed, end));
    var run := [open, close];
    assert run[..1] == [open] && [open][..0] == [] && (run + [Restart])[..2] == run;
    assert AfterAll([open]) == After(Node(map[], map[]), open);
    assert AfterAll(run) == After(AfterAll([open]), close);
  }

  lemma LiveUpdate(n: Node, id: Uuid, s: Session)
    requires LiveOnly(n.stored) == LiveOnly(n.inMemory)
    ensures LiveOnly(n.stored[id := s]) == LiveOnly(n.inMemory[id := s])
  {
    var a, b := LiveOnly(n.stored[id := s]), LiveOnly(n.inMemory[id := s]);
    assert forall u :: u in LiveOnly(n.stored) <==> u in LiveOnly(n.inMemory);
    forall u ensures u in a <==> u in b {
      if u != id {
        assert u in a <==> u in LiveOnly(n.stored);
        assert u in b <==> u in LiveOnly(n.inMemory);
      }
    }
    forall u | u in a ensures a[u] == b[u] {
      if u != id {
        assert a[u] == LiveOnly(n.stored)[u] && b[u] == LiveOnly(n.inMemory)[u];
      }
    }
  }
}
