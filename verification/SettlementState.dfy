/** What the settlement loop and its environment keep, stated on plain values. */
module SettlementState {
  import opened Prelude
  import opened Sessions
  import opened Escrow

  datatype View = View(
    inMemory: map<Uuid, Session>,
    stored: map<Uuid, Session>,
    log: seq<Entry>,       // confirmed transactions of this node
    accepted: seq<Entry>,  // all of them, confirmed or on the way
    metered: seq<Entry>,   // the router's
    chain: map<ChainId, ChainSession>,
    seen: map<ChainId, nat>,
    reverted: nat)

  // ---- The invariant -------------------------------------------------------------------------

  /** The watermarks of a session against the log of confirmed transactions. */
  ghost predicate SessionOk(s: Session, log: seq<Entry>, threshold: nat) {
    && InputSum(log, s.id) == s.evmInputTokensSynced <= s.tokensInput
    && OutputSum(log, s.id) == s.evmOutputTokensSynced <= s.tokensOutput
    && Partials(log, s.id) * Max(threshold, 1) <= s.evmTeeAnchorTokens <= s.tokensOutput
  }

  function Seen(seen: map<ChainId, nat>, c: ChainId): Option<nat> {
    if c in seen then Some(seen[c]) else None
  }

  /**
   An escrow session of this node: the contract's own accounting, no refund before
   the end, and at the end the provider has the smaller of the usage last read and
   the opening lock.
   */
  ghost predicate ChainGood(c: ChainSession, seen: Option<nat>) {
    && ChainOk(c)
    && (seen.Some? ==> seen.value <= c.usage)
    && (!c.settled ==> c.refunded == 0)
    && (c.settled ==> seen.Some? && c.paid == Min(seen.value, c.opening) && c.refunded == c.opening - c.paid)
  }

  ghost predicate SessionsOk(stored: map<Uuid, Session>, log: seq<Entry>, threshold: nat) {
    && (forall id :: id in stored ==> SessionOk(stored[id], log, threshold))
    && (forall i :: 0 <= i < |log| ==> !log[i].Metered? && log[i].id in stored)
  }

  ghost predicate ChainsGood(chain: map<ChainId, ChainSession>, seen: map<ChainId, nat>) {
    && (forall c :: c in seen ==> c in chain)
    && (forall c :: c in chain ==> ChainGood(chain[c], Seen(seen, c)))
  }

  /** Every accepted transaction was sent for a session of this node that is linked to that escrow session. */
  ghost predicate Linked(accepted: seq<Entry>, stored: map<Uuid, Session>) {
    forall i :: 0 <= i < |accepted| ==>
      && !accepted[i].Metered? && accepted[i].id in stored
      && stored[accepted[i].id].evmSessionId == Some(accepted[i].chain)
  }

  /** The contract's own figures for an escrow session are the sums over what it accepted. */
  ghost predicate SessionBooked(s: ChainSession, c: ChainId, accepted: seq<Entry>, metered: seq<Entry>) {
    && s.paid == Total(accepted, c, Paid) && s.refunded == Total(accepted, c, Refunded)
    && s.usage == Total(accepted, c, Usage) + Total(metered, c, Usage)
    && s.inputTokens == Total(accepted, c, Input) + Total(metered, c, Input)
    && s.outputTokens == Total(accepted, c, Output) + Total(metered, c, Output)
  }

  ghost predicate OnlyAbout(log: seq<Entry>, chain: map<ChainId, ChainSession>) {
    forall i :: 0 <= i < |log| ==> log[i].chain in chain
  }

  ghost predicate ChainsBooked(chain: map<ChainId, ChainSession>, accepted: seq<Entry>, metered: seq<Entry>) {
    && OnlyAbout(accepted, chain) && OnlyAbout(metered, chain)
    && (forall c :: c in chain ==> SessionBooked(chain[c], c, accepted, metered))
  }

  ghost predicate Inv(v: View, threshold: nat) {
    && WrittenThrough(v.inMemory, v.stored) && NoneForgotten(v.inMemory, v.stored)
    && SessionsOk(v.stored, v.log, threshold)
    && ChainsGood(v.chain, v.seen)
    && v.log <= v.accepted && Linked(v.accepted, v.stored)
    && ChainsBooked(v.chain, v.accepted, v.metered)
  }

  /** Nothing is on its way: every accepted transaction is confirmed. */
  ghost predicate AtRest(v: View) {
    v.log == v.accepted
  }

  // ---- What a step may change --------------------------------------------------------------------

  /** The identity of a session stays; its output count and its marks never move back. */
  ghost predicate Onwards(a: Session, b: Session) {
    && b.id == a.id && b.securityTier == a.securityTier && b.evmSessionId == a.evmSessionId
    && b.tokensInput == a.tokensInput && b.tokensOutput >= a.tokensOutput
    && b.evmTeeAnchorTokens >= a.evmTeeAnchorTokens
    && b.evmInputTokensSynced >= a.evmInputTokensSynced && b.evmOutputTokensSynced >= a.evmOutputTokensSynced
  }

  /** What streams leave alone; a completed session has been closed by its stream and stays so. */
  ghost predicate SameMarks(a: Session, b: Session) {
    && (a.state.Completed? ==> b.state.Completed?)
    && b.evmTeeAnchorTokens == a.evmTeeAnchorTokens
    && b.evmInputTokensSynced == a.evmInputTokensSynced && b.evmOutputTokensSynced == a.evmOutputTokensSynced
  }

  ghost predicate MoneySame(a: ChainSession, b: ChainSession) {
    && b.opening == a.opening && b.locked == a.locked && b.paid == a.paid && b.refunded == a.refunded
    && b.settled == a.settled && b.usage >= a.usage && (a.settled ==> b == a)
  }

  ghost predicate SessionsProgress(a: map<Uuid, Session>, b: map<Uuid, Session>, id: Option<Uuid>) {
    forall u :: u in a ==> u in b && Onwards(a[u], b[u]) && (id != Some(u) ==> SameMarks(a[u], b[u]))
  }

  /** An escrow session other than `c`, and any that is settled, keeps its money. */
  ghost predicate ChainProgress(a: map<ChainId, ChainSession>, b: map<ChainId, ChainSession>, c: Option<ChainId>) {
    forall k :: k in a ==>
      k in b && b[k].opening == a[k].opening && b[k].usage >= a[k].usage
      && (c != Some(k) || a[k].settled ==> MoneySame(a[k], b[k]))
  }

  ghost predicate SeenProgress(a: View, b: View, c: Option<ChainId>) {
    forall k :: k in a.seen ==>
      k in b.seen && b.seen[k] >= a.seen[k]
      && (c != Some(k) || (k in a.chain && a.chain[k].settled) ==> b.seen[k] == a.seen[k])
  }

  /**
   Records only make progress, marks move in session `id` only, money moves in
   escrow session `c` only and never in a settled one, confirmed transactions are
   never forgotten, and the contract refuses no settlement.
   */
  ghost predicate Progress(a: View, b: View, id: Option<Uuid>, c: Option<ChainId>) {
    && SessionsProgress(a.inMemory, b.inMemory, id) && SessionsProgress(a.stored, b.stored, id)
    && ChainProgress(a.chain, b.chain, c) && SeenProgress(a, b, c)
    && a.log <= b.log && a.accepted <= b.accepted && a.metered <= b.metered && b.reverted == a.reverted
  }

  lemma Stays(v: View)
    ensures Progress(v, v, None, None)
  {
  }

  /** One piece of progress after another. */
  lemma Then(a: View, b: View, d: View, id: Option<Uuid>, c: Option<ChainId>)
    requires Progress(a, b, id, c) && Progress(b, d, id, c)
    ensures Progress(a, d, id, c)
  {
    hide SessionsProgress, ChainProgress, SeenProgress;
    SessionsThen(a.inMemory, b.inMemory, d.inMemory, id);
    SessionsThen(a.stored, b.stored, d.stored, id);
    MoneyThen(a, b, d, c);
  }

  lemma SessionsThen(a: map<Uuid, Session>, b: map<Uuid, Session>, d: map<Uuid, Session>, id: Option<Uuid>)
    requires SessionsProgress(a, b, id) && SessionsProgress(b, d, id)
    ensures SessionsProgress(a, d, id)
  {
  }

  lemma MoneyThen(a: View, b: View, d: View, c: Option<ChainId>)
    requires ChainProgress(a.chain, b.chain, c) && SeenProgress(a, b, c)
    requires ChainProgress(b.chain, d.chain, c) && SeenProgress(b, d, c)
    ensures ChainProgress(a.chain, d.chain, c) && SeenProgress(a, d, c)
  {
    forall k | k in a.seen
      ensures k in d.seen && d.seen[k] >= a.seen[k]
      ensures c != Some(k) || (k in a.chain && a.chain[k].settled) ==> d.seen[k] == a.seen[k]
    {
      assert k in b.seen;
    }
  }

  lemma Widen(a: View, b: View, id: Option<Uuid>, c: Option<ChainId>)
    requires Progress(a, b, None, None) || Progress(a, b, id, None) || Progress(a, b, None, c)
    ensures Progress(a, b, id, c)
  {
  }

  /** Progress of a wait after progress of the loop. */
  lemma ThenWait(a: View, b: View, d: View, id: Option<Uuid>, c: Option<ChainId>)
    requires Progress(a, b, id, c) && Progress(b, d, None, None)
    ensures Progress(a, d, id, c)
  {
    Widen(b, d, id, c);
    Then(a, b, d, id, c);
  }

  // ---- Steps of the environment ------------------------------------------------------------------------

  lemma TotalGrows(log: seq<Entry>, e: Entry, c: ChainId, q: Quantity)
    ensures Total(log + [e], c, q) == Total(log, c, q) + if e.chain == c then Amount(e, q) else 0
  {
    assert (log + [e])[..|log|] == log;
  }

  lemma {:induction false} NoTotal(log: seq<Entry>, c: ChainId, q: Quantity)
    requires forall i :: 0 <= i < |log| ==> log[i].chain != c
    ensures Total(log, c, q) == 0
  {
    if log != [] {
      NoTotal(log[..|log| - 1], c, q);
    }
  }

  lemma NewIsBooked(chain: map<ChainId, ChainSession>, accepted: seq<Entry>, metered: seq<Entry>,
                    c: ChainId, amount: u256, tee: bool)
    requires ChainsBooked(chain, accepted, metered) && c !in chain
    ensures ChainsBooked(chain[c := NewSession(amount, tee)], accepted, metered)
  {
    forall q: Quantity ensures Total(accepted, c, q) == 0 && Total(metered, c, q) == 0 {
      NoTotal(accepted, c, q);
      NoTotal(metered, c, q);
    }
  }

  /** An entry moves the figures of its own escrow session by its amounts, and no others. */
  lemma AcceptedIsBooked(chain: map<ChainId, ChainSession>, accepted: seq<Entry>, metered: seq<Entry>,
                         e: Entry, s: ChainSession)
    requires ChainsBooked(chain, accepted, metered) && e.chain in chain && !e.Metered?
    requires var was := chain[e.chain];
             && s.paid == was.paid + Amount(e, Paid) && s.refunded == was.refunded + Amount(e, Refunded)
             && s.usage == was.usage + Amount(e, Usage)
             && s.inputTokens == was.inputTokens + Amount(e, Input)
             && s.outputTokens == was.outputTokens + Amount(e, Output)
    ensures ChainsBooked(chain[e.chain := s], accepted + [e], metered)
  {
    hide Total, Amount;
    var chain' := chain[e.chain := s];
    forall c | c in chain' ensures SessionBooked(chain'[c], c, accepted + [e], metered) {
      forall q: Quantity
        ensures Total(accepted + [e], c, q) == Total(accepted, c, q) + if e.chain == c then Amount(e, q) else 0
      {
        TotalGrows(accepted, e, c, q);
      }
      assert SessionBooked(chain[c], c, accepted, metered);
    }
  }

  lemma MeteredIsBooked(chain: map<ChainId, ChainSession>, accepted: seq<Entry>, metered: seq<Entry>,
                        e: Entry, s: ChainSession)
    requires ChainsBooked(chain, accepted, metered) && e.chain in chain
    requires var was := chain[e.chain];
             && s.paid == was.paid && s.refunded == was.refunded
             && s.usage == was.usage + Amount(e, Usage)
             && s.inputTokens == was.inputTokens + Amount(e, Input)
             && s.outputTokens == was.outputTokens + Amount(e, Output)
    ensures ChainsBooked(chain[e.chain := s], accepted, metered + [e])
  {
    hide Total, Amount;
    var chain' := chain[e.chain := s];
    forall c | c in chain' ensures SessionBooked(chain'[c], c, accepted, metered + [e]) {
      forall q: Quantity
        ensures Total(metered + [e], c, q) == Total(metered, c, q) + if e.chain == c then Amount(e, q) else 0
      {
        TotalGrows(metered, e, c, q);
      }
      assert SessionBooked(chain[c], c, accepted, metered);
    }
  }

  lemma LockKeeps(v: View, v': View, c: ChainId, amount: u256, tee: bool, threshold: nat)
    requires Inv(v, threshold)
    requires v' == v.(chain := if amount > 0 && c !in v.chain then v.chain[c := NewSession(amount, tee)] else v.chain)
    ensures Inv(v', threshold) && Progress(v, v', None, None)
  {
    hide ChainsBooked, ChainsGood, ChainProgress, Linked, SessionsOk, WrittenThrough, NoneForgotten, SessionsProgress;
    SameSessions(v.inMemory);
    SameSessions(v.stored);
    if amount > 0 && c !in v.chain {
      NewIsBooked(v.chain, v.accepted, v.metered, c, amount, tee);
      NewIsGood(v.chain, v.seen, c, amount, tee);
    } else {
      SameChain(v.chain);
    }
  }

  lemma NewIsGood(chain: map<ChainId, ChainSession>, seen: map<ChainId, nat>, c: ChainId, amount: u256, tee: bool)
    requires ChainsGood(chain, seen) && c !in chain && amount > 0
    ensures ChainsGood(chain[c := NewSession(amount, tee)], seen)
    ensures ChainProgress(chain, chain[c := NewSession(amount, tee)], None)
  {
  }

  lemma SameChain(chain: map<ChainId, ChainSession>)
    ensures ChainProgress(chain, chain, None)
  {
  }

  /** More usage and more tokens on record leave an escrow session in order. */
  lemma MoreUsage(chain: map<ChainId, ChainSession>, seen: map<ChainId, nat>, c: ChainId, s: ChainSession)
    requires ChainsGood(chain, seen) && c in chain && !chain[c].settled
    requires s.usage >= chain[c].usage
    requires s == chain[c].(usage := s.usage, inputTokens := s.inputTokens, outputTokens := s.outputTokens)
    ensures ChainsGood(chain[c := s], seen) && ChainProgress(chain, chain[c := s], None)
  {
    assert ChainGood(chain[c], Seen(seen, c));
  }

  lemma MeteredKeeps(v: View, v': View, e: Entry, threshold: nat)
    requires Inv(v, threshold) && e.Metered? && e.chain in v.chain
    requires CanBook(v.chain[e.chain], e.input, e.output, e.cost)
    requires v' == v.(chain := v.chain[e.chain := Booked(v.chain[e.chain], e.input, e.output, e.cost)],
                      metered := v.metered + [e])
    ensures Inv(v', threshold) && Progress(v, v', None, None)
  {
    hide ChainsBooked, ChainsGood, Linked, SessionsOk, ChainProgress;
    MoreUsage(v.chain, v.seen, e.chain, v'.chain[e.chain]);
    MeteredIsBooked(v.chain, v.accepted, v.metered, e, v'.chain[e.chain]);
  }

  /** An accepted transaction of this node, for a session linked to its escrow session. */
  ghost predicate Sent(v: View, e: Entry) {
    !e.Metered? && e.id in v.stored && v.stored[e.id].evmSessionId == Some(e.chain) && e.chain in v.chain
  }

  lemma RecordedKeeps(v: View, v': View, e: Entry, threshold: nat)
    requires Inv(v, threshold) && e.Recorded? && Sent(v, e) && CanBook(v.chain[e.chain], e.input, e.output, e.cost)
    requires v' == v.(chain := v.chain[e.chain := Booked(v.chain[e.chain], e.input, e.output, e.cost)],
                      accepted := v.accepted + [e])
    ensures Inv(v', threshold) && Progress(v, v', None, None)
  {
    hide ChainsBooked, ChainsGood, SessionsOk, ChainProgress;
    MoreUsage(v.chain, v.seen, e.chain, v'.chain[e.chain]);
    AcceptedIsBooked(v.chain, v.accepted, v.metered, e, v'.chain[e.chain]);
  }

  lemma OpenKeeps(v: View, v': View, s: Session, threshold: nat)
    requires Inv(v, threshold) && s.id !in v.inMemory && s.id !in v.stored
    requires s.evmTeeAnchorTokens == 0 && s.evmInputTokensSynced == 0 && s.evmOutputTokensSynced == 0
    requires v' == v.(inMemory := v.inMemory[s.id := s], stored := v.stored[s.id := s])
    ensures Inv(v', threshold) && Progress(v, v', None, None)
  {
    hide ChainsBooked, ChainsGood, SessionsOk, WrittenThrough, NoneForgotten;
    NewRecordOk(v.stored, v.log, s, threshold);
    PutKeeps(v.inMemory, v.stored, s);
  }

  /** A record written to memory and store alike. */
  lemma PutKeeps(inMemory: map<Uuid, Session>, stored: map<Uuid, Session>, s: Session)
    requires WrittenThrough(inMemory, stored) && NoneForgotten(inMemory, stored)
    ensures WrittenThrough(inMemory[s.id := s], stored[s.id := s])
    ensures NoneForgotten(inMemory[s.id := s], stored[s.id := s])
  {
  }

  /** A record in memory goes on; with it the stored one does. */
  lemma PutProgress(v: View, s: Session, id: Option<Uuid>)
    requires WrittenThrough(v.inMemory, v.stored) && s.id in v.inMemory && Onwards(v.inMemory[s.id], s)
    requires id != Some(s.id) ==> SameMarks(v.inMemory[s.id], s)
    ensures SessionsProgress(v.inMemory, v.inMemory[s.id := s], id)
    ensures SessionsProgress(v.stored, v.stored[s.id := s], id)
    ensures Linked(v.accepted, v.stored) ==> Linked(v.accepted, v.stored[s.id := s])
  {
    hide Linked, Onwards, SameMarks;
    OneProgress(v.inMemory, s, id);
    OneProgress(v.stored, s, id);
    LinkStays(v.accepted, v.stored, s) by { SameLink(v.inMemory[s.id], s); }
  }

  lemma SameLink(a: Session, b: Session)
    requires Onwards(a, b)
    ensures b.evmSessionId == a.evmSessionId
  {
  }

  lemma OneProgress(sessions: map<Uuid, Session>, s: Session, id: Option<Uuid>)
    requires s.id in sessions && Onwards(sessions[s.id], s) && (id != Some(s.id) ==> SameMarks(sessions[s.id], s))
    ensures SessionsProgress(sessions, sessions[s.id := s], id)
  {
  }

  lemma LinkStays(accepted: seq<Entry>, stored: map<Uuid, Session>, s: Session)
    requires s.id in stored && stored[s.id].evmSessionId == s.evmSessionId
    ensures Linked(accepted, stored) ==> Linked(accepted, stored[s.id := s])
  {
  }

  lemma NewRecordOk(stored: map<Uuid, Session>, log: seq<Entry>, s: Session, threshold: nat)
    requires SessionsOk(stored, log, threshold) && s.id !in stored
    requires s.evmTeeAnchorTokens == 0 && s.evmInputTokensSynced == 0 && s.evmOutputTokensSynced == 0
    ensures SessionsOk(stored[s.id := s], log, threshold)
  {
    NoEntries(log, s.id);
    assert SessionOk(s, log, threshold);
  }

  /** A session nothing was sent for has empty sums. */
  lemma {:induction false} NoEntries(log: seq<Entry>, id: Uuid)
    requires forall i :: 0 <= i < |log| ==> !log[i].Metered? && log[i].id != id
    ensures InputSum(log, id) == 0 && OutputSum(log, id) == 0 && Partials(log, id) == 0
  {
    if log != [] {
      NoEntries(log[..|log| - 1], id);
    }
  }

  /** A change of a record that moves no watermark; only a change on behalf of `who` may close a completed session. */
  lemma ChangeKeeps(v: View, v': View, id: Uuid, change: Change, who: Option<Uuid>, threshold: nat)
    requires Inv(v, threshold) && id in v.inMemory
    requires change.AddTokens? || change.Attach? || change.CloseAs?
    requires who == Some(id) || !(change.CloseAs? && v.inMemory[id].state.Completed?)
    requires var s := Changed(v.inMemory[id], change);
             v' == v.(inMemory := v.inMemory[id := s], stored := v.stored[id := s])
    ensures Inv(v', threshold) && Progress(v, v', who, None)
  {
    hide ChainsBooked, ChainsGood, NoneForgotten, SessionsProgress, Linked, InputSum, OutputSum, Partials;
    var s := Changed(v.inMemory[id], change);
    assert SessionOk(v.stored[id], v.log, threshold);
    RecordOk(v.stored, v.log, s, threshold);
    PutKeeps(v.inMemory, v.stored, s);
    PutProgress(v, s, who);
  }

  lemma RecordOk(stored: map<Uuid, Session>, log: seq<Entry>, s: Session, threshold: nat)
    requires SessionsOk(stored, log, threshold) && s.id in stored && SessionOk(s, log, threshold)
    ensures SessionsOk(stored[s.id := s], log, threshold)
  {
  }

  // ---- Steps of the loop --------------------------------------------------------------------------------

  /** A copy of a record: the marks are still those in memory, and they lie within the copy's own counts. */
  ghost predicate Snapshot(s: Session, sessions: map<Uuid, Session>) {
    && s.id in sessions && Onwards(s, sessions[s.id]) && SameMarks(s, sessions[s.id])
    && s.evmInputTokensSynced <= s.tokensInput && s.evmOutputTokensSynced <= s.tokensOutput
    && s.evmTeeAnchorTokens <= s.tokensOutput
  }

  /** The two counts of a copy taken earlier, when its anchor is still in force. */
  ghost predicate Anchored(s: Session, sessions: map<Uuid, Session>) {
    s.id in sessions && Onwards(s, sessions[s.id]) && s.evmTeeAnchorTokens == sessions[s.id].evmTeeAnchorTokens
  }

  /** The log gains one entry; the sums of every other session stay. */
  lemma LogGrows(log: seq<Entry>, e: Entry, id: Uuid)
    ensures InputSum(log + [e], id) == InputSum(log, id) + if e.Recorded? && e.id == id then e.input else 0
    ensures OutputSum(log + [e], id) == OutputSum(log, id) + if e.Recorded? && e.id == id then e.output else 0
    ensures Partials(log + [e], id) == Partials(log, id) + if e.Partial? && e.id == id then 1 else 0
  {
    assert (log + [e])[..|log|] == log;
  }

  /** A transaction for session `s.id` is confirmed and its record rewritten. */
  lemma EntryKeeps(stored: map<Uuid, Session>, log: seq<Entry>, e: Entry, s: Session, threshold: nat)
    requires SessionsOk(stored, log, threshold) && s.id in stored && !e.Metered? && e.id == s.id
    requires SessionOk(s, log + [e], threshold)
    requires forall id :: id in stored ==> stored[id].id == id
    ensures SessionsOk(stored[s.id := s], log + [e], threshold)
  {
    forall id | id in stored && id != s.id ensures SessionOk(stored[id], log + [e], threshold) {
      LogGrows(log, e, id);
      assert SessionOk(stored[id], log, threshold);
    }
  }

  /** The record and the log after a confirmation. */
  lemma ConfirmedKeeps(v: View, v': View, r: Session, e: Entry, threshold: nat)
    requires Inv(v, threshold) && r.id in v.inMemory && !e.Metered? && e.id == r.id && v.accepted == v.log + [e]
    requires SessionOk(r, v.accepted, threshold) && Onwards(v.inMemory[r.id], r)
    requires v' == v.(inMemory := v.inMemory[r.id := r], stored := v.stored[r.id := r], log := v.accepted)
    ensures Inv(v', threshold) && Progress(v, v', Some(r.id), None) && AtRest(v')
  {
    hide ChainsBooked, ChainsGood, NoneForgotten, SessionsProgress, Linked, SessionOk;
    EntryKeeps(v.stored, v.log, e, r, threshold);
    PutKeeps(v.inMemory, v.stored, r);
    PutProgress(v, r, Some(r.id));
  }

  /** The recorded deltas are confirmed and the watermarks follow. */
  lemma SyncedOk(v: View, s: Session, e: Entry, threshold: nat)
    requires Inv(v, threshold) && Snapshot(s, v.inMemory)
    requires e.Recorded? && e.id == s.id && v.accepted == v.log + [e]
    requires e.input == s.tokensInput - s.evmInputTokensSynced && e.output == s.tokensOutput - s.evmOutputTokensSynced
    ensures var r := Changed(v.inMemory[s.id], SetSynced(s.tokensInput, s.tokensOutput));
            SessionOk(r, v.accepted, threshold) && Onwards(v.inMemory[s.id], r) && r.id == s.id
  {
    hide InputSum, OutputSum, Partials;
    LogGrows(v.log, e, s.id);
    assert SessionOk(v.stored[s.id], v.log, threshold);
  }

  /** A partial settlement is confirmed and the anchor follows. */
  lemma AnchorOk(v: View, s: Session, e: Entry, threshold: nat)
    requires Inv(v, threshold) && Anchored(s, v.inMemory)
    requires s.tokensOutput - s.evmTeeAnchorTokens >= Max(threshold, 1)
    requires e.Partial? && e.id == s.id && v.accepted == v.log + [e]
    ensures var r := Changed(v.inMemory[s.id], SetAnchor(s.tokensOutput));
            SessionOk(r, v.accepted, threshold) && Onwards(v.inMemory[s.id], r) && r.id == s.id
  {
    hide InputSum, OutputSum, Partials;
    LogGrows(v.log, e, s.id);
    assert SessionOk(v.stored[s.id], v.log, threshold);
    OneMore(Partials(v.log, s.id), Max(threshold, 1), s.evmTeeAnchorTokens);
  }

  lemma OneMore(n: nat, m: nat, anchor: nat)
    requires n * m <= anchor
    ensures (n + 1) * m <= anchor + m
  {
  }

  /** A full settlement is confirmed and the session is closed. */
  lemma ClosedOk(v: View, s: Session, e: Entry, now: int, threshold: nat)
    requires Inv(v, threshold) && s.id in v.inMemory && e.Full? && e.id == s.id && v.accepted == v.log + [e]
    ensures var r := Changed(v.inMemory[s.id], CloseAs(SessionState.Settled, now));
            SessionOk(r, v.accepted, threshold) && Onwards(v.inMemory[s.id], r) && r.id == s.id
  {
    hide InputSum, OutputSum, Partials;
    LogGrows(v.log, e, s.id);
    assert SessionOk(v.stored[s.id], v.log, threshold);
  }

  lemma ReadKeeps(v: View, v': View, c: ChainId, threshold: nat)
    requires Inv(v, threshold)
    requires v' == v.(seen := if c in v.chain && !v.chain[c].settled then v.seen[c := v.chain[c].usage] else v.seen)
    ensures Inv(v', threshold) && Progress(v, v', None, Some(c))
  {
    hide ChainsBooked, Linked, SessionsOk, WrittenThrough, NoneForgotten, ChainsGood, ChainProgress, SessionsProgress;
    ReadIsGood(v, v', c);
    SameSessions(v.inMemory);
    SameSessions(v.stored);
  }

  lemma SameSessions(sessions: map<Uuid, Session>)
    ensures SessionsProgress(sessions, sessions, None)
  {
  }

  lemma ReadIsGood(v: View, v': View, c: ChainId)
    requires ChainsGood(v.chain, v.seen) && v'.chain == v.chain
    requires v'.seen == if c in v.chain && !v.chain[c].settled then v.seen[c := v.chain[c].usage] else v.seen
    ensures ChainsGood(v.chain, v'.seen) && ChainProgress(v.chain, v.chain, Some(c)) && SeenProgress(v, v', Some(c))
  {
    if c in v.chain && !v.chain[c].settled {
      assert ChainGood(v.chain[c], Seen(v.seen, c));
    }
  }
}
