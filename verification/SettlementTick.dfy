/** One tick of the settlement: streaming and completed TEE sessions, and best-effort ones at an epoch. */
module SettlementTick {
  import opened Prelude
  import opened Sessions
  import opened Escrow
  import opened SettlementState
  import opened Environments
  import opened SettlementVisit
  import opened BlockCadence

  // ---- What many visits keep ------------------------------------------------------------------

  /**
   Stored marks, the contract's figures and the usage last read never move back, what
   is settled stays settled, accepted transactions are never forgotten, and no
   settlement is refused.
   */
  ghost predicate Grows(a: View, b: View) {
    && (forall u :: u in a.stored ==> u in b.stored && Onwards(a.stored[u], b.stored[u]))
    && (forall k :: k in a.chain ==> k in b.chain && MovesOn(a.chain[k], b.chain[k]))
    && (forall k :: k in a.seen ==> k in b.seen && b.seen[k] >= a.seen[k])
    && a.accepted <= b.accepted && a.metered <= b.metered && b.reverted == a.reverted
  }

  ghost predicate MovesOn(a: ChainSession, b: ChainSession) {
    b.opening == a.opening && b.usage >= a.usage && (a.settled ==> b == a)
  }

  lemma GrowsByNothing(v: View)
    ensures Grows(v, v)
  {
  }

  lemma GrowsOn(a: View, b: View, d: View, id: Option<Uuid>, c: Option<ChainId>)
    requires Grows(a, b) && Progress(b, d, id, c)
    ensures Grows(a, d)
  {
  }

  /** The copies to visit: taken earlier, one of each session, streaming ones with a full step of new tokens. */
  ghost predicate Visitable(list: seq<Session>, sessions: map<Uuid, Session>, threshold: nat) {
    && (forall i :: 0 <= i < |list| ==> Snapshot(list[i], sessions))
    && (forall i :: 0 <= i < |list| && list[i].state.Active? ==>
          list[i].tokensOutput - list[i].evmTeeAnchorTokens >= Max(threshold, 1))
    && (forall i, j :: 0 <= i < j < |list| ==> list[i].id != list[j].id)
  }

  ghost predicate Without(list: seq<Session>, id: Uuid) {
    forall i :: 0 <= i < |list| ==> list[i].id != id
  }

  lemma ListedIsVisitable(list: seq<Session>, v: View, f: Filter, threshold: nat)
    requires Inv(v, threshold) && Lists(list, v.inMemory, f) && (f.TeeTouch? ==> f.threshold == threshold)
    ensures Visitable(list, v.inMemory, threshold)
  {
    forall i | 0 <= i < |list| ensures Snapshot(list[i], v.inMemory) {
      assert SessionOk(v.stored[list[i].id], v.log, threshold);
    }
  }

  lemma VisitableRest(list: seq<Session>, a: View, b: View, id: Option<Uuid>, c: Option<ChainId>, threshold: nat)
    requires Visitable(list, a.inMemory, threshold) && Progress(a, b, id, c)
    requires id.Some? ==> Without(list, id.value)
    ensures Visitable(list, b.inMemory, threshold)
  {
    forall i | 0 <= i < |list| ensures Snapshot(list[i], b.inMemory) {
      assert Snapshot(list[i], a.inMemory);
    }
  }

  // ---- The ledger of visits -----------------------------------------------------------------------

  /** A visit: the copy it was for, the numbers of its calls, and the states before and after it. */
  datatype Visit = Visit(session: Session, from: nat, to: nat, before: View, after: View)

  ghost predicate VisitExcused(w: World, v: Visit) {
    v.session.evmSessionId.Some? && Excused(w, v.after, v.session, v.session.evmSessionId.value, v.from, v.to)
  }

  /** A visit to a linked session has an excuse or attends to the session. */
  ghost predicate Done(w: World, v: Visit) {
    v.session.evmSessionId.Some? && !VisitExcused(w, v) ==>
      Attended(w.settings, v.before, v.after, v.session, v.session.evmSessionId.value, !v.session.state.Active?)
  }

  /**
   A record of visits without gaps, from state `a` to state `b`: each starts where
   the one before ended and makes six calls at most, and each call from number p up
   to number q belongs to one.
   */
  ghost predicate Ledger(w: World, a: View, ledger: seq<Visit>, b: View, p: nat, q: nat)
    decreases |ledger|
  {
    && Inv(b, w.settings.threshold)
    && if ledger == [] then q == p && Progress(a, b, None, None)
       else var front, v := ledger[..|ledger| - 1], ledger[|ledger| - 1];
            && Ledger(w, a, front, v.before, p, v.from) && v.from <= v.to == q <= v.from + 6 && v.after == b
            && Progress(v.before, b, Some(v.session.id), v.session.evmSessionId) && Done(w, v)
  }

  /** The escrow session of `s` stands settled up in `b`, unless a visit to it had an excuse. */
  ghost predicate Met(w: World, s: Session, ledger: seq<Visit>, b: View) {
    s.evmSessionId.Some? ==>
      || Served(b, s.evmSessionId.value, !s.state.Active?)
      || exists j :: 0 <= j < |ledger| && ledger[j].session.evmSessionId == s.evmSessionId && VisitExcused(w, ledger[j])
  }

  ghost predicate AllMet(w: World, ledger: seq<Visit>, b: View) {
    forall i :: 0 <= i < |ledger| ==> Met(w, ledger[i].session, ledger, b)
  }

  /** The ledger has a visit to this session, in the same state and with at least these counts. */
  ghost predicate Visited(s: Session, ledger: seq<Visit>) {
    exists i :: 0 <= i < |ledger| && Onwards(s, ledger[i].session) && ledger[i].session.state == s.state
  }

  ghost predicate DueMet(w: World, s: Session, ledger: seq<Visit>, b: View) {
    Visited(s, ledger) && Met(w, s, ledger, b)
  }

  /** The visits from place n on are those to the list, in order. */
  ghost predicate Entered(list: seq<Session>, n: nat, ledger: seq<Visit>) {
    |ledger| == n + |list| && forall i :: 0 <= i < |list| ==> ledger[n + i].session == list[i]
  }

  lemma NoVisits(w: World, a: View, b: View, p: nat)
    requires Progress(a, b, None, None) && Inv(b, w.settings.threshold)
    ensures Ledger(w, a, [], b, p, p) && AllMet(w, [], b)
  {
  }

  lemma OneVisit(w: World, a: View, ledger: seq<Visit>, b: View, p: nat, q: nat, v: Visit)
    requires Ledger(w, a, ledger, b, p, q) && v.before == b && v.from == q <= v.to <= q + 6
    requires Inv(v.after, w.settings.threshold) && Progress(b, v.after, Some(v.session.id), v.session.evmSessionId)
    requires Done(w, v)
    ensures Ledger(w, a, ledger + [v], v.after, p, v.to)
  {
    hide Inv, Progress, Done;
    var longer := ledger + [v];
    assert longer[..|longer| - 1] == ledger;
  }

  /** A further visit undoes no earlier one, even where two records share an escrow session. */
  lemma MetStill(w: World, ledger: seq<Visit>, b: View, v: Visit)
    requires AllMet(w, ledger, b) && Done(w, v)
    requires Progress(b, v.after, Some(v.session.id), v.session.evmSessionId)
    ensures AllMet(w, ledger + [v], v.after)
  {
    hide Excused, Fresh, UpToDate, IsSettled;
    var longer := ledger + [v];
    forall i | 0 <= i < |longer| ensures Met(w, longer[i].session, longer, v.after) {
      var s := longer[i].session;
      if s.evmSessionId.Some? {
        if j :| 0 <= j < |ledger| && ledger[j].session.evmSessionId == s.evmSessionId && VisitExcused(w, ledger[j]) {
          assert longer[j] == ledger[j];
        } else if s.evmSessionId == v.session.evmSessionId && VisitExcused(w, v) {
          assert longer[|ledger|] == v;
        } else if i < |ledger| {
          assert Met(w, ledger[i].session, ledger, b);
          ServedOn(b, v.after, Some(v.session.id), v.session.evmSessionId, s.evmSessionId.value, !s.state.Active?,
                   !v.session.state.Active?);
        }
      }
    }
  }

  /** An escrow session that was served still is, whether or not it has been served again. */
  lemma ServedOn(a: View, b: View, id: Option<Uuid>, visited: Option<ChainId>, c: ChainId, atEnd: bool, again: bool)
    requires Served(a, c, atEnd) && Progress(a, b, id, visited)
    requires visited == Some(c) ==> Served(b, c, again)
    ensures Served(b, c, atEnd)
  {
  }

  /** A record of visits can be counted from before a wait. */
  lemma {:induction false} LedgerFrom(w: World, start: View, a: View, ledger: seq<Visit>, b: View, p: nat, q: nat)
    requires Progress(start, a, None, None) && Ledger(w, a, ledger, b, p, q)
    ensures Ledger(w, start, ledger, b, p, q)
    decreases |ledger|
  {
    hide Inv, Progress, Done;
    if ledger == [] {
      Then(start, a, b, None, None);
    } else {
      LedgerFrom(w, start, a, ledger[..|ledger| - 1], ledger[|ledger| - 1].before, p, ledger[|ledger| - 1].from);
    }
  }

  /** Every visit of a ledger made its calls within those of the ledger, and followed its first state. */
  lemma {:induction false} Within(w: World, a: View, ledger: seq<Visit>, b: View, p: nat, q: nat)
    requires Ledger(w, a, ledger, b, p, q)
    ensures p <= q && Grows(a, b)
    ensures forall j :: 0 <= j < |ledger| ==>
              p <= ledger[j].from <= ledger[j].to <= q && Grows(a, ledger[j].after)
    decreases |ledger|
  {
    hide Inv, Grows, Done, Progress;
    if ledger == [] {
      GrowsByNothing(a);
      GrowsOn(a, a, b, None, None);
    } else {
      var front, v := ledger[..|ledger| - 1], ledger[|ledger| - 1];
      Within(w, a, front, v.before, p, v.from);
      GrowsOn(a, v.before, b, Some(v.session.id), v.session.evmSessionId);
    }
  }

  /**
   Once visits without an excuse have been made to an open escrow session, or have
   settled it, the usage behind its payments covers all that was recorded at first.
   */
  lemma {:induction false} PaidFor(w: World, a: View, ledger: seq<Visit>, b: View, p: nat, q: nat, c: ChainId)
    requires Ledger(w, a, ledger, b, p, q) && c in a.chain && !a.chain[c].settled && c in b.chain
    requires forall j :: 0 <= j < |ledger| && ledger[j].session.evmSessionId == Some(c) ==> !VisitExcused(w, ledger[j])
    requires b.chain[c].settled || exists i :: 0 <= i < |ledger| && ledger[i].session.evmSessionId == Some(c)
    ensures c in b.seen && b.seen[c] >= a.chain[c].usage
    decreases |ledger|
  {
    hide Inv, Excused, Done, Progress, MovesOn, Served, VisitExcused;
    if ledger == [] {
      NotSettledBy(a, b, None, None, c);
    } else {
      var front, v := ledger[..|ledger| - 1], ledger[|ledger| - 1];
      Within(w, a, front, v.before, p, v.from);
      UsageGrows(a, v.before, c);
      if v.before.chain[c].settled || exists i :: 0 <= i < |front| && front[i].session.evmSessionId == Some(c) {
        PaidFor(w, a, front, v.before, p, v.from, c);
        SeenGrows(v.before, b, Some(v.session.id), v.session.evmSessionId, c);
      } else {
        NotSettledBy(v.before, b, Some(v.session.id), v.session.evmSessionId, c);
        LedgerInv(w, a, front, v.before, p, v.from);
        VisitPays(w, v, c);
      }
    }
  }

  lemma LedgerInv(w: World, a: View, ledger: seq<Visit>, b: View, p: nat, q: nat)
    requires Ledger(w, a, ledger, b, p, q)
    ensures Inv(b, w.settings.threshold)
  {
  }

  lemma UsageGrows(a: View, b: View, c: ChainId)
    requires Grows(a, b) && c in a.chain
    ensures c in b.chain && b.chain[c].usage >= a.chain[c].usage && b.chain[c].opening == a.chain[c].opening
  {
  }

  lemma SeenGrows(a: View, b: View, id: Option<Uuid>, visited: Option<ChainId>, c: ChainId)
    requires Progress(a, b, id, visited) && c in a.seen
    ensures c in b.seen && b.seen[c] >= a.seen[c]
  {
  }

  /** Only a visit to an escrow session settles it. */
  lemma NotSettledBy(a: View, b: View, id: Option<Uuid>, visited: Option<ChainId>, c: ChainId)
    requires Progress(a, b, id, visited) && c in a.chain && !a.chain[c].settled && c in b.chain
    ensures b.chain[c].settled ==> visited == Some(c)
  {
  }

  lemma VisitPays(w: World, v: Visit, c: ChainId)
    requires Done(w, v) && v.session.evmSessionId == Some(c) && !VisitExcused(w, v)
    requires Inv(v.before, w.settings.threshold) && c in v.before.chain && !v.before.chain[c].settled
    requires Progress(v.before, v.after, Some(v.session.id), v.session.evmSessionId)
    ensures c in v.after.seen && v.after.seen[c] >= v.before.chain[c].usage
  {
    hide Inv, VisitExcused, SessionsProgress, ChainProgress, SeenProgress, Total;
    FreshCovers(v.before, v.after, c, w.settings.threshold);
  }

  lemma FreshCovers(a: View, b: View, c: ChainId, threshold: nat)
    requires Inv(a, threshold) && Fresh(a, b, c) && c in a.chain && !a.chain[c].settled && a.accepted <= b.accepted
    ensures c in b.seen && b.seen[c] >= a.chain[c].usage
  {
    hide Total;
    assert SessionBooked(a.chain[c], c, a.accepted, a.metered);
    TotalOfPrefix(a.accepted, b.accepted, c, Usage);
  }

  lemma GrowsThen(a: View, b: View, d: View)
    requires Grows(a, b) && Grows(b, d)
    ensures Grows(a, d)
  {
  }

  /** Completed sessions off the list stay completed: streams close a session only once. */
  ghost predicate StaysDone(a: View, b: View, list: seq<Session>) {
    forall u :: u in a.inMemory && a.inMemory[u].state.Completed? && Without(list, u) ==>
      u in b.inMemory && Onwards(a.inMemory[u], b.inMemory[u]) && b.inMemory[u].state.Completed?
  }

  lemma StaysDoneOn(a: View, b: View, d: View, list: seq<Session>, i: nat, c: Option<ChainId>)
    requires StaysDone(a, b, list) && i < |list| && Progress(b, d, Some(list[i].id), c)
    ensures StaysDone(a, d, list)
  {
  }

  lemma StaysDoneWaiting(a: View, b: View, list: seq<Session>)
    requires Progress(a, b, None, None)
    ensures StaysDone(a, b, list)
  {
  }

  /** Something was settled after the first n entries of the log. */
  ghost predicate SettledSince(log: seq<Entry>, n: nat) {
    exists i :: n <= i < |log| && !log[i].Recorded?
  }

  /** Reports alone settle nothing; a settlement does. */
  lemma SettledAfter(log: seq<Entry>, n: nat, report: seq<Entry>, last: seq<Entry>)
    requires n <= |log| && (forall i :: 0 <= i < |report| ==> report[i].Recorded?)
    requires last == [] || (|last| == 1 && !last[0].Recorded?)
    ensures |log| <= |log + report + last|
    ensures SettledSince(log + report + last, n) <==> SettledSince(log, n) || last != []
  {
    var all := log + report + last;
    if SettledSince(log, n) {
      var i :| n <= i < |log| && !log[i].Recorded?;
      assert all[i] == log[i];
    }
    if last != [] {
      assert all[|all| - 1] == last[0];
    }
    if last == [] {
      forall i | |log| <= i < |all| ensures all[i].Recorded? {
        assert all[i] == report[i - |log|];
      }
      if SettledSince(all, n) {
        var i :| n <= i < |all| && !all[i].Recorded?;
        assert all[i] == log[i];
      }
    }
  }

  // ---- Visiting a list ----------------------------------------------------------------------------

  /**
   Visits every session of the list, whatever becomes of the others, and enters the
   visits in the ledger; `mutated` says whether anything was settled.
   */
  method VisitAll(manager: SessionManager, escrow: SettlementEscrow, env: Environment, settings: Settings,
                  list: seq<Session>, ghost start: View, ghost earlier: seq<Visit>, ghost p: nat)
    returns (mutated: bool, ghost ledger: seq<Visit>)
    requires Inv(Now(manager, escrow), settings.threshold) && AtRest(Now(manager, escrow))
    requires Visitable(list, manager.sessions, settings.threshold) && settings.operator == escrow.operator
    requires Ledger(WorldOf(settings, env, escrow), start, earlier, Now(manager, escrow), p, env.position)
    requires AllMet(WorldOf(settings, env, escrow), earlier, Now(manager, escrow))
    modifies env, manager, manager.store, escrow
    ensures Inv(Now(manager, escrow), settings.threshold) && AtRest(Now(manager, escrow))
    ensures Ledger(WorldOf(settings, env, escrow), start, ledger, Now(manager, escrow), p, env.position)
    ensures AllMet(WorldOf(settings, env, escrow), ledger, Now(manager, escrow))
    ensures earlier <= ledger && Entered(list, |earlier|, ledger)
    ensures StaysDone(old(Now(manager, escrow)), Now(manager, escrow), list)
    ensures Grows(old(Now(manager, escrow)), Now(manager, escrow))
    ensures |old(escrow.log)| <= |escrow.log|
    ensures mutated <==> SettledSince(escrow.log, |old(escrow.log)|)
  {
    hide *;
    ghost var before := Now(manager, escrow);
    ghost var w := WorldOf(settings, env, escrow);
    mutated, ledger := false, earlier;
    Nothing(list, before, settings.threshold);
    for i := 0 to |list|
      invariant Inv(Now(manager, escrow), settings.threshold) && AtRest(Now(manager, escrow))
      invariant Ledger(w, start, ledger, Now(manager, escrow), p, env.position)
      invariant AllMet(w, ledger, Now(manager, escrow))
      invariant |ledger| == |earlier| + i && earlier <= ledger
      invariant forall k :: 0 <= k < i ==> ledger[|earlier| + k].session == list[k]
      invariant Visitable(list[i..], manager.sessions, settings.threshold)
      invariant StaysDone(before, Now(manager, escrow), list) && Grows(before, Now(manager, escrow))
      invariant |before.accepted| <= |escrow.log|
      invariant mutated <==> SettledSince(escrow.log, |before.accepted|)
    {
      ghost var v, from := Now(manager, escrow), env.position;
      Head(list, i, manager.sessions, settings.threshold);
      var s := list[i];
      ghost var report, read;
      var outcome;
      outcome, report, read := SettleSession(manager, escrow, env, settings, s, s.state.Active?, settings.threshold);
      ghost var visit := Visit(s, from, env.position, v, Now(manager, escrow));
      VisitIsDone(w, visit, outcome);
      OneVisit(w, start, ledger, v, p, from, visit);
      MetStill(w, ledger, v, visit);
      ledger := ledger + [visit];
      VisitableRest(list[i + 1..], v, Now(manager, escrow), Some(s.id), s.evmSessionId, settings.threshold);
      StaysDoneOn(before, v, Now(manager, escrow), list, i, s.evmSessionId);
      GrowsOn(before, v, Now(manager, escrow), Some(s.id), s.evmSessionId);
      LogAfter(v.accepted, escrow.log, |before.accepted|, s, report, read, outcome);
      mutated := mutated || outcome == DidMutateChain;
    }
    AllEntered(list, |earlier|, ledger);
  }

  lemma AllEntered(list: seq<Session>, n: nat, ledger: seq<Visit>)
    requires |ledger| == n + |list| && forall i :: 0 <= i < |list| ==> ledger[n + i].session == list[i]
    ensures Entered(list, n, ledger)
  {
  }

  lemma VisitIsDone(w: World, v: Visit, outcome: Outcome)
    requires outcome == Failed ==>
               v.session.evmSessionId.Some?
               && Excused(w, v.after, v.session, v.session.evmSessionId.value, v.from, v.to)
    requires outcome != Failed && v.session.evmSessionId.Some? ==>
               Attended(w.settings, v.before, v.after, v.session, v.session.evmSessionId.value,
                        !v.session.state.Active?)
    ensures Done(w, v)
  {
  }

  lemma Nothing(list: seq<Session>, v: View, threshold: nat)
    requires Visitable(list, v.inMemory, threshold)
    ensures StaysDone(v, v, list) && Grows(v, v) && !SettledSince(v.accepted, |v.accepted|)
    ensures Visitable(list[0..], v.inMemory, threshold)
  {
    assert list[0..] == list;
  }

  lemma Head(list: seq<Session>, i: nat, sessions: map<Uuid, Session>, threshold: nat)
    requires i < |list| && Visitable(list[i..], sessions, threshold)
    ensures Snapshot(list[i], sessions) && Visitable(list[i + 1..], sessions, threshold)
    ensures list[i].state.Active? ==> list[i].tokensOutput - list[i].evmTeeAnchorTokens >= Max(threshold, 1)
    ensures Without(list[i + 1..], list[i].id)
  {
    var rest := list[i..];
    assert rest[0] == list[i];
    var next := list[i + 1..];
    forall j | 0 <= j < |next| ensures next[j] == rest[j + 1] {
    }
  }

  lemma LogAfter(log: seq<Entry>, log': seq<Entry>, n: nat, s: Session,
                 report: seq<Entry>, read: Option<ChainSession>, outcome: Outcome)
    requires n <= |log|
    requires report == [] || (s.evmSessionId.Some? && IsReport(report, s, s.evmSessionId.value))
    requires outcome != DidMutateChain ==> log' == log + report
    requires outcome == DidMutateChain ==>
               && s.evmSessionId.Some? && read.Some?
               && log' == log + report + [Settlement(s, s.evmSessionId.value, read.value, s.state.Active?)]
    ensures |log| <= |log'|
    ensures SettledSince(log', n) <==> SettledSince(log, n) || outcome == DidMutateChain
  {
    if outcome == DidMutateChain {
      SettledAfter(log, n, report, [Settlement(s, s.evmSessionId.value, read.value, s.state.Active?)]);
    } else {
      assert log + report + [] == log';
      SettledAfter(log, n, report, []);
    }
  }

  // ---- The tick ---------------------------------------------------------------------------------------

  /** The settings are usable, the contract names an operator, and it is this node's account. */
  predicate Entitled(settings: Settings, operator: Address) {
    settings.configured && operator != 0 && settings.operator == operator
  }

  /** Whether the tick gets as far as the sessions. */
  method CheckOperator(manager: SessionManager, escrow: SettlementEscrow, env: Environment, settings: Settings)
    returns (ok: bool)
    requires Inv(Now(manager, escrow), settings.threshold)
    modifies env, manager, manager.store, escrow`chain, escrow`metered
    ensures Inv(Now(manager, escrow), settings.threshold)
    ensures Progress(old(Now(manager, escrow)), Now(manager, escrow), None, None)
    ensures env.position == old(env.position) + if settings.configured then 1 else 0
    ensures ok <==> Entitled(settings, escrow.operator) && env.script(old(env.position)).ok
  {
    hide Inv, Progress;
    ok := false;
    if !settings.configured {
      Stays(Now(manager, escrow));
    } else {
      var turn := env.Await(manager, escrow, settings.threshold);
      ok := turn.ok && escrow.operator != 0 && settings.operator == escrow.operator;
    }
  }

  /** What the chain answers to the call for its head, if the call is made. */
  function HeadReported(script: nat -> Turn, wanted: bool, p: nat): Option<u64> {
    if wanted && script(p).ok then Some(script(p).head) else None
  }

  /** The chain head, asked for only when the block gate needs it. */
  method FetchHead(manager: SessionManager, escrow: SettlementEscrow, env: Environment, settings: Settings,
                   wanted: bool) returns (head: Option<u64>)
    requires Inv(Now(manager, escrow), settings.threshold)
    modifies env, manager, manager.store, escrow`chain, escrow`metered
    ensures Inv(Now(manager, escrow), settings.threshold)
    ensures Progress(old(Now(manager, escrow)), Now(manager, escrow), None, None)
    ensures env.position == old(env.position) + if wanted then 1 else 0
    ensures head == HeadReported(env.script, wanted, old(env.position))
  {
    hide Inv, Progress;
    head := None;
    if wanted {
      var turn := env.Await(manager, escrow, settings.threshold);
      if turn.ok {
        head := Some(turn.head);
      }
    } else {
      Stays(Now(manager, escrow));
    }
  }

  /**
   Visits the best-effort sessions completed by now; the list is taken without
   waiting. All of them end up settled, but for excuses.
   */
  method SettleBestEffort(manager: SessionManager, escrow: SettlementEscrow, env: Environment, settings: Settings,
                          ghost start: View, ghost earlier: seq<Visit>, ghost p: nat)
    returns (ghost ledger: seq<Visit>)
    requires Inv(Now(manager, escrow), settings.threshold) && AtRest(Now(manager, escrow))
    requires settings.operator == escrow.operator
    requires Ledger(WorldOf(settings, env, escrow), start, earlier, Now(manager, escrow), p, env.position)
    requires AllMet(WorldOf(settings, env, escrow), earlier, Now(manager, escrow))
    modifies env, manager, manager.store, escrow
    ensures Inv(Now(manager, escrow), settings.threshold) && AtRest(Now(manager, escrow))
    ensures Ledger(WorldOf(settings, env, escrow), start, ledger, Now(manager, escrow), p, env.position)
    ensures AllMet(WorldOf(settings, env, escrow), ledger, Now(manager, escrow)) && earlier <= ledger
    ensures BestEffortMet(WorldOf(settings, env, escrow), old(manager.sessions), ledger, Now(manager, escrow))
    ensures Grows(old(Now(manager, escrow)), Now(manager, escrow))
  {
    hide *;
    ghost var before := Now(manager, escrow);
    InvIsValid(manager, escrow, settings.threshold);
    var pending := manager.PendingBestEffortCompletedSettlement();
    ListedIsVisitable(pending, before, BestEffortDone, settings.threshold);
    var settled;
    settled, ledger := VisitAll(manager, escrow, env, settings, pending, start, earlier, p);
    ListMet(WorldOf(settings, env, escrow), pending, |earlier|, before.inMemory, ledger, Now(manager, escrow));
  }

  /** The completed best-effort sessions among these are visited and settled, but for excuses. */
  ghost predicate BestEffortMet(w: World, sessions: map<Uuid, Session>, ledger: seq<Visit>, b: View) {
    forall u :: u in sessions && Chosen(BestEffortDone, sessions[u]) ==> DueMet(w, sessions[u], ledger, b)
  }

  lemma ListMet(w: World, list: seq<Session>, n: nat, sessions: map<Uuid, Session>, ledger: seq<Visit>, b: View)
    requires Lists(list, sessions, BestEffortDone) && AllMet(w, ledger, b) && Entered(list, n, ledger)
    ensures BestEffortMet(w, sessions, ledger, b)
  {
    hide Met;
    forall u | u in sessions && Chosen(BestEffortDone, sessions[u]) ensures DueMet(w, sessions[u], ledger, b) {
      var i :| 0 <= i < |list| && list[i] == sessions[u];
      assert ledger[n + i].session == sessions[u];
    }
  }

  /** A completed best-effort session stays one for as long as it is not visited. */
  lemma BestEffortStays(w: World, a: View, b: View, list: seq<Session>, ledger: seq<Visit>, d: View, threshold: nat)
    requires Visitable(list, a.inMemory, threshold) && StaysDone(a, b, list)
    requires forall i :: 0 <= i < |list| ==> list[i].securityTier.TeeVerified?
    requires BestEffortMet(w, b.inMemory, ledger, d)
    ensures BestEffortMet(w, a.inMemory, ledger, d)
  {
    hide Served, VisitExcused;
    forall u | u in a.inMemory && Chosen(BestEffortDone, a.inMemory[u]) ensures DueMet(w, a.inMemory[u], ledger, d) {
      forall i | 0 <= i < |list| ensures list[i].id != u {
        assert Snapshot(list[i], a.inMemory);
      }
      assert Without(list, u);
      assert DueMet(w, b.inMemory[u], ledger, d);
    }
  }

  lemma MetAlready(w: World, list: seq<Session>, ledger: seq<Visit>, more: seq<Visit>, b: View)
    requires Entered(list, 0, ledger) && ledger <= more && AllMet(w, more, b)
    ensures forall i :: 0 <= i < |list| ==> DueMet(w, list[i], more, b)
  {
    hide Met;
    forall i | 0 <= i < |list| ensures DueMet(w, list[i], more, b) {
      assert more[i].session == list[i] && Met(w, more[i].session, more, b);
    }
  }

  /**
   The streaming and completed TEE sessions, at their ticks. With a closed gate
   nothing is sent; with an open one every candidate is visited. The anchor moves
   exactly when something was settled at a head the chain reported.
   */
  method SettleTee(manager: SessionManager, escrow: SettlementEscrow, env: Environment, settings: Settings,
                   teeTickNow: bool, candidates: seq<Session>, lastEligible: Option<u64>, ghost start: View)
    returns (newEligible: Option<u64>, ghost attempt: Attempt, ghost ledger: seq<Visit>)
    requires settings.operator == escrow.operator
    requires Inv(Now(manager, escrow), settings.threshold) && AtRest(Now(manager, escrow))
    requires Visitable(candidates, manager.sessions, settings.threshold)
    requires Progress(start, Now(manager, escrow), None, None)
    modifies env, manager, manager.store, escrow
    ensures Inv(Now(manager, escrow), settings.threshold) && AtRest(Now(manager, escrow))
    ensures Grows(old(Now(manager, escrow)), Now(manager, escrow))
    ensures StaysDone(old(Now(manager, escrow)), Now(manager, escrow), candidates)
    ensures newEligible == NextAnchor(settings.everyNBlocks, attempt, lastEligible)
    ensures var wanted := teeTickNow && candidates != [] && settings.everyNBlocks > 0;
            && attempt.head == HeadReported(env.script, wanted, old(env.position))
            && Ledger(WorldOf(settings, env, escrow), start, ledger, Now(manager, escrow),
                      old(env.position) + (if wanted then 1 else 0), env.position)
    ensures AllMet(WorldOf(settings, env, escrow), ledger, Now(manager, escrow))
    ensures |old(escrow.log)| <= |escrow.log|
    ensures attempt.mutated <==> SettledSince(escrow.log, |old(escrow.log)|)
    ensures if teeTickNow && TeeGateOpen(settings.everyNBlocks, attempt.head, lastEligible)
            then Entered(candidates, 0, ledger)
            else ledger == [] && escrow.log == old(escrow.log)
  {
    hide *;
    ghost var before := Now(manager, escrow);
    ghost var w := WorldOf(settings, env, escrow);
    var wanted := teeTickNow && candidates != [] && settings.everyNBlocks > 0;
    var head := FetchHead(manager, escrow, env, settings, wanted);
    ghost var v := Now(manager, escrow);
    RestKept(before, v);
    GrowsByNothing(before);
    GrowsOn(before, before, v, None, None);
    Then(start, before, v, None, None);
    VisitableRest(candidates, before, v, None, None, settings.threshold);
    StaysDoneWaiting(before, v, candidates);
    NoVisits(w, start, v, env.position);
    SettledNothing(v.accepted);
    ledger := [];
    newEligible := lastEligible;
    var mutated := false;
    if teeTickNow && candidates != [] && TeeGateOpen(settings.everyNBlocks, head, lastEligible) {
      mutated, ledger := VisitAll(manager, escrow, env, settings, candidates, start, [], env.position);
      GrowsThen(before, v, Now(manager, escrow));
      StaysDoneThen(before, v, Now(manager, escrow), candidates);
      if mutated && head.Some? {
        newEligible := head;
      }
    }
    if candidates == [] {
      AllEntered(candidates, 0, []);
    }
    attempt := Attempt(head, mutated);
    AnchorMoves(settings.everyNBlocks, attempt, lastEligible, newEligible);
  }

  lemma AnchorMoves(n: u64, attempt: Attempt, last: Option<u64>, next: Option<u64>)
    requires attempt.mutated ==> TeeGateOpen(n, attempt.head, last)
    requires next == if attempt.mutated && attempt.head.Some? then attempt.head else last
    ensures next == NextAnchor(n, attempt, last)
  {
  }

  lemma SettledNothing(log: seq<Entry>)
    ensures !SettledSince(log, |log|)
  {
  }

  lemma StaysDoneThen(a: View, b: View, d: View, list: seq<Session>)
    requires StaysDone(a, b, list) && StaysDone(b, d, list)
    ensures StaysDone(a, d, list)
  {
  }

  /**
   What a tick does to the accepted transactions. Up to `teeEnd` they are those of
   the TEE part, which settles something exactly when the attempt says so and sends
   nothing through a closed gate; the rest belong to the epoch part.
   */
  ghost predicate TickAccepts(a: View, b: View, settings: Settings, tee: bool, epoch: bool,
                              attempt: Attempt, last: Option<u64>, teeEnd: nat)
  {
    var n := |a.accepted|;
    && n <= teeEnd <= |b.accepted| && a.accepted <= b.accepted
    && (attempt.mutated <==> SettledSince(b.accepted[..teeEnd], n))
    && (!(tee && TeeGateOpen(settings.everyNBlocks, attempt.head, last)) ==> teeEnd == n)
    && (!epoch ==> teeEnd == |b.accepted|)
  }

  lemma NothingAccepted(a: View, b: View, settings: Settings, tee: bool, epoch: bool, last: Option<u64>)
    requires b.accepted == a.accepted
    ensures TickAccepts(a, b, settings, tee, epoch, Attempt(None, false), last, |a.accepted|)
  {
  }

  lemma TeeAccepted(a: View, v: View, b: View, settings: Settings, tee: bool, epoch: bool,
                    attempt: Attempt, last: Option<u64>)
    requires v.accepted == a.accepted && Grows(v, b)
    requires attempt.mutated <==> SettledSince(b.accepted, |v.accepted|)
    requires !(tee && TeeGateOpen(settings.everyNBlocks, attempt.head, last)) ==> b.accepted == v.accepted
    ensures TickAccepts(a, b, settings, tee, epoch, attempt, last, |b.accepted|)
  {
    assert b.accepted[..|b.accepted|] == b.accepted;
  }

  lemma EpochAccepted(a: View, v: View, b: View, settings: Settings, tee: bool, attempt: Attempt, last: Option<u64>)
    requires TickAccepts(a, v, settings, tee, true, attempt, last, |v.accepted|) && Grows(v, b)
    ensures TickAccepts(a, b, settings, tee, true, attempt, last, |v.accepted|)
  {
    assert b.accepted[..|v.accepted|] == v.accepted[..|v.accepted|];
  }

  /** What a tick does once the operator is checked: its calls are those from number p up to number q. */
  ghost predicate PartsServe(w: World, tee: bool, epoch: bool, a: View, b: View, due: seq<Session>,
                             last: Option<u64>, attempt: Attempt, ledger: seq<Visit>, p: nat, q: nat)
  {
    var wanted := tee && due != [] && w.settings.everyNBlocks > 0;
    && attempt.head == HeadReported(w.script, wanted, p)
    && Ledger(w, a, ledger, b, if wanted then p + 1 else p, q)
    && (tee && TeeGateOpen(w.settings.everyNBlocks, attempt.head, last) ==>
          forall i :: 0 <= i < |due| ==> DueMet(w, due[i], ledger, b))
    && (epoch ==> BestEffortMet(w, a.inMemory, ledger, b))
  }

  /**
   Whom a tick serves, and what its calls are: from number p up to number q. If it
   is called for, the node is entitled and the operator could be asked, then it
   knows the head exactly as the chain reports it, serves every due TEE session
   through an open gate and every completed best-effort session at an epoch, each
   but for excuses. Otherwise it visits nobody.
   */
  ghost predicate TickServes(w: World, tee: bool, epoch: bool, a: View, b: View, due: seq<Session>,
                             last: Option<u64>, attempt: Attempt, ledger: seq<Visit>, p: nat, q: nat)
  {
    if (tee || epoch) && Entitled(w.settings, w.operator) && w.script(p).ok
    then PartsServe(w, tee, epoch, a, b, due, last, attempt, ledger, p + 1, q)
    else attempt.head == None && ledger == [] && q == p + if (tee || epoch) && w.settings.configured then 1 else 0
  }

  /** One tick. A tick with neither flag does nothing. */
  method ProcessSettlementTick(manager: SessionManager, escrow: SettlementEscrow, env: Environment, settings: Settings,
                               teeTickNow: bool, epochBoundary: bool,
                               candidates: seq<Session>, lastEligible: Option<u64>)
    returns (newEligible: Option<u64>, ghost attempt: Attempt, ghost teeEnd: nat, ghost ledger: seq<Visit>)
    requires Inv(Now(manager, escrow), settings.threshold) && AtRest(Now(manager, escrow))
    requires Visitable(candidates, manager.sessions, settings.threshold)
    requires forall i :: 0 <= i < |candidates| ==> candidates[i].securityTier.TeeVerified?
    modifies env, manager, manager.store, escrow
    ensures Inv(Now(manager, escrow), settings.threshold) && AtRest(Now(manager, escrow))
    ensures Grows(old(Now(manager, escrow)), Now(manager, escrow))
    ensures newEligible == NextAnchor(settings.everyNBlocks, attempt, lastEligible)
    ensures TickAccepts(old(Now(manager, escrow)), Now(manager, escrow), settings, teeTickNow, epochBoundary,
                        attempt, lastEligible, teeEnd)
    ensures TickServes(WorldOf(settings, env, escrow), teeTickNow, epochBoundary,
                       old(Now(manager, escrow)), Now(manager, escrow), candidates,
                       lastEligible, attempt, ledger, old(env.position), env.position)
    ensures !epochBoundary && !teeTickNow ==> Now(manager, escrow) == old(Now(manager, escrow))
  {
    hide Inv, Progress, Grows, Visitable, SettledSince, AtRest, TickAccepts, PartsServe;
    ghost var before := Now(manager, escrow);
    GrowsByNothing(before);
    newEligible, attempt, teeEnd, ledger := lastEligible, Attempt(None, false), |escrow.log|, [];
    NothingAccepted(before, before, settings, teeTickNow, epochBoundary, lastEligible);
    if !epochBoundary && !teeTickNow {
      return;
    }
    var ok := CheckOperator(manager, escrow, env, settings);
    ghost var v := Now(manager, escrow);
    RestKept(before, v);
    GrowsOn(before, before, v, None, None);
    NothingAccepted(before, v, settings, teeTickNow, epochBoundary, lastEligible);
    if ok {
      VisitableRest(candidates, before, v, None, None, settings.threshold);
      newEligible, attempt, teeEnd, ledger :=
        SettleBoth(manager, escrow, env, settings, teeTickNow, epochBoundary, candidates, lastEligible, before);
    }
  }

  /** The two parts of a tick, once the operator is checked. */
  method SettleBoth(manager: SessionManager, escrow: SettlementEscrow, env: Environment, settings: Settings,
                    teeTickNow: bool, epochBoundary: bool, candidates: seq<Session>, lastEligible: Option<u64>,
                    ghost before: View)
    returns (newEligible: Option<u64>, ghost attempt: Attempt, ghost teeEnd: nat, ghost ledger: seq<Visit>)
    requires settings.operator == escrow.operator
    requires Inv(Now(manager, escrow), settings.threshold) && AtRest(Now(manager, escrow))
    requires Visitable(candidates, before.inMemory, settings.threshold)
    requires forall i :: 0 <= i < |candidates| ==> candidates[i].securityTier.TeeVerified?
    requires Progress(before, Now(manager, escrow), None, None) && escrow.log == before.accepted
    modifies env, manager, manager.store, escrow
    ensures Inv(Now(manager, escrow), settings.threshold) && AtRest(Now(manager, escrow))
    ensures Grows(before, Now(manager, escrow))
    ensures newEligible == NextAnchor(settings.everyNBlocks, attempt, lastEligible)
    ensures TickAccepts(before, Now(manager, escrow), settings, teeTickNow, epochBoundary,
                        attempt, lastEligible, teeEnd)
    ensures PartsServe(WorldOf(settings, env, escrow), teeTickNow, epochBoundary, before, Now(manager, escrow),
                       candidates, lastEligible, attempt, ledger, old(env.position), env.position)
  {
    hide *;
    ghost var v, p := Now(manager, escrow), env.position;
    ghost var w := WorldOf(settings, env, escrow);
    ghost var first := if teeTickNow && candidates != [] && settings.everyNBlocks > 0 then p + 1 else p;
    GrowsByNothing(before);
    GrowsOn(before, before, v, None, None);
    StaysDoneWaiting(before, v, candidates);
    VisitableRest(candidates, before, v, None, None, settings.threshold);
    newEligible, attempt, ledger :=
      SettleTee(manager, escrow, env, settings, teeTickNow, candidates, lastEligible, before);
    ghost var x, teeLedger := Now(manager, escrow), ledger;
    teeEnd := |escrow.log|;
    GrowsThen(before, v, x);
    StaysDoneThen(before, v, x, candidates);
    TeeAccepted(before, v, x, settings, teeTickNow, epochBoundary, attempt, lastEligible);
    if epochBoundary {
      ledger := SettleBestEffort(manager, escrow, env, settings, before, teeLedger, first);
      GrowsThen(before, x, Now(manager, escrow));
      EpochAccepted(before, x, Now(manager, escrow), settings, teeTickNow, attempt, lastEligible);
      BestEffortStays(w, before, x, candidates, ledger, Now(manager, escrow), settings.threshold);
    }
    if teeTickNow && TeeGateOpen(settings.everyNBlocks, attempt.head, lastEligible) {
      MetAlready(w, candidates, teeLedger, ledger, Now(manager, escrow));
    }
    Serves(w, teeTickNow, epochBoundary, before, Now(manager, escrow), candidates, lastEligible, attempt, ledger,
           p, env.position);
  }

  lemma Serves(w: World, tee: bool, epoch: bool, a: View, b: View, due: seq<Session>,
               last: Option<u64>, attempt: Attempt, ledger: seq<Visit>, p: nat, q: nat)
    requires var wanted := tee && due != [] && w.settings.everyNBlocks > 0;
             && attempt.head == HeadReported(w.script, wanted, p)
             && Ledger(w, a, ledger, b, if wanted then p + 1 else p, q)
    requires tee && TeeGateOpen(w.settings.everyNBlocks, attempt.head, last) ==>
               forall i :: 0 <= i < |due| ==> DueMet(w, due[i], ledger, b)
    requires epoch ==> BestEffortMet(w, a.inMemory, ledger, b)
    ensures PartsServe(w, tee, epoch, a, b, due, last, attempt, ledger, p, q)
  {
  }
}
