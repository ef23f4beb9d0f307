/** Whole runs of a node: ticks in any pattern, other tasks in between, restarts. */
module SettlementRuns {
  import opened Prelude
  import opened Sessions
  import opened Escrow
  import opened SettlementState
  import opened Environments
  import opened SettlementVisit
  import opened BlockCadence
  import opened SettlementTick

  datatype NodeStep =
    | Meanwhile(events: seq<EnvEvent>)
    | Tick(teeTickNow: bool, epochBoundary: bool, events: seq<EnvEvent>)  // events after the candidates were listed
    | RestartNode

  /**
   What is known after each step: the state, where the block anchor stands, and the
   number of the next call; and of a tick what it attempted, whom it had to visit in
   its TEE part, and its visits.
   */
  datatype Point = Point(
    view: View, anchor: Option<u64>, position: nat,
    attempt: Attempt, teeEnd: nat, due: seq<Session>, ledger: seq<Visit>)

  const Idle := Attempt(None, false)

  /** A point at which no tick has just ended. */
  function Quiet(view: View, anchor: Option<u64>, position: nat): Point {
    Point(view, anchor, position, Idle, 0, [], [])
  }

  // ---- What one step does ------------------------------------------------------------------------

  /** One step of a run leads from one point to the next. */
  ghost predicate StepOk(w: World, step: NodeStep, p: Point, q: Point) {
    && Grows(p.view, q.view)
    && match step
       case Meanwhile(_) =>
         && q.view.accepted == p.view.accepted && q.anchor == p.anchor && q.position == p.position && q.attempt == Idle
       case Tick(tee, epoch, _) =>
         && (if tee then Lists(q.due, p.view.inMemory, TeeTouch(w.settings.threshold)) else q.due == [])
         && q.anchor == NextAnchor(w.settings.everyNBlocks, q.attempt, p.anchor)
         && TickAccepts(p.view, q.view, w.settings, tee, epoch, q.attempt, p.anchor, q.teeEnd)
         && TickServes(w, tee, epoch, p.view, q.view, q.due, p.anchor, q.attempt, q.ledger, p.position, q.position)
       case RestartNode =>
         && q.view == p.view.(inMemory := LiveOnly(p.view.stored)) && q.anchor == None && q.position == p.position
         && q.attempt == Idle
  }

  /** The points of a run, the first one before anything happened. */
  ghost predicate IsRun(w: World, steps: seq<NodeStep>, points: seq<Point>) {
    && |points| == |steps| + 1
    && points[0] == Quiet(View(map[], map[], [], [], [], map[], map[], 0), None, 0)
    && (forall i :: 0 <= i < |steps| ==> StepOk(w, steps[i], points[i], points[i + 1]))
  }

  // ---- What holds at every point --------------------------------------------------------------------

  /**
   Usage is reported exactly once: the deltas the contract accepted from this node
   for a session add up to its watermarks, which the live counts bound.
   */
  ghost predicate ReportedOnce(v: View) {
    forall id :: id in v.stored ==>
      && InputSum(v.accepted, id) == v.stored[id].evmInputTokensSynced <= v.stored[id].tokensInput
      && OutputSum(v.accepted, id) == v.stored[id].evmOutputTokensSynced <= v.stored[id].tokensOutput
  }

  /** Accepted partial settlements of a session are rare: each needs max(threshold, 1) further output tokens. */
  ghost predicate PartialsRare(v: View, threshold: nat) {
    forall id :: id in v.stored ==>
      Partials(v.accepted, id) * Max(threshold, 1) <= v.stored[id].evmTeeAnchorTokens <= v.stored[id].tokensOutput
  }

  /**
   Money is conserved and is what was accepted: paid and refunded amounts are the
   sums over the accepted settlements, the provider is never paid more than the
   recorded usage, and at the end it has the smaller of the usage at the final
   read and the opening lock, and the user the rest, however payments were spread.
   */
  ghost predicate Conserved(v: View) {
    forall c :: c in v.chain ==>
      && v.chain[c].paid == Total(v.accepted, c, Paid) && v.chain[c].refunded == Total(v.accepted, c, Refunded)
      && v.chain[c].paid + v.chain[c].refunded + v.chain[c].locked == v.chain[c].opening
      && v.chain[c].paid <= v.chain[c].usage == Total(v.accepted, c, Usage) + Total(v.metered, c, Usage)
      && (v.chain[c].settled <==> v.chain[c].locked == 0)
      && (if v.chain[c].settled
          then c in v.seen && v.chain[c].paid == Min(v.seen[c], v.chain[c].opening) && v.seen[c] <= v.chain[c].usage
          else v.chain[c].refunded == 0)
  }

  /** No other stored session is linked to the same escrow session. */
  ghost predicate OnlyLink(stored: map<Uuid, Session>, id: Uuid) {
    id in stored && forall u :: u in stored && stored[u].evmSessionId == stored[id].evmSessionId ==> u == id
  }

  /**
   The contract's own token counters agree with the node's watermarks: where only
   one session is linked to an escrow session, they are its watermarks plus what
   the router metered.
   */
  ghost predicate CountersMatch(v: View) {
    forall id :: id in v.stored && OnlyLink(v.stored, id)
                 && v.stored[id].evmSessionId.Some? && v.stored[id].evmSessionId.value in v.chain
                 && v.stored[id].tokensInput < U64_LIMIT && v.stored[id].tokensOutput < U64_LIMIT
      ==> var s, c := v.stored[id], v.stored[id].evmSessionId.value;
          && v.chain[c].inputTokens == s.evmInputTokensSynced + Total(v.metered, c, Input)
          && v.chain[c].outputTokens == s.evmOutputTokensSynced + Total(v.metered, c, Output)
  }

  lemma CountersOfInv(v: View, threshold: nat)
    requires Inv(v, threshold) && AtRest(v)
    ensures CountersMatch(v)
  {
    hide Inv, AtRest, Total;
    forall id | id in v.stored && OnlyLink(v.stored, id)
                && v.stored[id].evmSessionId.Some? && v.stored[id].evmSessionId.value in v.chain
                && v.stored[id].tokensInput < U64_LIMIT && v.stored[id].tokensOutput < U64_LIMIT
      ensures var s, c := v.stored[id], v.stored[id].evmSessionId.value;
              && v.chain[c].inputTokens == s.evmInputTokensSynced + Total(v.metered, c, Input)
              && v.chain[c].outputTokens == s.evmOutputTokensSynced + Total(v.metered, c, Output)
    {
      CountersAgree(v, threshold, id, v.stored[id].evmSessionId.value);
    }
  }

  lemma InvMeans(v: View, threshold: nat)
    requires Inv(v, threshold) && AtRest(v)
    ensures ReportedOnce(v) && PartialsRare(v, threshold) && Conserved(v)
  {
    hide Total, InputSum, OutputSum, Partials;
    forall id | id in v.stored ensures SessionOk(v.stored[id], v.accepted, threshold) && v.stored[id].id == id {
    }
    forall c | c in v.chain
      ensures ChainGood(v.chain[c], Seen(v.seen, c)) && SessionBooked(v.chain[c], c, v.accepted, v.metered)
    {
    }
  }

  /**
   The promises of a run. At every point usage is reported exactly once, partial
   settlements are rare, money is conserved and no settlement has been refused; from
   any point to any later one, restarts included, nothing moves back; and within one
   process the anchor advances at heads at least n apart.
   */
  ghost predicate RunSound(w: World, steps: seq<NodeStep>, points: seq<Point>) {
    && (forall i :: 0 <= i < |points| ==>
          && ReportedOnce(points[i].view) && CountersMatch(points[i].view)
          && PartialsRare(points[i].view, w.settings.threshold)
          && Conserved(points[i].view) && points[i].view.reverted == 0)
    && (forall i, j :: 0 <= i <= j < |points| ==> Grows(points[i].view, points[j].view))
    && (w.settings.everyNBlocks > 0 ==> RunSpaced(w, steps, points))
  }

  // ---- Running ----------------------------------------------------------------------------------------

  /** A new process recovers the live records; the store and the chain stay. */
  lemma RestartKeeps(v: View, v': View, threshold: nat)
    requires Inv(v, threshold) && v' == v.(inMemory := LiveOnly(v.stored))
    ensures Inv(v', threshold) && Grows(v, v') && (AtRest(v) ==> AtRest(v'))
  {
    hide ChainsBooked, ChainsGood, Linked, SessionsOk;
  }

  lemma EmptyKeeps(v: View, threshold: nat)
    requires v == View(map[], map[], [], [], [], map[], map[], 0)
    ensures Inv(v, threshold) && AtRest(v)
  {
  }

  lemma OverlaidNothing(b: map<Uuid, Session>)
    ensures Overlaid(map[], b) == b
  {
  }

  lemma StoreIsWritten(v: View, threshold: nat)
    requires Inv(v, threshold)
    ensures WrittenThrough(map[], v.stored)
  {
  }

  method Restarted(store: Store, escrow: SettlementEscrow, ghost before: View, ghost threshold: nat)
    returns (manager: SessionManager)
    requires Inv(before, threshold) && AtRest(before) && before.stored == store.sessions
    requires before == View(before.inMemory, before.stored, escrow.confirmed, escrow.log, escrow.metered,
                            escrow.chain, escrow.seen, escrow.reverted)
    ensures fresh(manager) && manager.store == store
    ensures Inv(Now(manager, escrow), threshold) && AtRest(Now(manager, escrow)) && Grows(before, Now(manager, escrow))
    ensures Now(manager, escrow) == before.(inMemory := LiveOnly(before.stored))
  {
    hide Inv, Grows, AtRest, WrittenThrough;
    manager := new SessionManager(store);
    StoreIsWritten(before, threshold);
    manager.RecoverFromStore();
    OverlaidNothing(LiveOnly(store.sessions));
    RestartKeeps(before, Now(manager, escrow), threshold);
  }

  method RunTick(manager: SessionManager, escrow: SettlementEscrow, env: Environment, settings: Settings,
                 step: NodeStep, lastEligible: Option<u64>)
    returns (newEligible: Option<u64>, ghost q: Point)
    requires step.Tick? && Inv(Now(manager, escrow), settings.threshold) && AtRest(Now(manager, escrow))
    modifies env, manager, manager.store, escrow
    ensures Inv(Now(manager, escrow), settings.threshold) && AtRest(Now(manager, escrow))
    ensures q.view == Now(manager, escrow) && q.anchor == newEligible && q.position == env.position
    ensures StepOk(WorldOf(settings, env, escrow), step,
                   Quiet(old(Now(manager, escrow)), lastEligible, old(env.position)), q)
  {
    hide *;
    ghost var before := Now(manager, escrow);
    InvIsValid(manager, escrow, settings.threshold);
    var candidates := [];
    NobodyIsVisitable(manager.sessions, settings.threshold);
    if step.teeTickNow {
      candidates := manager.TeeTouchCandidates(settings.threshold);
      ListedIsVisitable(candidates, before, TeeTouch(settings.threshold), settings.threshold);
      ListedAreTee(candidates, manager.sessions, settings.threshold);
    }
    Others(manager, escrow, step.events, settings.threshold);
    ghost var v, position := Now(manager, escrow), env.position;
    RestKept(before, v);
    GrowsByNothing(before);
    GrowsOn(before, before, v, None, None);
    VisitableRest(candidates, before, v, None, None, settings.threshold);
    ghost var attempt, teeEnd, ledger;
    newEligible, attempt, teeEnd, ledger :=
      ProcessSettlementTick(manager, escrow, env, settings, step.teeTickNow, step.epochBoundary,
                            candidates, lastEligible);
    GrowsThen(before, v, Now(manager, escrow));
    ServesFrom(WorldOf(settings, env, escrow), step.teeTickNow, step.epochBoundary, before, v, Now(manager, escrow),
               candidates, lastEligible, attempt, ledger, position, env.position);
    q := Point(Now(manager, escrow), newEligible, env.position, attempt, teeEnd, candidates, ledger);
    TickIsStep(WorldOf(settings, env, escrow), step, before, v, lastEligible, position, q);
  }

  lemma ListedAreTee(list: seq<Session>, sessions: map<Uuid, Session>, threshold: nat)
    requires Lists(list, sessions, TeeTouch(threshold))
    ensures forall i :: 0 <= i < |list| ==> list[i].securityTier.TeeVerified?
  {
  }

  /** Between the listing of the candidates and the tick no due session gets lost. */
  lemma ServesFrom(w: World, tee: bool, epoch: bool, start: View, a: View, b: View, due: seq<Session>,
                   last: Option<u64>, attempt: Attempt, ledger: seq<Visit>, p: nat, q: nat)
    requires Progress(start, a, None, None)
    requires TickServes(w, tee, epoch, a, b, due, last, attempt, ledger, p, q)
    ensures TickServes(w, tee, epoch, start, b, due, last, attempt, ledger, p, q)
  {
    hide Progress, Ledger, DueMet, BestEffortMet, StaysDone;
    if (tee || epoch) && Entitled(w.settings, w.operator) && w.script(p).ok {
      LedgerFrom(w, start, a, ledger, b, if tee && due != [] && w.settings.everyNBlocks > 0 then p + 2 else p + 1, q);
      if epoch {
        StaysDoneWaiting(start, a, []);
        BestEffortStays(w, start, a, [], ledger, b, w.settings.threshold);
      }
    }
  }

  lemma TickIsStep(w: World, step: NodeStep, a: View, v: View, last: Option<u64>, position: nat, q: Point)
    requires step.Tick? && v.accepted == a.accepted && Grows(a, q.view)
    requires if step.teeTickNow then Lists(q.due, a.inMemory, TeeTouch(w.settings.threshold)) else q.due == []
    requires TickAccepts(v, q.view, w.settings, step.teeTickNow, step.epochBoundary, q.attempt, last, q.teeEnd)
    requires TickServes(w, step.teeTickNow, step.epochBoundary, a, q.view, q.due, last, q.attempt, q.ledger,
                        position, q.position)
    requires q.anchor == NextAnchor(w.settings.everyNBlocks, q.attempt, last)
    ensures StepOk(w, step, Quiet(a, last, position), q)
  {
    hide Grows, TickServes;
  }

  lemma NobodyIsVisitable(sessions: map<Uuid, Session>, threshold: nat)
    ensures Visitable([], sessions, threshold)
  {
  }

  /** What the step before attempted does not matter. */
  lemma StepFrom(w: World, step: NodeStep, p: Point, q: Point)
    requires StepOk(w, step, Quiet(p.view, p.anchor, p.position), q)
    ensures StepOk(w, step, p, q)
  {
    hide Grows, TickServes, TickAccepts;
  }

  lemma RestartIsStep(w: World, p: Point, v: View)
    requires v == p.view.(inMemory := LiveOnly(p.view.stored)) && Grows(p.view, v)
    ensures StepOk(w, RestartNode, p, Quiet(v, None, p.position))
  {
  }

  lemma WaitIsStep(w: World, events: seq<EnvEvent>, p: Point, v: View)
    requires Progress(p.view, v, None, None) && v.accepted == p.view.accepted
    ensures StepOk(w, Meanwhile(events), p, Quiet(v, p.anchor, p.position))
  {
    GrowsByNothing(p.view);
    GrowsOn(p.view, p.view, v, None, None);
  }

  lemma OnePoint(w: World, start: Point)
    requires start == Quiet(View(map[], map[], [], [], [], map[], map[], 0), None, 0)
    ensures IsRun(w, [], [start])
  {
  }

  lemma OneStep(w: World, steps: seq<NodeStep>, i: nat, points: seq<Point>, q: Point)
    requires i < |steps| && IsRun(w, steps[..i], points) && StepOk(w, steps[i], points[i], q)
    ensures IsRun(w, steps[..i + 1], points + [q])
  {
    hide StepOk;
    var longer, more := steps[..i + 1], points + [q];
    forall k | 0 <= k < |longer| ensures StepOk(w, longer[k], more[k], more[k + 1]) {
      if k < i {
        assert StepOk(w, steps[..i][k], points[k], points[k + 1]);
      }
    }
  }

  lemma IsQuiet(view: View, anchor: Option<u64>, position: nat)
    ensures var q := Quiet(view, anchor, position); q.view == view && q.anchor == anchor && q.position == position
  {
  }

  /** One step; after a restart another session manager is at work. */
  method RunStep(manager: SessionManager, escrow: SettlementEscrow, env: Environment, settings: Settings,
                 step: NodeStep, lastEligible: Option<u64>, ghost p: Point)
    returns (next: SessionManager, newEligible: Option<u64>, ghost q: Point)
    requires Inv(Now(manager, escrow), settings.threshold) && AtRest(Now(manager, escrow))
    requires p.view == Now(manager, escrow) && p.anchor == lastEligible && p.position == env.position
    modifies env, manager, manager.store, escrow
    ensures (next == manager || fresh(next)) && next.store == manager.store
    ensures Inv(Now(next, escrow), settings.threshold) && AtRest(Now(next, escrow))
    ensures q.view == Now(next, escrow) && q.anchor == newEligible && q.position == env.position
    ensures StepOk(WorldOf(settings, env, escrow), step, p, q)
  {
    hide *;
    ghost var w := WorldOf(settings, env, escrow);
    next, newEligible := manager, lastEligible;
    match step {
      case Meanwhile(events) =>
        Others(manager, escrow, events, settings.threshold);
        RestKept(p.view, Now(manager, escrow));
        WaitIsStep(w, events, p, Now(manager, escrow));
        IsQuiet(Now(manager, escrow), lastEligible, env.position);
        q := Quiet(Now(manager, escrow), lastEligible, env.position);
      case Tick(_, _, _) =>
        newEligible, q := RunTick(manager, escrow, env, settings, step, lastEligible);
        StepFrom(w, step, p, q);
      case RestartNode =>
        next := Restarted(manager.store, escrow, p.view, settings.threshold);
        newEligible := None;
        RestartIsStep(w, p, Now(next, escrow));
        IsQuiet(Now(next, escrow), None, env.position);
        q := Quiet(Now(next, escrow), None, env.position);
    }
  }

  /**
   Any run: `points` records the state after every step. Every tick serves whom it
   has to, but for excuses, and knows the chain's heads as reported; and the promises
   of a run hold.
   */
  method RunNode(settings: Settings, operator: Address, operatorOf: ChainId -> Address,
                 script: nat -> Turn, pauses: nat -> Pause, steps: seq<NodeStep>)
    returns (manager: SessionManager, escrow: SettlementEscrow, ghost points: seq<Point>)
    ensures IsRun(World(settings, script, operator, operatorOf), steps, points)
    ensures points[|steps|].view == Now(manager, escrow)
    ensures RunSound(World(settings, script, operator, operatorOf), steps, points)
    ensures forall i :: 0 <= i < |points| ==> Inv(points[i].view, settings.threshold) && AtRest(points[i].view)
  {
    hide *;
    var store := new Store();
    manager := new SessionManager(store);
    escrow := new SettlementEscrow(operator, operatorOf);
    var env := new Environment(script, pauses);
    var lastEligible: Option<u64> := None;
    ghost var w := World(settings, script, operator, operatorOf);
    EmptyKeeps(Now(manager, escrow), settings.threshold);
    points := [Quiet(Now(manager, escrow), None, 0)];
    OnePoint(w, points[0]);
    IsQuiet(Now(manager, escrow), None, 0);
    assert steps[..0] == [];
    for i := 0 to |steps|
      invariant fresh(manager) && fresh(store) && fresh(escrow) && fresh(env) && manager.store == store
      invariant WorldOf(settings, env, escrow) == w
      invariant IsRun(w, steps[..i], points) && |points| == i + 1
      invariant points[i].view == Now(manager, escrow) && points[i].anchor == lastEligible
      invariant points[i].position == env.position
      invariant forall k :: 0 <= k < |points| ==> Inv(points[k].view, settings.threshold) && AtRest(points[k].view)
    {
      ghost var q;
      manager, lastEligible, q := RunStep(manager, escrow, env, settings, steps[i], lastEligible, points[i]);
      OneStep(w, steps, i, points, q);
      points := points + [q];
    }
    assert steps[..|steps|] == steps;
    WholeRun(w, steps, points);
  }

  lemma WholeRun(w: World, steps: seq<NodeStep>, points: seq<Point>)
    requires IsRun(w, steps, points)
    requires forall k :: 0 <= k < |points| ==> Inv(points[k].view, w.settings.threshold) && AtRest(points[k].view)
    ensures RunSound(w, steps, points)
  {
    hide Inv, AtRest, ReportedOnce, CountersMatch, PartialsRare, Conserved, Grows, StepOk, RunSpaced;
    forall i | 0 <= i < |points|
      ensures ReportedOnce(points[i].view) && CountersMatch(points[i].view)
      ensures PartialsRare(points[i].view, w.settings.threshold)
      ensures Conserved(points[i].view) && points[i].view.reverted == 0
    {
      InvMeans(points[i].view, w.settings.threshold);
      CountersOfInv(points[i].view, w.settings.threshold);
      NothingMovesBack(w, steps, points, 0, i);
      SameRefused(points[0].view, points[i].view);
    }
    forall i, j | 0 <= i <= j < |points| ensures Grows(points[i].view, points[j].view) {
      NothingMovesBack(w, steps, points, i, j);
    }
    if w.settings.everyNBlocks > 0 {
      AnchorsOfRun(w, steps, points);
    }
  }

  lemma SameRefused(a: View, b: View)
    requires Grows(a, b)
    ensures b.reverted == a.reverted
  {
  }

  // ---- Whom a tick serves --------------------------------------------------------------------------

  /**
   The tick must see to this session: a due TEE session, when there is no cadence or
   the reported head is far enough from the anchor, or a completed best-effort
   session at an epoch.
   */
  ghost predicate MustServe(w: World, step: NodeStep, p: Point, s: Session) {
    var n := w.settings.everyNBlocks;
    && step.Tick?
    && ((step.teeTickNow && TeeDue(s, w.settings.threshold)
         && (n == 0 || FarEnough(n, Some(ReportedHead(w, p)), p.anchor)))
        || (step.epochBoundary && s.state == SessionState.Completed && s.securityTier == SecurityTier.BestEffort))
  }

  /** The head the chain reports to a tick that starts at this point, if it asks. */
  function ReportedHead(w: World, p: Point): u64 {
    w.script(p.position + 1).head
  }

  /**
   A healthy tick settles what is due: with an entitled node whose calls all succeed,
   a session due at its start that is linked to an escrow session of this node is
   served when the tick ends, settled unless it is streaming, and its provider is
   paid for all the usage on record at the start, as far as the lock goes. The one
   exception is a report the contract cannot book, which takes an overflow.
   */
  lemma DueIsServed(w: World, steps: seq<NodeStep>, points: seq<Point>, k: nat, id: Uuid, c: ChainId)
    requires IsRun(w, steps, points) && k < |steps| && Entitled(w.settings, w.operator)
    requires id in points[k].view.inMemory && MustServe(w, steps[k], points[k], points[k].view.inMemory[id])
    requires points[k].view.inMemory[id].evmSessionId == Some(c)
    requires c in points[k].view.chain && w.operatorOf(c) == w.settings.nodeOperator
    requires !CallFailed(w.script, points[k].position, points[k + 1].position)
    ensures var s, was, q := points[k].view.inMemory[id], points[k].view.chain[c], points[k + 1];
            || (&& Served(q.view, c, !s.state.Active?)
                && (s.state == SessionState.Completed ==> q.view.chain[c].settled && q.view.chain[c].locked == 0)
                && (was.settled || q.view.chain[c].paid >= Min(was.usage, was.opening)))
            || (!w.settings.skipRecordUsage && exists j :: 0 <= j < |q.ledger| && CannotBook(w, q.ledger[j], c))
  {
    hide Grows, TickAccepts, Ledger, Served, Unbookable, CallFailed, TeeDue, FarEnough, Excused, IsRun, Inv;
    StepOfRun(w, steps, points, k);
    var p, q, s := points[k], points[k + 1], points[k].view.inMemory[id];
    TickIsMet(w, steps[k], p, q, id);
    if j :| 0 <= j < |q.ledger| && q.ledger[j].session.evmSessionId == Some(c) && VisitExcused(w, q.ledger[j]) {
      OnlyOverflow(w, steps[k], p, q, j, c);
    } else {
      EndInv(w, steps[k], p, q);
      ServedPays(q.view, c, !s.state.Active?, w.settings.threshold);
      if !p.view.chain[c].settled {
        PaidUp(w, steps[k], p, q, s, c);
      }
    }
  }

  lemma ServedPays(v: View, c: ChainId, atEnd: bool, threshold: nat)
    requires Served(v, c, atEnd) && Inv(v, threshold)
    ensures c in v.chain && c in v.seen && v.chain[c].paid == Min(v.seen[c], v.chain[c].opening)
    ensures atEnd ==> v.chain[c].settled && v.chain[c].locked == 0
  {
    NowOk(v, c, threshold);
  }

  lemma EndInv(w: World, step: NodeStep, p: Point, q: Point)
    requires step.Tick?
    requires PartsServe(w, step.teeTickNow, step.epochBoundary, p.view, q.view, q.due, p.anchor, q.attempt, q.ledger,
                        p.position + 1, q.position)
    ensures Inv(q.view, w.settings.threshold)
  {
    hide Inv, DueMet, BestEffortMet, TeeGateOpen;
  }

  lemma PaidUp(w: World, step: NodeStep, p: Point, q: Point, s: Session, c: ChainId)
    requires step.Tick? && Visited(s, q.ledger) && s.evmSessionId == Some(c)
    requires PartsServe(w, step.teeTickNow, step.epochBoundary, p.view, q.view, q.due, p.anchor, q.attempt, q.ledger,
                        p.position + 1, q.position)
    requires c in p.view.chain && !p.view.chain[c].settled
    requires forall j :: 0 <= j < |q.ledger| && q.ledger[j].session.evmSessionId == Some(c) ==>
               !VisitExcused(w, q.ledger[j])
    ensures c in q.view.chain && q.view.chain[c].opening == p.view.chain[c].opening
    ensures c in q.view.seen && q.view.seen[c] >= p.view.chain[c].usage
  {
    hide DueMet, BestEffortMet, TeeGateOpen, Ledger, VisitExcused, Grows;
    var first := if step.teeTickNow && q.due != [] && w.settings.everyNBlocks > 0
                 then p.position + 2 else p.position + 1;
    Within(w, p.view, q.ledger, q.view, first, q.position);
    UsageGrows(p.view, q.view, c);
    PaidFor(w, p.view, q.ledger, q.view, first, q.position, c);
  }

  lemma StepOfRun(w: World, steps: seq<NodeStep>, points: seq<Point>, k: nat)
    requires IsRun(w, steps, points) && k < |steps|
    ensures |points| == |steps| + 1 && StepOk(w, steps[k], points[k], points[k + 1])
  {
  }

  /** A tick whose calls all succeed gets as far as the sessions that are due. */
  lemma TickIsMet(w: World, step: NodeStep, p: Point, q: Point, id: Uuid)
    requires StepOk(w, step, p, q) && Entitled(w.settings, w.operator)
    requires id in p.view.inMemory && MustServe(w, step, p, p.view.inMemory[id])
    requires !CallFailed(w.script, p.position, q.position)
    ensures DueMet(w, p.view.inMemory[id], q.ledger, q.view)
    ensures PartsServe(w, step.teeTickNow, step.epochBoundary, p.view, q.view, q.due, p.anchor, q.attempt, q.ledger,
                       p.position + 1, q.position)
  {
    hide Grows, TickAccepts, Ledger, Met, Visited, Chosen, TeeDue, FarEnough, TeeGateOpen;
    FirstCalls(w, step, p, q);
    var s := p.view.inMemory[id];
    var n := w.settings.everyNBlocks;
    TeeTouchIff(s, w.settings.threshold);
    if step.teeTickNow && TeeDue(s, w.settings.threshold)
       && (n == 0 || FarEnough(n, Some(ReportedHead(w, p)), p.anchor))
    {
      var i :| 0 <= i < |q.due| && q.due[i] == s;
      GateIff(n, q.attempt.head, p.anchor);
      assert DueMet(w, q.due[i], q.ledger, q.view);
    } else {
      BestEffortIff(s);
      assert DueMet(w, s, q.ledger, q.view);
    }
  }

  lemma BestEffortIff(s: Session)
    ensures Chosen(BestEffortDone, s) <==>
              s.state == SessionState.Completed && s.securityTier == SecurityTier.BestEffort
  {
  }

  /**
   A tick holds its TEE part back while the cadence is not over: if the head call
   fails, or reports a head that is not far enough from the anchor, the contract
   accepts nothing in that part and the anchor stays.
   */
  lemma HeldBack(w: World, steps: seq<NodeStep>, points: seq<Point>, k: nat)
    requires IsRun(w, steps, points) && k < |steps| && steps[k].Tick? && w.settings.everyNBlocks > 0
    requires !w.script(points[k].position + 1).ok
             || !FarEnough(w.settings.everyNBlocks, Some(ReportedHead(w, points[k])), points[k].anchor)
    ensures points[k + 1].anchor == points[k].anchor && points[k + 1].teeEnd == |points[k].view.accepted|
    ensures !steps[k].epochBoundary ==> points[k + 1].view.accepted == points[k].view.accepted
  {
    hide IsRun, StepOk;
    StepOfRun(w, steps, points, k);
    TeeHeldBack(w, steps[k], points[k], points[k + 1]);
  }

  lemma TeeHeldBack(w: World, step: NodeStep, p: Point, q: Point)
    requires StepOk(w, step, p, q) && step.Tick? && w.settings.everyNBlocks > 0
    requires !w.script(p.position + 1).ok
             || !FarEnough(w.settings.everyNBlocks, Some(ReportedHead(w, p)), p.anchor)
    ensures q.anchor == p.anchor && q.teeEnd == |p.view.accepted|
    ensures !step.epochBoundary ==> q.view.accepted == p.view.accepted
  {
    hide Grows, Ledger, BestEffortMet, DueMet, SettledSince, TeeGateOpen, FarEnough;
    GateIff(w.settings.everyNBlocks, q.attempt.head, p.anchor);
    if q.attempt.head.Some? {
      HeadIsReported(w, step, p, q);
    } else {
      NoHead(w.settings.everyNBlocks, p.anchor);
    }
  }

  lemma NoHead(n: u64, last: Option<u64>)
    ensures !FarEnough(n, None, last)
  {
  }

  /** The operator call of a tick whose calls all succeed, and its head call. */
  lemma FirstCalls(w: World, step: NodeStep, p: Point, q: Point)
    requires StepOk(w, step, p, q) && step.Tick? && (step.teeTickNow || step.epochBoundary)
    requires Entitled(w.settings, w.operator) && !CallFailed(w.script, p.position, q.position)
    ensures PartsServe(w, step.teeTickNow, step.epochBoundary, p.view, q.view, q.due, p.anchor, q.attempt, q.ledger,
                       p.position + 1, q.position)
    ensures step.teeTickNow && q.due != [] && w.settings.everyNBlocks > 0 ==>
              q.attempt.head == Some(ReportedHead(w, p))
  {
    hide Grows, TickAccepts, DueMet, BestEffortMet, TeeGateOpen, Ledger, CallFailed;
    var wanted := step.teeTickNow && q.due != [] && w.settings.everyNBlocks > 0;
    if w.script(p.position).ok {
      Within(w, p.view, q.ledger, q.view, if wanted then p.position + 2 else p.position + 1, q.position);
    }
    CallOk(w.script, p.position, q.position, p.position);
    if wanted {
      CallOk(w.script, p.position, q.position, p.position + 1);
    }
  }

  lemma CallOk(script: nat -> Turn, p: nat, q: nat, k: nat)
    requires !CallFailed(script, p, q) && p <= k < q
    ensures script(k).ok
  {
  }

  /** Without failed calls, a visit to a known escrow session of this node has one excuse left. */
  lemma OnlyOverflow(w: World, step: NodeStep, p: Point, q: Point, j: nat, c: ChainId)
    requires step.Tick? && j < |q.ledger| && q.ledger[j].session.evmSessionId == Some(c)
    requires VisitExcused(w, q.ledger[j]) && c in p.view.chain && w.operatorOf(c) == w.settings.nodeOperator
    requires !CallFailed(w.script, p.position, q.position)
    requires PartsServe(w, step.teeTickNow, step.epochBoundary, p.view, q.view, q.due, p.anchor, q.attempt, q.ledger,
                        p.position + 1, q.position)
    ensures !w.settings.skipRecordUsage && CannotBook(w, q.ledger[j], c)
  {
    hide DueMet, BestEffortMet, TeeGateOpen, Ledger, Unbookable, MovesOn, CallFailed;
    var wanted := step.teeTickNow && q.due != [] && w.settings.everyNBlocks > 0;
    Within(w, p.view, q.ledger, q.view, if wanted then p.position + 2 else p.position + 1, q.position);
    var v := q.ledger[j];
    CallsThen(w.script, p.position, v.from, q.position);
    CallsThen(w.script, v.from, v.to, q.position);
  }

  /** The last call of a visit for this escrow session sent a report that overflows. */
  ghost predicate CannotBook(w: World, v: Visit, c: ChainId) {
    && v.session.evmSessionId == Some(c) && v.from < v.to
    && Unbookable(v.after, c, v.session, w.script(v.to - 1).rates)
  }

  // ---- From one point of a run to another ------------------------------------------------------------

  /** Over any stretch of a run, ticks, other tasks and restarts included, nothing moves back. */
  lemma {:induction false} NothingMovesBack(w: World, steps: seq<NodeStep>, points: seq<Point>, i: nat, j: nat)
    requires IsRun(w, steps, points) && i <= j < |points|
    ensures Grows(points[i].view, points[j].view)
    decreases j
  {
    hide Grows, StepOk;
    if i == j {
      GrowsByNothing(points[i].view);
    } else {
      NothingMovesBack(w, steps, points, i, j - 1);
      StepGrows(w, steps[j - 1], points[j - 1], points[j]);
      GrowsThen(points[i].view, points[j - 1].view, points[j].view);
    }
  }

  lemma StepGrows(w: World, step: NodeStep, p: Point, q: Point)
    requires StepOk(w, step, p, q)
    ensures Grows(p.view, q.view)
  {
  }

  /** Step k moved the anchor, at the head of its attempt. */
  ghost predicate AdvancesAt(n: u64, steps: seq<NodeStep>, points: seq<Point>, k: nat)
    requires k < |steps| && |points| == |steps| + 1
  {
    steps[k].Tick? && Advances(n, points[k + 1].attempt, points[k].anchor)
  }

  /**
   Two advances of one process happen at reported heads at least n blocks apart, as
   long as heads stay below the last block.
   */
  ghost predicate RunSpaced(w: World, steps: seq<NodeStep>, points: seq<Point>) {
    |points| == |steps| + 1 &&
    forall i, j :: 0 <= i < j < |steps| && OneProcess(steps, i, j) && HeadsBelow(points)
                   && AdvancesAt(w.settings.everyNBlocks, steps, points, i)
                   && AdvancesAt(w.settings.everyNBlocks, steps, points, j)
      ==> ReportedHead(w, points[j]) >= ReportedHead(w, points[i]) + w.settings.everyNBlocks
  }

  ghost predicate OneProcess(steps: seq<NodeStep>, i: nat, j: nat) {
    forall k :: i < k < j && k < |steps| ==> !steps[k].RestartNode?
  }

  ghost predicate HeadsBelow(points: seq<Point>) {
    forall k :: 0 <= k < |points| && points[k].attempt.head.Some? ==> points[k].attempt.head.value < LAST_BLOCK
  }

  lemma AnchorsOfRun(w: World, steps: seq<NodeStep>, points: seq<Point>)
    requires IsRun(w, steps, points) && w.settings.everyNBlocks > 0
    ensures RunSpaced(w, steps, points)
  {
    hide StepOk, ReportedHead;
    var n := w.settings.everyNBlocks;
    forall i, j | 0 <= i < j < |steps| && OneProcess(steps, i, j) && HeadsBelow(points)
                  && AdvancesAt(n, steps, points, i) && AdvancesAt(n, steps, points, j)
      ensures ReportedHead(w, points[j]) >= ReportedHead(w, points[i]) + n
    {
      AnchorStays(w, steps, points, i, j);
      HeadIsReported(w, steps[i], points[i], points[i + 1]);
      HeadIsReported(w, steps[j], points[j], points[j + 1]);
    }
  }

  /** A head that a tick knows is the one the chain reported to it. */
  lemma HeadIsReported(w: World, step: NodeStep, p: Point, q: Point)
    requires StepOk(w, step, p, q) && q.attempt.head.Some?
    ensures q.attempt.head == Some(ReportedHead(w, p))
  {
    hide Grows, TickAccepts, Ledger, BestEffortMet, DueMet;
  }

  /** Until the process ends, the anchor stays at or above a head it has moved to. */
  lemma {:induction false} AnchorStays(w: World, steps: seq<NodeStep>, points: seq<Point>, i: nat, j: nat)
    requires IsRun(w, steps, points) && w.settings.everyNBlocks > 0 && i < j <= |steps|
    requires AdvancesAt(w.settings.everyNBlocks, steps, points, i) && OneProcess(steps, i, j) && HeadsBelow(points)
    ensures points[j].anchor.Some? && points[j].anchor.value >= points[i + 1].attempt.head.value
    decreases j
  {
    hide StepOk;
    AnchorStep(w, steps[j - 1], points[j - 1], points[j]);
    if j > i + 1 {
      assert OneProcess(steps, i, j - 1);
      AnchorStays(w, steps, points, i, j - 1);
    }
  }

  /** The attempts of the steps from a to b. */
  function AttemptsOf(points: seq<Point>, a: nat, b: nat): (run: seq<Attempt>)
    requires a <= b < |points|
    ensures |run| == b - a && forall k :: 0 <= k < b - a ==> run[k] == points[a + 1 + k].attempt
  {
    seq(b - a, k requires 0 <= k < b - a => points[a + 1 + k].attempt)
  }

  /** A process starts at point a and has not ended before point b. */
  ghost predicate ProcessFrom(steps: seq<NodeStep>, points: seq<Point>, a: nat, b: nat) {
    a <= b < |points| && |points| == |steps| + 1 && points[a].anchor == None
    && forall k :: a <= k < b ==> !steps[k].RestartNode?
  }

  /** Only a tick moves the anchor, and a restart forgets it. */
  lemma AnchorStep(w: World, step: NodeStep, p: Point, q: Point)
    requires StepOk(w, step, p, q)
    ensures q.anchor == if step.RestartNode? then None else NextAnchor(w.settings.everyNBlocks, q.attempt, p.anchor)
  {
    hide Grows, TickAccepts, TickServes;
  }

  /** The anchor of a process is the one its ticks lead to. */
  lemma {:induction false} AnchorOfProcess(w: World, steps: seq<NodeStep>, points: seq<Point>, a: nat, b: nat)
    requires IsRun(w, steps, points) && ProcessFrom(steps, points, a, b)
    ensures points[b].anchor == AnchorAfter(w.settings.everyNBlocks, AttemptsOf(points, a, b))
    decreases b
  {
    hide StepOk;
    if a < b {
      AnchorOfProcess(w, steps, points, a, b - 1);
      AnchorStep(w, steps[b - 1], points[b - 1], points[b]);
      var run := AttemptsOf(points, a, b);
      assert run[..|run| - 1] == AttemptsOf(points, a, b - 1);
      assert run[|run| - 1] == points[b].attempt;
    }
  }

  /** Any window of blocks sees at most width / n + 1 advancing ticks of a process, at reported heads. */
  lemma WindowOfRun(w: World, steps: seq<NodeStep>, points: seq<Point>, a: nat, b: nat, lo: int, width: nat)
    requires IsRun(w, steps, points) && ProcessFrom(steps, points, a, b)
    requires w.settings.everyNBlocks > 0 && HeadsBelow(points)
    ensures var run := AttemptsOf(points, a, b);
            && points[b].anchor == AnchorAfter(w.settings.everyNBlocks, run)
            && |set h | h in Anchors(w.settings.everyNBlocks, run) && lo <= h <= lo + width|
               <= width / w.settings.everyNBlocks + 1
    ensures forall k :: a <= k < b && points[k + 1].attempt.head.Some? ==>
              points[k + 1].attempt.head.value == ReportedHead(w, points[k])
  {
    hide StepOk, Anchors, AnchorAfter, ReportedHead;
    AnchorOfProcess(w, steps, points, a, b);
    BelowOf(points, a, b);
    WindowBound(w.settings.everyNBlocks, AttemptsOf(points, a, b), lo, width);
    forall k | a <= k < b && points[k + 1].attempt.head.Some?
      ensures points[k + 1].attempt.head.value == ReportedHead(w, points[k])
    {
      HeadIsReported(w, steps[k], points[k], points[k + 1]);
    }
  }

  lemma BelowOf(points: seq<Point>, a: nat, b: nat)
    requires a <= b < |points| && HeadsBelow(points)
    ensures BelowLastBlock(AttemptsOf(points, a, b))
  {
  }

  /** An advance of the run is a tick of the TEE part that settled something, seen in what the contract accepted. */
  lemma AdvanceSettled(w: World, steps: seq<NodeStep>, points: seq<Point>, k: nat)
    requires IsRun(w, steps, points) && k < |steps|
    ensures AdvancesAt(w.settings.everyNBlocks, steps, points, k) ==>
              && steps[k].teeTickNow && SettledSince(points[k + 1].view.accepted, |points[k].view.accepted|)
              && points[k + 1].anchor == points[k + 1].attempt.head == Some(ReportedHead(w, points[k]))
  {
    hide StepOk, SettledSince;
    if AdvancesAt(w.settings.everyNBlocks, steps, points, k) {
      HeadIsReported(w, steps[k], points[k], points[k + 1]);
      AdvanceAccepted(w, steps[k], points[k], points[k + 1]);
    }
  }

  lemma AdvanceAccepted(w: World, step: NodeStep, p: Point, q: Point)
    requires StepOk(w, step, p, q) && step.Tick? && Advances(w.settings.everyNBlocks, q.attempt, p.anchor)
    ensures step.teeTickNow && q.anchor == q.attempt.head
    ensures SettledSince(q.view.accepted, |p.view.accepted|)
  {
    hide Grows, TickServes;
    var a, b, end := p.view.accepted, q.view.accepted, q.teeEnd;
    var i :| |a| <= i < end && !b[..end][i].Recorded?;
    assert b[i] == b[..end][i];
  }

  // ---- The contract's token counters -----------------------------------------------------------------

  lemma CountersAgree(v: View, threshold: nat, id: Uuid, c: ChainId)
    requires Inv(v, threshold) && AtRest(v) && id in v.stored && c in v.chain
    requires OnlyLink(v.stored, id) && v.stored[id].evmSessionId == Some(c)
    requires v.stored[id].tokensInput < U64_LIMIT && v.stored[id].tokensOutput < U64_LIMIT
    ensures v.chain[c].inputTokens == v.stored[id].evmInputTokensSynced + Total(v.metered, c, Input)
    ensures v.chain[c].outputTokens == v.stored[id].evmOutputTokensSynced + Total(v.metered, c, Output)
  {
    assert SessionOk(v.stored[id], v.accepted, threshold) && SessionBooked(v.chain[c], c, v.accepted, v.metered);
    forall i | 0 <= i < |v.accepted|
      ensures !v.accepted[i].Metered? && (v.accepted[i].chain == c <==> v.accepted[i].id == id)
    {
      assert v.accepted[i].id in v.stored;
    }
    SumsAgree(v.accepted, id, c);
  }

  lemma {:induction false} SumsAgree(log: seq<Entry>, id: Uuid, c: ChainId)
    requires forall i :: 0 <= i < |log| ==> !log[i].Metered? && (log[i].chain == c <==> log[i].id == id)
    requires InputSum(log, id) < U64_LIMIT && OutputSum(log, id) < U64_LIMIT
    ensures Total(log, c, Input) == InputSum(log, id) && Total(log, c, Output) == OutputSum(log, id)
  {
    if log != [] {
      SumsAgree(log[..|log| - 1], id, c);
    }
  }
}
