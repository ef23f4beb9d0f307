/** The promises of the admission limiter, for every interleaving of its callers. */
module AdmissionTheorems {
  import opened Prelude
  import opened Admission
  import opened AdmissionSafety

  /** The counters are exact and bounded. */
  lemma CountersExact(cfg: Config, s: State, m: Model)
    requires Reachable(cfg, s) && m in s.slots
    ensures s.slots[m] in s.heap
    ensures var slot := s.heap[s.slots[m]];
            && slot.active == |set t | t in s.callers && s.callers[t].model == m && s.callers[t].pc.Holding?|
            && slot.active <= cfg(m).concurrency
            && slot.queued == |Callers(s, m, WaitingK)| <= cfg(m).maxQueue
  {
    ReachableInv(cfg, s);
    assert ModelOk(cfg, s, m);
    assert Callers(s, m, HoldingK) == set t | t in s.callers && s.callers[t].model == m && s.callers[t].pc.Holding?;
  }

  /**
   A caller that has seen a full model, or waits, is never left alone: a guard is
   live, or a release has yet to notify, or a notified caller has yet to re-check,
   or a permit is stored, and a stored permit finds nobody parked.
   */
  lemma NoStrandedWaiter(cfg: Config, s: State, m: Model)
    requires Reachable(cfg, s) && m in s.slots
    ensures s.slots[m] in s.heap
    ensures Callers(s, m, ObservedFullK) != {} ==>
              || s.heap[s.slots[m]].active >= 1
              || Callers(s, m, ReleasingK) != {}
              || Callers(s, m, WokenK) != {}
              || s.heap[s.slots[m]].permit
    ensures s.heap[s.slots[m]].permit ==> Callers(s, m, ParkedK) == {}
  {
    ReachableInv(cfg, s);
    assert ModelOk(cfg, s, m);
  }

  /** Behind every parked caller there is another caller of the model that will notify or take over. */
  lemma ParkedCallerHasHelp(cfg: Config, s: State, t: CallerId) returns (u: CallerId)
    requires Reachable(cfg, s) && t in s.callers && s.callers[t].pc.Parked?
    ensures u != t && u in s.callers && s.callers[u].model == s.callers[t].model
    ensures var pc := s.callers[u].pc; pc.Holding? || IsKind(pc, ReleasingK) || IsKind(pc, WokenK)
  {
    hide Reachable;
    var m := s.callers[t].model;
    ReachableInv(cfg, s);
    assert CallerOk(cfg, s, t);
    NoStrandedWaiter(cfg, s, m);
    assert t in Callers(s, m, ParkedK) && t in Callers(s, m, ObservedFullK);
    if s.heap[s.slots[m]].active >= 1 {
      assert ModelOk(cfg, s, m);
      u :| u in Callers(s, m, HoldingK);
    } else if Callers(s, m, ReleasingK) != {} {
      u :| u in Callers(s, m, ReleasingK);
    } else {
      u :| u in Callers(s, m, WokenK);
    }
  }

  /** No decrement finds a zero counter and no increment overflows: both counters move by exactly one. */
  lemma NoWrapAround(cfg: Config, s: State, t: CallerId)
    requires Reachable(cfg, s) && Enabled(cfg, s, Step(t, Go))
    ensures s.callers[t].model in s.slots && s.slots[s.callers[t].model] in s.heap
    ensures var s' := Apply(cfg, s, Step(t, Go)); var id := s.slots[s.callers[t].model];
            id in s'.heap &&
            var (before, after) := (s.heap[id], s'.heap[id]);
            (match s.callers[t].pc
             case Holding => after.active == before.active - 1 && after.queued == before.queued
             case CasActive(_, _) => after.active == before.active + 1 && after.queued == before.queued
             case CasQueued(_, _) => after.queued == before.queued + 1 && after.active == before.active
             case Awake => after.queued == before.queued - 1 && after.active == before.active
             case TimedOut => after.queued == before.queued - 1 && after.active == before.active
             case _ => after.active == before.active && after.queued == before.queued)
  {
    ReachableInv(cfg, s);
    var id, next := OwnStep(cfg, s, t, Go);
    NotZero(cfg, s, t);
    assert CallerOk(cfg, s, t);
  }

  /** Racing first calls for a model share one slot, and different models never do. */
  lemma OneSlotPerModel(cfg: Config, s: State, t: CallerId, u: CallerId)
    requires Reachable(cfg, s) && t in s.callers && u in s.callers
    requires UsesSlot(s.callers[t].pc) && UsesSlot(s.callers[u].pc)
    ensures s.callers[t].slot == s.callers[u].slot <==> s.callers[t].model == s.callers[u].model
  {
    ReachableInv(cfg, s);
    assert CallerOk(cfg, s, t) && CallerOk(cfg, s, u);
  }

  /** The slot after the first i events of a run. */
  ghost predicate SlotWas(cfg: Config, run: seq<Event>, i: nat, id: SlotId, slot: Slot) {
    i <= |run| && Exec(cfg, Initial, run[..i]).Some?
    && id in Exec(cfg, Initial, run[..i]).value.heap && Exec(cfg, Initial, run[..i]).value.heap[id] == slot
  }

  /** At some time of the run the active counter had this value. */
  ghost predicate ActiveWas(cfg: Config, run: seq<Event>, id: SlotId, active: u32) {
    exists i: nat, slot :: SlotWas(cfg, run, i, id, slot) && slot.active == active
  }

  /** At some time it did, and then, or later, the queue counter had that one. */
  ghost predicate FullWas(cfg: Config, run: seq<Event>, id: SlotId, active: u32, queued: u32) {
    exists i: nat, j: nat, a, b ::
      SlotWas(cfg, run, i, id, a) && SlotWas(cfg, run, j, id, b) && i <= j && a.active == active && b.queued == queued
  }

  /** What a caller remembers of the counters is what they were. */
  ghost predicate Remembers(cfg: Config, run: seq<Event>, c: Caller) {
    match c.pc
    case LoadQueued(active) => ActiveWas(cfg, run, c.slot, active)
    case CasQueued(active, queued) => FullWas(cfg, run, c.slot, active, queued)
    case Refused(QueueFull(active, _, queued)) => FullWas(cfg, run, c.slot, active, queued)
    case _ => true
  }

  lemma SlotWasLonger(cfg: Config, run: seq<Event>, e: Event, i: nat, id: SlotId, slot: Slot)
    requires SlotWas(cfg, run, i, id, slot)
    ensures SlotWas(cfg, run + [e], i, id, slot)
  {
    assert (run + [e])[..i] == run[..i];
  }

  lemma RemembersLonger(cfg: Config, run: seq<Event>, e: Event, c: Caller)
    requires Remembers(cfg, run, c)
    ensures Remembers(cfg, run + [e], c)
  {
    hide SlotWas;
    match c.pc
    case LoadQueued(active) =>
      var i: nat, slot :| SlotWas(cfg, run, i, c.slot, slot) && slot.active == active;
      SlotWasLonger(cfg, run, e, i, c.slot, slot);
    case CasQueued(active, queued) => FullLonger(cfg, run, e, c.slot, active, queued);
    case Refused(QueueFull(active, _, queued)) => FullLonger(cfg, run, e, c.slot, active, queued);
    case _ =>
  }

  lemma FullLonger(cfg: Config, run: seq<Event>, e: Event, id: SlotId, active: u32, queued: u32)
    requires FullWas(cfg, run, id, active, queued)
    ensures FullWas(cfg, run + [e], id, active, queued)
  {
    hide SlotWas;
    var i: nat, j: nat, a, b :|
      SlotWas(cfg, run, i, id, a) && SlotWas(cfg, run, j, id, b) && i <= j && a.active == active && b.queued == queued;
    SlotWasLonger(cfg, run, e, i, id, a);
    SlotWasLonger(cfg, run, e, j, id, b);
  }

  /** What a caller can come to remember by one step of its own. */
  lemma LocalMemory(limits: Limits, id: SlotId, l: Local, act: Act)
    requires LocalEnabled(l, act)
    ensures match LocalStep(limits, id, l, act).pc
            case LoadQueued(active) => active == l.slot.active
            case CasQueued(active, queued) => l.pc == LoadQueued(active) && queued == l.slot.queued
            case Refused(QueueFull(active, _, queued)) => l.pc == LoadQueued(active) && queued == l.slot.queued
            case _ => true
  {
  }

  /** The caller's own step: what it now remembers is what it read just then, besides what it remembered before. */
  lemma OwnStepRemembers(cfg: Config, run: seq<Event>, s: State, t: CallerId, act: Act)
    requires Exec(cfg, Initial, run) == Some(s) && Enabled(cfg, s, Step(t, act)) && Remembers(cfg, run, s.callers[t])
    ensures Remembers(cfg, run, Apply(cfg, s, Step(t, act)).callers[t])
  {
    hide Exec, LocalStep, LocalEnabled, SlotWas, FullWas, ActiveWas;
    var c := s.callers[t];
    var id := SlotOf(s, t).value;
    var slot := s.heap[id];
    var next := LocalStep(cfg(c.model), id, Local(slot, c.pc), act);
    LocalMemory(cfg(c.model), id, Local(slot, c.pc), act);
    NowIs(cfg, run, s, id);
    match next.pc
    case LoadQueued(active) => SeesActive(cfg, run, id, slot);
    case CasQueued(active, queued) =>
      Ready(cfg, s, t);
      SeesFull(cfg, run, id, active, slot);
    case Refused(QueueFull(active, _, queued)) =>
      Ready(cfg, s, t);
      SeesFull(cfg, run, id, active, slot);
    case _ =>
  }

  lemma NowIs(cfg: Config, run: seq<Event>, s: State, id: SlotId)
    requires Exec(cfg, Initial, run) == Some(s) && id in s.heap
    ensures SlotWas(cfg, run, |run|, id, s.heap[id]) && Reachable(cfg, s)
  {
    assert run[..|run|] == run;
  }

  lemma SeesActive(cfg: Config, run: seq<Event>, id: SlotId, now: Slot)
    requires SlotWas(cfg, run, |run|, id, now)
    ensures ActiveWas(cfg, run, id, now.active)
  {
  }

  lemma SeesFull(cfg: Config, run: seq<Event>, id: SlotId, active: u32, now: Slot)
    requires ActiveWas(cfg, run, id, active) && SlotWas(cfg, run, |run|, id, now)
    ensures FullWas(cfg, run, id, active, now.queued)
  {
    hide SlotWas;
    var i: nat, a :| SlotWas(cfg, run, i, id, a) && a.active == active;
    InRange(cfg, run, i, id, a);
  }

  lemma InRange(cfg: Config, run: seq<Event>, i: nat, id: SlotId, slot: Slot)
    requires SlotWas(cfg, run, i, id, slot)
    ensures i <= |run|
  {
  }

  lemma StepRemembers(cfg: Config, run: seq<Event>, s: State, e: Event, t: CallerId)
    requires Exec(cfg, Initial, run) == Some(s) && Enabled(cfg, s, e) && t in Apply(cfg, s, e).callers
    requires t in s.callers ==> Remembers(cfg, run, s.callers[t])
    ensures Remembers(cfg, run, Apply(cfg, s, e).callers[t])
  {
    hide Exec, FullWas, ActiveWas;
    if t in s.callers && Actor(e) != t {
      OthersLeave(cfg, s, t, e);
    } else if e.Step? {
      OwnStepRemembers(cfg, run, s, t, e.act);
    }
  }

  lemma {:induction false} RunRemembers(cfg: Config, run: seq<Event>, s: State, t: CallerId)
    requires Exec(cfg, Initial, run) == Some(s) && t in s.callers
    ensures Remembers(cfg, run, s.callers[t])
    decreases |run|
  {
    hide Remembers;
    if run == [] {
      assert false;
    } else {
      var front, e := run[..|run| - 1], run[|run| - 1];
      assert run == front + [e];
      LastStep(cfg, front, e);
      var before := Exec(cfg, Initial, front).value;
      if t in before.callers {
        RunRemembers(cfg, front, before, t);
      }
      StepRemembers(cfg, front, before, e, t);
      RemembersLonger(cfg, front, e, s.callers[t]);
    }
  }

  /** A run that goes through goes through up to its last step. */
  lemma LastStep(cfg: Config, front: seq<Event>, e: Event)
    requires Exec(cfg, Initial, front + [e]).Some?
    ensures Exec(cfg, Initial, front).Some? && Enabled(cfg, Exec(cfg, Initial, front).value, e)
    ensures Exec(cfg, Initial, front + [e]) == Some(Apply(cfg, Exec(cfg, Initial, front).value, e))
  {
    Splits(cfg, Initial, front, e);
  }

  lemma {:induction false} Splits(cfg: Config, s: State, front: seq<Event>, e: Event)
    requires Exec(cfg, s, front + [e]).Some?
    ensures Exec(cfg, s, front).Some? && Enabled(cfg, Exec(cfg, s, front).value, e)
    ensures Exec(cfg, s, front + [e]) == Some(Apply(cfg, Exec(cfg, s, front).value, e))
    decreases |front|
  {
    if front == [] {
      assert [e][1..] == [];
    } else {
      assert (front + [e])[1..] == front[1..] + [e];
      Splits(cfg, Apply(cfg, s, front[0]), front[1..], e);
    }
  }

  /**
   A caller is turned away at once only after the model was full: at some time of
   the run every slot was taken, and then or later every queue place.
   */
  lemma RefusedOnlyWhenFull(cfg: Config, run: seq<Event>, s: State, t: CallerId)
    requires Exec(cfg, Initial, run) == Some(s)
    requires t in s.callers && s.callers[t].pc.Refused? && s.callers[t].pc.error.QueueFull?
    ensures var e := s.callers[t].pc.error; var limits := cfg(s.callers[t].model);
            && e.concurrency == limits.concurrency <= e.active && limits.maxQueue <= e.queued
            && FullWas(cfg, run, s.callers[t].slot, e.active, e.queued)
  {
    hide FullWas;
    assert Reachable(cfg, s);
    ReachableInv(cfg, s);
    assert CallerOk(cfg, s, t);
    RunRemembers(cfg, run, s, t);
  }

  /** Only a parked caller waits: every other unfinished caller has a possible step. */
  lemma NeverStuck(cfg: Config, s: State, t: CallerId) returns (e: Event)
    requires Reachable(cfg, s) && t in s.callers
    requires var pc := s.callers[t].pc; !pc.Parked? && !pc.Finished? && !pc.Refused?
    ensures Enabled(cfg, s, e) && !e.Start? && e.t == t
    ensures Apply(cfg, s, e).callers[t].pc != s.callers[t].pc
  {
    ReachableInv(cfg, s);
    var c := s.callers[t];
    assert CallerOk(cfg, s, t);
    match c.pc
    case Lookup =>
      if c.model in s.slots {
        e := Find(t);
      } else {
        var id :| id !in s.heap by { FreshSlot(s.heap.Keys); }
        e := Allocate(t, id);
      }
    case Inserting(_) => e := Insert(t);
    case Unlimited => e := DropUnlimited(t);
    case CasActive(seen, _) =>
      e := Step(t, if s.heap[c.slot].active == seen then Go else Fail);
    case CasQueued(_, seen) =>
      e := Step(t, if s.heap[c.slot].queued == seen then Go else Fail);
    case Notifying(slot) =>
      if u :| u in s.callers && IsParkedAt(s, u, slot) {
        e := NotifyOne(t, Some(u));
      } else {
        e := NotifyOne(t, None);
      }
    case _ =>
      e := Step(t, Go);
  }

  lemma FreshSlot(used: set<SlotId>)
    ensures exists id: SlotId :: id !in used
  {
    if used != {} {
      var top := Top(used);
      assert top + 1 !in used;
    } else {
      assert 0 !in used;
    }
  }

  lemma {:induction false} Top(used: set<SlotId>) returns (top: SlotId)
    requires used != {}
    ensures forall id :: id in used ==> id <= top
    decreases |used|
  {
    var x :| x in used;
    if used - {x} == {} {
      assert used == {x};
      top := x;
    } else {
      var rest := Top(used - {x});
      top := if rest >= x then rest else x;
      assert used == (used - {x}) + {x};
    }
  }
}
