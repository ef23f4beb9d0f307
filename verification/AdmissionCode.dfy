/**
 The code of the limiter, run against the small-step machine.

 `acquire` and the guard's release are written as the loops they are. Between any
 two atomic operations other callers take any number of steps, given by an
 arbitrary `world`. Every atomic operation is one event of the machine, so what
 holds in all its reachable states holds wherever this code stands.
 */
module AdmissionCode {
  import opened Prelude
  import opened Admission
  import opened AdmissionSafety
  import AdmissionTheorems

  /** A look at a parked caller: other callers' steps, and then whether the deadline has passed. */
  datatype Check = Check(others: seq<Event>, expires: bool)

  /**
   What goes on during one round of the loop: other callers' steps at each place,
   whether the weak compare-exchange fails by itself, and the looks at the caller
   while it is parked.
   */
  datatype Round = Round(
    beforeLoad: seq<Event>, beforeCas: seq<Event>, beforeQueue: seq<Event>, fails: bool,
    beforePoll: seq<Event>, checks: seq<Check>)

  /** Nobody else moves and no compare-exchange fails by itself. */
  ghost predicate Quiet(w: Round) {
    && w.beforeLoad == [] && w.beforeCas == [] && w.beforeQueue == [] && w.beforePoll == [] && !w.fails
    && forall i :: 0 <= i < |w.checks| ==> w.checks[i].others == []
  }

  ghost predicate Expires(w: Round) {
    exists i :: 0 <= i < |w.checks| && w.checks[i].expires
  }

  /** How many of the first n rounds let a compare-exchange fail by itself. */
  ghost function Flagged(world: nat -> Round, n: nat): nat {
    if n == 0 then 0 else Flagged(world, n - 1) + if world(n - 1).fails then 1 else 0
  }

  datatype Acquired =
    | Guard(unlimited: bool)
    | Rejected(error: AcquireError)
    | StillTrying  // at the end of the rounds, or parked at the end of a round's looks

  /** What a result says about where the caller is: only a guard counts it as active. */
  predicate Fits(r: Acquired, pc: Pc, limits: Limits) {
    match r
    case Guard(unlimited) => (unlimited <==> limits.concurrency == 0) && pc == if unlimited then Unlimited else Holding
    case Rejected(error) => pc == Refused(error)
    case StillTrying => pc.LoadActive? || pc.Parked?
  }

  /** The slot with this id; one that does not exist yet will start empty. */
  function At(heap: map<SlotId, Slot>, id: SlotId): Slot {
    if id in heap then heap[id] else Slot(0, 0, false)
  }

  /** The slot of a model; one that nobody has asked for yet will start empty. */
  function SlotNow(slots: map<Model, SlotId>, heap: map<SlotId, Slot>, model: Model): Slot {
    if model in slots then At(heap, slots[model]) else Slot(0, 0, false)
  }

  /**
   What a round does to a caller that is alone, by the state of its slot before and
   after: a guard while the counter is below the limit, otherwise a refusal without a
   queue place, a stored permit, or a wait until the deadline.
   */
  ghost predicate RoundAlone(limits: Limits, a: Slot, b: Slot, end: Option<Acquired>, w: Round) {
    if a.active < limits.concurrency then end == Some(Guard(false)) && b == a.(active := a.active + 1)
    else RoundFull(limits, a, b, end, w)
  }

  ghost predicate RoundFull(limits: Limits, a: Slot, b: Slot, end: Option<Acquired>, w: Round) {
    if limits.maxQueue == 0 || a.queued >= limits.maxQueue
    then end == Some(Rejected(QueueFull(a.active, limits.concurrency, a.queued))) && b == a
    else if a.permit then end == None && b == a.(permit := false)
    else if Expires(w) then end == Some(Rejected(WaitTimeout)) && b == a
    else end == Some(StillTrying) && b == a.(queued := a.queued + 1)
  }

  /** What `acquire` gives a caller that is alone. */
  ghost predicate AsAlone(limits: Limits, a: Slot, r: Acquired, world: nat -> Round) {
    if limits.concurrency == 0 then r == Guard(true)
    else if a.active < limits.concurrency then r == Guard(false)
    else if limits.maxQueue == 0 || a.queued >= limits.maxQueue
    then r == Rejected(QueueFull(a.active, limits.concurrency, a.queued))
    else if Expires(world(if a.permit then 1 else 0)) then r == Rejected(WaitTimeout)
    else r == StillTrying
  }

  /** A caller that is alone finds the model full and takes the stored permit in its first round. */
  predicate ComesBack(limits: Limits, a: Slot) {
    a.permit && limits.concurrency <= a.active && a.queued < limits.maxQueue
  }

  /** The slot at the start of round k: there is a second round only after a stored permit, and no third. */
  predicate BeforeRound(limits: Limits, first: Slot, a: Slot, k: nat) {
    if k == 0 then a == first else k == 1 && ComesBack(limits, first) && a == first.(permit := false)
  }

  lemma OnItsOwn(limits: Limits, first: Slot, a: Slot, b: Slot, end: Option<Acquired>, world: nat -> Round, k: nat)
    requires limits.concurrency > 0 && BeforeRound(limits, first, a, k) && RoundAlone(limits, a, b, end, world(k))
    ensures if end.Some? then AsAlone(limits, first, end.value, world) else BeforeRound(limits, first, b, k + 1)
    ensures end.None? ==> k == 0
  {
    hide Expires;
  }

  ghost predicate AllQuiet(world: nat -> Round) {
    forall i: nat :: Quiet(world(i))
  }

  lemma QuietRound(world: nat -> Round, k: nat)
    requires AllQuiet(world)
    ensures Quiet(world(k))
  {
  }

  lemma NotLater(limits: Limits, first: Slot, a: Slot, k: nat)
    requires BeforeRound(limits, first, a, k)
    ensures k < 2
  {
  }

  lemma UnlimitedAlone(limits: Limits, a: Slot, world: nat -> Round)
    requires limits.concurrency == 0
    ensures AsAlone(limits, a, Guard(true), world) && Fits(Guard(true), Unlimited, limits)
  {
  }

  lemma OneMoreFlag(world: nat -> Round, k: nat)
    ensures Flagged(world, 0) == 0 && Flagged(world, k + 1) == Flagged(world, k) + if world(k).fails then 1 else 0
  {
  }

  // ---- Counting the steps of one caller ---------------------------------------------------------

  /** How many steps caller t has taken on its slot. */
  ghost function Steps(run: seq<Event>, t: CallerId): nat
    decreases |run|
  {
    if run == [] then 0
    else Steps(run[..|run| - 1], t) + if run[|run| - 1].Step? && run[|run| - 1].t == t then 1 else 0
  }

  /** How many compare-exchanges of caller t have failed although they would have worked. */
  ghost function Spurious(cfg: Config, run: seq<Event>, t: CallerId): nat
    decreases |run|
  {
    if run == [] then 0
    else var front := run[..|run| - 1];
         Spurious(cfg, front, t) + if run[|run| - 1] == Step(t, Fail) && CouldGo(cfg, front, t) then 1 else 0
  }

  ghost predicate CouldGo(cfg: Config, run: seq<Event>, t: CallerId) {
    var x := Exec(cfg, Initial, run); x.Some? && Enabled(cfg, x.value, Step(t, Go))
  }

  /** From `before` to `run`, caller t has taken at least `steps` steps, and at most `spurious` failed by themselves. */
  ghost predicate Took(cfg: Config, before: seq<Event>, run: seq<Event>, t: CallerId, steps: nat, spurious: nat) {
    && before <= run && Steps(run, t) >= Steps(before, t) + steps
    && Spurious(cfg, run, t) <= Spurious(cfg, before, t) + spurious
  }

  lemma TookThen(cfg: Config, a: seq<Event>, b: seq<Event>, c: seq<Event>, t: CallerId,
                 steps: nat, spurious: nat, steps': nat, spurious': nat)
    requires Took(cfg, a, b, t, steps, spurious) && Took(cfg, b, c, t, steps', spurious')
    ensures Took(cfg, a, c, t, steps + steps', spurious + spurious')
  {
    hide Steps, Spurious;
  }

  lemma TookLess(cfg: Config, a: seq<Event>, b: seq<Event>, t: CallerId,
                 steps: nat, spurious: nat, steps': nat, spurious': nat)
    requires Took(cfg, a, b, t, steps, spurious) && steps' <= steps && spurious <= spurious'
    ensures Took(cfg, a, b, t, steps', spurious')
  {
  }

  lemma Undecided(pc: Pc, limits: Limits)
    requires pc.LoadActive?
    ensures Fits(StillTrying, pc, limits)
  {
  }

  lemma OneEvent(cfg: Config, run: seq<Event>, e: Event, t: CallerId)
    ensures Steps(run + [e], t) == Steps(run, t) + if e.Step? && e.t == t then 1 else 0
    ensures Spurious(cfg, run + [e], t)
         == Spurious(cfg, run, t) + if e == Step(t, Fail) && CouldGo(cfg, run, t) then 1 else 0
  {
    assert (run + [e])[..|run|] == run;
  }

  /** Caller t has been woken after the first n events. */
  ghost predicate Woken(run: seq<Event>, n: nat, t: CallerId) {
    exists i :: n <= i < |run| && Wakes(run[i], t)
  }

  lemma NotYetWoken(run: seq<Event>, t: CallerId)
    ensures !Woken(run, |run|, t)
  {
  }

  lemma WokenBy(run: seq<Event>, n: nat, e: Event, t: CallerId)
    requires n <= |run|
    ensures Woken(run + [e], n, t) <==> Woken(run, n, t) || Wakes(e, t)
  {
    if Woken(run, n, t) {
      var i :| n <= i < |run| && Wakes(run[i], t);
      assert (run + [e])[i] == run[i];
    }
    if Wakes(e, t) {
      assert (run + [e])[|run|] == e;
    }
  }

  lemma WokenThen(before: seq<Event>, run: seq<Event>, n: nat, t: CallerId)
    requires n <= |before| && before <= run
    ensures Woken(run, n, t) <==> Woken(before, n, t) || Woken(run, |before|, t)
  {
    if Woken(before, n, t) {
      var i :| n <= i < |before| && Wakes(before[i], t);
      assert run[i] == before[i];
    }
    if i :| n <= i < |run| && Wakes(run[i], t) {
      assert i < |before| ==> before[i] == run[i];
    }
  }

  class ModelAdmission {
    const cfg: Config
    var slots: map<Model, SlotId>
    var heap: map<SlotId, Slot>
    var callers: map<CallerId, Caller>
    ghost var run: seq<Event>  // everything that has happened

    ghost function Now(): (s: State)
      reads this
      ensures s.slots == slots && s.heap == heap && s.callers == callers
    {
      State(slots, heap, callers)
    }

    /** The present state is where the run has led the machine. */
    ghost predicate Valid()
      reads this
    {
      Exec(cfg, Initial, run) == Some(Now())
    }

    /** The run goes on by events of other callers than t. */
    ghost predicate WentOn(before: seq<Event>, t: CallerId)
      reads this
    {
      before <= run && forall i :: |before| <= i < |run| ==> Actor(run[i]) != t
    }

    /** What the code just did is one event of the machine. */
    ghost method Did(s: State, e: Event)
      requires Exec(cfg, Initial, run) == Some(s) && Enabled(cfg, s, e) && Now() == Apply(cfg, s, e)
      modifies this`run
      ensures Valid() && run == old(run) + [e]
      ensures Took(cfg, old(run), run, Actor(e), if e.Step? then 1 else 0,
                   if e == Step(Actor(e), Fail) && Enabled(cfg, s, Step(Actor(e), Go)) then 1 else 0)
      ensures forall t :: t != Actor(e) ==> Took(cfg, old(run), run, t, 0, 0)
    {
      ExecAppend(cfg, Initial, run, e);
      forall t {
        OneEvent(cfg, run, e, t);
      }
      run := run + [e];
    }

    /** Caller t is a caller of the model. */
    ghost predicate Calls(t: CallerId, model: Model)
      reads this
    {
      t in callers && callers[t].model == model
    }

    constructor (cfg: Config)
      ensures Valid() && callers == map[] && run == [] && this.cfg == cfg
    {
      this.cfg := cfg;
      slots, heap, callers, run := map[], map[], map[], [];
      assert Exec(cfg, Initial, []) == Some(Initial);
    }

    method Become(s: State)
      modifies this`slots, this`heap, this`callers
      ensures slots == s.slots && heap == s.heap && callers == s.callers && Now() == s
    {
      slots, heap, callers := s.slots, s.heap, s.callers;
    }

    /** Other callers take steps. They can do one thing to caller t: wake it up, once, when it is parked. */
    method Others(t: CallerId, events: seq<Event>)
      requires Valid() && t in callers
      modifies this
      ensures Valid() && t in callers
      ensures callers[t].model == old(callers[t].model) && callers[t].slot == old(callers[t].slot)
      ensures if Woken(run, |old(run)|, t) then old(callers[t].pc) == Parked && callers[t].pc == Awake
              else callers[t].pc == old(callers[t].pc)
      ensures WentOn(old(run), t) && Took(cfg, old(run), run, t, 0, 0)
      ensures events == [] ==> run == old(run) && Now() == old(Now())
    {
      hide Exec, Woken, Enabled, Apply, Steps, Spurious;
      NotYetWoken(run, t);
      for i := 0 to |events|
        invariant Valid() && t in callers
        invariant callers[t].model == old(callers[t].model) && callers[t].slot == old(callers[t].slot)
        invariant if Woken(run, |old(run)|, t) then old(callers[t].pc) == Parked && callers[t].pc == Awake
                  else callers[t].pc == old(callers[t].pc)
        invariant WentOn(old(run), t) && Took(cfg, old(run), run, t, 0, 0)
        invariant i == 0 ==> run == old(run) && Now() == old(Now())
      {
        var s := State(slots, heap, callers);
        if Actor(events[i]) != t && Enabled(cfg, s, events[i]) {
          OthersLeave(cfg, s, t, events[i]);
          WokenBy(run, |old(run)|, events[i], t);
          ghost var before := run;
          Become(Apply(cfg, s, events[i]));
          Did(s, events[i]);
          assert Took(cfg, before, run, t, 0, 0);
        }
      }
    }

    /** Where caller t is goes from one place in the code to another; its slot may change. */
    method MoveTo(t: CallerId, pc: Pc)
      requires t in callers
      modifies this`callers
      ensures callers == old(callers)[t := old(callers)[t].(pc := pc)]
    {
      callers := callers[t := callers[t].(pc := pc)];
    }

    /** `slot.active.load`, and the comparison with the limit. */
    method LoadActiveCount(t: CallerId, model: Model) returns (active: u32)
      requires Valid() && Calls(t, model) && callers[t].pc.LoadActive?
      modifies this`callers, this`run
      ensures run == old(run) + [Step(t, Go)] && Took(cfg, old(run), run, t, 1, 0)
      ensures Valid() && Calls(t, model)
      ensures callers[t].slot == old(callers[t].slot) && callers[t].slot in heap
      ensures active == At(heap, callers[t].slot).active
      ensures if active < cfg(model).concurrency
              then callers[t].pc.CasActive? && callers[t].pc.seen == active
              else callers[t].pc == LoadQueued(active)
    {
      hide Exec;
      ghost var s := Now();
      Ready(cfg, s, t);
      active := heap[callers[t].slot].active;
      if active < cfg(model).concurrency {
        MoveTo(t, CasActive(active, callers[t].pc.woken));
      } else {
        MoveTo(t, LoadQueued(active));
      }
      assert heap == s.heap[s.callers[t].slot := s.heap[s.callers[t].slot]];
      Did(s, Step(t, Go));
    }

    /** `slot.active.compare_exchange_weak(active, active + 1)`. */
    method CompareExchangeActive(t: CallerId, model: Model, active: u32, fails: bool) returns (ok: bool)
      requires Valid() && Calls(t, model) && callers[t].pc.CasActive? && callers[t].pc.seen == active
      modifies this`callers, this`heap, this`run
      ensures Valid() && Calls(t, model)
      ensures run == old(run) + [Step(t, if ok then Go else Fail)]
      ensures Took(cfg, old(run), run, t, 1, if fails then 1 else 0)
      ensures callers[t].slot == old(callers[t].slot)
      ensures ok ==> callers[t].slot in old(heap) && active + 1 < U32_LIMIT
                     && heap == old(heap)[callers[t].slot := old(heap)[callers[t].slot].(active := active + 1)]
      ensures !ok ==> heap == old(heap)
      ensures if ok then callers[t].pc == Holding else callers[t].pc.LoadActive?
      ensures ok <==> !fails && callers[t].slot in old(heap) && old(heap)[callers[t].slot].active == active
    {
      hide Exec;
      ghost var s := Now();
      Ready(cfg, s, t);
      var slot := callers[t].slot;
      ok := !fails && heap[slot].active == active;
      if ok {
        heap := heap[slot := heap[slot].(active := active + 1)];
        MoveTo(t, Holding);
        Did(s, Step(t, Go));
      } else {
        MoveTo(t, LoadActive(callers[t].pc.woken));
        assert heap == s.heap[slot := s.heap[slot]];
        Did(s, Step(t, Fail));
      }
    }

    /** `slot.queued.load`, and the refusal when no queue place is left. */
    method LoadQueuedCount(t: CallerId, model: Model, active: u32) returns (queued: u32, full: bool)
      requires Valid() && Calls(t, model) && callers[t].pc == LoadQueued(active)
      modifies this`callers, this`run
      ensures run == old(run) + [Step(t, Go)] && Took(cfg, old(run), run, t, 1, 0)
      ensures Valid() && Calls(t, model)
      ensures callers[t].slot == old(callers[t].slot) && callers[t].slot in heap
      ensures queued == At(heap, callers[t].slot).queued
      ensures full <==> cfg(model).maxQueue == 0 || queued >= cfg(model).maxQueue
      ensures callers[t].pc == if full then Refused(QueueFull(active, cfg(model).concurrency, queued))
                               else CasQueued(active, queued)
    {
      hide Exec;
      ghost var s := Now();
      Ready(cfg, s, t);
      queued := heap[callers[t].slot].queued;
      full := cfg(model).maxQueue == 0 || queued >= cfg(model).maxQueue;
      MoveTo(t, if full then Refused(QueueFull(active, cfg(model).concurrency, queued)) else CasQueued(active, queued));
      assert heap == s.heap[s.callers[t].slot := s.heap[s.callers[t].slot]];
      Did(s, Step(t, Go));
    }

    /** `slot.queued.compare_exchange_weak(queued, queued + 1)`. */
    method CompareExchangeQueued(t: CallerId, model: Model, active: u32, queued: u32, fails: bool) returns (ok: bool)
      requires Valid() && Calls(t, model) && callers[t].pc == CasQueued(active, queued)
      modifies this`callers, this`heap, this`run
      ensures Valid() && Calls(t, model)
      ensures run == old(run) + [Step(t, if ok then Go else Fail)]
      ensures Took(cfg, old(run), run, t, 1, if fails then 1 else 0)
      ensures callers[t].slot == old(callers[t].slot)
      ensures ok <==> !fails && callers[t].slot in old(heap) && old(heap)[callers[t].slot].queued == queued
      ensures ok ==> queued + 1 < U32_LIMIT
                     && heap == old(heap)[callers[t].slot := old(heap)[callers[t].slot].(queued := queued + 1)]
      ensures !ok ==> heap == old(heap)
      ensures if ok then callers[t].pc == Queued else callers[t].pc.LoadActive?
    {
      hide Exec;
      ghost var s := Now();
      Ready(cfg, s, t);
      var slot := callers[t].slot;
      ok := !fails && heap[slot].queued == queued;
      if ok {
        heap := heap[slot := heap[slot].(queued := queued + 1)];
        MoveTo(t, Queued);
        Did(s, Step(t, Go));
      } else {
        MoveTo(t, LoadActive(false));
        assert heap == s.heap[slot := s.heap[slot]];
        Did(s, Step(t, Fail));
      }
    }

    /** The first poll of `notified()`: a stored permit is taken, otherwise the caller parks. */
    method Poll(t: CallerId, model: Model)
      requires Valid() && Calls(t, model) && callers[t].pc == Queued
      modifies this`callers, this`heap, this`run
      ensures Valid() && Calls(t, model) && (callers[t].pc == Awake || callers[t].pc == Parked)
      ensures run == old(run) + [Step(t, Go)] && Took(cfg, old(run), run, t, 1, 0)
      ensures callers[t].slot == old(callers[t].slot)
      ensures callers[t].pc == Awake <==> At(old(heap), callers[t].slot).permit
      ensures At(heap, callers[t].slot) == At(old(heap), callers[t].slot).(permit := false)
    {
      hide Exec;
      ghost var s := Now();
      Ready(cfg, s, t);
      var slot := callers[t].slot;
      if heap[slot].permit {
        heap := heap[slot := heap[slot].(permit := false)];
        MoveTo(t, Awake);
      } else {
        MoveTo(t, Parked);
        assert heap == s.heap[slot := s.heap[slot]];
      }
      Did(s, Step(t, Go));
    }

    /** The wait is over before a notification came. */
    method Expired(t: CallerId, model: Model)
      requires Valid() && Calls(t, model) && callers[t].pc == Parked
      modifies this`callers, this`run
      ensures run == old(run) + [Step(t, Expire)] && Took(cfg, old(run), run, t, 1, 0)
      ensures Valid() && Calls(t, model) && callers[t].pc == TimedOut && callers[t].slot == old(callers[t].slot)
    {
      hide Exec;
      ghost var s := Now();
      Ready(cfg, s, t);
      MoveTo(t, TimedOut);
      assert heap == s.heap[s.callers[t].slot := s.heap[s.callers[t].slot]];
      Did(s, Step(t, Expire));
    }

    /** `slot.queued.fetch_sub(1)` after the wait; the counter is not zero. */
    method CountOut(t: CallerId, model: Model)
      requires Valid() && Calls(t, model) && (callers[t].pc == Awake || callers[t].pc == TimedOut)
      modifies this`callers, this`heap, this`run
      ensures Valid() && Calls(t, model) && run == old(run) + [Step(t, Go)] && Took(cfg, old(run), run, t, 1, 0)
      ensures callers[t].slot == old(callers[t].slot)
      ensures var slot := callers[t].slot;
              slot in old(heap) && old(heap)[slot].queued >= 1
              && heap == old(heap)[slot := old(heap)[slot].(queued := old(heap)[slot].queued - 1)]
      ensures callers[t].pc == if old(callers[t].pc) == Awake then LoadActive(true) else Refused(WaitTimeout)
    {
      hide Exec;
      ghost var s := Now();
      Ready(cfg, s, t);
      Counted(cfg, s, t);
      var slot := callers[t].slot;
      heap := heap[slot := heap[slot].(queued := heap[slot].queued - 1)];
      MoveTo(t, if callers[t].pc == Awake then LoadActive(true) else Refused(WaitTimeout));
      Did(s, Step(t, Go));
    }

    /** A request arrives; an unlimited model needs no slot. */
    method Arrive(t: CallerId, model: Model)
      requires Valid() && t !in callers
      modifies this`callers, this`run
      ensures run == old(run) + [Start(t, model)] && Took(cfg, old(run), run, t, 0, 0)
      ensures Valid() && Calls(t, model)
      ensures callers[t].pc == if cfg(model).concurrency == 0 then Unlimited else Lookup
    {
      hide Exec;
      ghost var s := Now();
      callers := callers[t := Caller(model, 0, if cfg(model).concurrency == 0 then Unlimited else Lookup)];
      Did(s, Start(t, model));
    }

    /** `slot_for`: the slot of the model, allocated and inserted by whoever comes first. */
    method SlotFor(t: CallerId, model: Model, between: seq<Event>)
      requires Valid() && Calls(t, model) && callers[t].pc == Lookup
      modifies this
      ensures Valid() && Calls(t, model) && callers[t].pc == LoadActive(false) && Took(cfg, old(run), run, t, 0, 0)
      ensures model in slots && callers[t].slot == slots[model]
      ensures between == [] ==> At(heap, slots[model]) == SlotNow(old(slots), old(heap), model)
    {
      hide Exec;
      if model in slots {
        ghost var s := Now();
        callers := callers[t := Caller(model, slots[model], LoadActive(false))];
        Did(s, Find(t));
      } else {
        var id := Allocated(t, model);
        Others(t, between);
        OrInsert(t, model, id);
      }
    }

    /** A new slot, not yet in the map. */
    method Allocated(t: CallerId, model: Model) returns (id: SlotId)
      requires Valid() && Calls(t, model) && callers[t].pc == Lookup && model !in slots
      modifies this`callers, this`heap, this`run
      ensures Valid() && Calls(t, model) && callers[t].pc == Inserting(id)
      ensures run == old(run) + [Allocate(t, id)] && Took(cfg, old(run), run, t, 0, 0)
      ensures id !in old(heap) && heap == old(heap)[id := Slot(0, 0, false)]
    {
      hide Exec;
      ghost var s := Now();
      AdmissionTheorems.FreshSlot(heap.Keys);
      id :| id !in heap;
      heap := heap[id := Slot(0, 0, false)];
      MoveTo(t, Inserting(id));
      Did(s, Allocate(t, id));
    }

    /** `entry().or_insert_with()`: another caller may have been faster. */
    method OrInsert(t: CallerId, model: Model, id: SlotId)
      requires Valid() && Calls(t, model) && callers[t].pc == Inserting(id)
      modifies this`callers, this`slots, this`run
      ensures Valid() && Calls(t, model) && callers[t].pc == LoadActive(false)
      ensures run == old(run) + [Insert(t)] && Took(cfg, old(run), run, t, 0, 0)
      ensures slots == (if model in old(slots) then old(slots) else old(slots)[model := id])
      ensures callers[t].slot == slots[model]
    {
      hide Exec;
      ghost var s := Now();
      if model !in slots {
        slots := slots[model := id];
      }
      callers := callers[t := Caller(model, slots[model], LoadActive(false))];
      Did(s, Insert(t));
    }

    /**
     The acquire loop, for as many rounds as asked for. It stays undecided only for
     cause: either the caller is parked and its deadline has not passed, or it has
     taken its steps in every round, and no compare-exchange failed by itself more
     often than `world` says. A caller that is alone gets exactly what it is due.
     */
    method Acquire(t: CallerId, model: Model, arriving: seq<Event>, inserting: seq<Event>,
                   world: nat -> Round, rounds: nat) returns (r: Acquired, k: nat)
      requires Valid() && t !in callers
      modifies this
      ensures Valid() && Calls(t, model) && Fits(r, callers[t].pc, cfg(model)) && k <= rounds
      ensures Took(cfg, old(run), run, t, 2 * k, Flagged(world, if k < rounds then k + 1 else k))
      ensures r.StillTrying? && callers[t].pc != Parked ==> k == rounds
      ensures r.StillTrying? && callers[t].pc == Parked ==> k < rounds && !Expires(world(k))
      ensures r == Rejected(WaitTimeout) ==> k < rounds && Expires(world(k))
      ensures arriving == [] && inserting == [] && AllQuiet(world) && rounds >= 2 ==>
                AsAlone(cfg(model), SlotNow(old(slots), old(heap), model), r, world)
    {
      hide Exec, Steps, Spurious, Flagged, AllQuiet, Quiet, Expires, RoundAlone, AsAlone, BeforeRound, Took, Fits,
           SlotNow, At, Valid, Enabled, Apply, RoundFull, ComesBack;
      k := 0;
      ghost var limits, first, start := cfg(model), SlotNow(slots, heap, model), run;
      ghost var alone := arriving == [] && inserting == [] && AllQuiet(world);
      OneMoreFlag(world, 0);
      Enter(t, model, arriving, inserting);
      if cfg(model).concurrency == 0 {
        UnlimitedAlone(limits, first, world);
        TookLess(cfg, start, run, t, 0, 0, 0, Flagged(world, if 0 < rounds then 1 else 0));
        return Guard(true), 0;
      }
      while k < rounds
        invariant Valid() && Calls(t, model) && callers[t].pc.LoadActive? && k <= rounds
        invariant Took(cfg, start, run, t, 2 * k, Flagged(world, k))
        invariant alone ==> BeforeRound(limits, first, At(heap, callers[t].slot), k)
      {
        ghost var before, a := run, At(heap, callers[t].slot);
        if alone {
          QuietRound(world, k);
        }
        var end := Turn(t, model, world(k));
        OneMoreFlag(world, k);
        TookThen(cfg, start, before, run, t, 2 * k, Flagged(world, k), 2, if world(k).fails then 1 else 0);
        if alone {
          OnItsOwn(limits, first, a, At(heap, callers[t].slot), end, world, k);
        }
        if end.Some? {
          TookLess(cfg, start, run, t, 2 * k + 2, Flagged(world, k + 1), 2 * k, Flagged(world, k + 1));
          return end.value, k;
        }
        k := k + 1;
      }
      Undecided(callers[t].pc, limits);
      if alone && rounds >= 2 {
        NotLater(limits, first, At(heap, callers[t].slot), k);
      }
      r := StillTrying;
    }

    /** Up to the loop: the request arrives, and finds or makes the slot of its model. */
    method Enter(t: CallerId, model: Model, arriving: seq<Event>, inserting: seq<Event>)
      requires Valid() && t !in callers
      modifies this
      ensures Valid() && Calls(t, model) && Took(cfg, old(run), run, t, 0, 0)
      ensures callers[t].pc == if cfg(model).concurrency == 0 then Unlimited else LoadActive(false)
      ensures arriving == [] && inserting == [] && cfg(model).concurrency > 0 ==>
                BeforeRound(cfg(model), SlotNow(old(slots), old(heap), model), At(heap, callers[t].slot), 0)
    {
      hide Exec, Steps, Spurious;
      Arrive(t, model);
      if cfg(model).concurrency > 0 {
        Others(t, arriving);
        SlotFor(t, model, inserting);
      }
    }

    /** One round of the loop: a guard is taken, or the caller is beaten to it, or the model is full. */
    method Turn(t: CallerId, model: Model, w: Round) returns (end: Option<Acquired>)
      requires Valid() && Calls(t, model) && callers[t].pc.LoadActive?
      modifies this
      ensures Valid() && Calls(t, model) && Took(cfg, old(run), run, t, 2, if w.fails then 1 else 0)
      ensures if end.None? then callers[t].pc.LoadActive? else Fits(end.value, callers[t].pc, cfg(model))
      ensures end == Some(StillTrying) ==> callers[t].pc == Parked && !Expires(w)
      ensures end == Some(Rejected(WaitTimeout)) ==> Expires(w)
      ensures Quiet(w) ==>
                RoundAlone(cfg(model), At(old(heap), old(callers[t].slot)), At(heap, callers[t].slot), end, w)
    {
      hide Exec, Steps, Spurious, Expires, Valid;
      end := None;
      Others(t, w.beforeLoad);
      var active := LoadActiveCount(t, model);
      Others(t, w.beforeCas);
      if active < cfg(model).concurrency {
        var taken := CompareExchangeActive(t, model, active, w.fails);
        end := if taken then Some(Guard(false)) else None;
      } else {
        end := QueueUp(t, model, active, w);
      }
    }

    /** The rest of a round that saw a full model: refused, queued until notified or too late, or beaten to it. */
    method QueueUp(t: CallerId, model: Model, active: u32, w: Round) returns (end: Option<Acquired>)
      requires Valid() && Calls(t, model) && callers[t].pc == LoadQueued(active)
      modifies this
      ensures Valid() && Calls(t, model) && Took(cfg, old(run), run, t, 1, if w.fails then 1 else 0)
      ensures if end.None? then callers[t].pc.LoadActive? else Fits(end.value, callers[t].pc, cfg(model))
      ensures end == Some(StillTrying) ==> callers[t].pc == Parked && !Expires(w)
      ensures end == Some(Rejected(WaitTimeout)) ==> Expires(w)
      ensures Quiet(w) && active == At(old(heap), old(callers[t].slot)).active ==>
                RoundFull(cfg(model), At(old(heap), old(callers[t].slot)), At(heap, callers[t].slot), end, w)
    {
      hide Exec, Steps, Spurious, Expires, Valid;
      end := None;
      var queued, full := LoadQueuedCount(t, model, active);
      if full {
        return Some(Rejected(QueueFull(active, cfg(model).concurrency, queued)));
      }
      Others(t, w.beforeQueue);
      var counted := CompareExchangeQueued(t, model, active, queued, w.fails);
      if counted {
        end := WaitInQueue(t, model, w);
      }
    }

    /** A caller that is counted as queued waits, and is counted out again. */
    method WaitInQueue(t: CallerId, model: Model, w: Round) returns (end: Option<Acquired>)
      requires Valid() && Calls(t, model) && callers[t].pc == Queued
      modifies this
      ensures Valid() && Calls(t, model) && Took(cfg, old(run), run, t, 1, 0)
      ensures if end.None? then callers[t].pc.LoadActive? else Fits(end.value, callers[t].pc, cfg(model))
      ensures end == Some(StillTrying) ==> callers[t].pc == Parked && !Expires(w)
      ensures end == Some(Rejected(WaitTimeout)) ==> Expires(w)
      ensures Quiet(w) ==> var a, b := At(old(heap), old(callers[t].slot)), At(heap, callers[t].slot);
                if a.permit then end == None && a.queued >= 1 && b == a.(permit := false, queued := a.queued - 1)
                else if Expires(w)
                then end == Some(Rejected(WaitTimeout)) && a.queued >= 1 && b == a.(queued := a.queued - 1)
                else end == Some(StillTrying) && b == a
    {
      hide Exec, Steps, Spurious, Expires, Valid;
      var ended := Wait(t, model, w);
      if ended {
        var notified := callers[t].pc == Awake;
        CountOut(t, model);
        end := if notified then None else Some(Rejected(WaitTimeout));
      } else {
        end := Some(StillTrying);
      }
    }

    /**
     `timeout(remaining, notify.notified())`: ends with a notification, or with the
     deadline when it has passed and nobody has woken the caller.
     */
    method Wait(t: CallerId, model: Model, w: Round) returns (ended: bool)
      requires Valid() && Calls(t, model) && callers[t].pc == Queued
      modifies this
      ensures Valid() && Calls(t, model) && Took(cfg, old(run), run, t, 1, 0)
      ensures if ended then callers[t].pc == Awake || callers[t].pc == TimedOut else callers[t].pc == Parked
      ensures callers[t].pc == TimedOut ==> Expires(w)
      ensures callers[t].pc != Awake ==> !Woken(run, |old(run)|, t)
      ensures !ended ==> !Expires(w)
      ensures Quiet(w) ==> var a, b := At(old(heap), old(callers[t].slot)), At(heap, callers[t].slot);
                && b == a.(permit := false)
                && callers[t].pc == if a.permit then Awake else if Expires(w) then TimedOut else Parked
    {
      hide Exec, Woken, Steps, Spurious, Valid;
      NotYetWoken(run, t);
      Others(t, w.beforePoll);
      WokenBy(run, |old(run)|, Step(t, Go), t);
      Poll(t, model);
      ghost var polled, slot, a := callers[t].pc, callers[t].slot, At(heap, callers[t].slot);
      for i := 0 to |w.checks|
        invariant Valid() && Calls(t, model) && Took(cfg, old(run), run, t, 1, 0)
        invariant callers[t].pc == Awake || callers[t].pc == Parked
        invariant callers[t].pc == Parked ==> !Woken(run, |old(run)|, t)
        invariant callers[t].pc == Parked ==> forall j :: 0 <= j < i ==> !w.checks[j].expires
        invariant Quiet(w) ==> callers[t].slot == slot && At(heap, slot) == a && callers[t].pc == polled
      {
        if callers[t].pc == Awake {
          break;
        }
        ghost var before := run;
        Others(t, w.checks[i].others);
        WokenThen(before, run, |old(run)|, t);
        if callers[t].pc == Parked && w.checks[i].expires {
          WokenBy(run, |old(run)|, Step(t, Expire), t);
          Expired(t, model);
          return true;
        }
      }
      ended := callers[t].pc == Awake;
    }

    /** Dropping a guard: `fetch_sub` on the model's slot, then, others having run, `notify_one`. */
    method Release(t: CallerId, model: Model, between: seq<Event>)
      requires Valid() && Calls(t, model) && callers[t].pc == Holding
      modifies this
      ensures Valid() && Calls(t, model) && callers[t].pc == Finished
      ensures |run| >= |old(run)| + 2 && old(run) <= run && run[|old(run)|] == Step(t, Go)
      ensures run[|run| - 1].NotifyOne? && run[|run| - 1].t == t && Notified(run[|run| - 1].wake, callers[t].slot)
      ensures forall i :: |old(run)| < i < |run| - 1 ==> Actor(run[i]) != t
    {
      hide Exec;
      DropCount(t, model);
      ghost var dropped := run;
      Others(t, between);
      NotifyOneWaiter(t, model, callers[t].slot);
    }

    /** Either the waiter has been woken, or the permit is stored. */
    ghost predicate Notified(wake: Option<CallerId>, slot: SlotId)
      reads this
    {
      match wake
      case Some(u) => u in callers && callers[u].pc == Awake && callers[u].slot == slot
      case None => slot in heap && heap[slot].permit
    }

    /** `slot.active.fetch_sub(1)` of a release; the counter is not zero. */
    method DropCount(t: CallerId, model: Model)
      requires Valid() && Calls(t, model) && callers[t].pc == Holding
      modifies this`callers, this`heap, this`run
      ensures Valid() && Calls(t, model) && run == old(run) + [Step(t, Go)]
      ensures callers[t].slot == old(callers[t].slot) && callers[t].pc == Notifying(callers[t].slot)
      ensures var slot := callers[t].slot;
              && slot in old(heap) && slot in heap && heap[slot].queued == old(heap)[slot].queued
              && heap[slot].active == old(heap)[slot].active - 1
    {
      hide Exec;
      ghost var s := Now();
      Ready(cfg, s, t);
      Counted(cfg, s, t);
      var slot := slots[model];
      heap := heap[slot := heap[slot].(active := heap[slot].active - 1)];
      MoveTo(t, Notifying(slot));
      Did(s, Step(t, Go));
    }

    /** `notify_one`: wakes a parked caller of the slot if there is one, and stores the permit otherwise. */
    method NotifyOneWaiter(t: CallerId, model: Model, slot: SlotId)
      requires Valid() && Calls(t, model) && callers[t].pc == Notifying(slot)
      modifies this`callers, this`heap, this`run
      ensures Valid() && Calls(t, model) && callers[t].pc == Finished && callers[t].slot == old(callers[t].slot)
      ensures |run| == |old(run)| + 1 && old(run) <= run && run[|old(run)|].NotifyOne? && run[|old(run)|].t == t
      ensures Notified(run[|old(run)|].wake, slot)
      ensures run[|old(run)|].wake == None <==>
                forall u :: u in old(callers) && u != t && old(callers)[u].pc == Parked ==> old(callers)[u].slot != slot
    {
      hide Exec;
      var waiting := set u | u in callers && u != t && callers[u].pc == Parked && callers[u].slot == slot;
      if waiting != {} {
        var u :| u in waiting;
        WakeUp(t, u, slot);
      } else {
        forall u | u in callers && u != t && callers[u].pc == Parked ensures callers[u].slot != slot {
          assert u !in waiting;
        }
        StorePermit(t, slot);
      }
    }

    method WakeUp(t: CallerId, u: CallerId, slot: SlotId)
      requires Valid() && t in callers && callers[t].pc == Notifying(slot)
      requires u in callers && u != t && callers[u].pc == Parked && callers[u].slot == slot
      modifies this`callers, this`run
      ensures Valid() && run == old(run) + [NotifyOne(t, Some(u))]
      ensures callers == old(callers)[u := old(callers)[u].(pc := Awake)][t := old(callers)[t].(pc := Finished)]
    {
      hide Exec;
      ghost var s := Now();
      StillThere(cfg, s, t);
      MoveTo(u, Awake);
      MoveTo(t, Finished);
      Did(s, NotifyOne(t, Some(u)));
    }

    method StorePermit(t: CallerId, slot: SlotId)
      requires Valid() && t in callers && callers[t].pc == Notifying(slot)
      requires forall u :: u in callers && u != t && callers[u].pc == Parked ==> callers[u].slot != slot
      modifies this`callers, this`heap, this`run
      ensures Valid() && run == old(run) + [NotifyOne(t, None)]
      ensures callers == old(callers)[t := old(callers)[t].(pc := Finished)]
      ensures slot in old(heap) && heap == old(heap)[slot := old(heap)[slot].(permit := true)]
    {
      hide Exec;
      ghost var s := Now();
      StillThere(cfg, s, t);
      forall u | u in s.callers ensures !IsParkedAt(s, u, slot) {
      }
      heap := heap[slot := heap[slot].(permit := true)];
      MoveTo(t, Finished);
      Did(s, NotifyOne(t, None));
    }
  }

  /** The slot a release is about to notify exists. */
  lemma StillThere(cfg: Config, s: State, t: CallerId)
    requires Reachable(cfg, s) && t in s.callers && s.callers[t].pc.Notifying?
    ensures s.callers[t].pc.slot in s.heap
  {
    ReachableInv(cfg, s);
    assert CallerOk(cfg, s, t);
  }

  /** A caller that is counted finds its counter above zero. */
  lemma Counted(cfg: Config, s: State, t: CallerId)
    requires Reachable(cfg, s) && t in s.callers && UsesSlot(s.callers[t].pc)
    ensures s.callers[t].slot in s.heap
    ensures s.callers[t].pc.Holding? ==> s.heap[s.callers[t].slot].active >= 1
    ensures s.callers[t].pc.Awake? || s.callers[t].pc.TimedOut? ==> s.heap[s.callers[t].slot].queued >= 1
  {
    ReachableInv(cfg, s);
    assert CallerOk(cfg, s, t);
    NotZero(cfg, s, t);
  }
}
