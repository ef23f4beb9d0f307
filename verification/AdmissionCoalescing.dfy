/**
 Whether a free slot always has somebody on the way to it.

 `Notify` stores one permit, so two releases in a row can leave one wake-up. With
 a limit of one that is enough; with any larger limit a caller can stay parked
 beside a free slot until the next release.
 */
module AdmissionCoalescing {
  import opened Prelude
  import opened Admission
  import opened AdmissionSafety

  /** While someone is parked, a free slot has a wake-up under way. */
  predicate WorkConserving(cfg: Config, s: State, m: Model) {
    m in s.slots && s.slots[m] in s.heap && Callers(s, m, ParkedK) != {}
    && s.heap[s.slots[m]].active < cfg(m).concurrency
    ==> WakePending(s, m)
  }

  /** The limiter never leaves a slot free beside a parked caller exactly when at most one slot exists, or no queue. */
  lemma WorkConservingIff(cfg: Config, m: Model)
    ensures (forall s :: Reachable(cfg, s) ==> WorkConserving(cfg, s, m)) <==>
            cfg(m).concurrency <= 1 || cfg(m).maxQueue == 0
  {
    if cfg(m).concurrency <= 1 || cfg(m).maxQueue == 0 {
      forall s | Reachable(cfg, s) ensures WorkConserving(cfg, s, m) {
        OneSlotConserves(cfg, s, m);
      }
    } else {
      var s := FreeSlotBesideParked(cfg, m);
    }
  }

  /** `max_queue_depth`, with exact arithmetic and the saturating cast; a limited model always has a queue. */
  function MaxQueueDepth(concurrency: u32, ratio: real): (depth: u32)
    ensures depth == 0 <==> concurrency == 0
    ensures depth > 1 ==> depth as real <= concurrency as real * ratio
    ensures concurrency > 0 && depth < U32_LIMIT - 1 ==> concurrency as real * ratio < depth as real + 1.0
  {
    if concurrency == 0 then 0
    else
      var floor := (concurrency as real * ratio).Floor;
      Max(if floor < 0 then 0 else if floor >= U32_LIMIT then U32_LIMIT - 1 else floor, 1)
  }

  /** With the queue the server configures, whatever the ratio, only a limit of one makes use of every free slot. */
  lemma ServerConservesIff(cfg: Config, m: Model, ratio: real)
    requires cfg(m).maxQueue == MaxQueueDepth(cfg(m).concurrency, ratio)
    ensures (forall s :: Reachable(cfg, s) ==> WorkConserving(cfg, s, m)) <==> cfg(m).concurrency <= 1
  {
    WorkConservingIff(cfg, m);
  }

  lemma OneSlotConserves(cfg: Config, s: State, m: Model)
    requires Reachable(cfg, s) && (cfg(m).concurrency <= 1 || cfg(m).maxQueue == 0)
    ensures WorkConserving(cfg, s, m)
  {
    ReachableInv(cfg, s);
    if m in s.slots {
      assert ModelOk(cfg, s, m);
      assert Callers(s, m, ParkedK) <= Callers(s, m, WaitingK);
      assert Callers(s, m, ParkedK) <= Callers(s, m, ObservedFullK);
    }
  }

  // ---- The run that leaves a slot free ----------------------------------------------------

  function Ids(n: nat): set<CallerId>
    ensures forall t: CallerId :: t in Ids(n) <==> t < n
  {
    if n == 0 then {} else Ids(n - 1) + {n - 1}
  }

  /** One model with one slot; callers 0 to n - 1 hold a guard, except where `others` says otherwise. */
  datatype World = World(n: nat, slot: Slot, others: map<CallerId, Pc>)

  function Build(m: Model, w: World): State {
    State(map[m := 0], map[0 := w.slot],
          map t | t in Ids(w.n) + w.others.Keys :: Caller(m, 0, if t in w.others then w.others[t] else Holding))
  }

  /** The place of a caller in such a world, if it has arrived. */
  function Place(w: World, t: CallerId): Option<Pc> {
    if t in w.others then Some(w.others[t]) else if t < w.n then Some(Holding) else None
  }

  datatype Op = Arrive(t: CallerId) | Go1(t: CallerId) | Notify(t: CallerId)

  function Play1(limits: Limits, w: World, op: Op): Option<World> {
    match op
    case Arrive(t) =>
      if Place(w, t).None? then Some(w.(others := w.others[t := LoadActive(false)])) else None
    case Go1(t) =>
      (match Place(w, t)
       case None => None
       case Some(pc) =>
         var l := Local(w.slot, pc);
         if LocalEnabled(l, Go)
         then var l' := LocalStep(limits, 0, l, Go); Some(World(w.n, l'.slot, w.others[t := l'.pc]))
         else None)
    case Notify(t) =>
      if Place(w, t) == Some(Notifying(0)) && forall u :: u in w.others ==> !w.others[u].Parked?
      then Some(World(w.n, w.slot.(permit := true), w.others[t := Finished]))
      else None
  }

  function Play(limits: Limits, w: World, ops: seq<Op>): Option<World>
    decreases |ops|
  {
    if ops == [] then Some(w)
    else match Play1(limits, w, ops[0])
         case None => None
         case Some(w') => Play(limits, w', ops[1..])
  }

  ghost predicate Leads(limits: Limits, a: World, b: World) {
    exists ops :: Play(limits, a, ops) == Some(b)
  }

  /** One more operation at the end of a play. */
  lemma Then(limits: Limits, a: World, b: World, op: Op, c: World)
    requires Leads(limits, a, b) && Play1(limits, b, op) == Some(c)
    ensures Leads(limits, a, c)
  {
    var ops :| Play(limits, a, ops) == Some(b);
    PlayAppend(limits, a, ops, op);
  }

  lemma {:induction false} PlayAppend(limits: Limits, w: World, ops: seq<Op>, op: Op)
    requires Play(limits, w, ops).Some?
    ensures Play(limits, w, ops + [op]) == Play1(limits, Play(limits, w, ops).value, op)
    decreases |ops|
  {
    if ops == [] {
      assert [op][1..] == [];
      assert Play(limits, w, [op]) == Play1(limits, w, op);
    } else {
      assert (ops + [op])[1..] == ops[1..] + [op];
      PlayAppend(limits, Play1(limits, w, ops[0]).value, ops[1..], op);
    }
  }

  lemma BuildUpdate(m: Model, w: World, t: CallerId, slot: Slot, pc: Pc)
    ensures var s := Build(m, w);
            var target := Build(m, World(w.n, slot, w.others[t := pc]));
            State(s.slots, s.heap[0 := slot], s.callers[t := Caller(m, 0, pc)]) == target
  {
    var s := Build(m, w);
    var target := Build(m, World(w.n, slot, w.others[t := pc]));
    assert s.heap[0 := slot] == target.heap;
    assert s.callers[t := Caller(m, 0, pc)].Keys == target.callers.Keys;
    assert s.callers[t := Caller(m, 0, pc)] == target.callers;
  }

  lemma ArriveReachable(cfg: Config, m: Model, w: World, t: CallerId)
    requires Reachable(cfg, Build(m, w)) && cfg(m).concurrency > 0 && Place(w, t).None?
    ensures Reachable(cfg, Build(m, w.(others := w.others[t := LoadActive(false)])))
  {
    hide Reachable;
    var s := Build(m, w);
    BuildUpdate(m, w, t, w.slot, LoadActive(false));
    var s1 := Apply(cfg, s, Start(t, m));
    Extend(cfg, s, Start(t, m), s1);
    assert s.heap == s.heap[0 := w.slot];
    Extend(cfg, s1, Find(t), Build(m, w.(others := w.others[t := LoadActive(false)])));
  }

  lemma Play1Reachable(cfg: Config, m: Model, w: World, op: Op)
    requires Reachable(cfg, Build(m, w)) && cfg(m).concurrency > 0 && Play1(cfg(m), w, op).Some?
    ensures Reachable(cfg, Build(m, Play1(cfg(m), w, op).value))
  {
    hide Reachable;
    var s := Build(m, w);
    match op
    case Arrive(t) => ArriveReachable(cfg, m, w, t);
    case Go1(t) =>
      var w' := Play1(cfg(m), w, op).value;
      BuildUpdate(m, w, t, w'.slot, w'.others[t]);
      Extend(cfg, s, Step(t, Go), Build(m, w'));
    case Notify(t) =>
      BuildUpdate(m, w, t, w.slot.(permit := true), Finished);
      Extend(cfg, s, NotifyOne(t, None), Build(m, Play1(cfg(m), w, op).value));
  }

  lemma {:induction false} PlayReachable(cfg: Config, m: Model, w: World, ops: seq<Op>)
    requires Reachable(cfg, Build(m, w)) && cfg(m).concurrency > 0 && Play(cfg(m), w, ops).Some?
    ensures Reachable(cfg, Build(m, Play(cfg(m), w, ops).value))
    decreases |ops|
  {
    if ops != [] {
      Play1Reachable(cfg, m, w, ops[0]);
      PlayReachable(cfg, m, Play1(cfg(m), w, ops[0]).value, ops[1..]);
    }
  }

  /** The first caller creates the slot and is about to read the counter. */
  lemma FirstArrives(cfg: Config, m: Model)
    requires cfg(m).concurrency > 0
    ensures Reachable(cfg, Build(m, World(0, Slot(0, 0, false), map[0 := LoadActive(false)])))
  {
    hide Reachable;
    assert Exec(cfg, Initial, []) == Some(Initial);
    var s1 := Apply(cfg, Initial, Start(0, m));
    Extend(cfg, Initial, Start(0, m), s1);
    var s2 := Apply(cfg, s1, Allocate(0, 0));
    Extend(cfg, s1, Allocate(0, 0), s2);
    var s3 := Apply(cfg, s2, Insert(0));
    Extend(cfg, s2, Insert(0), s3);
    var target := Build(m, World(0, Slot(0, 0, false), map[0 := LoadActive(false)]));
    assert s3.callers == target.callers;
    assert s3.slots == target.slots && s3.heap == target.heap;
  }

  function Full(n: nat): World
    requires n < U32_LIMIT
  {
    World(n, Slot(n, 0, false), map[])
  }

  /** A caller that arrives below the limit takes a guard. */
  lemma TakesGuard(cfg: Config, m: Model, n: nat)
    requires n < cfg(m).concurrency
    requires Reachable(cfg, Build(m, World(n, Slot(n, 0, false), map[n := LoadActive(false)])))
    ensures Reachable(cfg, Build(m, Full(n + 1)))
  {
    hide Reachable, Build;
    var limits := cfg(m);
    var w := World(n, Slot(n, 0, false), map[n := LoadActive(false)]);
    var w1 := World(n, Slot(n, 0, false), map[n := CasActive(n, false)]);
    var w2 := World(n, Slot(n + 1, 0, false), map[n := Holding]);
    assert w.others[n := CasActive(n, false)] == w1.others && w1.others[n := Holding] == w2.others;
    assert Play1(limits, w, Go1(n)) == Some(w1) && Play1(limits, w1, Go1(n)) == Some(w2);
    Play1Reachable(cfg, m, w, Go1(n));
    Play1Reachable(cfg, m, w1, Go1(n));
    SameBuild(m, n);
  }

  lemma SameBuild(m: Model, n: nat)
    requires n + 1 < U32_LIMIT
    ensures Build(m, World(n, Slot(n + 1, 0, false), map[n := Holding])) == Build(m, Full(n + 1))
  {
    var a, b := Build(m, World(n, Slot(n + 1, 0, false), map[n := Holding])), Build(m, Full(n + 1));
    assert a.callers.Keys == b.callers.Keys;
    assert a.callers == b.callers;
  }

  /** Any number of guards up to the limit can be held at once. */
  lemma {:induction false} FullReachable(cfg: Config, m: Model, n: nat)
    requires 1 <= n <= cfg(m).concurrency
    ensures Reachable(cfg, Build(m, Full(n)))
  {
    hide Reachable, Build;
    if n == 1 {
      FirstArrives(cfg, m);
    } else {
      FullReachable(cfg, m, n - 1);
      var others := Full(n - 1).others[n - 1 := LoadActive(false)];
      assert others == map[n - 1 := LoadActive(false)];
      ArriveReachable(cfg, m, Full(n - 1), n - 1);
    }
    TakesGuard(cfg, m, n - 1);
  }

  function Others(a: Pc, b: Pc, c: Pc, d: Pc, n: nat): map<CallerId, Pc> {
    map[n := a, n + 1 := b, 0 := c, 1 := d]
  }

  /** Callers n and n + 1 see the full model. */
  lemma BothSeeFull(limits: Limits)
    requires limits.concurrency >= 2
    ensures var n: int := limits.concurrency;
            Leads(limits, Full(n), World(n, Slot(n, 0, false), map[n := LoadQueued(n), n + 1 := LoadQueued(n)]))
  {
    hide Leads;
    var n: int := limits.concurrency;
    var slot := Slot(n, 0, false);
    var w1 := World(n, slot, map[n := LoadActive(false)]);
    var w2 := World(n, slot, map[n := LoadQueued(n)]);
    var w3 := World(n, slot, map[n := LoadQueued(n), n + 1 := LoadActive(false)]);
    var w4 := World(n, slot, map[n := LoadQueued(n), n + 1 := LoadQueued(n)]);
    assert Play(limits, Full(n), []) == Some(Full(n));
    assert Full(n).others[n := LoadActive(false)] == w1.others && w1.others[n := LoadQueued(n)] == w2.others;
    assert w3.others[n + 1 := LoadQueued(n)] == w4.others;
    Then(limits, Full(n), Full(n), Arrive(n), w1);
    Then(limits, Full(n), w1, Go1(n), w2);
    Then(limits, Full(n), w2, Arrive(n + 1), w3);
    Then(limits, Full(n), w3, Go1(n + 1), w4);
  }

  /** Caller n is counted as queued, and has not polled yet. */
  lemma FirstQueues(limits: Limits)
    requires limits.concurrency >= 2 && limits.maxQueue >= 1
    ensures var n: int := limits.concurrency;
            Leads(limits, Full(n), World(n, Slot(n, 1, false), map[n := Queued, n + 1 := LoadQueued(n)]))
  {
    hide Leads;
    var n: int := limits.concurrency;
    BothSeeFull(limits);
    var w0 := World(n, Slot(n, 0, false), map[n := LoadQueued(n), n + 1 := LoadQueued(n)]);
    var w1 := World(n, Slot(n, 0, false), map[n := CasQueued(n, 0), n + 1 := LoadQueued(n)]);
    var w2 := World(n, Slot(n, 1, false), map[n := Queued, n + 1 := LoadQueued(n)]);
    assert w0.others[n := CasQueued(n, 0)] == w1.others && w1.others[n := Queued] == w2.others;
    Then(limits, Full(n), w0, Go1(n), w1);
    Then(limits, Full(n), w1, Go1(n), w2);
  }

  /** Two guards are dropped before n polls, so the two notifications leave one permit. */
  lemma TwoReleasesOnePermit(limits: Limits)
    requires limits.concurrency >= 2 && limits.maxQueue >= 1
    ensures var n: int := limits.concurrency;
            Leads(limits, Full(n), World(n, Slot(n - 2, 1, true), Others(Queued, LoadQueued(n), Finished, Finished, n)))
  {
    hide Leads;
    var n: int := limits.concurrency;
    FirstQueues(limits);
    var w0 := World(n, Slot(n, 1, false), map[n := Queued, n + 1 := LoadQueued(n)]);
    var w1 := World(n, Slot(n - 1, 1, false), w0.others[0 := Notifying(0)]);
    var w2 := World(n, Slot(n - 1, 1, true), w0.others[0 := Finished]);
    var w3 := World(n, Slot(n - 2, 1, true), w2.others[1 := Notifying(0)]);
    var w4 := World(n, Slot(n - 2, 1, true), Others(Queued, LoadQueued(n), Finished, Finished, n));
    assert w1.others[0 := Finished] == w2.others && w3.others[1 := Finished] == w4.others;
    Then(limits, Full(n), w0, Go1(0), w1);
    Then(limits, Full(n), w1, Notify(0), w2);
    Then(limits, Full(n), w2, Go1(1), w3);
    Then(limits, Full(n), w3, Notify(1), w4);
  }

  /** n takes the permit. */
  lemma FirstIsWoken(limits: Limits)
    requires limits.concurrency >= 2 && limits.maxQueue >= 1
    ensures var n: int := limits.concurrency;
            Leads(limits, Full(n),
                  World(n, Slot(n - 2, 0, false), Others(LoadActive(true), LoadQueued(n), Finished, Finished, n)))
  {
    hide Leads;
    var n: int := limits.concurrency;
    TwoReleasesOnePermit(limits);
    var b := LoadQueued(n);
    var w0 := World(n, Slot(n - 2, 1, true), Others(Queued, b, Finished, Finished, n));
    var w1 := World(n, Slot(n - 2, 1, false), Others(Awake, b, Finished, Finished, n));
    var w2 := World(n, Slot(n - 2, 0, false), Others(LoadActive(true), b, Finished, Finished, n));
    assert w0.others[n := Awake] == w1.others && w1.others[n := LoadActive(true)] == w2.others;
    Then(limits, Full(n), w0, Go1(n), w1);
    Then(limits, Full(n), w1, Go1(n), w2);
  }

  /** n takes one of the two free slots. */
  lemma FirstIsAdmitted(limits: Limits)
    requires limits.concurrency >= 2 && limits.maxQueue >= 1
    ensures var n: int := limits.concurrency;
            Leads(limits, Full(n),
                  World(n, Slot(n - 1, 0, false), Others(Holding, LoadQueued(n), Finished, Finished, n)))
  {
    hide Leads;
    var n: int := limits.concurrency;
    FirstIsWoken(limits);
    var b := LoadQueued(n);
    var w2 := World(n, Slot(n - 2, 0, false), Others(LoadActive(true), b, Finished, Finished, n));
    var w3 := World(n, Slot(n - 2, 0, false), Others(CasActive(n - 2, true), b, Finished, Finished, n));
    var w4 := World(n, Slot(n - 1, 0, false), Others(Holding, b, Finished, Finished, n));
    assert w2.others[n := CasActive(n - 2, true)] == w3.others && w3.others[n := Holding] == w4.others;
    Then(limits, Full(n), w2, Go1(n), w3);
    Then(limits, Full(n), w3, Go1(n), w4);
  }

  /** n + 1 still acts on the full model it saw, and queues. */
  lemma SecondQueues(limits: Limits)
    requires limits.concurrency >= 2 && limits.maxQueue >= 1
    ensures var n: int := limits.concurrency;
            Leads(limits, Full(n), World(n, Slot(n - 1, 1, false), Others(Holding, Queued, Finished, Finished, n)))
  {
    hide Leads;
    var n: int := limits.concurrency;
    FirstIsAdmitted(limits);
    var w0 := World(n, Slot(n - 1, 0, false), Others(Holding, LoadQueued(n), Finished, Finished, n));
    var w1 := World(n, Slot(n - 1, 0, false), Others(Holding, CasQueued(n, 0), Finished, Finished, n));
    var w2 := World(n, Slot(n - 1, 1, false), Others(Holding, Queued, Finished, Finished, n));
    assert w0.others[n + 1 := CasQueued(n, 0)] == w1.others && w1.others[n + 1 := Queued] == w2.others;
    Then(limits, Full(n), w0, Go1(n + 1), w1);
    Then(limits, Full(n), w1, Go1(n + 1), w2);
  }

  function LastWorld(n: nat): World
    requires 1 <= n < U32_LIMIT
  {
    World(n, Slot(n - 1, 1, false), Others(Holding, Parked, Finished, Finished, n))
  }

  /** n + 1 parks beside the other free slot. */
  lemma SecondParks(limits: Limits)
    requires limits.concurrency >= 2 && limits.maxQueue >= 1
    ensures Leads(limits, Full(limits.concurrency), LastWorld(limits.concurrency))
  {
    hide Leads;
    var n: int := limits.concurrency;
    SecondQueues(limits);
    var w2 := World(n, Slot(n - 1, 1, false), Others(Holding, Queued, Finished, Finished, n));
    assert w2.others[n + 1 := Parked] == LastWorld(n).others;
    Then(limits, Full(n), w2, Go1(n + 1), LastWorld(n));
  }

  lemma FreeSlotBesideParked(cfg: Config, m: Model) returns (s: State)
    requires cfg(m).concurrency >= 2 && cfg(m).maxQueue >= 1
    ensures Reachable(cfg, s) && !WorkConserving(cfg, s, m)
  {
    hide Reachable, Build, Leads, WorkConserving;
    var n := cfg(m).concurrency;
    SecondParks(cfg(m));
    LeadsReachable(cfg, m, LastWorld(n));
    s := Build(m, LastWorld(n));
    NothingPending(cfg, m, n);
  }

  lemma LeadsReachable(cfg: Config, m: Model, w: World)
    requires cfg(m).concurrency > 0 && Leads(cfg(m), Full(cfg(m).concurrency), w)
    ensures Reachable(cfg, Build(m, w))
  {
    var full := Full(cfg(m).concurrency);
    var ops :| Play(cfg(m), full, ops) == Some(w);
    FullReachable(cfg, m, cfg(m).concurrency);
    PlayReachable(cfg, m, full, ops);
  }

  lemma NothingPending(cfg: Config, m: Model, n: nat)
    requires 2 <= n == cfg(m).concurrency
    ensures !WorkConserving(cfg, Build(m, LastWorld(n)), m)
  {
    var s := Build(m, LastWorld(n));
    assert n + 1 in Callers(s, m, ParkedK);
    forall t | t in s.callers ensures !IsKind(s.callers[t].pc, ReleasingK) && !IsKind(s.callers[t].pc, WokenK) {
    }
    assert Callers(s, m, ReleasingK) == {} && Callers(s, m, WokenK) == {};
  }
}
