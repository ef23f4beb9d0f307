/** What every interleaving of the admission limiter keeps. */
module AdmissionSafety {
  import opened Prelude
  import opened Admission

  datatype Kind = HoldingK | WaitingK | ParkedK | ObservedFullK | ReleasingK | WokenK

  predicate IsKind(pc: Pc, k: Kind) {
    match k
    case HoldingK => pc.Holding?
    case WaitingK => pc.Queued? || pc.Parked? || pc.Awake? || pc.TimedOut?
    case ParkedK => pc.Parked?
    case ObservedFullK => pc.LoadQueued? || pc.CasQueued? || pc.Queued? || pc.Parked?
    case ReleasingK => pc.Notifying?
    case WokenK => pc.Awake? || (pc.LoadActive? && pc.woken) || (pc.CasActive? && pc.woken)
  }

  /** The callers of a model that are in a kind of place. */
  function Callers(s: State, m: Model, k: Kind): set<CallerId> {
    set t | t in s.callers && s.callers[t].model == m && IsKind(s.callers[t].pc, k)
  }

  lemma CardUpdate(a: set<CallerId>, b: set<CallerId>, t: CallerId, inside: bool)
    requires b == if inside then a + {t} else a - {t}
    ensures |b| == |a| - (if t in a then 1 else 0) + (if inside then 1 else 0)
  {
    assert (a - {t}) + {t} == a + {t};
    assert t !in a ==> a - {t} == a;
  }

  lemma CallersUpdate(s: State, s': State, t: CallerId, c: Caller, m: Model, k: Kind)
    requires s'.callers == s.callers[t := c]
    ensures Callers(s', m, k) ==
            if c.model == m && IsKind(c.pc, k) then Callers(s, m, k) + {t} else Callers(s, m, k) - {t}
  {
    forall u | u != t ensures u in Callers(s', m, k) <==> u in Callers(s, m, k) {
      assert u in s'.callers <==> u in s.callers;
    }
  }

  /** Somebody will re-check the counter, or the next caller to wait will be let through at once. */
  predicate WakePending(s: State, m: Model)
    requires m in s.slots && s.slots[m] in s.heap
  {
    Callers(s, m, ReleasingK) != {} || Callers(s, m, WokenK) != {} || s.heap[s.slots[m]].permit
  }

  ghost predicate ModelOk(cfg: Config, s: State, m: Model)
    requires m in s.slots && s.slots[m] in s.heap
  {
    var slot := s.heap[s.slots[m]];
    && slot.active == |Callers(s, m, HoldingK)| <= cfg(m).concurrency
    && slot.queued == |Callers(s, m, WaitingK)| <= cfg(m).maxQueue
    && (slot.permit ==> Callers(s, m, ParkedK) == {})
    && (Callers(s, m, ObservedFullK) != {} ==> slot.active >= 1 || WakePending(s, m))
  }

  /** What a caller's place says about the limits of its model. */
  predicate PcOk(limits: Limits, pc: Pc) {
    && (pc.Unlimited? ==> limits.concurrency == 0)
    && (UsesSlot(pc) || pc.Lookup? || pc.Inserting? ==> limits.concurrency > 0)
    && (match pc
        case CasActive(seen, _) => seen < limits.concurrency
        case LoadQueued(seen) => seen >= limits.concurrency
        case CasQueued(seen, queued) => seen >= limits.concurrency && queued < limits.maxQueue
        case Refused(QueueFull(active, concurrency, queued)) =>
          concurrency == limits.concurrency && active >= concurrency && queued >= limits.maxQueue
        case _ => true)
  }

  ghost predicate CallerOk(cfg: Config, s: State, t: CallerId)
    requires t in s.callers
  {
    var c := s.callers[t];
    && PcOk(cfg(c.model), c.pc)
    && (UsesSlot(c.pc) ==> c.model in s.slots && c.slot == s.slots[c.model])
    && (c.pc.Notifying? ==> c.pc.slot == c.slot)
    && (c.pc.Inserting? ==>
          && c.pc.mine in s.heap && s.heap[c.pc.mine] == Slot(0, 0, false)
          && (forall m :: m in s.slots ==> s.slots[m] != c.pc.mine)
          && (forall u :: u in s.callers && u != t && s.callers[u].pc.Inserting? ==> s.callers[u].pc.mine != c.pc.mine))
  }

  ghost predicate Inv(cfg: Config, s: State) {
    && (forall m :: m in s.slots ==> s.slots[m] in s.heap)
    && (forall m, m' :: m in s.slots && m' in s.slots && m != m' ==> s.slots[m] != s.slots[m'])
    && (forall t :: t in s.callers ==> CallerOk(cfg, s, t))
    && (forall m :: m in s.slots ==> ModelOk(cfg, s, m))
  }

  // ---- One step keeps the invariant ------------------------------------------------------

  /** A model none of whose callers or slot changed keeps its part of the invariant. */
  lemma OtherModel(cfg: Config, s: State, s': State, t: CallerId, c: Caller, m: Model)
    requires m in s.slots && s.slots[m] in s.heap && ModelOk(cfg, s, m)
    requires m in s'.slots && s'.slots[m] == s.slots[m] && s'.slots[m] in s'.heap
    requires s'.heap[s'.slots[m]] == s.heap[s.slots[m]]
    requires s'.callers == s.callers[t := c] && c.model != m && (t in s.callers ==> s.callers[t].model != m)
    ensures ModelOk(cfg, s', m)
  {
    forall k: Kind ensures Callers(s', m, k) == Callers(s, m, k) {
      CallersUpdate(s, s', t, c, m, k);
    }
  }

  function Toggled(a: set<CallerId>, t: CallerId, inside: bool): set<CallerId> {
    if inside then a + {t} else a - {t}
  }

  /** The callers of a kind after caller `t` became `c`. */
  ghost predicate KindMoved(s: State, s': State, t: CallerId, c: Caller, m: Model, k: Kind) {
    var inside := c.model == m && IsKind(c.pc, k);
    && Callers(s', m, k) == Toggled(Callers(s, m, k), t, inside)
    && |Callers(s', m, k)| ==
       |Callers(s, m, k)| - (if t in Callers(s, m, k) then 1 else 0) + (if inside then 1 else 0)
  }

  lemma Moves(s: State, s': State, t: CallerId, c: Caller, m: Model, k: Kind)
    requires s'.callers == s.callers[t := c]
    ensures KindMoved(s, s', t, c, m, k)
    ensures t in Callers(s, m, k) <==> t in s.callers && s.callers[t].model == m && IsKind(s.callers[t].pc, k)
  {
    CallersUpdate(s, s', t, c, m, k);
    CardUpdate(Callers(s, m, k), Callers(s', m, k), t, c.model == m && IsKind(c.pc, k));
  }

  /** One caller moves and at most the slot of its model changes. */
  ghost predicate MovesLocally(s: State, s': State, t: CallerId, c: Caller, slot: Slot)
    requires c.model in s.slots
  {
    && s'.slots == s.slots
    && s'.heap == s.heap[s.slots[c.model] := slot]
    && s'.callers == s.callers[t := c]
  }

  lemma LocalKeeps(cfg: Config, s: State, s': State, t: CallerId, c: Caller, slot: Slot)
    requires Inv(cfg, s) && t in s.callers && s.callers[t].model == c.model && UsesSlot(s.callers[t].pc)
    requires MovesLocally(s, s', t, c, slot) && !c.pc.Inserting?
    requires CallerOk(cfg, s', t) && ModelOk(cfg, s', c.model)
    ensures Inv(cfg, s')
  {
    forall m | m in s'.slots && m != c.model ensures ModelOk(cfg, s', m) {
      OtherModel(cfg, s, s', t, c, m);
    }
    forall u | u in s'.callers ensures CallerOk(cfg, s', u) {
      if u != t {
        assert CallerOk(cfg, s, u);
      }
    }
  }

  /** The counters of a model after one of its callers moved. */
  lemma CountersMove(cfg: Config, s: State, s': State, t: CallerId, c: Caller, slot: Slot)
    requires Inv(cfg, s) && t in s.callers && s.callers[t].model == c.model && UsesSlot(s.callers[t].pc)
    requires MovesLocally(s, s', t, c, slot)
    requires var was := s.callers[t].pc; var old_ := s.heap[s.slots[c.model]];
             && slot.active == old_.active - (if was.Holding? then 1 else 0) + (if c.pc.Holding? then 1 else 0)
             && slot.queued == old_.queued - (if IsKind(was, WaitingK) then 1 else 0)
                                           + (if IsKind(c.pc, WaitingK) then 1 else 0)
    ensures slot.active == |Callers(s', c.model, HoldingK)|
    ensures slot.queued == |Callers(s', c.model, WaitingK)|
  {
    assert ModelOk(cfg, s, c.model);
    Moves(s, s', t, c, c.model, HoldingK);
    Moves(s, s', t, c, c.model, WaitingK);
  }

  /** A counter that counts the caller is not zero, so decrementing it does not wrap. */
  lemma NotZero(cfg: Config, s: State, t: CallerId)
    requires Inv(cfg, s) && t in s.callers && UsesSlot(s.callers[t].pc)
    ensures s.callers[t].pc.Holding? ==> s.heap[s.slots[s.callers[t].model]].active >= 1
    ensures IsKind(s.callers[t].pc, WaitingK) ==> s.heap[s.slots[s.callers[t].model]].queued >= 1
  {
    var m := s.callers[t].model;
    assert CallerOk(cfg, s, t) && ModelOk(cfg, s, m);
    if s.callers[t].pc.Holding? {
      assert t in Callers(s, m, HoldingK);
    }
    if IsKind(s.callers[t].pc, WaitingK) {
      assert t in Callers(s, m, WaitingK);
    }
  }

  /** A set that was inhabited by someone else stays inhabited. */
  lemma StillInhabited(a: set<CallerId>, t: CallerId, inside: bool)
    ensures inside ==> Toggled(a, t, inside) != {}
    ensures a != {} && t !in a ==> Toggled(a, t, inside) != {}
    ensures !inside && a == {} ==> Toggled(a, t, inside) == {}
  {
    if inside {
      assert t in Toggled(a, t, inside);
    } else if t !in a {
      assert a - {t} == a;
    }
  }

  /** The parked set stays empty under a stored permit. */
  lemma ParkedMove(cfg: Config, s: State, s': State, t: CallerId, c: Caller, slot: Slot)
    requires Inv(cfg, s) && t in s.callers && s.callers[t].model == c.model && UsesSlot(s.callers[t].pc)
    requires MovesLocally(s, s', t, c, slot)
    requires slot.permit ==> s.heap[s.slots[c.model]].permit && !c.pc.Parked?
    ensures slot.permit ==> Callers(s', c.model, ParkedK) == {}
  {
    assert ModelOk(cfg, s, c.model);
    Moves(s, s', t, c, c.model, ParkedK);
  }

  /** Nobody who has seen a full model is left behind, after one caller moved. */
  lemma WaitersMove(cfg: Config, s: State, s': State, t: CallerId, c: Caller, slot: Slot)
    requires Inv(cfg, s) && t in s.callers && s.callers[t].model == c.model && UsesSlot(s.callers[t].pc)
    requires MovesLocally(s, s', t, c, slot)
    requires var was := s.callers[t].pc; var before := s.heap[s.slots[c.model]];
             slot.active >= 1 || IsKind(c.pc, ReleasingK) || IsKind(c.pc, WokenK) || slot.permit ||
             (&& before.active == 0 && !IsKind(was, ReleasingK) && !IsKind(was, WokenK) && !before.permit
              && (IsKind(c.pc, ObservedFullK) ==> IsKind(was, ObservedFullK)))
    ensures Callers(s', c.model, ObservedFullK) != {} ==> slot.active >= 1 || WakePending(s', c.model)
  {
    var m := c.model;
    var releasing, woken, observed := Callers(s, m, ReleasingK), Callers(s, m, WokenK), Callers(s, m, ObservedFullK);
    Moves(s, s', t, c, m, ObservedFullK);
    Moves(s, s', t, c, m, ReleasingK);
    Moves(s, s', t, c, m, WokenK);
    StillInhabited(releasing, t, IsKind(c.pc, ReleasingK));
    StillInhabited(woken, t, IsKind(c.pc, WokenK));
    StillInhabited(observed, t, IsKind(c.pc, ObservedFullK));
    assert observed != {} ==> s.heap[s.slots[m]].active >= 1 || WakePending(s, m) by {
      assert ModelOk(cfg, s, m);
    }
  }

  /** What one step may do to the slot and to the place of its caller. */
  predicate GoodMove(was: Pc, before: Slot, pc: Pc, slot: Slot) {
    && slot.active == before.active - (if was.Holding? then 1 else 0) + (if pc.Holding? then 1 else 0)
    && slot.queued == before.queued - (if IsKind(was, WaitingK) then 1 else 0) + (if IsKind(pc, WaitingK) then 1 else 0)
    && (slot.permit ==> before.permit && !pc.Parked?)
    && (slot.active >= 1 || IsKind(pc, ReleasingK) || IsKind(pc, WokenK) || slot.permit ||
        (&& before.active == 0 && !IsKind(was, ReleasingK) && !IsKind(was, WokenK) && !before.permit
         && (IsKind(pc, ObservedFullK) ==> IsKind(was, ObservedFullK))))
  }

  lemma LocalStepGood(limits: Limits, id: SlotId, l: Local, act: Act)
    requires LocalEnabled(l, act) && PcOk(limits, l.pc) && UsesSlot(l.pc)
    requires l.slot.active <= limits.concurrency && l.slot.queued <= limits.maxQueue
    requires l.pc.Holding? ==> l.slot.active >= 1
    requires IsKind(l.pc, WaitingK) ==> l.slot.queued >= 1
    requires l.pc.Parked? ==> !l.slot.permit
    ensures var l' := LocalStep(limits, id, l, act);
            && GoodMove(l.pc, l.slot, l'.pc, l'.slot) && PcOk(limits, l'.pc) && !l'.pc.Inserting?
            && l'.slot.active <= limits.concurrency && l'.slot.queued <= limits.maxQueue
            && (l'.pc.Notifying? ==> l'.pc.slot == id)
  {
  }

  lemma GoodMoveKeeps(cfg: Config, s: State, s': State, t: CallerId, c: Caller, slot: Slot)
    requires Inv(cfg, s) && t in s.callers && s.callers[t].model == c.model && UsesSlot(s.callers[t].pc)
    requires MovesLocally(s, s', t, c, slot) && !c.pc.Inserting?
    requires GoodMove(s.callers[t].pc, s.heap[s.slots[c.model]], c.pc, slot)
    requires slot.active <= cfg(c.model).concurrency && slot.queued <= cfg(c.model).maxQueue
    requires CallerOk(cfg, s', t)
    ensures Inv(cfg, s')
  {
    CountersMove(cfg, s, s', t, c, slot);
    ParkedMove(cfg, s, s', t, c, slot);
    WaitersMove(cfg, s, s', t, c, slot);
    LocalKeeps(cfg, s, s', t, c, slot);
  }

  /** A step of a caller on its own slot. */
  lemma OwnStepKeeps(cfg: Config, s: State, t: CallerId, act: Act)
    requires Inv(cfg, s) && Enabled(cfg, s, Step(t, act))
    ensures Inv(cfg, Apply(cfg, s, Step(t, act)))
  {
    var c := s.callers[t];
    var id, next := OwnStep(cfg, s, t, act);
    GoodMoveKeeps(cfg, s, Apply(cfg, s, Step(t, act)), t, Caller(c.model, id, next.pc), next.slot);
  }

  lemma OwnStep(cfg: Config, s: State, t: CallerId, act: Act) returns (id: SlotId, next: Local)
    requires Inv(cfg, s) && Enabled(cfg, s, Step(t, act))
    ensures var c := s.callers[t]; UsesSlot(c.pc) && c.model in s.slots && id == s.slots[c.model] && id in s.heap
    ensures Some(id) == SlotOf(s, t)
    ensures var c := s.callers[t];
            && next == LocalStep(cfg(c.model), id, Local(s.heap[id], c.pc), act)
            && GoodMove(c.pc, s.heap[id], next.pc, next.slot) && PcOk(cfg(c.model), next.pc) && !next.pc.Inserting?
            && next.slot.active <= cfg(c.model).concurrency && next.slot.queued <= cfg(c.model).maxQueue
            && (next.pc.Notifying? ==> next.pc.slot == id)
  {
    var c := s.callers[t];
    assert CallerOk(cfg, s, t) && ModelOk(cfg, s, c.model);
    id := s.slots[c.model];
    NotZero(cfg, s, t);
    assert c.pc.Parked? ==> t in Callers(s, c.model, ParkedK);
    LocalStepGood(cfg(c.model), id, Local(s.heap[id], c.pc), act);
    next := LocalStep(cfg(c.model), id, Local(s.heap[id], c.pc), act);
  }

  /** A caller outside every kind does not change who is in a kind. */
  lemma SameKinds(s: State, s': State, t: CallerId, c: Caller, m: Model)
    requires s'.callers == s.callers[t := c]
    requires forall k :: !IsKind(c.pc, k)
    requires t in s.callers ==> forall k :: !IsKind(s.callers[t].pc, k)
    ensures forall k :: Callers(s', m, k) == Callers(s, m, k)
  {
    forall k ensures Callers(s', m, k) == Callers(s, m, k) {
      CallersUpdate(s, s', t, c, m, k);
    }
  }

  lemma SameModel(cfg: Config, s: State, s': State, m: Model)
    requires m in s.slots && s.slots[m] in s.heap && ModelOk(cfg, s, m)
    requires m in s'.slots && s'.slots[m] in s'.heap && s'.heap[s'.slots[m]] == s.heap[s.slots[m]]
    requires forall k :: Callers(s', m, k) == Callers(s, m, k)
    ensures ModelOk(cfg, s', m)
  {
    assert Callers(s', m, ReleasingK) == Callers(s, m, ReleasingK);
    assert Callers(s', m, WokenK) == Callers(s, m, WokenK);
  }

  /** A caller that is not counted anywhere appears or moves; the slots keep their contents. */
  lemma UncountedKeeps(cfg: Config, s: State, s': State, t: CallerId, c: Caller)
    requires Inv(cfg, s) && (t in s.callers ==> forall k :: !IsKind(s.callers[t].pc, k))
    requires s'.callers == s.callers[t := c] && s'.slots == s.slots && (forall k :: !IsKind(c.pc, k))
    requires forall id :: id in s.heap ==> id in s'.heap && s'.heap[id] == s.heap[id]
    requires CallerOk(cfg, s', t) && (UsesSlot(c.pc) ==> c.model in s.slots)
    requires c.pc.Inserting? ==>
               forall u :: u in s.callers && u != t && s.callers[u].pc.Inserting? ==> s.callers[u].pc.mine != c.pc.mine
    ensures Inv(cfg, s')
  {
    forall m | m in s'.slots ensures ModelOk(cfg, s', m) {
      SameKinds(s, s', t, c, m);
      SameModel(cfg, s, s', m);
    }
    forall u | u in s'.callers && u != t ensures CallerOk(cfg, s', u) {
      OtherCaller(cfg, s, s', t, c, u);
    }
  }

  lemma OtherCaller(cfg: Config, s: State, s': State, t: CallerId, c: Caller, u: CallerId)
    requires u in s.callers && u != t && CallerOk(cfg, s, u)
    requires s'.callers == s.callers[t := c]
    requires forall m :: m in s.slots ==> m in s'.slots && s'.slots[m] == s.slots[m]
    requires forall id :: id in s.heap ==> id in s'.heap && s'.heap[id] == s.heap[id]
    requires s.callers[u].pc.Inserting? ==>
               && (forall m :: m in s'.slots ==> s'.slots[m] != s.callers[u].pc.mine)
               && (c.pc.Inserting? ==> c.pc.mine != s.callers[u].pc.mine)
    ensures CallerOk(cfg, s', u)
  {
  }

  lemma StartKeeps(cfg: Config, s: State, t: CallerId, m: Model)
    requires Inv(cfg, s) && Enabled(cfg, s, Start(t, m))
    ensures Inv(cfg, Apply(cfg, s, Start(t, m)))
  {
    var s' := Apply(cfg, s, Start(t, m));
    UncountedKeeps(cfg, s, s', t, s'.callers[t]);
  }

  lemma AllocateKeeps(cfg: Config, s: State, t: CallerId, id: SlotId)
    requires Inv(cfg, s) && Enabled(cfg, s, Allocate(t, id))
    ensures Inv(cfg, Apply(cfg, s, Allocate(t, id)))
  {
    var s' := Apply(cfg, s, Allocate(t, id));
    assert CallerOk(cfg, s, t);
    forall u | u in s.callers && u != t && s.callers[u].pc.Inserting? ensures s.callers[u].pc.mine != id {
      assert CallerOk(cfg, s, u);
    }
    UncountedKeeps(cfg, s, s', t, s'.callers[t]);
  }

  lemma DropUnlimitedKeeps(cfg: Config, s: State, t: CallerId)
    requires Inv(cfg, s) && Enabled(cfg, s, DropUnlimited(t))
    ensures Inv(cfg, Apply(cfg, s, DropUnlimited(t)))
  {
    var s' := Apply(cfg, s, DropUnlimited(t));
    assert CallerOk(cfg, s, t);
    UncountedKeeps(cfg, s, s', t, s'.callers[t]);
  }

  /** `slot_for` finds the slot, at the lookup or when it comes too late to insert its own. */
  lemma JoinKeeps(cfg: Config, s: State, t: CallerId)
    requires Inv(cfg, s) && t in s.callers
    requires var c := s.callers[t]; (c.pc.Lookup? || c.pc.Inserting?) && c.model in s.slots
    ensures Inv(cfg, Joined(s, t))
  {
    assert CallerOk(cfg, s, t);
    UncountedKeeps(cfg, s, Joined(s, t), t, Joined(s, t).callers[t]);
  }

  /** `slot_for` inserts the first slot of a model. */
  lemma InsertKeeps(cfg: Config, s: State, t: CallerId)
    requires Inv(cfg, s) && Enabled(cfg, s, Insert(t))
    requires s.callers[t].model !in s.slots
    ensures Inv(cfg, Apply(cfg, s, Insert(t)))
  {
    var s' := Apply(cfg, s, Insert(t));
    var c := s'.callers[t];
    var mine := s.callers[t].pc.mine;
    assert CallerOk(cfg, s, t);
    forall u | u in s'.callers && u != t ensures CallerOk(cfg, s', u) {
      assert CallerOk(cfg, s, u);
      OtherCaller(cfg, s, s', t, c, u);
    }
    InsertedModel(cfg, s, t);
    forall m | m in s'.slots && m != c.model ensures ModelOk(cfg, s', m) {
      OtherModel(cfg, s, s', t, c, m);
    }
  }

  lemma EmptyModel(cfg: Config, s: State, m: Model)
    requires m in s.slots && s.slots[m] in s.heap && s.heap[s.slots[m]] == Slot(0, 0, false)
    requires forall k :: Callers(s, m, k) == {}
    ensures ModelOk(cfg, s, m)
  {
    assert Callers(s, m, ObservedFullK) == {};
  }

  /** Before a model has a slot, none of its callers is in any kind. */
  lemma NoCallersYet(cfg: Config, s: State, m: Model)
    requires Inv(cfg, s) && m !in s.slots
    ensures forall k :: Callers(s, m, k) == {}
  {
    forall k ensures Callers(s, m, k) == {} {
      forall t | t in s.callers && s.callers[t].model == m ensures !IsKind(s.callers[t].pc, k) {
        assert CallerOk(cfg, s, t);
      }
    }
  }

  /** The model that just got its slot. */
  lemma InsertedModel(cfg: Config, s: State, t: CallerId)
    requires Inv(cfg, s) && Enabled(cfg, s, Insert(t))
    requires s.callers[t].model !in s.slots && s.callers[t].pc.mine in s.heap
    requires s.heap[s.callers[t].pc.mine] == Slot(0, 0, false)
    ensures ModelOk(cfg, Apply(cfg, s, Insert(t)), s.callers[t].model)
  {
    var s' := Apply(cfg, s, Insert(t));
    var m := s.callers[t].model;
    SameKinds(s, s', t, s'.callers[t], m);
    NoCallersYet(cfg, s, m);
    EmptyModel(cfg, s', m);
  }

  /** `notify_one` with nobody parked stores the permit. */
  lemma StorePermitKeeps(cfg: Config, s: State, t: CallerId)
    requires Inv(cfg, s) && Enabled(cfg, s, NotifyOne(t, None))
    ensures Inv(cfg, Apply(cfg, s, NotifyOne(t, None)))
  {
    var s' := Apply(cfg, s, NotifyOne(t, None));
    var c, c' := s.callers[t], s'.callers[t];
    var m := c.model;
    var slot := s'.heap[s'.slots[m]];
    assert CallerOk(cfg, s, t) && ModelOk(cfg, s, m);
    forall u | u in Callers(s, m, ParkedK) ensures false {
      assert CallerOk(cfg, s, u) && IsParkedAt(s, u, c.pc.slot);
    }
    CountersMove(cfg, s, s', t, c', slot);
    WaitersMove(cfg, s, s', t, c', slot);
    Moves(s, s', t, c', m, ParkedK);
    LocalKeeps(cfg, s, s', t, c', slot);
  }

  /** The woken caller's half of `notify_one`. */
  lemma UnparkKeeps(cfg: Config, s: State, u: CallerId)
    requires Inv(cfg, s) && u in s.callers && s.callers[u].pc.Parked?
    ensures Inv(cfg, Moved(s, u, Awake))
  {
    var woken := Moved(s, u, Awake);
    assert CallerOk(cfg, s, u) && ModelOk(cfg, s, s.callers[u].model);
    GoodMoveKeeps(cfg, s, woken, u, woken.callers[u], s.heap[s.slots[s.callers[u].model]]);
  }

  /** A release wakes a caller of its own model. */
  lemma WakesOwnModel(cfg: Config, s: State, t: CallerId, u: CallerId)
    requires Inv(cfg, s) && Enabled(cfg, s, NotifyOne(t, Some(u)))
    ensures s.callers[t].model == s.callers[u].model
  {
    assert CallerOk(cfg, s, t) && CallerOk(cfg, s, u);
    SameSlotSameModel(s, s.callers[t].model, s.callers[u].model);
  }

  /** `notify_one` hands the wake-up to a parked caller. */
  lemma WakeKeeps(cfg: Config, s: State, t: CallerId, u: CallerId)
    requires Inv(cfg, s) && Enabled(cfg, s, NotifyOne(t, Some(u)))
    ensures Inv(cfg, Apply(cfg, s, NotifyOne(t, Some(u))))
  {
    var woken := Moved(s, u, Awake);
    UnparkKeeps(cfg, s, u);
    WakesOwnModel(cfg, s, t, u);
    WokenCovers(cfg, woken, Moved(woken, t, Finished), t, u);
  }

  lemma SameSlotSameModel(s: State, m: Model, m': Model)
    requires m in s.slots && m' in s.slots && s.slots[m] == s.slots[m']
    requires forall a, b :: a in s.slots && b in s.slots && a != b ==> s.slots[a] != s.slots[b]
    ensures m == m'
  {
  }

  /** The releasing caller leaves once a woken caller has taken over. */
  lemma WokenCovers(cfg: Config, s: State, s': State, t: CallerId, u: CallerId)
    requires Inv(cfg, s) && t in s.callers && s.callers[t].pc.Notifying?
    requires s' == Moved(s, t, Finished) && u != t
    requires u in s.callers && s.callers[u].pc.Awake? && s.callers[u].model == s.callers[t].model
    ensures Inv(cfg, s')
  {
    var c := s'.callers[t];
    assert CallerOk(cfg, s, t);
    LeavesToWoken(cfg, s, s', t, c, u);
    LocalKeeps(cfg, s, s', t, c, s.heap[s.slots[c.model]]);
  }

  lemma LeavesToWoken(cfg: Config, s: State, s': State, t: CallerId, c: Caller, u: CallerId)
    requires Inv(cfg, s) && t in s.callers && s.callers[t].pc.Notifying? && s.callers[t].model in s.slots
    requires s' == Moved(s, t, Finished) && u != t && c == s'.callers[t]
    requires u in s.callers && s.callers[u].pc.Awake? && s.callers[u].model == c.model
    ensures ModelOk(cfg, s', c.model)
  {
    var slot := s.heap[s.slots[c.model]];
    assert ModelOk(cfg, s, c.model);
    CountersMove(cfg, s, s', t, c, slot);
    ParkedMove(cfg, s, s', t, c, slot);
    assert u in Callers(s', c.model, WokenK);
  }

  /** Every step of every caller keeps the invariant. */
  lemma StepKeeps(cfg: Config, s: State, e: Event)
    requires Inv(cfg, s) && Enabled(cfg, s, e)
    ensures Inv(cfg, Apply(cfg, s, e))
  {
    match e
    case Start(t, m) => StartKeeps(cfg, s, t, m);
    case Find(t) => JoinKeeps(cfg, s, t);
    case Allocate(t, id) => AllocateKeeps(cfg, s, t, id);
    case Insert(t) =>
      if s.callers[t].model in s.slots {
        JoinKeeps(cfg, s, t);
      } else {
        InsertKeeps(cfg, s, t);
      }
    case Step(t, act) => OwnStepKeeps(cfg, s, t, act);
    case NotifyOne(t, wake) =>
      match wake {
        case Some(u) => WakeKeeps(cfg, s, t, u);
        case None => StorePermitKeeps(cfg, s, t);
      }
    case DropUnlimited(t) => DropUnlimitedKeeps(cfg, s, t);
  }

  lemma {:induction false} RunKeeps(cfg: Config, s: State, run: seq<Event>)
    requires Inv(cfg, s) && Exec(cfg, s, run).Some?
    ensures Inv(cfg, Exec(cfg, s, run).value)
    decreases |run|
  {
    if run != [] {
      StepKeeps(cfg, s, run[0]);
      RunKeeps(cfg, Apply(cfg, s, run[0]), run[1..]);
    }
  }

  lemma ReachableInv(cfg: Config, s: State)
    requires Reachable(cfg, s)
    ensures Inv(cfg, s)
  {
    var run :| Exec(cfg, Initial, run) == Some(s);
    RunKeeps(cfg, Initial, run);
  }

  lemma {:induction false} ExecAppend(cfg: Config, s: State, run: seq<Event>, e: Event)
    requires Exec(cfg, s, run).Some? && Enabled(cfg, Exec(cfg, s, run).value, e)
    ensures Exec(cfg, s, run + [e]) == Some(Apply(cfg, Exec(cfg, s, run).value, e))
    decreases |run|
  {
    if run == [] {
      assert [e][1..] == [];
    } else {
      ExecAppend(cfg, Apply(cfg, s, run[0]), run[1..], e);
      assert (run + [e])[1..] == run[1..] + [e];
    }
  }

  /** A run goes on by one possible event. */
  lemma Extend(cfg: Config, s: State, e: Event, s': State)
    requires Reachable(cfg, s) && Enabled(cfg, s, e) && s' == Apply(cfg, s, e)
    ensures Reachable(cfg, s')
  {
    var run :| Exec(cfg, Initial, run) == Some(s);
    ExecAppend(cfg, Initial, run, e);
  }

  // ---- Whose step it is --------------------------------------------------------------------

  function Actor(e: Event): CallerId {
    match e
    case Start(t, _) => t
    case Find(t) => t
    case Allocate(t, _) => t
    case Insert(t) => t
    case Step(t, _) => t
    case NotifyOne(t, _) => t
    case DropUnlimited(t) => t
  }

  predicate Wakes(e: Event, t: CallerId) {
    e.NotifyOne? && e.wake == Some(t)
  }

  /** Other callers can do one thing to caller t: wake it up when it is parked. */
  lemma OthersLeave(cfg: Config, s: State, t: CallerId, e: Event)
    requires t in s.callers && Actor(e) != t && Enabled(cfg, s, e)
    ensures var s' := Apply(cfg, s, e);
            && t in s'.callers && s'.callers[t].model == s.callers[t].model && s'.callers[t].slot == s.callers[t].slot
            && (if Wakes(e, t) then s.callers[t].pc == Parked && s'.callers[t].pc == Awake
                else s'.callers[t].pc == s.callers[t].pc)
  {
  }

  /** A caller past `slot_for` has its slot, and it is the one of its model. */
  lemma Ready(cfg: Config, s: State, t: CallerId)
    requires Reachable(cfg, s) && t in s.callers && UsesSlot(s.callers[t].pc)
    ensures var c := s.callers[t];
            c.model in s.slots && s.slots[c.model] == c.slot && c.slot in s.heap && SlotOf(s, t) == Some(c.slot)
    ensures PcOk(cfg(s.callers[t].model), s.callers[t].pc)
  {
    ReachableInv(cfg, s);
    assert CallerOk(cfg, s, t);
  }
}
