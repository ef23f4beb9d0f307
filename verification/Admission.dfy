/**
 The lock-free per-model admission limiter as a small-step machine.

 Every atomic operation of `acquire`, `slot_for` and the guard's `drop` is one
 event, so a sequence of events is one interleaving of any number of callers.
 Atomics are sequentially consistent; the weak compare-exchange may fail at any
 time. `Notify` stores at most one permit, and a timeout never consumes a
 wake-up that was already handed over.
 */
module Admission {
  import opened Prelude

  type CallerId = nat
  type SlotId = nat
  datatype Model = Model(name: string)

  datatype Limits = Limits(concurrency: u32, maxQueue: u32)

  /** The limits of every model; fixed while the node runs. */
  type Config = Model -> Limits

  datatype Slot = Slot(active: u32, queued: u32, permit: bool)

  datatype AcquireError =
    | QueueFull(active: u32, concurrency: u32, queued: u32)
    | WaitTimeout

  /**
   Where a caller is. `woken` remembers that the caller was notified and has
   neither been admitted nor seen a full model since.
   */
  datatype Pc =
    | Lookup                                            // slot_for: map lookup
    | Inserting(mine: SlotId)                          // slot_for: allocated, not yet inserted
    | LoadActive(woken: bool)
    | CasActive(seen: u32, woken: bool)
    | LoadQueued(seenActive: u32)                       // has observed a full model
    | CasQueued(seenActive: u32, seenQueued: u32)
    | Queued                                            // counted as queued, not yet polled
    | Parked                                            // registered with Notify
    | Awake                                             // notified, not yet counted out
    | TimedOut                                          // gave up, not yet counted out
    | Holding                                           // owns a limited guard
    | Unlimited                                         // owns a guard of an unlimited model
    | Notifying(slot: SlotId)                           // released: between decrement and notify
    | Finished
    | Refused(error: AcquireError)

  datatype Caller = Caller(model: Model, slot: SlotId, pc: Pc)

  datatype State = State(slots: map<Model, SlotId>, heap: map<SlotId, Slot>, callers: map<CallerId, Caller>)

  const Initial := State(map[], map[], map[])

  /** What a caller's next poll does: its next atomic step, a failed weak compare-exchange, or an expired wait. */
  datatype Act = Go | Fail | Expire

  datatype Event =
    | Start(t: CallerId, model: Model)                  // a request arrives
    | Find(t: CallerId)                                 // slot_for: the map already has the slot
    | Allocate(t: CallerId, slot: SlotId)               // slot_for: it does not; allocate one
    | Insert(t: CallerId)                               // slot_for: entry().or_insert_with()
    | Step(t: CallerId, act: Act)                       // a step on the caller's own slot
    | NotifyOne(t: CallerId, wake: Option<CallerId>)    // the second half of a release
    | DropUnlimited(t: CallerId)

  /** The caller is past `slot_for` and still uses its slot. */
  predicate UsesSlot(pc: Pc) {
    !pc.Lookup? && !pc.Inserting? && !pc.Unlimited? && !pc.Finished? && !pc.Refused?
  }

  predicate IsParkedAt(s: State, u: CallerId, slot: SlotId) {
    u in s.callers && s.callers[u].pc.Parked? && s.callers[u].slot == slot
  }

  // ---- One caller and its slot ------------------------------------------------------------

  datatype Local = Local(slot: Slot, pc: Pc)

  predicate LocalEnabled(l: Local, act: Act) {
    match act
    case Go =>
      (match l.pc
       case LoadActive(_) => true
       case CasActive(seen, _) => l.slot.active == seen
       case LoadQueued(_) => true
       case CasQueued(_, seen) => l.slot.queued == seen
       case Queued => true
       case Awake => true
       case TimedOut => true
       case Holding => true
       case _ => false)
    case Fail => l.pc.CasActive? || l.pc.CasQueued?
    case Expire => l.pc.Parked?
  }

  function LocalStep(limits: Limits, id: SlotId, l: Local, act: Act): Local {
    match act
    case Go => LocalGo(limits, id, l)
    case Fail => l.(pc := LoadActive(l.pc.CasActive? && l.pc.woken))
    case Expire => l.(pc := TimedOut)
  }

  function LocalGo(limits: Limits, id: SlotId, l: Local): Local {
    var slot := l.slot;
    match l.pc
    case LoadActive(woken) =>
      l.(pc := if slot.active < limits.concurrency then CasActive(slot.active, woken) else LoadQueued(slot.active))
    case CasActive(seen, _) =>
      Local(slot.(active := WrappingInc32(seen)), Holding)
    case LoadQueued(seenActive) =>
      l.(pc := if limits.maxQueue == 0 || slot.queued >= limits.maxQueue
               then Refused(QueueFull(seenActive, limits.concurrency, slot.queued))
               else CasQueued(seenActive, slot.queued))
    case CasQueued(_, seen) =>
      Local(slot.(queued := WrappingInc32(seen)), Queued)
    case Queued =>
      if slot.permit then Local(slot.(permit := false), Awake) else l.(pc := Parked)
    case Awake =>
      Local(slot.(queued := WrappingDec32(slot.queued)), LoadActive(true))
    case TimedOut =>
      Local(slot.(queued := WrappingDec32(slot.queued)), Refused(WaitTimeout))
    case Holding =>
      Local(slot.(active := WrappingDec32(slot.active)), Notifying(id))
    case _ => l
  }

  // ---- The whole limiter ------------------------------------------------------------------

  /** A live caller works on the slot it cloned; a release looks the slot up again by model name. */
  function SlotOf(s: State, t: CallerId): Option<SlotId>
    requires t in s.callers
  {
    var c := s.callers[t];
    if c.pc.Holding? then (if c.model in s.slots then Some(s.slots[c.model]) else None) else Some(c.slot)
  }

  predicate Enabled(cfg: Config, s: State, e: Event) {
    match e
    case Start(t, _) => t !in s.callers
    case Find(t) => t in s.callers && s.callers[t].pc.Lookup? && s.callers[t].model in s.slots
    case Allocate(t, slot) =>
      t in s.callers && s.callers[t].pc.Lookup? && s.callers[t].model !in s.slots && slot !in s.heap
    case Insert(t) => t in s.callers && s.callers[t].pc.Inserting?
    case Step(t, act) =>
      t in s.callers &&
      SlotOf(s, t).Some? && SlotOf(s, t).value in s.heap &&
      LocalEnabled(Local(s.heap[SlotOf(s, t).value], s.callers[t].pc), act)
    case NotifyOne(t, wake) =>
      t in s.callers && s.callers[t].pc.Notifying? && s.callers[t].pc.slot in s.heap &&
      (match wake
       case Some(u) => u != t && IsParkedAt(s, u, s.callers[t].pc.slot)
       case None => forall u :: u in s.callers ==> !IsParkedAt(s, u, s.callers[t].pc.slot))
    case DropUnlimited(t) => t in s.callers && s.callers[t].pc.Unlimited?
  }

  function Moved(s: State, t: CallerId, pc: Pc): State
    requires t in s.callers
  {
    s.(callers := s.callers[t := s.callers[t].(pc := pc)])
  }

  function Apply(cfg: Config, s: State, e: Event): State
    requires Enabled(cfg, s, e)
  {
    match e
    case Start(t, model) =>
      s.(callers := s.callers[t := Caller(model, 0, if cfg(model).concurrency == 0 then Unlimited else Lookup)])
    case Find(t) => Joined(s, t)
    case Allocate(t, slot) => Moved(s.(heap := s.heap[slot := Slot(0, 0, false)]), t, Inserting(slot))
    case Insert(t) =>
      var c := s.callers[t];
      Joined(if c.model in s.slots then s else s.(slots := s.slots[c.model := c.pc.mine]), t)
    case Step(t, act) =>
      var c := s.callers[t];
      var id := SlotOf(s, t).value;
      var next := LocalStep(cfg(c.model), id, Local(s.heap[id], c.pc), act);
      State(s.slots, s.heap[id := next.slot], s.callers[t := Caller(c.model, id, next.pc)])
    case NotifyOne(t, wake) =>
      var id := s.callers[t].pc.slot;
      (match wake
       case Some(u) => Moved(Moved(s, u, Awake), t, Finished)
       case None => Moved(s.(heap := s.heap[id := s.heap[id].(permit := true)]), t, Finished))
    case DropUnlimited(t) => Moved(s, t, Finished)
  }

  /** The caller clones the slot of its model and enters the acquire loop. */
  function Joined(s: State, t: CallerId): State
    requires t in s.callers && s.callers[t].model in s.slots
  {
    var c := s.callers[t];
    s.(callers := s.callers[t := c.(slot := s.slots[c.model], pc := LoadActive(false))])
  }

  /** The state after a run, or None when the run takes a step that is not possible. */
  function Exec(cfg: Config, s: State, run: seq<Event>): Option<State>
    decreases |run|
  {
    if run == [] then Some(s)
    else if Enabled(cfg, s, run[0]) then Exec(cfg, Apply(cfg, s, run[0]), run[1..])
    else None
  }

  ghost predicate Reachable(cfg: Config, s: State) {
    exists run :: Exec(cfg, Initial, run) == Some(s)
  }
}
