/**
 Payments do not depend on when the loop happened to settle.

 One escrow session, seen as a run of usage records, reads and settlements. A
 settlement acts on the last read, however much usage was recorded since. The
 splits are the ones the loop computes and the checks are those of the contract.
 */
module SettlementSchedule {
  import opened Prelude
  import opened Escrow
  import opened SettlementState
  import opened SettlementVisit

  datatype Event =
    | Use(cost: u256)  // usage is recorded
    | Read             // the loop reads the session
    | SettlePartial    // and settles a part of what it read

  /** The session, and what the loop has read and not yet acted upon. */
  datatype Progress = Progress(live: ChainSession, read: Option<ChainSession>)

  function Opening(amount: u256): Progress {
    Progress(NewSession(amount, false), None)
  }

  function Recorded(c: ChainSession, cost: u256): ChainSession {
    if !c.settled && c.usage + cost < U256_LIMIT then c.(usage := c.usage + cost) else c
  }

  /** Sends a settlement; the contract refuses what breaks its rules. */
  function Settled(c: ChainSession, read: ChainSession, partial: bool): ChainSession {
    var s := SplitOf(read, partial);
    if Accepts(c, s.toProvider, s.toUser, !partial) then Released(c, s.toProvider, s.toUser) else c
  }

  function Next(p: Progress, e: Event): Progress {
    match e
    case Use(cost) => p.(live := Recorded(p.live, cost))
    case Read => p.(read := if p.live.settled then None else Some(p.live))
    case SettlePartial => if p.read.Some? then Progress(Settled(p.live, p.read.value, true), None) else p
  }

  function RunFrom(p: Progress, events: seq<Event>): Progress
    decreases |events|
  {
    if events == [] then p
    else Next(RunFrom(p, events[..|events| - 1]), events[|events| - 1])
  }

  function Run(amount: u256, events: seq<Event>): Progress {
    RunFrom(Opening(amount), events)
  }

  /** The same run with nothing but its usage records. */
  function UsesOnly(events: seq<Event>): seq<Event>
    decreases |events|
  {
    if events == [] then []
    else UsesOnly(events[..|events| - 1]) + if events[|events| - 1].Use? then [events[|events| - 1]] else []
  }

  predicate OnlyUses(events: seq<Event>) {
    forall i :: 0 <= i < |events| ==> events[i].Use?
  }

  /**
   The final visit: a read, then `late` usage that is recorded before the
   settlement takes effect, then the full settlement of what was read. A session
   that is settled already is left alone.
   */
  function Final(p: Progress, late: seq<Event>): ChainSession {
    var q := RunFrom(Next(p, Read), late);
    if q.read.Some? then Settled(q.live, q.read.value, false) else q.live
  }

  // ---- Runs keep the session in order -------------------------------------------------------------

  ghost predicate InOrder(p: Progress) {
    && ChainOk(p.live) && p.live.refunded == 0
    && (p.live.settled ==> p.live.paid == p.live.opening)
    && (p.read.Some? ==> var r := p.read.value; ChainOk(r) && !r.settled && r.refunded == 0 && MoneySame(r, p.live))
  }

  /** Against the run with usage records only: the same usage, or a lock that is used up either way. */
  ghost predicate Tracks(p: Progress, q: Progress) {
    && InOrder(p) && InOrder(q) && q.read == None && q.live.paid == 0 && !q.live.settled
    && q.live.opening == p.live.opening
    && (if p.live.settled then q.live.usage >= q.live.opening else q.live.usage == p.live.usage)
  }

  lemma StepTracks(p: Progress, q: Progress, e: Event)
    requires Tracks(p, q)
    ensures Tracks(Next(p, e), if e.Use? then Next(q, e) else q)
  {
    if e.SettlePartial? && p.read.Some? {
      SplitIsExact(p.read.value, p.live, true);
    }
  }

  lemma {:induction false} RunTracks(amount: u256, events: seq<Event>)
    requires amount > 0
    ensures Tracks(Run(amount, events), Run(amount, UsesOnly(events)))
    decreases |events|
  {
    if events != [] {
      var front, e := events[..|events| - 1], events[|events| - 1];
      RunTracks(amount, front);
      StepTracks(Run(amount, front), Run(amount, UsesOnly(front)), e);
      if e.Use? {
        assert UsesOnly(events)[..|UsesOnly(events)| - 1] == UsesOnly(front);
        assert Run(amount, UsesOnly(events)) == Next(Run(amount, UsesOnly(front)), e);
      } else {
        assert UsesOnly(events) == UsesOnly(front);
      }
    }
  }

  /** Late usage leaves the read standing and the money where it was. */
  lemma {:induction false} LateUse(p: Progress, late: seq<Event>)
    requires InOrder(p) && OnlyUses(late)
    ensures var q := RunFrom(p, late); InOrder(q) && q.read == p.read && MoneySame(p.live, q.live)
    decreases |late|
  {
    if late != [] {
      LateUse(p, late[..|late| - 1]);
    }
  }

  /** The provider's due at the final visit: the smaller of the usage that was read and the opening lock. */
  lemma FinalPays(p: Progress, late: seq<Event>)
    requires InOrder(p) && OnlyUses(late)
    ensures var end := Final(p, late);
            && end.settled && end.locked == 0 && end.opening == p.live.opening
            && end.paid == Min(p.live.usage, p.live.opening) && end.refunded == end.opening - end.paid
  {
    var start := Next(p, Read);
    LateUse(start, late);
    var q := RunFrom(start, late);
    if q.read.Some? {
      SplitIsExact(q.read.value, q.live, false);
    }
  }

  /**
   However usage records, reads and partial settlements interleave, the final
   settlement leaves the provider with the smaller of the usage at the final read,
   which is all that was recorded, and the opening lock, and the user with the rest,
   exactly as a single full settlement would, and whatever is recorded between that
   read and the settlement.
   */
  lemma ScheduleIndependent(amount: u256, events: seq<Event>, late: seq<Event>, otherLate: seq<Event>)
    requires amount > 0 && OnlyUses(late) && OnlyUses(otherLate)
    ensures var p, q := Run(amount, events), Run(amount, UsesOnly(events));
            var end, single := Final(p, late), Final(q, otherLate);
            && end.settled && single.settled && end.locked == 0
            && end.paid == single.paid == Min(p.live.usage, amount) == Min(q.live.usage, amount)
            && end.refunded == single.refunded == amount - end.paid
            && (TotalUse(events) < U256_LIMIT ==> end.paid == Min(TotalUse(events), amount))
  {
    RunTracks(amount, events);
    if TotalUse(events) < U256_LIMIT {
      UsageAddsUp(amount, events);
    }
    OpeningStays(amount, events);
    FinalPays(Run(amount, events), late);
    FinalPays(Run(amount, UsesOnly(events)), otherLate);
  }

  /** All the usage of a run. */
  function TotalUse(events: seq<Event>): nat
    decreases |events|
  {
    if events == [] then 0
    else TotalUse(events[..|events| - 1]) + (match events[|events| - 1] case Use(cost) => cost case _ => 0)
  }

  lemma {:induction false} UsageAddsUp(amount: u256, events: seq<Event>)
    requires amount > 0 && TotalUse(events) < U256_LIMIT
    ensures var c := Run(amount, UsesOnly(events)).live; c.usage == TotalUse(events) && !c.settled
    decreases |events|
  {
    if events != [] {
      var front, e := events[..|events| - 1], events[|events| - 1];
      UsageAddsUp(amount, front);
      if e.Use? {
        assert UsesOnly(events)[..|UsesOnly(events)| - 1] == UsesOnly(front);
        assert Run(amount, UsesOnly(events)) == Next(Run(amount, UsesOnly(front)), e);
      } else {
        assert UsesOnly(events) == UsesOnly(front);
      }
    }
  }

  /** A read and a partial settlement pay all the usage on record, up to the lock, and refund nothing. */
  lemma PartialPays(amount: u256, events: seq<Event>)
    requires amount > 0
    ensures var p, q := Run(amount, events), Run(amount, events + [Read] + [SettlePartial]);
            q.live.paid == Min(p.live.usage, amount) && q.live.refunded == 0 && q.read == None
  {
    RunTracks(amount, events);
    OpeningStays(amount, events);
    var p, read := Run(amount, events), events + [Read];
    assert read[..|events|] == events && (read + [SettlePartial])[..|read|] == read;
    var r := Run(amount, read);
    assert r == Next(p, Read);
    assert Run(amount, read + [SettlePartial]) == Next(r, SettlePartial);
    if r.read.Some? {
      SplitIsExact(r.read.value, r.live, true);
    }
  }

  lemma {:induction false} OpeningStays(amount: u256, events: seq<Event>)
    ensures Run(amount, events).live.opening == amount
    decreases |events|
  {
    if events != [] {
      OpeningStays(amount, events[..|events| - 1]);
    }
  }

  /** A partial settlement only ever pays; nothing is refunded and no payment passes the usage before the end. */
  lemma PartialsOnlyPay(amount: u256, events: seq<Event>)
    requires amount > 0
    ensures var c := Run(amount, events).live;
            && c.refunded == 0 && c.paid + c.locked == amount && c.paid <= c.usage
            && (c.settled ==> c.paid == amount)
  {
    RunTracks(amount, events);
    OpeningStays(amount, events);
  }
}
