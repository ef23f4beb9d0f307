/**
 The settlement loop that serves two periodic timers with one sleep.

 Only slept seconds count as time. The endless loop is run for any number of
 passes; what it does at each wake-up is recorded in a log and compared with two
 independent clocks.
 */
module Scheduler {
  import opened Prelude

  /** What one pass of the loop does after its sleep. */
  datatype Wake = Wake(time: nat, teeTick: bool, epochBoundary: bool, epochId: u64)

  /** What two independent clocks do at second `t`. */
  function Ticks(teeEvery: u64, epochEvery: u64, t: nat): Wake
    requires teeEvery >= 1 && epochEvery >= 1
  {
    Wake(t, t % teeEvery == 0, t % epochEvery == 0, Min(t / epochEvery, U64_LIMIT - 1))
  }

  predicate Due(teeEvery: u64, epochEvery: u64, t: nat)
    requires teeEvery >= 1 && epochEvery >= 1
  {
    t % teeEvery == 0 || t % epochEvery == 0
  }

  /** The two clocks over seconds 1 to `t`: one entry for every second at which at least one of them is due. */
  function Clocks(teeEvery: u64, epochEvery: u64, t: nat): seq<Wake>
    requires teeEvery >= 1 && epochEvery >= 1
  {
    if t == 0 then []
    else Clocks(teeEvery, epochEvery, t - 1) +
         if Due(teeEvery, epochEvery, t) then [Ticks(teeEvery, epochEvery, t)] else []
  }

  /**
   `passes` turns of the loop. The log is exactly what the two clocks do up to
   the time of the last wake-up, and that wake-up is itself due, so nothing is
   skipped, nothing is raised too often, and no pass goes without work.
   */
  method RunEpochLoop(teeTickSecs: u64, epochSecs: u64, passes: nat) returns (log: seq<Wake>, now: nat)
    ensures |log| == passes
    ensures log == Clocks(Max(teeTickSecs, 1), Max(epochSecs, 1), now)
    ensures now >= passes && (passes > 0 ==> Due(Max(teeTickSecs, 1), Max(epochSecs, 1), now))
    ensures var a, b := Max(teeTickSecs, 1), Max(epochSecs, 1); passes == now / a + now / b - now / Lcm(a, b)
  {
    var teeEvery: u64 := Max(teeTickSecs, 1);
    var epochEvery: u64 := Max(epochSecs, 1);
    var teeRemain: u64 := teeEvery;
    var epochRemain: u64 := epochEvery;
    var epochId: u64 := 0;
    log, now := [], 0;
    ghost var teeCount: nat := 1;  // the number of the next TEE tick
    ghost var epochCount: nat := 1;  // the number of the next epoch boundary
    for pass := 0 to passes
      invariant |log| == pass <= now
      invariant log == Clocks(teeEvery, epochEvery, now)
      invariant 1 <= teeRemain <= teeEvery && Before(teeEvery, teeCount, now, teeRemain)
      invariant 1 <= epochRemain <= epochEvery && Before(epochEvery, epochCount, now, epochRemain)
      invariant epochId == Min(epochCount - 1, U64_LIMIT - 1)
      invariant pass > 0 ==> Due(teeEvery, epochEvery, now)
    {
      var sleepSecs := Max(Min(teeRemain, epochRemain), 1);
      Quiet(teeEvery, epochEvery, now, teeRemain, teeCount, epochRemain, epochCount, now + sleepSecs - 1);
      now := now + sleepSecs;

      teeRemain := SaturatingSub(teeRemain, sleepSecs);
      epochRemain := SaturatingSub(epochRemain, sleepSecs);
      WakeUp(teeEvery, epochEvery, now, teeRemain, teeCount, epochRemain, epochCount);

      var teeTickNow := false;
      var epochBoundary := false;
      if teeRemain == 0 {
        teeTickNow := true;
        teeRemain := teeEvery;
        teeCount := teeCount + 1;
      }
      if epochRemain == 0 {
        epochBoundary := true;
        epochRemain := epochEvery;
        epochCount := epochCount + 1;
      }
      if epochBoundary {
        epochId := SaturatingAdd64(epochId, 1);
      }
      log := log + [Wake(now, teeTickNow, epochBoundary, epochId)];
    }
    PassCount(teeEvery, epochEvery, now);
  }

  /** `r` seconds before the k-th tick of a clock. */
  ghost predicate Before(every: u64, k: nat, t: nat, r: nat) {
    t + r == every * k
  }

  /** The entry of a wake-up, and what it leaves of both periods. */
  lemma WakeUp(teeEvery: u64, epochEvery: u64, now: nat,
               teeRemain: nat, teeCount: nat, epochRemain: nat, epochCount: nat)
    requires now >= 1 && (teeRemain == 0 || epochRemain == 0)
    requires teeRemain < teeEvery && Before(teeEvery, teeCount, now, teeRemain)
    requires epochRemain < epochEvery && Before(epochEvery, epochCount, now, epochRemain)
    ensures Due(teeEvery, epochEvery, now) && teeCount >= 1 && epochCount >= 1
    ensures Ticks(teeEvery, epochEvery, now) ==
            Wake(now, teeRemain == 0, epochRemain == 0,
                 Min(if epochRemain == 0 then epochCount else epochCount - 1, U64_LIMIT - 1))
    ensures teeRemain == 0 ==> Before(teeEvery, teeCount + 1, now, teeEvery)
    ensures epochRemain == 0 ==> Before(epochEvery, epochCount + 1, now, epochEvery)
  {
    InPeriod(teeEvery, teeCount, now, teeRemain);
    InPeriod(epochEvery, epochCount, now, epochRemain);
    assert teeEvery * (teeCount + 1) == teeEvery * teeCount + teeEvery;
    assert epochEvery * (epochCount + 1) == epochEvery * epochCount + epochEvery;
  }

  // ---- Where a second lies in its period --------------------------------------------------

  lemma DivMod(every: nat, q: int, r: nat)
    requires every >= 1 && r < every && every * q + r >= 0
    ensures (every * q + r) / every == q && (every * q + r) % every == r
  {
    var n := every * q + r;
    assert n == every * (n / every) + n % every;
    NextMultiple(every, q, n / every);
    NextMultiple(every, n / every, q);
  }

  lemma InPeriod(every: nat, k: nat, t: nat, r: nat)
    requires every >= 1 && r < every && t + r == every * k
    ensures t % every == 0 <==> r == 0
    ensures t / every == if r == 0 then k else k - 1
    ensures t >= 1 ==> k >= 1
  {
    if r == 0 {
      DivMod(every, k, 0);
    } else {
      assert t == every * (k - 1) + (every - r);
      DivMod(every, k - 1, every - r);
    }
  }

  /** Before the earlier of the next two ticks neither clock does anything. */
  lemma {:induction false} Quiet(teeEvery: u64, epochEvery: u64, now: nat,
                                 teeRemain: nat, teeCount: nat, epochRemain: nat, epochCount: nat, t: nat)
    requires teeEvery >= 1 && epochEvery >= 1
    requires teeRemain <= teeEvery && Before(teeEvery, teeCount, now, teeRemain)
    requires epochRemain <= epochEvery && Before(epochEvery, epochCount, now, epochRemain)
    requires now <= t < now + Min(teeRemain, epochRemain)
    ensures Clocks(teeEvery, epochEvery, t) == Clocks(teeEvery, epochEvery, now)
    decreases t
  {
    if t > now {
      InPeriod(teeEvery, teeCount, t, teeRemain - (t - now));
      InPeriod(epochEvery, epochCount, t, epochRemain - (t - now));
      Quiet(teeEvery, epochEvery, now, teeRemain, teeCount, epochRemain, epochCount, t - 1);
    }
  }

  // ---- What the reference promises --------------------------------------------------------

  /** The log of the two clocks has an entry for a second exactly when one of them is due, and in order of time. */
  lemma {:induction false} ClocksSound(teeEvery: u64, epochEvery: u64, t: nat)
    requires teeEvery >= 1 && epochEvery >= 1
    ensures var log := Clocks(teeEvery, epochEvery, t);
            && (forall i :: 0 <= i < |log| ==>
                  1 <= log[i].time <= t && Due(teeEvery, epochEvery, log[i].time)
                  && log[i] == Ticks(teeEvery, epochEvery, log[i].time))
            && (forall i, j :: 0 <= i < j < |log| ==> log[i].time < log[j].time)
            && (forall s :: 1 <= s <= t && Due(teeEvery, epochEvery, s) ==> Ticks(teeEvery, epochEvery, s) in log)
  {
    if t > 0 {
      ClocksSound(teeEvery, epochEvery, t - 1);
      var log, before := Clocks(teeEvery, epochEvery, t), Clocks(teeEvery, epochEvery, t - 1);
      forall s | 1 <= s <= t && Due(teeEvery, epochEvery, s) ensures Ticks(teeEvery, epochEvery, s) in log {
        if s == t {
          assert log[|log| - 1] == Ticks(teeEvery, epochEvery, t);
        } else {
          assert Ticks(teeEvery, epochEvery, s) in before;
        }
      }
    }
  }

  // ---- How many passes --------------------------------------------------------------------

  predicate CommonMultiple(a: u64, b: u64, m: nat)
    requires a >= 1 && b >= 1
  {
    m >= 1 && m % a == 0 && m % b == 0
  }

  /** The least common multiple of the two periods, searched upwards from `from`. */
  function LcmFrom(a: u64, b: u64, from: nat): (m: nat)
    requires a >= 1 && b >= 1 && 1 <= from <= a * b
    ensures from <= m <= a * b && CommonMultiple(a, b, m)
    ensures forall n :: from <= n < m ==> !CommonMultiple(a, b, n)
    decreases a * b - from
  {
    if CommonMultiple(a, b, from) then from
    else
      ProductIsCommon(a, b);
      LcmFrom(a, b, from + 1)
  }

  lemma ProductIsCommon(a: u64, b: u64)
    requires a >= 1 && b >= 1
    ensures CommonMultiple(a, b, a * b)
  {
    DivMod(a, b, 0);
    DivMod(b, a, 0);
    assert a * b >= 1;
  }

  function Lcm(a: u64, b: u64): (m: nat)
    requires a >= 1 && b >= 1
    ensures CommonMultiple(a, b, m)
    ensures forall n :: 1 <= n < m ==> !CommonMultiple(a, b, n)
  {
    ProductIsCommon(a, b);
    LcmFrom(a, b, 1)
  }

  /** Both clocks are due exactly at the multiples of the least common multiple. */
  lemma BothDue(a: u64, b: u64, t: nat)
    requires a >= 1 && b >= 1
    ensures t % a == 0 && t % b == 0 <==> t % Lcm(a, b) == 0
  {
    var m := Lcm(a, b);
    var q, r := t / m, t % m;
    assert t == m * q + r;
    MultipleOf(a, m, q, r);
    MultipleOf(b, m, q, r);
    if t % a == 0 && t % b == 0 && r != 0 {
      assert CommonMultiple(a, b, r);
    }
  }

  /** Adding multiples of a multiple does not change divisibility. */
  lemma MultipleOf(a: u64, m: nat, q: nat, r: nat)
    requires a >= 1 && m % a == 0
    ensures (m * q + r) % a == r % a
  {
    var k := m / a;
    assert m == a * k;
    assert m * q + r == a * (k * q + r / a) + r % a by {
      assert (a * k) * q == a * (k * q);
      assert r == a * (r / a) + r % a;
    }
    DivMod(a, k * q + r / a, r % a);
  }

  /** A clock's count of ticks grows exactly at its ticks. */
  lemma CountGrows(every: nat, t: nat)
    requires every >= 1 && t >= 1
    ensures t / every == (t - 1) / every + if t % every == 0 then 1 else 0
  {
    var q, r := t / every, t % every;
    assert t == every * q + r;
    if r == 0 {
      assert t - 1 == every * (q - 1) + (every - 1);
      DivMod(every, q - 1, every - 1);
    } else {
      DivMod(every, q, r - 1);
    }
  }

  /** The number of passes by second `t`: both clocks' ticks, the coinciding ones counted once. */
  lemma {:induction false} PassCount(a: u64, b: u64, t: nat)
    requires a >= 1 && b >= 1
    ensures |Clocks(a, b, t)| == t / a + t / b - t / Lcm(a, b)
  {
    if t == 0 {
    } else {
      PassCount(a, b, t - 1);
      CountGrows(a, t);
      CountGrows(b, t);
      CountGrows(Lcm(a, b), t);
      BothDue(a, b, t);
    }
  }
}
