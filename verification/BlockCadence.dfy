/** The block gate that spaces out streaming settlements. */
module BlockCadence {
  import opened Prelude

  /** Whether streaming settlements may run at this head, `last` being the head at which they last did. */
  predicate TeeGateOpen(everyNBlocks: u64, head: Option<u64>, last: Option<u64>) {
    if everyNBlocks == 0 then true
    else match head
      case None => false
      case Some(h) => (match last
                       case None => true
                       case Some(l) => h >= SaturatingAdd64(l, everyNBlocks))
  }

  /**
   The head is known and n blocks or more above the anchor, or there is no anchor yet,
   or the head is the last block there is and the anchor fewer than n below it.
   */
  predicate FarEnough(n: u64, head: Option<u64>, last: Option<u64>) {
    head.Some? && (last.None? || head.value - last.value >= n
                   || (head.value == LAST_BLOCK && last.value + n > LAST_BLOCK))
  }

  /**
   Without a cadence the gate is always open. With one it opens as soon as the head is
   far enough from the anchor, and stays open until the anchor moves; it is closed
   before that, and while the head is not known.
   */
  lemma GateIff(n: u64, head: Option<u64>, last: Option<u64>)
    ensures TeeGateOpen(n, head, last) <==> n == 0 || FarEnough(n, head, last)
  {
  }

  /** One tick: the head it saw, and whether it settled anything. */
  datatype Attempt = Attempt(head: Option<u64>, mutated: bool)

  predicate Advances(everyNBlocks: u64, a: Attempt, last: Option<u64>) {
    a.mutated && a.head.Some? && TeeGateOpen(everyNBlocks, a.head, last)
  }

  function NextAnchor(everyNBlocks: u64, a: Attempt, last: Option<u64>): Option<u64> {
    if Advances(everyNBlocks, a, last) then a.head else last
  }

  /** Where the anchor stands after a run of ticks of one process. */
  function AnchorAfter(everyNBlocks: u64, run: seq<Attempt>): Option<u64>
    decreases |run|
  {
    if run == [] then None
    else NextAnchor(everyNBlocks, run[|run| - 1], AnchorAfter(everyNBlocks, run[..|run| - 1]))
  }

  /** The heads at which the run moves the anchor, in order. */
  function Anchors(everyNBlocks: u64, run: seq<Attempt>): seq<u64>
    decreases |run|
  {
    if run == [] then []
    else var front, a := run[..|run| - 1], run[|run| - 1];
         Anchors(everyNBlocks, front) +
         if Advances(everyNBlocks, a, AnchorAfter(everyNBlocks, front)) then [a.head.value] else []
  }

  const LAST_BLOCK: u64 := U64_LIMIT - 1

  predicate BelowLastBlock(run: seq<Attempt>) {
    forall i :: 0 <= i < |run| && run[i].head.Some? ==> run[i].head.value < LAST_BLOCK
  }

  /** Heads that are at least n apart. */
  ghost predicate Spaced(heads: seq<u64>, n: u64) {
    forall i, j :: 0 <= i < j < |heads| ==> heads[j] >= heads[i] + n
  }

  /** The anchor stands at the last of the heads at which it has moved. */
  lemma {:induction false} AnchorIsLast(n: u64, run: seq<Attempt>)
    ensures var heads := Anchors(n, run);
            AnchorAfter(n, run) == if heads == [] then None else Some(heads[|heads| - 1])
    decreases |run|
  {
    if run != [] {
      AnchorIsLast(n, run[..|run| - 1]);
    }
  }

  /**
   Attempt k of the run settles something at the last representable block, with the
   anchor fewer than n blocks below it: the sum in the gate saturates.
   */
  predicate Saturates(n: u64, run: seq<Attempt>, k: nat)
    requires k < |run|
  {
    var last := AnchorAfter(n, run[..k]);
    run[k] == Attempt(Some(LAST_BLOCK), true) && last.Some? && last.value + n > LAST_BLOCK
  }

  /**
   With a cadence of n > 0 blocks, and whatever heads are reported, the anchor moves
   at heads that are at least n apart if and only if no attempt saturates the gate.
   */
  lemma {:induction false} SpacedIff(n: u64, run: seq<Attempt>)
    requires n > 0
    ensures Spaced(Anchors(n, run), n) <==> forall k :: 0 <= k < |run| ==> !Saturates(n, run, k)
    decreases |run|
  {
    hide AnchorAfter;
    if run != [] {
      var front, m := run[..|run| - 1], |run| - 1;
      SpacedIff(n, front);
      AnchorIsLast(n, front);
      forall k | 0 <= k < m ensures Saturates(n, run, k) <==> Saturates(n, front, k) {
        assert front[..k] == run[..k];
      }
      var heads, before := Anchors(n, run), Anchors(n, front);
      assert before == heads[..|before|];
      if Spaced(before, n) && !Saturates(n, run, m) {
        forall i, j | 0 <= i < j < |heads| ensures heads[j] >= heads[i] + n {
          if j == |before| && i < j - 1 {
            assert before[j - 1] >= before[i] + n;
          }
        }
      }
      if Spaced(heads, n) {
        forall i, j | 0 <= i < j < |before| ensures before[j] >= before[i] + n {
          assert heads[i] == before[i] && heads[j] == before[j];
        }
        if 0 < |before| < |heads| {
          assert heads[|before|] >= heads[|before| - 1] + n;
        }
      }
    }
  }

  /** The failing input: with n = 2, two settlements one block apart. */
  lemma SpacedFails()
    ensures var run := [Attempt(Some(LAST_BLOCK - 1), true), Attempt(Some(LAST_BLOCK), true)];
            Anchors(2, run) == [LAST_BLOCK - 1, LAST_BLOCK] && !Spaced(Anchors(2, run), 2)
  {
    var run := [Attempt(Some(LAST_BLOCK - 1), true), Attempt(Some(LAST_BLOCK), true)];
    assert run[..1] == [run[0]] && run[..1][..0] == [];
    assert Anchors(2, run[..1]) == [LAST_BLOCK - 1] && AnchorAfter(2, run[..1]) == Some(LAST_BLOCK - 1);
    var heads := Anchors(2, run);
    assert heads[1] - heads[0] < 2;
  }

  /** Below the last block the anchor moves at heads that are at least n apart, over any run. */
  lemma AnchorsSpaced(n: u64, run: seq<Attempt>)
    requires n > 0 && BelowLastBlock(run)
    ensures Spaced(Anchors(n, run), n)
  {
    hide Anchors, AnchorAfter, Spaced;
    SpacedIff(n, run);
  }

  /** How many of the heads lie in the window of blocks `lo` to `lo + w`. */
  function CountIn(heads: seq<u64>, lo: int, w: int): nat {
    if heads == [] then 0
    else (if lo <= heads[0] <= lo + w then 1 else 0) + CountIn(heads[1..], lo, w)
  }

  function Inside(heads: seq<u64>, lo: int, w: int): set<u64> {
    set h | h in heads && lo <= h <= lo + w
  }

  lemma OneInside(head: u64, rest: seq<u64>, lo: int, w: int)
    ensures Inside([head] + rest, lo, w) == Inside(rest, lo, w) + if lo <= head <= lo + w then {head} else {}
    ensures head !in rest ==> head !in Inside(rest, lo, w)
  {
  }

  lemma {:induction false} CountInIs(heads: seq<u64>, n: u64, lo: int, w: int)
    requires n > 0 && Spaced(heads, n)
    ensures CountIn(heads, lo, w) == |Inside(heads, lo, w)|
  {
    hide Inside;
    if heads == [] {
      NoneInside(lo, w);
    } else {
      var head, rest := heads[0], heads[1..];
      assert heads == [head] + rest;
      forall i | 0 <= i < |rest| ensures rest[i] != head {
        assert heads[i + 1] >= heads[0] + n;
      }
      CountInIs(rest, n, lo, w);
      OneInside(head, rest, lo, w);
    }
  }

  lemma NoneInside(lo: int, w: int)
    ensures Inside([], lo, w) == {}
  {
  }

  /** Any window of w blocks holds at most w / n + 1 of the heads at which the anchor moves. */
  lemma WindowBound(n: u64, run: seq<Attempt>, lo: int, w: nat)
    requires n > 0 && BelowLastBlock(run)
    ensures |set h | h in Anchors(n, run) && lo <= h <= lo + w| <= w / n + 1
  {
    hide Anchors, CountIn;
    assert Inside(Anchors(n, run), lo, w) == set h | h in Anchors(n, run) && lo <= h <= lo + w;
    AnchorsSpaced(n, run);
    CountInIs(Anchors(n, run), n, lo, w);
    CountBound(Anchors(n, run), n, lo, w);
    FitsWindow(CountIn(Anchors(n, run), lo, w), n, w);
  }

  lemma FitsWindow(k: nat, n: nat, w: nat)
    requires n > 0 && (k == 0 || n * (k - 1) <= w)
    ensures k <= w / n + 1
  {
    if k > 0 {
      QuotientBound(k - 1, n, w);
    }
  }

  /** k heads in a window of w blocks take up n * (k - 1) blocks of it. */
  lemma {:induction false} CountBound(heads: seq<u64>, n: u64, lo: int, w: int)
    requires Spaced(heads, n)
    ensures var k := CountIn(heads, lo, w); k == 0 || n * (k - 1) <= w
  {
    if heads != [] {
      var head, rest := heads[0], heads[1..];
      if lo <= head <= lo + w {
        Shrink(rest, lo, w, head + n);
        var k := CountIn(rest, lo, w);
        CountBound(rest, n, head + n, lo + w - head - n);
        if k > 0 {
          assert n * k == n * (k - 1) + n;
        }
      } else {
        CountBound(rest, n, lo, w);
      }
    }
  }

  /** Heads that all lie at `from` or later leave the first part of a window unused. */
  lemma {:induction false} Shrink(heads: seq<u64>, lo: int, w: int, from: int)
    requires forall i :: 0 <= i < |heads| ==> heads[i] >= from
    requires lo <= from
    ensures CountIn(heads, lo, w) == CountIn(heads, from, lo + w - from)
  {
    if heads != [] {
      Shrink(heads[1..], lo, w, from);
      assert heads[0] >= from;
    }
  }

  lemma QuotientBound(k: int, n: nat, w: nat)
    requires n > 0 && n * k <= w
    ensures k <= w / n
  {
    BelowNext(k, n, w, w / n);
  }

  lemma BelowNext(k: int, n: nat, w: nat, q: nat)
    requires n > 0 && n * k <= w && q == w / n
    ensures k <= q
  {
    Quotient(n, w, q);
    NextMultiple(n, q, k);
  }

  lemma Quotient(n: nat, w: nat, q: nat)
    requires n > 0 && q == w / n
    ensures w < n * q + n
  {
  }

  /**
   When the gate opens too early: exactly at the last representable block, once
   the anchor is fewer than n blocks below it, because the sum saturates.
   */
  lemma OpensTooEarlyIff(n: u64, head: u64, last: u64)
    requires n > 0
    ensures TeeGateOpen(n, Some(head), Some(last)) && head - last < n
       <==> head == LAST_BLOCK && last + n > LAST_BLOCK
  {
  }
}
