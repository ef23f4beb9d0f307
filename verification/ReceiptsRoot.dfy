/**
 The root an epoch record commits to: the hash of all receipt digests in order.

 Hashing and the serialization of a receipt are arbitrary functions.
 */
module ReceiptsRoot {
  import opened Prelude
  import opened Encoding
  import opened Sessions

  type Hash = Bytes -> Bytes32
  type Serialize = ChunkReceipt -> Bytes

  /** All receipts, session by session. */
  function Flatten(sessions: seq<Session>): seq<ChunkReceipt> {
    if sessions == [] then [] else Flatten(sessions[..|sessions| - 1]) + sessions[|sessions| - 1].receipts
  }

  function Leaves(serialize: Serialize, receipts: seq<ChunkReceipt>): (l: seq<Bytes>)
    ensures |l| == |receipts|
  {
    seq(|receipts|, i requires 0 <= i < |receipts| => serialize(receipts[i]))
  }

  /** The digests of the leaves, one after the other. */
  function Digests(hash: Hash, leaves: seq<Bytes>): (d: Bytes)
    ensures |d| == 32 * |leaves|
  {
    if leaves == [] then [] else Digests(hash, leaves[..|leaves| - 1]) + hash(leaves[|leaves| - 1])
  }

  /** The root depends on the flat sequence of receipts alone, not on how they are spread over sessions. */
  method ComputeReceiptsRoot(hash: Hash, serialize: Serialize, sessions: seq<Session>) returns (root: Bytes32)
    ensures root == hash(Digests(hash, Leaves(serialize, Flatten(sessions))))
  {
    hide Digests, Leaves, Flatten;
    var hasher: Bytes := [];
    Nothing(hash, serialize);
    assert sessions[..0] == [];
    for i := 0 to |sessions|
      invariant hasher == Digests(hash, Leaves(serialize, Flatten(sessions[..i])))
    {
      ghost var before := Flatten(sessions[..i]);
      var receipts := sessions[i].receipts;
      assert before + receipts[..0] == before;
      for j := 0 to |receipts|
        invariant hasher == Digests(hash, Leaves(serialize, before + receipts[..j]))
      {
        var leaf := serialize(receipts[j]);
        hasher := hasher + hash(leaf);
        DigestsSnoc(hash, serialize, before + receipts[..j], receipts[j]);
        assert before + receipts[..j] + [receipts[j]] == before + receipts[..j + 1];
      }
      assert receipts[..|receipts|] == receipts;
      FlattenSnoc(sessions[..i], sessions[i]);
      assert sessions[..i + 1] == sessions[..i] + [sessions[i]];
    }
    assert sessions[..|sessions|] == sessions;
    root := hash(hasher);
  }

  lemma Nothing(hash: Hash, serialize: Serialize)
    ensures Digests(hash, Leaves(serialize, Flatten([]))) == []
  {
  }

  lemma FlattenSnoc(sessions: seq<Session>, s: Session)
    ensures Flatten(sessions + [s]) == Flatten(sessions) + s.receipts
  {
    assert (sessions + [s])[..|sessions|] == sessions;
  }

  lemma DigestsSnoc(hash: Hash, serialize: Serialize, receipts: seq<ChunkReceipt>, r: ChunkReceipt)
    ensures Digests(hash, Leaves(serialize, receipts + [r])) ==
            Digests(hash, Leaves(serialize, receipts)) + hash(serialize(r))
  {
    var all := Leaves(serialize, receipts + [r]);
    assert all[..|all| - 1] == Leaves(serialize, receipts);
  }

  /** The digest of leaf i sits at a fixed place. */
  lemma {:induction false} DigestAt(hash: Hash, leaves: seq<Bytes>, i: nat)
    requires i < |leaves|
    ensures Digests(hash, leaves)[32 * i..32 * (i + 1)] == hash(leaves[i])
  {
    var front, last := leaves[..|leaves| - 1], leaves[|leaves| - 1];
    var d := Digests(hash, front);
    if i < |front| {
      DigestAt(hash, front, i);
      assert (d + hash(last))[32 * i..32 * (i + 1)] == d[32 * i..32 * (i + 1)];
    }
  }

  /** Two inputs that collide, found from two leaf sequences with the same root. */
  function Culprits(hash: Hash, a: seq<Bytes>, b: seq<Bytes>): (Bytes, Bytes) {
    if Digests(hash, a) != Digests(hash, b) || |a| != |b| then (Digests(hash, a), Digests(hash, b))
    else var i := FirstDifference(a, b); if i < |a| then (a[i], b[i]) else ([], [])
  }

  function FirstDifference(a: seq<Bytes>, b: seq<Bytes>): (i: nat)
    requires |a| == |b|
    ensures i <= |a| && a[..i] == b[..i] && if i < |a| then a[i] != b[i] else a == b
  {
    if a == [] || a[0] != b[0] then 0
    else
      var i := FirstDifference(a[1..], b[1..]);
      assert a[..i + 1] == [a[0]] + a[1..][..i] && b[..i + 1] == [b[0]] + b[1..][..i];
      i + 1
  }

  /**
   The root commits to the order and content of all receipts: equal roots of
   different sequences give two inputs the hash function does not tell apart.
   */
  lemma RootCommits(hash: Hash, a: seq<Bytes>, b: seq<Bytes>)
    requires a != b && hash(Digests(hash, a)) == hash(Digests(hash, b))
    ensures var (x, y) := Culprits(hash, a, b); Collision(hash, x, y)
  {
    if |a| == |b| && Digests(hash, a) == Digests(hash, b) {
      var i := FirstDifference(a, b);
      DigestAt(hash, a, i);
      DigestAt(hash, b, i);
    }
  }

  /** In terms of receipts, for a serialization that tells them apart. */
  lemma RootCommitsToReceipts(hash: Hash, serialize: Serialize, a: seq<Session>, b: seq<Session>)
    requires forall r, s :: serialize(r) == serialize(s) ==> r == s
    requires var (x, y) := (Leaves(serialize, Flatten(a)), Leaves(serialize, Flatten(b)));
             hash(Digests(hash, x)) == hash(Digests(hash, y))
    requires Flatten(a) != Flatten(b)
    ensures var (x, y) := Culprits(hash, Leaves(serialize, Flatten(a)), Leaves(serialize, Flatten(b)));
            Collision(hash, x, y)
  {
    var x, y := Leaves(serialize, Flatten(a)), Leaves(serialize, Flatten(b));
    if x == y {
      forall i | 0 <= i < |x| ensures Flatten(a)[i] == Flatten(b)[i] {
        assert x[i] == y[i];
      }
      assert false;
    }
    RootCommits(hash, x, y);
  }
}
