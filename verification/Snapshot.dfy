/** The publisher's snapshot exporter: a table of every node the lazy recursion visits, from
    which inclusion proofs can be assembled without hashing. */
module Snapshot {
  import opened Wrappers
  import opened Merkle

  /** A table key `level:start`. */
  datatype Key = Key(level: nat, start: nat)

  /** The value a tree gives a key. */
  type NodeValue = Key -> int

  ghost function TreeNodes(h: PairHash, leaves: seq<int>): NodeValue {
    (key: Key) => Node(h, leaves, key.start, key.level)
  }

  /** The keys `nodeHash(start, level)` writes over `n` leaves. */
  ghost predicate Visits(n: nat, start: nat, level: nat, key: Key)
    decreases level
  {
    || key == Key(level, start)
    || (start < n && level > 0
        && (Visits(n, start, level - 1, key) || Visits(n, start + Pow2(level - 1), level - 1, key)))
  }

  /** Every entry is the tree's node at that level and start. */
  ghost predicate TableOk(f: NodeValue, hashes: map<Key, int>) {
    forall key :: key in hashes ==> hashes[key] == f(key)
  }

  /** The table gained exactly what a visit of `start` on `level` writes. */
  ghost predicate Gained(before: map<Key, int>, after: map<Key, int>, n: nat, start: nat, level: nat) {
    forall key :: key in after <==> key in before || Visits(n, start, level, key)
  }

  class Exporter {
    const h: PairHash
    const zero: seq<int>
    const leaves: seq<int>
    var hashes: map<Key, int>

    constructor (h: PairHash, leaves: seq<int>, depth: nat)
      ensures this.h == h && this.leaves == leaves && hashes == map[]
      ensures |zero| == depth + 1 && IsZeroTable(h, zero)
    {
      this.h := h;
      this.leaves := leaves;
      var table := ZeroTable(h, depth);
      this.zero := table;
      this.hashes := map[];
    }

    method NodeHash(start: nat, level: nat) returns (v: int)
      requires level < |zero| && IsZeroTable(h, zero) && TableOk(TreeNodes(h, leaves), hashes)
      modifies this`hashes
      ensures v == TreeNodes(h, leaves)(Key(level, start))
      ensures TableOk(TreeNodes(h, leaves), hashes) && Gained(old(hashes), hashes, |leaves|, start, level)
      decreases level
    {
      var key := Key(level, start);
      ghost var f := TreeNodes(h, leaves);
      if start >= |leaves| {
        EmptyIsZero(h, zero, leaves, start, level);
        v := zero[level];
        GainedSelf(hashes, |leaves|, start, level, v);
        WritesOk(f, hashes, key, v);
        hashes := hashes[key := v];
        return;
      }
      if level == 0 {
        v := leaves[start];
        GainedSelf(hashes, |leaves|, start, level, v);
        WritesOk(f, hashes, key, v);
        hashes := hashes[key := v];
        return;
      }
      var mid := start + Pow2(level - 1);
      var left := NodeHash(start, level - 1);
      ghost var m1 := hashes;
      var right := NodeHash(mid, level - 1);
      v := h(left, right);
      GainedBoth(old(hashes), m1, hashes, |leaves|, start, level, v);
      SplitNode(h, leaves, start, level);
      WritesOk(f, hashes, key, v);
      hashes := hashes[key := v];
    }
  }

  lemma {:induction false} EmptyIsZero(h: PairHash, zero: seq<int>, leaves: seq<int>, start: nat, level: nat)
    requires level < |zero| && IsZeroTable(h, zero) && start >= |leaves|
    ensures zero[level] == TreeNodes(h, leaves)(Key(level, start))
  {
    EmptyNode(h, leaves, start, level);
  }

  lemma {:induction false} SplitNode(h: PairHash, leaves: seq<int>, start: nat, level: nat)
    requires level > 0
    ensures var f := TreeNodes(h, leaves);
            f(Key(level, start)) == h(f(Key(level - 1, start)), f(Key(level - 1, start + Pow2(level - 1))))
  {
  }

  lemma {:induction false} WritesOk(f: NodeValue, m: map<Key, int>, key: Key, v: int)
    requires TableOk(f, m) && v == f(key)
    ensures TableOk(f, m[key := v])
  {
  }

  lemma {:induction false} GainedSelf(m: map<Key, int>, n: nat, start: nat, level: nat, v: int)
    requires start >= n || level == 0
    ensures Gained(m, m[Key(level, start) := v], n, start, level)
  {
  }

  lemma {:induction false} GainedBoth(
      m0: map<Key, int>, m1: map<Key, int>, m2: map<Key, int>, n: nat, start: nat, level: nat, v: int)
    requires start < n && level > 0
    requires Gained(m0, m1, n, start, level - 1) && Gained(m1, m2, n, start + Pow2(level - 1), level - 1)
    ensures Gained(m0, m2[Key(level, start) := v], n, start, level)
  {
  }

  /** The exported table of a tree. */
  method BuildIntermediateHashes(h: PairHash, leaves: seq<int>, depth: nat) returns (hashes: map<Key, int>)
    ensures TableOk(TreeNodes(h, leaves), hashes) && Gained(map[], hashes, |leaves|, 0, depth)
    ensures Key(depth, 0) in hashes && hashes[Key(depth, 0)] == Node(h, leaves, 0, depth)
  {
    var exporter := new Exporter(h, leaves, depth);
    var root := exporter.NodeHash(0, depth);
    hashes := exporter.hashes;
    assert Visits(|leaves|, 0, depth, Key(depth, 0));
  }

  // ---- Every proof can be read off the table ----------------------------------------------

  /** The siblings of every ancestor of an existing leaf are visited. */
  lemma {:induction false} SiblingsVisited(n: nat, level: nat, index: nat, l: nat)
    requires index < n && l < level
    ensures Visits(n, FirstLeaf(Ancestor(index, level), level), level, Key(l, SiblingStart(index, l)))
    decreases level
  {
    BitsEncode(index, level);
    NextFirstLeaf(2 * Ancestor(index, level), level - 1);
    if l < level - 1 {
      SiblingsVisited(n, level - 1, index, l);
    }
  }

  /** Every path element of every leaf's inclusion proof is in the table, under the key of the
      sibling it comes from. */
  lemma {:induction false} ProofsReadable(
    h: PairHash, leaves: seq<int>, depth: nat, hashes: map<Key, int>, index: nat, l: nat)
    requires TableOk(TreeNodes(h, leaves), hashes) && Gained(map[], hashes, |leaves|, 0, depth)
    requires index < |leaves| <= Pow2(depth) && l < depth
    ensures Key(l, SiblingStart(index, l)) in hashes
    ensures hashes[Key(l, SiblingStart(index, l))] == PathOf(h, leaves, index, depth)[l]
  {
    AncestorAtTop(index, depth);
    FirstLeafOfZero(depth);
    SiblingsVisited(|leaves|, depth, index, l);
    PathElement(h, leaves, index, depth, l);
    assert TreeNodes(h, leaves)(Key(l, SiblingStart(index, l))) == Node(h, leaves, SiblingStart(index, l), l);
  }
}
