/** Fixed-depth Merkle trees over an arbitrary pair hash: the eager recursion of the Rust scanner,
    the lazy one of the two TypeScript services, inclusion proofs and their binding. */
module Merkle {
  import opened Wrappers

  type PairHash = (int, int) -> int

  /** The leaf at `i`, with the zero leaf beyond the inserted ones. */
  function Padded(leaves: seq<int>, i: nat): int {
    if i < |leaves| then leaves[i] else 0
  }

  /** The eager recursion (`compute_root_from`). */
  function Node(h: PairHash, leaves: seq<int>, start: nat, level: nat): int
    decreases level
  {
    if level == 0 then Padded(leaves, start)
    else h(Node(h, leaves, start, level - 1), Node(h, leaves, start + Pow2(level - 1), level - 1))
  }

  /** The root of a subtree that holds no leaf. */
  function ZeroHash(h: PairHash, level: nat): int {
    if level == 0 then 0 else h(ZeroHash(h, level - 1), ZeroHash(h, level - 1))
  }

  predicate IsZeroTable(h: PairHash, zero: seq<int>) {
    forall k :: 0 <= k < |zero| ==> zero[k] == ZeroHash(h, k)
  }

  /** The lazy recursion (`rootFrom`): subtrees past the last leaf come from the zero table. */
  function LazyNode(h: PairHash, zero: seq<int>, leaves: seq<int>, start: nat, level: nat): int
    requires level < |zero|
    decreases level
  {
    if start >= |leaves| then zero[level]
    else if level == 0 then leaves[start]
    else h(LazyNode(h, zero, leaves, start, level - 1), LazyNode(h, zero, leaves, start + Pow2(level - 1), level - 1))
  }

  lemma {:induction false} EmptyNode(h: PairHash, leaves: seq<int>, start: nat, level: nat)
    requires start >= |leaves|
    ensures Node(h, leaves, start, level) == ZeroHash(h, level)
    decreases level
  {
    if level > 0 {
      EmptyNode(h, leaves, start, level - 1);
      EmptyNode(h, leaves, start + Pow2(level - 1), level - 1);
    }
  }

  /** The lazy recursion computes the eager one. */
  lemma {:induction false} LazyIsEager(h: PairHash, zero: seq<int>, leaves: seq<int>, start: nat, level: nat)
    requires level < |zero| && IsZeroTable(h, zero)
    ensures LazyNode(h, zero, leaves, start, level) == Node(h, leaves, start, level)
    decreases level
  {
    if start >= |leaves| {
      EmptyNode(h, leaves, start, level);
    } else if level > 0 {
      LazyIsEager(h, zero, leaves, start, level - 1);
      LazyIsEager(h, zero, leaves, start + Pow2(level - 1), level - 1);
    }
  }

  // ---- Cost -------------------------------------------------------------------------------

  /** A value and the number of hash calls made for it. */
  datatype Counted = Counted(value: int, calls: nat)

  function HashCounted(h: PairHash, left: Counted, right: Counted): Counted {
    Counted(h(left.value, right.value), left.calls + right.calls + 1)
  }

  /** The eager recursion, counting. */
  function CountedNode(h: PairHash, leaves: seq<int>, start: nat, level: nat): Counted
    decreases level
  {
    if level == 0 then Counted(Padded(leaves, start), 0)
    else HashCounted(h, CountedNode(h, leaves, start, level - 1),
        CountedNode(h, leaves, start + Pow2(level - 1), level - 1))
  }

  /** The lazy recursion, counting. */
  function CountedLazyNode(h: PairHash, zero: seq<int>, leaves: seq<int>, start: nat, level: nat): Counted
    requires level < |zero|
    decreases level
  {
    if start >= |leaves| then Counted(zero[level], 0)
    else if level == 0 then Counted(leaves[start], 0)
    else
      HashCounted(h, CountedLazyNode(h, zero, leaves, start, level - 1),
                  CountedLazyNode(h, zero, leaves, start + Pow2(level - 1), level - 1))
  }

  /** The eager recursion computes its node with `2^level - 1` hash calls. */
  lemma {:induction false} EagerCost(h: PairHash, leaves: seq<int>, start: nat, level: nat)
    ensures CountedNode(h, leaves, start, level) == Counted(Node(h, leaves, start, level), Pow2(level) - 1)
    decreases level
  {
    if level > 0 {
      EagerCost(h, leaves, start, level - 1);
      EagerCost(h, leaves, start + Pow2(level - 1), level - 1);
    }
  }

  lemma {:induction false} LazyCounts(h: PairHash, zero: seq<int>, leaves: seq<int>, start: nat, level: nat)
    requires level < |zero|
    ensures var c := CountedLazyNode(h, zero, leaves, start, level);
            c.value == LazyNode(h, zero, leaves, start, level) && c.calls <= Pow2(level) - 1
    decreases level
  {
    if start < |leaves| && level > 0 {
      LazyCounts(h, zero, leaves, start, level - 1);
      LazyCounts(h, zero, leaves, start + Pow2(level - 1), level - 1);
    }
  }

  /** The lazy recursion computes its node, with fewer than `n + level` hash calls for the `n`
      leaves from `start` on. */
  lemma LazyCost(h: PairHash, zero: seq<int>, leaves: seq<int>, start: nat, level: nat)
    requires level < |zero| && start < |leaves|
    ensures var c := CountedLazyNode(h, zero, leaves, start, level);
            c.value == LazyNode(h, zero, leaves, start, level) && c.calls < |leaves| - start + level
  {
    LazyCounts(h, zero, leaves, start, level);
    FewCalls(h, zero, leaves, start, level);
  }

  lemma {:induction false} FewCalls(h: PairHash, zero: seq<int>, leaves: seq<int>, start: nat, level: nat)
    requires level < |zero| && start < |leaves|
    ensures CountedLazyNode(h, zero, leaves, start, level).calls < |leaves| - start + level
    decreases level
  {
    if level > 0 {
      var mid := start + Pow2(level - 1);
      if mid < |leaves| {
        LazyCounts(h, zero, leaves, start, level - 1);
        FewCalls(h, zero, leaves, mid, level - 1);
      } else {
        FewCalls(h, zero, leaves, start, level - 1);
      }
    }
  }

  // ---- Proofs -----------------------------------------------------------------------------

  datatype Proof = Proof(leaf: int, elements: seq<int>, indices: seq<nat>, root: int)

  datatype Error = TreeFull(capacity: nat, count: nat) | IndexOutOfBounds(index: nat, count: nat)
  datatype Result<T> = Ok(value: T) | Err(error: Error)

  function Combine(h: PairHash, x: int, sibling: int, bit: nat): int {
    if bit == 0 then h(x, sibling) else h(sibling, x)
  }

  /** Hashing a leaf up along a path. */
  function Climb(h: PairHash, leaf: int, elements: seq<int>, indices: seq<nat>): int
    requires |elements| <= |indices|
  {
    if elements == [] then leaf
    else
      var k := |elements| - 1;
      Combine(h, Climb(h, leaf, elements[..k], indices[..k]), elements[k], indices[k])
  }

  predicate Verifies(h: PairHash, p: Proof)
    requires |p.elements| <= |p.indices|
  {
    Climb(h, p.leaf, p.elements, p.indices) == p.root
  }

  /** The number whose bits, lowest first, are the directions of a path. */
  function IndexOf(indices: seq<nat>): nat {
    if indices == [] then 0
    else
      var k := |indices| - 1;
      IndexOf(indices[..k]) + (if indices[k] == 0 then 0 else Pow2(k))
  }

  /** `i ^ 1`. */
  function Sibling(i: nat): nat {
    if i % 2 == 0 then i + 1 else i - 1
  }

  /** The first leaf under node `index` of `level`, that is `index << level`. */
  function FirstLeaf(index: nat, level: nat): nat
    decreases level
  {
    if level == 0 then index else FirstLeaf(2 * index, level - 1)
  }

  lemma {:induction false} FirstLeafOfZero(level: nat)
    ensures FirstLeaf(0, level) == 0
  {
    if level > 0 {
      FirstLeafOfZero(level - 1);
    }
  }

  lemma {:induction false} FirstLeafIsProduct(index: nat, level: nat)
    ensures FirstLeaf(index, level) == index * Pow2(level)
    decreases level
  {
    if level > 0 {
      FirstLeafIsProduct(2 * index, level - 1);
      assert 2 * index * Pow2(level - 1) == index * (2 * Pow2(level - 1));
    }
  }

  lemma {:induction false} NextFirstLeaf(index: nat, level: nat)
    ensures FirstLeaf(index + 1, level) == FirstLeaf(index, level) + Pow2(level)
    decreases level
  {
    if level > 0 {
      NextFirstLeaf(2 * index, level - 1);
      NextFirstLeaf(2 * index + 1, level - 1);
    }
  }

  /** A parent hashes its two children, whichever of them we come from. */
  lemma {:induction false} NodeOfParent(h: PairHash, leaves: seq<int>, half: nat, bit: nat, level: nat)
    requires bit < 2
    ensures var cur := 2 * half + bit;
            Node(h, leaves, FirstLeaf(half, level + 1), level + 1) ==
            Combine(h, Node(h, leaves, FirstLeaf(cur, level), level),
                    Node(h, leaves, FirstLeaf(Sibling(cur), level), level), bit)
  {
    NextFirstLeaf(2 * half, level);
  }

  lemma {:induction false} IndexBound(indices: seq<nat>)
    ensures IndexOf(indices) < Pow2(|indices|)
  {
    if indices != [] {
      IndexBound(indices[..|indices| - 1]);
    }
  }

  // ---- Binding ----------------------------------------------------------------------------

  ghost predicate Injective(h: PairHash) {
    forall a, b, c, d :: h(a, b) == h(c, d) ==> a == c && b == d
  }

  /** Two different pairs with one hash. */
  predicate Collides(h: PairHash, a: int, b: int, c: int, d: int) {
    (a != c || b != d) && h(a, b) == h(c, d)
  }

  /** A path that leads from a wrong leaf to the right node contains a hash collision, and this
      finds it: no assumption on the hash is needed. */
  lemma {:induction false} ForgeryCollides(
      h: PairHash, leaves: seq<int>, start: nat, leaf: int, elements: seq<int>, indices: seq<nat>)
    returns (a: int, b: int, c: int, d: int)
    requires |elements| == |indices|
    requires Climb(h, leaf, elements, indices) == Node(h, leaves, start, |elements|)
    requires leaf != Padded(leaves, start + IndexOf(indices))
    ensures Collides(h, a, b, c, d)
    decreases |elements|
  {
    if elements == [] {
      assert false;
    } else {
      var k := |elements| - 1;
      var x := Climb(h, leaf, elements[..k], indices[..k]);
      var left, right := Node(h, leaves, start, k), Node(h, leaves, start + Pow2(k), k);
      if indices[k] == 0 {
        a, b, c, d := x, elements[k], left, right;
        if x == left && elements[k] == right {
          a, b, c, d := ForgeryCollides(h, leaves, start, leaf, elements[..k], indices[..k]);
        }
      } else {
        a, b, c, d := elements[k], x, left, right;
        if elements[k] == left && x == right {
          a, b, c, d := ForgeryCollides(h, leaves, start + Pow2(k), leaf, elements[..k], indices[..k]);
        }
      }
    }
  }

  /** Binding: with an injective hash, a path of the tree's depth that verifies against the root
      carries exactly the zero-padded leaf its direction bits point at. */
  lemma {:induction false} ProofsBind(h: PairHash, leaves: seq<int>, depth: nat, p: Proof)
    requires Injective(h) && |p.elements| == |p.indices| == depth
    requires p.root == Node(h, leaves, 0, depth) && Verifies(h, p)
    ensures p.leaf == Padded(leaves, IndexOf(p.indices)) && IndexOf(p.indices) < Pow2(depth)
  {
    IndexBound(p.indices);
    if p.leaf != Padded(leaves, IndexOf(p.indices)) {
      var a, b, c, d := ForgeryCollides(h, leaves, 0, p.leaf, p.elements, p.indices);
      assert false;
    }
  }

  predicate Agree(xs: seq<int>, ys: seq<int>, start: nat, n: nat) {
    forall i :: start <= i < start + n ==> Padded(xs, i) == Padded(ys, i)
  }

  lemma {:induction false} AgreeingNodes(h: PairHash, xs: seq<int>, ys: seq<int>, start: nat, level: nat)
    requires Agree(xs, ys, start, Pow2(level))
    ensures Node(h, xs, start, level) == Node(h, ys, start, level)
    decreases level
  {
    if level == 0 {
      assert Padded(xs, start) == Padded(ys, start);
    } else {
      AgreeingNodes(h, xs, ys, start, level - 1);
      AgreeingNodes(h, xs, ys, start + Pow2(level - 1), level - 1);
    }
  }

  lemma {:induction false} EqualNodes(h: PairHash, xs: seq<int>, ys: seq<int>, start: nat, level: nat)
    requires Injective(h) && Node(h, xs, start, level) == Node(h, ys, start, level)
    ensures Agree(xs, ys, start, Pow2(level))
    decreases level
  {
    if level == 0 {
      forall i | start <= i < start + Pow2(level)
        ensures Padded(xs, i) == Padded(ys, i)
      {
        assert i == start;
      }
    } else {
      var w := Pow2(level - 1);
      EqualNodes(h, xs, ys, start, level - 1);
      EqualNodes(h, xs, ys, start + w, level - 1);
      forall i | start <= i < start + Pow2(level)
        ensures Padded(xs, i) == Padded(ys, i)
      {
        if i < start + w {
          assert Padded(xs, i) == Padded(ys, i);
        } else {
          assert start + w <= i < start + w + w;
        }
      }
    }
  }

  /** Two leaf lists of one depth have equal roots exactly when they agree after zero padding, so
      comparing roots detects every change but trailing zero leaves. */
  lemma {:induction false} RootsEqualIffLeavesAgree(h: PairHash, xs: seq<int>, ys: seq<int>, depth: nat)
    requires Injective(h)
    ensures Node(h, xs, 0, depth) == Node(h, ys, 0, depth) <==> Agree(xs, ys, 0, Pow2(depth))
  {
    if Node(h, xs, 0, depth) == Node(h, ys, 0, depth) {
      EqualNodes(h, xs, ys, 0, depth);
    }
    if Agree(xs, ys, 0, Pow2(depth)) {
      AgreeingNodes(h, xs, ys, 0, depth);
    }
  }

  // ---- The trees --------------------------------------------------------------------------

  /** `zero` as the constructors fill it. */
  method ZeroTable(h: PairHash, depth: nat) returns (zero: seq<int>)
    ensures |zero| == depth + 1 && IsZeroTable(h, zero)
  {
    zero := [0];
    for i := 0 to depth
      invariant |zero| == i + 1 && IsZeroTable(h, zero)
    {
      zero := zero + [h(zero[i], zero[i])];
    }
  }

  /** `verify_proof`. */
  method VerifyProof(h: PairHash, p: Proof) returns (ok: bool)
    requires |p.elements| <= |p.indices|
    ensures ok == Verifies(h, p)
  {
    var current := p.leaf;
    for i := 0 to |p.elements|
      invariant current == Climb(h, p.leaf, p.elements[..i], p.indices[..i])
    {
      assert p.elements[..i + 1][..i] == p.elements[..i] && p.indices[..i + 1][..i] == p.indices[..i];
      if p.indices[i] == 0 {
        current := h(current, p.elements[i]);
      } else {
        current := h(p.elements[i], current);
      }
    }
    assert p.elements[..|p.elements|] == p.elements;
    ClimbIgnoresTail(h, p.leaf, p.elements, p.indices);
    ok := current == p.root;
  }

  lemma {:induction false} ClimbIgnoresTail(h: PairHash, leaf: int, elements: seq<int>, indices: seq<nat>)
    requires |elements| <= |indices|
    ensures Climb(h, leaf, elements, indices[..|elements|]) == Climb(h, leaf, elements, indices)
  {
    if elements != [] {
      var k := |elements| - 1;
      assert indices[..|elements|][..k] == indices[..k];
    }
  }

  class Tree {
    const h: PairHash
    const depth: nat
    const zero: seq<int>
    var leaves: seq<int>

    ghost predicate Valid()
      reads this
    {
      |zero| == depth + 1 && IsZeroTable(h, zero) && |leaves| <= Pow2(depth)
    }

    ghost function TrueRoot(): int
      reads this
    {
      Node(h, leaves, 0, depth)
    }

    constructor (h: PairHash, depth: nat)
      ensures Valid() && leaves == [] && this.h == h && this.depth == depth
    {
      this.h := h;
      this.depth := depth;
      var table := ZeroTable(h, depth);
      this.zero := table;
      this.leaves := [];
    }

    method Insert(leaf: int) returns (r: Result<nat>)
      requires Valid()
      modifies this`leaves
      ensures Valid()
      ensures |old(leaves)| < Pow2(depth) ==> r == Ok(|old(leaves)|) && leaves == old(leaves) + [leaf]
      ensures |old(leaves)| == Pow2(depth) ==> r == Err(TreeFull(Pow2(depth), |leaves|)) && leaves == old(leaves)
    {
      if |leaves| >= Pow2(depth) {
        return Err(TreeFull(Pow2(depth), |leaves|));
      }
      r := Ok(|leaves|);
      leaves := leaves + [leaf];
    }

    /** The lazy `node(index, level)`. */
    method NodeAt(index: nat, level: nat) returns (v: int)
      requires Valid() && level <= depth
      ensures v == Node(h, leaves, FirstLeaf(index, level), level)
    {
      FirstLeafIsProduct(index, level);
      v := LazyNode(h, zero, leaves, index * Pow2(level), level);
      LazyIsEager(h, zero, leaves, index * Pow2(level), level);
    }

    method Root() returns (v: int)
      requires Valid()
      ensures v == TrueRoot()
    {
      v := LazyNode(h, zero, leaves, 0, depth);
      LazyIsEager(h, zero, leaves, 0, depth);
    }

    /** Completeness: every leaf has a proof, and it verifies against the root. */
    method Prove(index: nat) returns (r: Result<Proof>)
      requires Valid()
      ensures index >= |leaves| ==> r == Err(IndexOutOfBounds(index, |leaves|))
      ensures index < |leaves| ==>
                && r == Ok(Proof(leaves[index], PathOf(h, leaves, index, depth), BitsOf(index, depth), TrueRoot()))
                && Verifies(h, r.value) && IndexOf(r.value.indices) == index
    {
      if index >= |leaves| {
        return Err(IndexOutOfBounds(index, |leaves|));
      }
      var elements: seq<int>, indices: seq<nat> := [], [];
      var cur: nat := index;
      for level := 0 to depth
        invariant elements == PathOf(h, leaves, index, level)
        invariant indices == BitsOf(index, level)
        invariant cur == Ancestor(index, level)
      {
        var sibling := NodeAt(Sibling(cur), level);
        elements, indices, cur := elements + [sibling], indices + [cur % 2], cur / 2;
      }
      var root := Root();
      r := Ok(Proof(leaves[index], elements, indices, root));
      ProofsVerify(h, leaves, depth, index);
    }
  }

  /** Completeness: the path and bits of any leaf verify against the root and name its index. */
  lemma {:induction false} ProofsVerify(h: PairHash, leaves: seq<int>, depth: nat, index: nat)
    requires index < Pow2(depth)
    ensures Verifies(h, Proof(Padded(leaves, index), PathOf(h, leaves, index, depth), BitsOf(index, depth),
                              Node(h, leaves, 0, depth)))
    ensures IndexOf(BitsOf(index, depth)) == index
  {
    PathReaches(h, leaves, index, depth);
    BitsEncode(index, depth);
    AncestorAtTop(index, depth);
    FirstLeafOfZero(depth);
  }

  /** The ancestor of leaf `index` at `level`, by repeated halving. */
  function Ancestor(index: nat, level: nat): nat {
    if level == 0 then index else Ancestor(index, level - 1) / 2
  }

  /** First leaf under the sibling of that ancestor. */
  function SiblingStart(index: nat, level: nat): nat {
    FirstLeaf(Sibling(Ancestor(index, level)), level)
  }

  /** The siblings on the way up from `index` through `levels` levels. */
  function PathOf(h: PairHash, leaves: seq<int>, index: nat, levels: nat): (path: seq<int>)
    ensures |path| == levels
  {
    if levels == 0 then []
    else PathOf(h, leaves, index, levels - 1) + [Node(h, leaves, SiblingStart(index, levels - 1), levels - 1)]
  }

  /** The low bits of `index`, lowest first. */
  function BitsOf(index: nat, levels: nat): (bits: seq<nat>)
    ensures |bits| == levels
  {
    if levels == 0 then [] else BitsOf(index, levels - 1) + [Ancestor(index, levels - 1) % 2]
  }

  lemma {:induction false} PathElement(h: PairHash, leaves: seq<int>, index: nat, levels: nat, l: nat)
    requires l < levels
    ensures PathOf(h, leaves, index, levels)[l] == Node(h, leaves, SiblingStart(index, l), l)
  {
    if l < levels - 1 {
      PathElement(h, leaves, index, levels - 1, l);
    }
  }

  /** Climbing a leaf's own path reaches its ancestor. */
  lemma {:induction false} PathReaches(h: PairHash, leaves: seq<int>, index: nat, level: nat)
    ensures Climb(h, Padded(leaves, index), PathOf(h, leaves, index, level), BitsOf(index, level))
         == Node(h, leaves, FirstLeaf(Ancestor(index, level), level), level)
  {
    if level > 0 {
      PathReaches(h, leaves, index, level - 1);
      var cur := Ancestor(index, level - 1);
      ClimbsToParent(h, leaves, Padded(leaves, index), PathOf(h, leaves, index, level - 1), BitsOf(index, level - 1),
          cur);
    }
  }

  lemma {:induction false} ClimbsToParent(
    h: PairHash, leaves: seq<int>, leaf: int, path: seq<int>, bits: seq<nat>, cur: nat)
    requires |path| == |bits| && Climb(h, leaf, path, bits) == Node(h, leaves, FirstLeaf(cur, |path|), |path|)
    ensures Climb(h, leaf, path + [Node(h, leaves, FirstLeaf(Sibling(cur), |path|), |path|)], bits + [cur % 2])
         == Node(h, leaves, FirstLeaf(cur / 2, |path| + 1), |path| + 1)
  {
    var half: nat, bit: nat := cur / 2, cur % 2;
    assert cur == 2 * half + bit;
    NodeOfParent(h, leaves, half, bit, |path|);
    ClimbGrows(h, leaf, path, bits, Node(h, leaves, FirstLeaf(Sibling(cur), |path|), |path|), bit);
  }

  /** The direction bits of a full path encode the index they came from. */
  lemma {:induction false} BitsEncode(index: nat, level: nat)
    ensures IndexOf(BitsOf(index, level)) + FirstLeaf(Ancestor(index, level), level) == index
  {
    if level > 0 {
      BitsEncode(index, level - 1);
      var cur := Ancestor(index, level - 1);
      assert cur == 2 * (cur / 2) + cur % 2;
      IndexGrows(BitsOf(index, level - 1), cur / 2, cur % 2);
    }
  }

  lemma {:induction false} ClimbGrows(h: PairHash, leaf: int, elements: seq<int>, indices: seq<nat>, x: int, bit: nat)
    requires |elements| == |indices|
    ensures Climb(h, leaf, elements + [x], indices + [bit]) == Combine(h, Climb(h, leaf, elements, indices), x, bit)
  {
    assert (elements + [x])[..|elements|] == elements && (indices + [bit])[..|elements|] == indices;
  }

  /** Appending the low bit of a number and halving it keeps the encoded index. */
  lemma {:induction false} IndexGrows(indices: seq<nat>, half: nat, bit: nat)
    requires bit < 2
    ensures IndexOf(indices + [bit]) + FirstLeaf(half, |indices| + 1)
         == IndexOf(indices) + FirstLeaf(2 * half + bit, |indices|)
  {
    assert (indices + [bit])[..|indices|] == indices;
    NextFirstLeaf(2 * half, |indices|);
  }

  lemma {:induction false} AncestorBound(index: nat, level: nat, depth: nat)
    requires level <= depth && index < Pow2(depth)
    ensures Ancestor(index, level) < Pow2(depth - level)
  {
    if level > 0 {
      AncestorBound(index, level - 1, depth);
      assert Pow2(depth - level + 1) == 2 * Pow2(depth - level);
    }
  }

  lemma {:induction false} AncestorAtTop(index: nat, depth: nat)
    requires index < Pow2(depth)
    ensures Ancestor(index, depth) == 0
  {
    AncestorBound(index, depth, depth);
  }
}
