/** The publisher's store and tick as objects, proved against `Publisher`. */
module PublisherService {
  import opened Wrappers
  import opened Publisher
  import Merkle

  /** Schema validation of an inbox item: the normalised commitment, or nothing. */
  type Check = Commitment -> Option<Commitment>

  function GoodItems(check: Check, inbox: seq<Commitment>): seq<Commitment> {
    if inbox == [] then []
    else
      var n := |inbox| - 1;
      GoodItems(check, inbox[..n]) + if check(inbox[n]).Some? then [check(inbox[n]).value] else []
  }

  function BadItems(check: Check, inbox: seq<Commitment>): seq<Commitment> {
    if inbox == [] then []
    else
      var n := |inbox| - 1;
      BadItems(check, inbox[..n]) + if check(inbox[n]).Some? then [] else [inbox[n]]
  }

  /** Every item is either returned or quarantined. */
  lemma {:induction false} InboxSplits(check: Check, inbox: seq<Commitment>)
    ensures |GoodItems(check, inbox)| + |BadItems(check, inbox)| == |inbox|
    ensures forall k :: 0 <= k < |BadItems(check, inbox)| ==> check(BadItems(check, inbox)[k]).None?
    decreases |inbox|
  {
    if inbox != [] {
      InboxSplits(check, inbox[..|inbox| - 1]);
    }
  }

  /** Normalising once is enough: a second read returns the same and quarantines nothing. */
  lemma SecondReadSame(check: Check, inbox: seq<Commitment>)
    requires forall c :: check(c).Some? ==> check(check(c).value) == check(c)
    ensures var good := GoodItems(check, inbox); GoodItems(check, good) == good && BadItems(check, good) == []
  {
    GoodAreNormal(check, inbox);
    NormalStay(check, GoodItems(check, inbox));
  }

  predicate Normal(check: Check, list: seq<Commitment>) {
    forall k :: 0 <= k < |list| ==> check(list[k]) == Some(list[k])
  }

  lemma {:induction false} GoodAreNormal(check: Check, inbox: seq<Commitment>)
    requires forall c :: check(c).Some? ==> check(check(c).value) == check(c)
    ensures Normal(check, GoodItems(check, inbox))
    decreases |inbox|
  {
    if inbox != [] {
      GoodAreNormal(check, inbox[..|inbox| - 1]);
    }
  }

  lemma {:induction false} NormalStay(check: Check, list: seq<Commitment>)
    requires Normal(check, list)
    ensures GoodItems(check, list) == list && BadItems(check, list) == []
    decreases |list|
  {
    if list != [] {
      NormalStay(check, list[..|list| - 1]);
    }
  }

  class MemoryStore {
    const maxInboxSize: nat
    const check: Check
    var state: Option<State>
    var inbox: seq<Commitment>
    var archived: seq<string>
    var quarantined: seq<Commitment>

    constructor (maxInboxSize: nat, check: Check)
      ensures this.maxInboxSize == maxInboxSize && this.check == check
      ensures state == None && inbox == [] && archived == [] && quarantined == []
    {
      this.maxInboxSize, this.check := maxInboxSize, check;
      state, inbox, archived, quarantined := None, [], [], [];
    }

    /** `readInbox`. */
    method ReadInbox() returns (items: seq<Commitment>)
      modifies this`inbox, this`quarantined
      ensures items == inbox == GoodItems(check, old(inbox))
      ensures quarantined == old(quarantined) + BadItems(check, old(inbox))
    {
      items := [];
      for i := 0 to |inbox|
        invariant inbox == old(inbox) && items == GoodItems(check, inbox[..i])
        invariant quarantined == old(quarantined) + BadItems(check, inbox[..i])
      {
        assert inbox[..i + 1][..i] == inbox[..i];
        var result := check(inbox[i]);
        if result.Some? {
          items := items + [result.value];
        } else {
          quarantined := quarantined + [inbox[i]];
        }
      }
      assert inbox[..|inbox|] == inbox;
      inbox := items;
    }

    /** `writeInbox`: refused when the inbox is full. */
    method WriteInbox(c: Commitment) returns (ok: bool)
      modifies this`inbox
      ensures ok <==> |old(inbox)| < maxInboxSize
      ensures inbox == if ok then old(inbox) + [c] else old(inbox)
    {
      ok := |inbox| < maxInboxSize;
      if ok {
        inbox := inbox + [c];
      }
    }

    /** `archiveInbox`: an item stays exactly if none of the ids is its own, in its place. */
    method ArchiveInbox(ids: seq<string>)
      modifies this`inbox, this`archived
      ensures archived == old(archived) + ids
      ensures forall c :: c in inbox <==> c in old(inbox) && c.id !in ids
      ensures inbox == Archived(old(inbox), ids)
    {
      archived := archived + ids;
      var kept: seq<Commitment> := [];
      for i := 0 to |inbox|
        invariant inbox == old(inbox) && archived == old(archived) + ids
        invariant kept == Archived(inbox[..i], ids)
      {
        assert inbox[..i + 1][..i] == inbox[..i];
        if inbox[i].id !in ids {
          kept := kept + [inbox[i]];
        }
      }
      assert inbox[..|inbox|] == inbox;
      inbox := kept;
      forall c
        ensures c in inbox <==> c in old(inbox) && c.id !in ids
      {
        ArchivedMeans(old(inbox), ids, c);
      }
    }
  }

  /** `buildRoot`: throws when the tree is full. */
  method BuildRoot(env: Env, leaves: seq<int>) returns (root: Option<int>)
    ensures root == if |leaves| <= Pow2(env.depth) then Some(Merkle.Node(env.h, leaves, 0, env.depth)) else None
  {
    var tree := new Merkle.Tree(env.h, env.depth);
    for i := 0 to |leaves|
      invariant tree.Valid() && fresh(tree) && tree.h == env.h && tree.depth == env.depth
      invariant tree.leaves == leaves[..i]
    {
      var r := tree.Insert(leaves[i]);
      if r.Err? {
        return None;
      }
      assert leaves[..i + 1] == leaves[..i] + [leaves[i]];
    }
    assert leaves[..|leaves|] == leaves;
    var v := tree.Root();
    return Some(v);
  }

  datatype Built = Built(leafIndex: nat, proof: Merkle.Proof) | NotFound | Full

  /** `buildProof`: the first position of the leaf, with a path that verifies against the root. */
  method BuildProof(env: Env, leaves: seq<int>, leaf: int) returns (r: Built)
    ensures r.Full? <==> |leaves| > Pow2(env.depth)
    ensures r.NotFound? <==> |leaves| <= Pow2(env.depth) && leaf !in leaves
    ensures r.Built? ==>
              && r.leafIndex < |leaves| && leaves[r.leafIndex] == leaf && leaf !in leaves[..r.leafIndex]
              && r.proof.leaf == leaf && r.proof.root == Merkle.Node(env.h, leaves, 0, env.depth)
              && |r.proof.elements| == |r.proof.indices| == env.depth
              && Merkle.Verifies(env.h, r.proof) && Merkle.IndexOf(r.proof.indices) == r.leafIndex
  {
    var tree := new Merkle.Tree(env.h, env.depth);
    var leafIndex := -1;
    for i := 0 to |leaves|
      invariant tree.Valid() && fresh(tree) && tree.h == env.h && tree.depth == env.depth
      invariant tree.leaves == leaves[..i]
      invariant leafIndex == -1 ==> leaf !in leaves[..i]
      invariant leafIndex != -1 ==> 0 <= leafIndex < i && leaves[leafIndex] == leaf && leaf !in leaves[..leafIndex]
    {
      var ins := tree.Insert(leaves[i]);
      if ins.Err? {
        return Full;
      }
      assert leaves[..i + 1] == leaves[..i] + [leaves[i]];
      if leaves[i] == leaf && leafIndex == -1 {
        leafIndex := i;
      }
    }
    assert leaves[..|leaves|] == leaves;
    if leafIndex == -1 {
      return NotFound;
    }
    var p := tree.Prove(leafIndex);
    return Built(leafIndex, p.value);
  }

  method KeepValid(valid: Validity, list: seq<Commitment>) returns (kept: seq<Commitment>)
    ensures kept == Keep(valid, list)
  {
    kept := [];
    for i := 0 to |list|
      invariant kept == Keep(valid, list[..i])
    {
      assert list[..i + 1][..i] == list[..i];
      if valid(list[i]) {
        kept := kept + [list[i]];
      }
    }
    assert list[..|list|] == list;
  }

  datatype TickResult =
    | TreeFull
    | Ticked(leafCount: nat, newlyAccepted: nat, duplicates: nat, collisions: nat, localRoot: Option<int>,
        published: bool)

  function NextMerge(w: World, valid: Validity): Merged {
    Merge(Active(w, valid), Keep(valid, w.inbox))
  }

  /** The result fields of a tick from `w`: every eligible item is accepted, a duplicate or a
      collision, and `published` says whether it posted. */
  ghost predicate Describes(env: Env, w: World, valid: Validity, r: TickResult) {
    && (r.TreeFull? <==> Overflows(env, w, valid))
    && (r.Ticked? ==>
          && r.leafCount == |NextLeaves(w, valid)| == |Active(w, valid)| + r.newlyAccepted
          && |Keep(valid, w.inbox)| == r.newlyAccepted + r.duplicates + r.collisions
          && r.localRoot == (if Waits(env, w, valid) then None else Some(RootOf(env, NextLeaves(w, valid))))
          && (r.published <==> Posts(env, w, valid)))
  }

  lemma MergeCounts(w: World, valid: Validity)
    ensures var m := NextMerge(w, valid);
            && |m.leaves| == |Active(w, valid)| + |m.acceptedIds|
            && |Keep(valid, w.inbox)| == |m.acceptedIds| + m.duplicates + |m.collisions|
  {
    MergeExtends(Active(w, valid), Keep(valid, w.inbox));
  }

  lemma WaitingTick(env: Env, w: World, valid: Validity)
    requires Waits(env, w, valid)
    ensures Tick(env, w, valid, Completes) ==
              Publisher.World(Some(State(NextLeaves(w, valid), Loaded(w).lastPublishedRoot)),
                  Archived(w.inbox, IdList(w.inbox)),
                              w.archived + IdList(w.inbox), w.root, w.posts)
  {
  }

  lemma PublishingTick(env: Env, w: World, valid: Validity)
    requires !Waits(env, w, valid) && |NextLeaves(w, valid)| <= Pow2(env.depth)
    ensures var root := Some(RootOf(env, NextLeaves(w, valid)));
            Tick(env, w, valid, Completes) ==
              Publisher.World(Some(State(NextLeaves(w, valid),
                  if w.root != root then root else Loaded(w).lastPublishedRoot)),
                              Archived(w.inbox, IdList(w.inbox)), w.archived + IdList(w.inbox), root,
                              w.posts + if w.root != root then 1 else 0)
  {
  }

  class PublisherService {
    const env: Env
    const store: MemoryStore
    var root: Option<int>
    var posts: nat

    constructor (env: Env, store: MemoryStore)
      ensures this.env == env && this.store == store && root == None && posts == 0
    {
      this.env, this.store, root, posts := env, store, None, 0;
    }

    ghost function World(): World
      reads this, store
    {
      Publisher.World(store.state, store.inbox, store.archived, root, posts)
    }

    /** `runPublisherTick`: one tick on the inbox that validation leaves. */
    method RunPublisherTick(valid: Validity) returns (r: TickResult)
      modifies this, store
      ensures var w := old(World()).(inbox := GoodItems(store.check, old(store.inbox)));
              World() == Tick(env, w, valid, Completes) && Describes(env, w, valid, r)
    {
      var state := if store.state.Some? then store.state.value else INIT;
      var inbox := store.ReadInbox();
      ghost var w := World();
      var m, pruned := Prepare(valid, state.leaves, inbox);
      if |m.leaves| < env.minLeaves && !pruned {
        r := Wait(state, inbox, m, valid, w);
      } else {
        r := Publish(state, inbox, m, valid, w);
      }
    }

    /** Drop invalid leaves and inbox items, then merge. */
    method Prepare(valid: Validity, leaves: seq<Commitment>, inbox: seq<Commitment>) returns (m: Merged, pruned: bool)
      ensures m == Merge(Keep(valid, leaves), Keep(valid, inbox))
      ensures pruned <==> |Keep(valid, leaves)| != |leaves|
    {
      var active := KeepValid(valid, leaves);
      pruned := |active| < |leaves|;
      KeepShrinks(valid, leaves);
      var eligible := KeepValid(valid, inbox);
      m := MergeLeaves(active, eligible);
    }

    /** Too few leaves: save and archive only. */
    method Wait(
      state: State, inbox: seq<Commitment>, m: Merged, ghost valid: Validity, ghost w: World) returns (r: TickResult)
      requires World() == w && state == Loaded(w) && inbox == w.inbox && m == NextMerge(w, valid)
      requires Waits(env, w, valid)
      modifies this, store
      ensures World() == Tick(env, w, valid, Completes) && Describes(env, w, valid, r)
    {
      Finish(State(m.leaves, state.lastPublishedRoot), inbox);
      r := Ticked(|m.leaves|, |m.acceptedIds|, m.duplicates, |m.collisions|, None, false);
      WaitingTick(env, w, valid);
      MergeCounts(w, valid);
    }

    /** Rebuild the root, post it if the chain has another one, then save and archive. */
    method Publish(
      state: State, inbox: seq<Commitment>, m: Merged, ghost valid: Validity, ghost w: World) returns (r: TickResult)
      requires World() == w && state == Loaded(w) && inbox == w.inbox && m == NextMerge(w, valid)
      requires !Waits(env, w, valid)
      modifies this, store
      ensures World() == Tick(env, w, valid, Completes) && Describes(env, w, valid, r)
    {
      var local := BuildRoot(env, LeafValues(m.leaves));
      if local.None? {
        return TreeFull;
      }
      var published := PostOnMismatch(local.value);
      Finish(State(m.leaves, if published then local else state.lastPublishedRoot), inbox);
      r := Ticked(|m.leaves|, |m.acceptedIds|, m.duplicates, |m.collisions|, local, published);
      PublishingTick(env, w, valid);
      MergeCounts(w, valid);
    }

    method PostOnMismatch(localRoot: int) returns (published: bool)
      modifies this`root, this`posts
      ensures published <==> old(root) != Some(localRoot)
      ensures root == Some(localRoot) && posts == old(posts) + if published then 1 else 0
    {
      published := root != Some(localRoot);
      if published {
        root, posts := Some(localRoot), posts + 1;
      }
    }

    /** Save, then archive what was read. */
    method Finish(state: State, inbox: seq<Commitment>)
      modifies store
      ensures store.state == Some(state) && store.archived == old(store.archived) + IdList(inbox)
      ensures store.inbox == Archived(old(store.inbox), IdList(inbox)) && store.quarantined == old(store.quarantined)
    {
      store.state := Some(state);
      store.ArchiveInbox(IdList(inbox));
    }
  }

  lemma {:induction false} KeepShrinks(valid: Validity, list: seq<Commitment>)
    ensures |Keep(valid, list)| <= |list|
    decreases |list|
  {
    if list != [] {
      KeepShrinks(valid, list[..|list| - 1]);
    }
  }
}
