/** The objects of the association set provider, proved against the tick of `AspTick`. */
module AspService {
  import opened Wrappers
  import opened AspTick
  import Merkle

  /** Ledger continuity. */
  class ReorgGuard {
    var expectedNextLedger: int

    constructor ()
      ensures expectedNextLedger == 0
    {
      expectedNextLedger := 0;
    }

    method Validate(batchStartLedger: int) returns (ok: bool)
      modifies this
      ensures ok <==> !Rejects(old(expectedNextLedger), batchStartLedger)
      ensures expectedNextLedger == batchStartLedger
    {
      if expectedNextLedger == 0 {
        expectedNextLedger := batchStartLedger;
        return true;
      }
      if batchStartLedger >= expectedNextLedger {
        expectedNextLedger := batchStartLedger;
        return true;
      }
      expectedNextLedger := batchStartLedger;
      return false;
    }

    method Commit(lastLedger: int)
      modifies this
      ensures expectedNextLedger == lastLedger + 1
    {
      expectedNextLedger := lastLedger + 1;
    }
  }

  /** Approved labels in approval order, over a tree of the same leaves. */
  class AssociationSet {
    const env: Env
    const tree: Merkle.Tree
    var indices: seq<nat>
    var labels: seq<int>

    ghost predicate Valid()
      reads this, tree
    {
      && tree.Valid() && tree.h == env.h && tree.depth == env.depth
      && labels == tree.leaves == Labels(env, indices)
    }

    constructor (env: Env)
      ensures Valid() && this.env == env && indices == [] && fresh(tree)
    {
      this.env := env;
      var t := new Merkle.Tree(env.h, env.depth);
      tree, indices, labels := t, [], [];
    }

    /** `add`: throws when the tree is full, which ends the tick. */
    method Add(depositIndex: nat) returns (ok: bool)
      requires Valid()
      modifies this, tree
      ensures ok <==> |old(indices)| < Pow2(env.depth)
      ensures ok ==> Valid() && indices == old(indices) + [depositIndex]
    {
      var leaf := env.h(env.scope, depositIndex);
      indices := indices + [depositIndex];
      labels := labels + [leaf];
      var r := tree.Insert(leaf);
      ok := r.Ok?;
    }

    /** `rootHex`. */
    method Root() returns (root: int)
      requires Valid()
      ensures root == RootOf(env, indices)
    {
      root := tree.Root();
    }

    /** `manifest`: position `k` of the published lists is leaf `k` of the published root. */
    method Manifest() returns (root: int, published: seq<int>, positions: seq<nat>)
      requires Valid()
      ensures positions == indices && |published| == |positions|
      ensures forall k :: 0 <= k < |positions| ==> published[k] == env.h(env.scope, positions[k])
      ensures root == Merkle.Node(env.h, published, 0, env.depth)
    {
      root := Root();
      return root, labels, indices;
    }
  }

  /** The set and its root, rebuilt from the durable approvals. */
  method Rebuild(env: Env, approved: seq<nat>) returns (root: Option<int>)
    ensures root == if |approved| <= Pow2(env.depth) then Some(RootOf(env, approved)) else None
  {
    var assoc := new AssociationSet(env);
    for i := 0 to |approved|
      invariant assoc.Valid() && assoc.env == env && fresh(assoc) && fresh(assoc.tree)
      invariant assoc.indices == approved[..i] && i <= Pow2(env.depth)
    {
      var ok := assoc.Add(approved[i]);
      if !ok {
        return None;
      }
      assert approved[..i + 1] == approved[..i] + [approved[i]];
    }
    assert approved[..|approved|] == approved;
    var r := assoc.Root();
    return Some(r);
  }

  datatype TickResult =
    | TreeFull
    | Ticked(newlyApproved: int, newlyRejected: int, localRoot: int, published: bool, haltedForReorg: bool)

  /** The result fields of a tick `e` from `w`. */
  ghost predicate Describes(env: Env, w: World, e: Event, r: TickResult)
    requires e.Tick?
  {
    && (r.TreeFull? <==> |Screened(env, w, e).approved| > Pow2(env.depth))
    && (r.Ticked? ==>
          && r.localRoot == RootOf(env, Screened(env, w, e).approved)
          && r.newlyApproved == |Screened(env, w, e).approved| - |Loaded(w).approved|
          && r.newlyRejected == |Screened(env, w, e).rejected| - |Loaded(w).rejected|
          && (r.haltedForReorg <==> Halts(env, w, e))
          && (r.published <==> TickStep(env, w, e).posts == w.posts + 1))
  }

  /** The screening loop of `runPoolTick`. */
  method ScreenAll(
    start: Pool, batch: seq<Deposit>, policy: Policy) returns (p: Pool, newlyApproved: int, newlyRejected: int)
    ensures p == Screen(start, batch, policy)
    ensures newlyApproved == |p.approved| - |start.approved| && newlyRejected == |p.rejected| - |start.rejected|
  {
    p, newlyApproved, newlyRejected := start, 0, 0;
    for i := 0 to |batch|
      invariant p == Screen(start, batch[..i], policy)
      invariant newlyApproved == |p.approved| - |start.approved| && newlyRejected == |p.rejected| - |start.rejected|
    {
      assert batch[..i + 1][..i] == batch[..i];
      var d := batch[i];
      if d.index in p.approved || d.index in p.rejected {
        continue;
      }
      var verdict := policy(d.index);
      match verdict {
        case Approve =>
          p := p.(approved := p.approved + [d.index]);
          newlyApproved := newlyApproved + 1;
        case Reject =>
          p := p.(rejected := p.rejected + {d.index});
          newlyRejected := newlyRejected + 1;
        case Defer =>
          p := p.(deferred := p.deferred + {d.index});
      }
      if !verdict.Defer? {
        p := p.(lastIndex := Max(p.lastIndex, d.index));
      }
      p := p.(lastLedger := Max(p.lastLedger, d.ledger));
    }
    assert batch[..|batch|] == batch;
  }

  method LatestLedger(batch: seq<Deposit>) returns (m: int)
    requires batch != []
    ensures m == MaxLedger(batch)
  {
    m := batch[0].ledger;
    for i := 1 to |batch|
      invariant m == MaxLedger(batch[..i])
    {
      assert batch[..i + 1][..i] == batch[..i];
      m := Max(m, batch[i].ledger);
    }
    assert batch[..|batch|] == batch;
  }

  /** One pool, its store, the root it sees on chain and its guard. */
  class PoolService {
    const env: Env
    const guard: ReorgGuard?
    var root: Option<int>
    var saved: Option<Pool>
    var posts: nat

    constructor (env: Env, guard: ReorgGuard?)
      ensures this.env == env && this.guard == guard && root == None && saved == None && posts == 0
    {
      this.env, this.guard, root, saved, posts := env, guard, None, None, 0;
    }

    ghost function World(ledgers: seq<int>, head: int): World
      reads this, guard
    {
      AspTick.World(ledgers, head, root, saved, if guard == null then None else Some(guard.expectedNextLedger), posts)
    }

    /** Step 3 of the tick: may this batch be published? */
    method Continuous(batch: seq<Deposit>, lastLedger: int) returns (ok: bool)
      modifies guard
      ensures guard == null || batch == [] ==> ok
      ensures guard != null && batch == [] ==> guard.expectedNextLedger == old(guard.expectedNextLedger)
      ensures guard != null && batch != [] ==>
                && (ok <==> !Rejects(old(guard.expectedNextLedger), lastLedger))
                && guard.expectedNextLedger == if ok then MaxLedger(batch) + 1 else lastLedger
    {
      if guard == null || batch == [] {
        return true;
      }
      var latest := LatestLedger(batch);
      ok := guard.Validate(lastLedger);
      if ok {
        guard.Commit(latest);
      }
    }

    /** `runPoolTick`. */
    method RunPoolTick(
      readDeposits: int -> seq<Deposit>, latest: int, policy: Policy, ghost ledgers: seq<int>, ghost head: int)
      returns (r: TickResult)
      modifies this, guard
      ensures var w := old(World(ledgers, head));
              var e := Tick(policy, readDeposits(ReadAfter(Loaded(w))), latest, Completes);
              World(ledgers, latest) == TickStep(env, w, e) && Describes(env, w, e, r)
    {
      var state := if saved.Some? then saved.value else INIT;
      var readAfterIndex := if state.deferred != {} then -1 else state.lastIndex;
      var read := readDeposits(readAfterIndex);
      var batch := Confirmed(env, read, latest);
      var p, newlyApproved, newlyRejected := ScreenAll(state.(deferred := {}), batch, policy);
      var local := Rebuild(env, p.approved);
      if local.None? {
        return TreeFull;
      }
      var halted, published :=
        GuardedPublish(batch, p, local.value, ledgers, World(ledgers, head), Tick(policy, read, latest, Completes));
      return Ticked(newlyApproved, newlyRejected, local.value, published, halted);
    }

    /** Steps 3 and 4: a batch the guard refuses is saved without publishing. */
    method GuardedPublish(
      batch: seq<Deposit>, p: Pool, localRoot: int, ghost ledgers: seq<int>, ghost w: World, ghost e: Event)
      returns (halted: bool, published: bool)
      requires e.Tick? && e.ending.Completes? && w == World(ledgers, w.head) && batch == Batch(env, e)
      requires p == Screened(env, w, e) && |p.approved| <= Pow2(env.depth) && localRoot == RootOf(env, p.approved)
      modifies this, guard
      ensures World(ledgers, e.latest) == TickStep(env, w, e)
      ensures halted == Halts(env, w, e) && published == (TickStep(env, w, e).posts == w.posts + 1)
    {
      var ok := Continuous(batch, p.lastLedger);
      halted, published := !ok, false;
      if ok {
        published := PostOnMismatch(p, localRoot);
      }
      saved := Some(p);
    }

    /** Step 4 of the tick. */
    method PostOnMismatch(p: Pool, localRoot: int) returns (published: bool)
      modifies this`root, this`posts
      ensures published <==> p.approved != [] && old(root) != Some(localRoot)
      ensures root == if published then Some(localRoot) else old(root)
      ensures posts == if published then old(posts) + 1 else old(posts)
    {
      published := p.approved != [] && root != Some(localRoot);
      if published {
        root, posts := Some(localRoot), posts + 1;
      }
    }
  }
}
