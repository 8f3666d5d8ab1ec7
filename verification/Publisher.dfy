/** The reputation publisher's tick: drop leaves whose attestation is no longer valid, merge the
    inbox, and post the root when the chain has another one. */
module Publisher {
  import opened Wrappers
  import Merkle

  /** A submitted leaf; whether its attestation is valid is asked anew in every tick. */
  datatype Commitment = Commitment(id: string, leaf: int, attestationUid: string)

  // ---- Merging ----------------------------------------------------------------------------

  /** Leaves by id, and the leaf values seen. */
  datatype Index = Index(byId: map<string, Commitment>, byLeaf: set<int>)

  function Put(ix: Index, c: Commitment): Index {
    Index(ix.byId[c.id := c], ix.byLeaf + {c.leaf})
  }

  function IndexOf(list: seq<Commitment>): Index {
    if list == [] then Index(map[], {}) else Put(IndexOf(list[..|list| - 1]), list[|list| - 1])
  }

  /** Known under the same id and leaf, clashing in one of them, or new. */
  datatype Kind = Fresh | Duplicate | Collision

  function Classify(ix: Index, c: Commitment): Kind {
    if c.id in ix.byId && ix.byId[c.id].leaf == c.leaf then Duplicate
    else if c.id in ix.byId || c.leaf in ix.byLeaf then Collision
    else Fresh
  }

  datatype Merged = Merged(
    leaves: seq<Commitment>, acceptedIds: seq<string>, duplicates: nat, collisions: seq<Commitment>)

  function Place(m: Merged, c: Commitment, kind: Kind): Merged {
    match kind
    case Fresh => m.(leaves := m.leaves + [c], acceptedIds := m.acceptedIds + [c.id])
    case Duplicate => m.(duplicates := m.duplicates + 1)
    case Collision => m.(collisions := m.collisions + [c])
  }

  function MergeOne(m: Merged, c: Commitment): Merged {
    Place(m, c, Classify(IndexOf(m.leaves), c))
  }

  function Merge(existing: seq<Commitment>, incoming: seq<Commitment>): Merged {
    if incoming == [] then Merged(existing, [], 0, [])
    else MergeOne(Merge(existing, incoming[..|incoming| - 1]), incoming[|incoming| - 1])
  }

  predicate Unique(list: seq<Commitment>) {
    forall a, b :: 0 <= a < b < |list| ==> list[a].id != list[b].id && list[a].leaf != list[b].leaf
  }

  /** The id or the leaf of `c` is in the list. */
  ghost predicate Taken(list: seq<Commitment>, c: Commitment) {
    exists k :: 0 <= k < |list| && (list[k].id == c.id || list[k].leaf == c.leaf)
  }

  lemma IndexSnoc(list: seq<Commitment>, c: Commitment)
    ensures IndexOf(list + [c]) == Put(IndexOf(list), c)
  {
    assert (list + [c])[..|list|] == list;
  }

  lemma {:induction false} IndexHas(list: seq<Commitment>, k: nat)
    requires k < |list|
    ensures list[k].id in IndexOf(list).byId && list[k].leaf in IndexOf(list).byLeaf
    decreases |list|
  {
    if k < |list| - 1 {
      IndexHas(list[..|list| - 1], k);
    }
  }

  lemma {:induction false} IndexMeans(list: seq<Commitment>, c: Commitment)
    ensures c.id in IndexOf(list).byId || c.leaf in IndexOf(list).byLeaf ==> Taken(list, c)
    decreases |list|
  {
    if list != [] {
      var n := |list| - 1;
      IndexMeans(list[..n], c);
      if Taken(list[..n], c) {
        TakenLater(list[..n], list, c);
      } else {
        assert list[n] == list[n];
      }
    }
  }

  /** Fresh exactly when neither the id nor the leaf is in the list. */
  lemma FreshMeans(list: seq<Commitment>, c: Commitment)
    ensures Classify(IndexOf(list), c).Fresh? <==> !Taken(list, c)
  {
    IndexMeans(list, c);
    if Taken(list, c) {
      var k :| 0 <= k < |list| && (list[k].id == c.id || list[k].leaf == c.leaf);
      IndexHas(list, k);
    }
  }

  lemma TakenLater(list: seq<Commitment>, more: seq<Commitment>, c: Commitment)
    requires Taken(list, c) && list <= more
    ensures Taken(more, c)
  {
    var k :| 0 <= k < |list| && (list[k].id == c.id || list[k].leaf == c.leaf);
    assert more[k] == list[k];
  }

  lemma MergeSnoc(existing: seq<Commitment>, incoming: seq<Commitment>, c: Commitment)
    ensures Merge(existing, incoming + [c]) == MergeOne(Merge(existing, incoming), c)
  {
    assert (incoming + [c])[..|incoming|] == incoming;
  }

  function IdList(list: seq<Commitment>): seq<string> {
    seq(|list|, i requires 0 <= i < |list| => list[i].id)
  }

  /** What a merge result may look like: the old list is a prefix, uniqueness is kept, the accepted
      ids are those of the new leaves, and every item is counted once. */
  predicate Extends(existing: seq<Commitment>, m: Merged, items: nat) {
    && existing <= m.leaves && (Unique(existing) ==> Unique(m.leaves))
    && m.acceptedIds == IdList(m.leaves[|existing|..])
    && items == |m.acceptedIds| + m.duplicates + |m.collisions|
  }

  lemma {:induction false} MergeExtends(existing: seq<Commitment>, incoming: seq<Commitment>)
    ensures Extends(existing, Merge(existing, incoming), |incoming|)
    decreases |incoming|
  {
    if incoming != [] {
      var n := |incoming| - 1;
      MergeExtends(existing, incoming[..n]);
      MergeOneExtends(existing, Merge(existing, incoming[..n]), incoming[n], n);
    }
  }

  lemma MergeOneExtends(existing: seq<Commitment>, m: Merged, c: Commitment, items: nat)
    requires Extends(existing, m, items)
    ensures Extends(existing, MergeOne(m, c), items + 1)
  {
    FreshMeans(m.leaves, c);
    PlaceExtends(existing, m, c, Classify(IndexOf(m.leaves), c), items);
  }

  lemma PlaceExtends(existing: seq<Commitment>, m: Merged, c: Commitment, kind: Kind, items: nat)
    requires Extends(existing, m, items) && (kind.Fresh? ==> !Taken(m.leaves, c))
    ensures Extends(existing, Place(m, c, kind), items + 1)
  {
    if kind.Fresh? {
      assert (m.leaves + [c])[|existing|..] == m.leaves[|existing|..] + [c];
      if Unique(m.leaves) {
        UniqueSnoc(m.leaves, c);
      }
    }
  }

  lemma UniqueSnoc(list: seq<Commitment>, c: Commitment)
    requires Unique(list) && !Taken(list, c)
    ensures Unique(list + [c])
  {
  }

  lemma MergeOneTakes(m: Merged, c: Commitment)
    ensures m.leaves <= MergeOne(m, c).leaves && Taken(MergeOne(m, c).leaves, c)
  {
    FreshMeans(m.leaves, c);
    if Classify(IndexOf(m.leaves), c).Fresh? {
      assert MergeOne(m, c).leaves[|m.leaves|] == c;
    }
  }

  /** Every incoming item ends in the list, or its id or its leaf is already there. */
  lemma {:induction false} MergeTakes(existing: seq<Commitment>, incoming: seq<Commitment>, k: nat)
    requires k < |incoming|
    ensures Taken(Merge(existing, incoming).leaves, incoming[k])
    decreases |incoming|
  {
    var n := |incoming| - 1;
    var m := Merge(existing, incoming[..n]);
    MergeOneTakes(m, incoming[n]);
    if k < n {
      MergeTakes(existing, incoming[..n], k);
      TakenLater(m.leaves, MergeOne(m, incoming[n]).leaves, incoming[k]);
    }
  }

  /** Nothing appears that was in neither list. */
  lemma {:induction false} MergeInvents(existing: seq<Commitment>, incoming: seq<Commitment>, k: nat)
    requires k < |Merge(existing, incoming).leaves|
    ensures var c := Merge(existing, incoming).leaves[k]; c in existing || c in incoming
    decreases |incoming|
  {
    if incoming != [] {
      var n := |incoming| - 1;
      if k < |Merge(existing, incoming[..n]).leaves| {
        MergeInvents(existing, incoming[..n], k);
      }
    }
  }

  /** Items that are taken add nothing. */
  lemma {:induction false} TakenMergesToNothing(list: seq<Commitment>, incoming: seq<Commitment>)
    requires forall k :: 0 <= k < |incoming| ==> Taken(list, incoming[k])
    ensures Merge(list, incoming).leaves == list && Merge(list, incoming).acceptedIds == []
    decreases |incoming|
  {
    if incoming != [] {
      var n := |incoming| - 1;
      TakenMergesToNothing(list, incoming[..n]);
      FreshMeans(list, incoming[n]);
    }
  }

  type Adding = (seq<Commitment>, Commitment) -> seq<Commitment>

  /** Adding items one by one. */
  function Fold(add: Adding, list: seq<Commitment>, incoming: seq<Commitment>): seq<Commitment> {
    if incoming == [] then list else add(Fold(add, list, incoming[..|incoming| - 1]), incoming[|incoming| - 1])
  }

  lemma {:induction false} FoldAppends(
    add: Adding, list: seq<Commitment>, first: seq<Commitment>, next: seq<Commitment>)
    ensures Fold(add, list, first + next) == Fold(add, Fold(add, list, first), next)
    decreases |next|
  {
    var all := first + next;
    if next == [] {
      assert all == first;
    } else {
      var n := |next| - 1;
      FoldAppends(add, list, first, next[..n]);
      assert all[..|all| - 1] == first + next[..n];
    }
  }

  function AddLeaf(list: seq<Commitment>, c: Commitment): seq<Commitment> {
    if Classify(IndexOf(list), c).Fresh? then list + [c] else list
  }

  lemma {:induction false} MergeIsFold(list: seq<Commitment>, incoming: seq<Commitment>)
    ensures Merge(list, incoming).leaves == Fold(AddLeaf, list, incoming)
    decreases |incoming|
  {
    if incoming != [] {
      MergeIsFold(list, incoming[..|incoming| - 1]);
    }
  }

  lemma MergeAppends(list: seq<Commitment>, first: seq<Commitment>, next: seq<Commitment>)
    ensures Merge(list, first + next).leaves == Merge(Merge(list, first).leaves, next).leaves
  {
    MergeIsFold(list, first + next);
    MergeIsFold(list, first);
    MergeIsFold(Merge(list, first).leaves, next);
    FoldAppends(AddLeaf, list, first, next);
  }

  /** Replay: merging an inbox again, with whatever arrived since, is merging the new arrivals. */
  lemma ReplayIsNoOp(existing: seq<Commitment>, inbox: seq<Commitment>, arrived: seq<Commitment>)
    ensures var merged := Merge(existing, inbox).leaves;
            && Merge(merged, inbox).leaves == merged && Merge(merged, inbox).acceptedIds == []
            && Merge(merged, inbox + arrived).leaves == Merge(existing, inbox + arrived).leaves
  {
    var merged := Merge(existing, inbox).leaves;
    forall k | 0 <= k < |inbox|
      ensures Taken(merged, inbox[k])
    {
      MergeTakes(existing, inbox, k);
    }
    TakenMergesToNothing(merged, inbox);
    MergeAppends(merged, inbox, arrived);
    MergeAppends(existing, inbox, arrived);
  }

  /** `mergeLeaves`. */
  method MergeLeaves(existing: seq<Commitment>, incoming: seq<Commitment>) returns (m: Merged)
    ensures m == Merge(existing, incoming)
  {
    var byId: map<string, Commitment> := map[];
    var byLeaf: set<int> := {};
    for i := 0 to |existing|
      invariant Index(byId, byLeaf) == IndexOf(existing[..i])
    {
      IndexSnoc(existing[..i], existing[i]);
      assert existing[..i + 1] == existing[..i] + [existing[i]];
      byId := byId[existing[i].id := existing[i]];
      byLeaf := byLeaf + {existing[i].leaf};
    }
    assert existing[..|existing|] == existing;
    m := MergeInto(existing, incoming, byId, byLeaf);
  }

  lemma MergeNext(existing: seq<Commitment>, incoming: seq<Commitment>, i: nat)
    requires i < |incoming|
    ensures var m := Merge(existing, incoming[..i]);
            Merge(existing, incoming[..i + 1]) == Place(m, incoming[i], Classify(IndexOf(m.leaves), incoming[i]))
  {
    assert incoming[..i + 1] == incoming[..i] + [incoming[i]];
    MergeSnoc(existing, incoming[..i], incoming[i]);
  }

  /** The second loop of `mergeLeaves`. */
  method MergeInto(existing: seq<Commitment>, incoming: seq<Commitment>, ids: map<string, Commitment>, leaves: set<int>)
    returns (m: Merged)
    requires Index(ids, leaves) == IndexOf(existing)
    ensures m == Merge(existing, incoming)
  {
    var byId, byLeaf := ids, leaves;
    m := Merged(existing, [], 0, []);
    for i := 0 to |incoming|
      invariant Index(byId, byLeaf) == IndexOf(m.leaves) && m == Merge(existing, incoming[..i])
    {
      var c := incoming[i];
      MergeNext(existing, incoming, i);
      if c.id in byId && byId[c.id].leaf == c.leaf {
        m := m.(duplicates := m.duplicates + 1);
        continue;
      }
      if c.id in byId || c.leaf in byLeaf {
        m := m.(collisions := m.collisions + [c]);
        continue;
      }
      IndexSnoc(m.leaves, c);
      byId := byId[c.id := c];
      byLeaf := byLeaf + {c.leaf};
      m := m.(acceptedIds := m.acceptedIds + [c.id], leaves := m.leaves + [c]);
    }
    assert incoming[..|incoming|] == incoming;
  }

  // ---- The tick ---------------------------------------------------------------------------

  type Validity = Commitment -> bool

  function Keep(valid: Validity, list: seq<Commitment>): seq<Commitment> {
    if list == [] then []
    else Keep(valid, list[..|list| - 1]) + if valid(list[|list| - 1]) then [list[|list| - 1]] else []
  }

  datatype Env = Env(h: Merkle.PairHash, depth: nat, minLeaves: int)

  datatype State = State(leaves: seq<Commitment>, lastPublishedRoot: Option<int>)

  const INIT: State := State([], None)

  /** `root` is the root on chain. */
  datatype World = World(
    saved: Option<State>, inbox: seq<Commitment>, archived: seq<string>, root: Option<int>, posts: nat)

  datatype Ending = DiesBeforePost | DiesAfterPost | DiesAfterSave | Completes

  function Loaded(w: World): State {
    if w.saved.Some? then w.saved.value else INIT
  }

  function LeafValues(list: seq<Commitment>): seq<int> {
    seq(|list|, i requires 0 <= i < |list| => list[i].leaf)
  }

  function RootOf(env: Env, list: seq<Commitment>): int {
    Merkle.Node(env.h, LeafValues(list), 0, env.depth)
  }

  function Active(w: World, valid: Validity): seq<Commitment> {
    Keep(valid, Loaded(w).leaves)
  }

  function NextLeaves(w: World, valid: Validity): seq<Commitment> {
    Merge(Active(w, valid), Keep(valid, w.inbox)).leaves
  }

  /** Too few leaves to publish, and none was dropped. */
  predicate Waits(env: Env, w: World, valid: Validity) {
    |NextLeaves(w, valid)| < env.minLeaves && |Active(w, valid)| == |Loaded(w).leaves|
  }

  predicate Overflows(env: Env, w: World, valid: Validity) {
    !Waits(env, w, valid) && |NextLeaves(w, valid)| > Pow2(env.depth)
  }

  predicate Posts(env: Env, w: World, valid: Validity) {
    && !Waits(env, w, valid) && !Overflows(env, w, valid)
    && w.root != Some(RootOf(env, NextLeaves(w, valid)))
  }

  function Archived(inbox: seq<Commitment>, ids: seq<string>): seq<Commitment> {
    if inbox == [] then []
    else Archived(inbox[..|inbox| - 1], ids) + if inbox[|inbox| - 1].id in ids then [] else [inbox[|inbox| - 1]]
  }

  function Tick(env: Env, w: World, valid: Validity, ending: Ending): World {
    var leaves := NextLeaves(w, valid);
    if Overflows(env, w, valid) || ending.DiesBeforePost? then w
    else
      var root := RootOf(env, leaves);
      var w1 := if Posts(env, w, valid) then w.(root := Some(root), posts := w.posts + 1) else w;
      if ending.DiesAfterPost? then w1
      else
        var last := if Posts(env, w, valid) then Some(root) else Loaded(w).lastPublishedRoot;
        var w2 := w1.(saved := Some(State(leaves, last)));
        if ending.DiesAfterSave? then w2
        else w2.(archived := w.archived + IdList(w.inbox), inbox := Archived(w.inbox, IdList(w.inbox)))
  }

  // ---- Every run --------------------------------------------------------------------------

  lemma {:induction false} KeepMeans(valid: Validity, list: seq<Commitment>)
    ensures forall c :: c in Keep(valid, list) <==> c in list && valid(c)
    decreases |list|
  {
    if list != [] {
      var n := |list| - 1;
      KeepMeans(valid, list[..n]);
      assert forall x :: x in list <==> x in list[..n] || x == list[n];
    }
  }

  lemma {:induction false} KeepUnique(valid: Validity, list: seq<Commitment>)
    requires Unique(list)
    ensures Unique(Keep(valid, list))
    decreases |list|
  {
    if list != [] {
      var n := |list| - 1;
      var rest := Keep(valid, list[..n]);
      KeepUnique(valid, list[..n]);
      KeepMeans(valid, list[..n]);
      forall k | 0 <= k < |rest|
        ensures rest[k].id != list[n].id && rest[k].leaf != list[n].leaf
      {
        assert rest[k] in rest;
      }
    }
  }

  lemma {:induction false} AllValidStay(valid: Validity, list: seq<Commitment>)
    requires forall k :: 0 <= k < |list| ==> valid(list[k])
    ensures Keep(valid, list) == list
    decreases |list|
  {
    if list != [] {
      AllValidStay(valid, list[..|list| - 1]);
    }
  }

  lemma NextLeavesValid(w: World, valid: Validity)
    ensures forall k :: 0 <= k < |NextLeaves(w, valid)| ==> valid(NextLeaves(w, valid)[k])
    ensures Active(w, valid) <= NextLeaves(w, valid)
  {
    var active, eligible := Active(w, valid), Keep(valid, w.inbox);
    KeepMeans(valid, Loaded(w).leaves);
    KeepMeans(valid, w.inbox);
    MergeExtends(active, eligible);
    forall k | 0 <= k < |NextLeaves(w, valid)|
      ensures valid(NextLeaves(w, valid)[k])
    {
      MergeInvents(active, eligible, k);
    }
  }

  lemma NextLeavesUnique(w: World, valid: Validity)
    requires Unique(Loaded(w).leaves)
    ensures Unique(NextLeaves(w, valid))
  {
    KeepUnique(valid, Loaded(w).leaves);
    MergeExtends(Active(w, valid), Keep(valid, w.inbox));
  }

  /** Published leaves keep their positions as long as none becomes invalid, so inclusion paths
      move only by growth. */
  lemma PositionsKept(w: World, valid: Validity)
    requires forall k :: 0 <= k < |Loaded(w).leaves| ==> valid(Loaded(w).leaves[k])
    ensures Loaded(w).leaves <= NextLeaves(w, valid)
  {
    AllValidStay(valid, Loaded(w).leaves);
    NextLeavesValid(w, valid);
  }

  datatype Event = Ticks(valid: Validity, ending: Ending) | Submit(c: Commitment)

  function Step(env: Env, w: World, e: Event): World {
    match e
    case Ticks(valid, ending) => Tick(env, w, valid, ending)
    case Submit(c) => w.(inbox := w.inbox + [c])
  }

  /** Event `i` leads from world `i` to the next one. */
  ghost predicate Follows(env: Env, run: seq<World>, events: seq<Event>, i: nat) {
    i < |events| && i + 1 < |run| && run[i + 1] == Step(env, run[i], events[i])
  }

  ghost predicate Run(env: Env, run: seq<World>, events: seq<Event>) {
    && |run| == |events| + 1 && run[0].saved.None?
    && forall i :: 0 <= i < |events| ==> Follows(env, run, events, i)
  }

  /** In every run, with attestations expiring as they like and crashes anywhere, the saved ids
      and leaves stay unique. */
  lemma {:induction false} RunStaysUnique(env: Env, run: seq<World>, events: seq<Event>, i: nat)
    requires Run(env, run, events) && i < |run|
    ensures Unique(Loaded(run[i]).leaves)
  {
    if i > 0 {
      RunStaysUnique(env, run, events, i - 1);
      assert Follows(env, run, events, i - 1);
      if events[i - 1].Ticks? {
        NextLeavesUnique(run[i - 1], events[i - 1].valid);
      }
    }
  }

  /** A tick that gets through, with enough leaves, leaves the chain with the root of the leaves it
      saved, and posts only if the chain had another root. */
  lemma TickConverges(env: Env, w: World, valid: Validity)
    requires !Overflows(env, w, valid)
    ensures var w' := Tick(env, w, valid, Completes);
            && (Waits(env, w, valid) ==> w'.root == w.root)
            && (!Waits(env, w, valid) ==> w'.root == Some(RootOf(env, Loaded(w').leaves)))
            && w'.posts == w.posts + if w'.root == w.root then 0 else 1
  {
  }

  /** Every saved leaf is valid, every valid inbox item is in or its id or leaf is taken, and the
      whole inbox is archived. */
  lemma TickAccounts(env: Env, w: World, valid: Validity)
    requires !Overflows(env, w, valid)
    ensures var w' := Tick(env, w, valid, Completes);
            && (forall c :: c in w.inbox && valid(c) ==> Taken(Loaded(w').leaves, c))
            && (forall k :: 0 <= k < |Loaded(w').leaves| ==> valid(Loaded(w').leaves[k]))
            && w'.archived == w.archived + IdList(w.inbox) && w'.inbox == []
  {
    InboxTaken(w, valid);
    NextLeavesValid(w, valid);
    OwnIds(w.inbox);
    ArchivesAll(w.inbox, IdList(w.inbox));
  }

  lemma InboxTaken(w: World, valid: Validity)
    ensures forall c :: c in w.inbox && valid(c) ==> Taken(NextLeaves(w, valid), c)
  {
    var eligible := Keep(valid, w.inbox);
    KeepMeans(valid, w.inbox);
    forall c | c in w.inbox && valid(c)
      ensures Taken(NextLeaves(w, valid), c)
    {
      var k :| 0 <= k < |eligible| && eligible[k] == c;
      MergeTakes(Active(w, valid), eligible, k);
    }
  }

  lemma OwnIds(list: seq<Commitment>)
    ensures forall k :: 0 <= k < |list| ==> list[k].id in IdList(list)
  {
    forall k | 0 <= k < |list|
      ensures list[k].id in IdList(list)
    {
      assert IdList(list)[k] == list[k].id;
    }
  }

  /** Archiving removes exactly the items that carry one of the ids, */
  lemma {:induction false} ArchivedMeans(inbox: seq<Commitment>, ids: seq<string>, c: Commitment)
    ensures c in Archived(inbox, ids) <==> c in inbox && c.id !in ids
    decreases |inbox|
  {
    if inbox != [] {
      var n := |inbox| - 1;
      ArchivedMeans(inbox[..n], ids, c);
      assert c in inbox <==> c in inbox[..n] || c == inbox[n];
    }
  }

  /** and keeps the others in their order: it works item by item. */
  lemma {:induction false} ArchivedInOrder(a: seq<Commitment>, b: seq<Commitment>, ids: seq<string>)
    ensures Archived(a + b, ids) == Archived(a, ids) + Archived(b, ids)
    decreases |b|
  {
    if b == [] {
      assert a + b == a;
    } else {
      var n := |b| - 1;
      var all := a + b;
      assert all[..|all| - 1] == a + b[..n] && all[|all| - 1] == b[n];
      ArchivedInOrder(a, b[..n], ids);
    }
  }

  lemma {:induction false} ArchivesAll(inbox: seq<Commitment>, ids: seq<string>)
    requires forall k :: 0 <= k < |inbox| ==> inbox[k].id in ids
    ensures Archived(inbox, ids) == []
    decreases |inbox|
  {
    if inbox != [] {
      ArchivesAll(inbox[..|inbox| - 1], ids);
    }
  }

  // ---- Quiescence -------------------------------------------------------------------------

  /** Published: the inbox is empty, every saved leaf is valid, and the chain holds their root. */
  ghost predicate Published(env: Env, w: World, valid: Validity) {
    && w.inbox == [] && w.root == Some(RootOf(env, Loaded(w).leaves))
    && forall k :: 0 <= k < |Loaded(w).leaves| ==> valid(Loaded(w).leaves[k])
  }

  lemma TickPublishes(env: Env, w: World, valid: Validity)
    requires !Waits(env, w, valid) && !Overflows(env, w, valid)
    ensures Published(env, Tick(env, w, valid, Completes), valid)
  {
    TickConverges(env, w, valid);
    TickAccounts(env, w, valid);
  }

  lemma PublishedNext(env: Env, w: World, valid: Validity)
    requires Published(env, w, valid)
    ensures NextLeaves(w, valid) == Loaded(w).leaves
  {
    AllValidStay(valid, Loaded(w).leaves);
    NoNewLeaves(Loaded(w).leaves, valid);
  }

  lemma NoNewLeaves(list: seq<Commitment>, valid: Validity)
    ensures Merge(list, Keep(valid, [])).leaves == list
  {
  }

  /** A further tick, whatever its fate, leaves all of it as it is and posts nothing. */
  lemma PublishedStep(env: Env, w: World, valid: Validity, ending: Ending)
    requires Published(env, w, valid)
    ensures var w' := Tick(env, w, valid, ending);
            Published(env, w', valid) && w'.posts == w.posts && Loaded(w').leaves == Loaded(w).leaves
  {
    PublishedNext(env, w, valid);
    ArchivesAll(w.inbox, IdList(w.inbox));
  }

  /** In every run: once a tick has completed with enough leaves, any number of further ticks with
      the same validity and no submissions, crashing or not, post nothing, and the chain keeps the
      root of the saved leaves. */
  lemma {:induction false} RunQuiesces(env: Env, run: seq<World>, events: seq<Event>, valid: Validity, i: nat, j: nat)
    requires Run(env, run, events) && i < j < |run| && events[i] == Ticks(valid, Completes)
    requires !Waits(env, run[i], valid) && !Overflows(env, run[i], valid)
    requires forall k :: i < k < j ==> events[k].Ticks? && events[k].valid == valid
    ensures Published(env, run[j], valid)
    ensures run[j].posts == run[i + 1].posts && Loaded(run[j]).leaves == Loaded(run[i + 1]).leaves
    decreases j
  {
    assert Follows(env, run, events, j - 1);
    if i < j - 1 {
      RunQuiesces(env, run, events, valid, i, j - 1);
      PublishedStep(env, run[j - 1], valid, events[j - 1].ending);
    } else {
      TickPublishes(env, run[i], valid);
    }
  }

  // ---- Crash and replay -------------------------------------------------------------------

  lemma ReplayLeaves(w: World, w1: World, valid: Validity)
    requires w1.inbox == w.inbox && (w1.saved == w.saved || Loaded(w1).leaves == NextLeaves(w, valid))
    ensures NextLeaves(w1, valid) == NextLeaves(w, valid)
    ensures w1.saved != w.saved ==> Active(w1, valid) == Loaded(w1).leaves
  {
    if w1.saved != w.saved {
      NextLeavesValid(w, valid);
      AllValidStay(valid, NextLeaves(w, valid));
      ReplayIsNoOp(Active(w, valid), Keep(valid, w.inbox), []);
    }
  }

  /** A crash after the post or after the save, then a rerun with the same validity: the same
      leaves, root, inbox and archive as without the crash, and no second post. */
  lemma CrashReplay(env: Env, w: World, valid: Validity, ending: Ending)
    requires ending.DiesAfterPost? || ending.DiesAfterSave?
    ensures var w1 := Tick(env, w, valid, ending);
            var w2 := Tick(env, w1, valid, Completes);
            var once := Tick(env, w, valid, Completes);
            && w2.posts == w1.posts == once.posts && w2.root == w1.root == once.root
            && Loaded(w2).leaves == Loaded(once).leaves
            && w2.inbox == once.inbox && w2.archived == once.archived
  {
    var w1 := Tick(env, w, valid, ending);
    ReplayLeaves(w, w1, valid);
  }

  /** What the rerun does not restore: after a crash between post and save, the state's record of
      the last published root stays what it was before the post. It names the root on chain
      exactly when it did before the crash, or the crash came after the save. */
  lemma CrashForgetsLastPublished(env: Env, w: World, valid: Validity, ending: Ending)
    requires (ending.DiesAfterPost? || ending.DiesAfterSave?) && Posts(env, w, valid)
    ensures var w2 := Tick(env, Tick(env, w, valid, ending), valid, Completes);
            Loaded(w2).lastPublishedRoot == w2.root <==>
              ending.DiesAfterSave? || Loaded(w).lastPublishedRoot == Some(RootOf(env, NextLeaves(w, valid)))
  {
    var w1 := Tick(env, w, valid, ending);
    ReplayLeaves(w, w1, valid);
  }

  /** The failing inputs: a publisher that never published and whose first tick dies after its post.
      After the rerun the root is on chain, the leaves are saved, and the state still records that
      nothing was published. */
  lemma FirstPublicationForgotten(env: Env, w: World, valid: Validity)
    requires w.saved.None? && w.root.None? && env.minLeaves <= |NextLeaves(w, valid)| <= Pow2(env.depth)
    ensures var w2 := Tick(env, Tick(env, w, valid, DiesAfterPost), valid, Completes);
            w2.root.Some? && Loaded(w2).leaves == NextLeaves(w, valid) && Loaded(w2).lastPublishedRoot == None
  {
    ReplayLeaves(w, Tick(env, w, valid, DiesAfterPost), valid);
  }

  /** One valid leaf in the inbox is such an input. */
  lemma OneLeafNext(w: World, c: Commitment, valid: Validity)
    requires w.saved.None? && w.inbox == [c] && valid(c)
    ensures NextLeaves(w, valid) == [c]
  {
    KeepOne(valid, c);
    MergeOneIntoNone(c);
  }

  lemma KeepOne(valid: Validity, c: Commitment)
    requires valid(c)
    ensures Keep(valid, [c]) == [c]
  {
    assert [c][..0] == [];
  }

  lemma MergeOneIntoNone(c: Commitment)
    ensures Merge([], [c]).leaves == [c]
  {
    MergeSnoc([], [], c);
    assert [] + [c] == [c];
  }
}
