/** The association set provider's tick: screen confirmed deposits, rebuild the set's root from
    the durable approvals, and post it only when the chain has another one. */
module AspTick {
  import opened Wrappers
  import Merkle

  datatype Deposit = Deposit(index: nat, ledger: int)

  datatype Verdict = Approve | Reject | Defer
  type Policy = nat -> Verdict

  /** The durable state. Rejected and deferred indices are stored as sorted lists. */
  datatype Pool = Pool(approved: seq<nat>, rejected: set<nat>, deferred: set<nat>, lastIndex: int, lastLedger: int)

  const INIT: Pool := Pool([], {}, {}, -1, 0)

  /** The pair hash, the tree depth (20 in the deployed pools), the pool's scope and the required
      confirmations. */
  datatype Env = Env(h: Merkle.PairHash, depth: nat, scope: int, confirmations: int)

  // ---- Confirmed deposits -----------------------------------------------------------------

  predicate Final(env: Env, latest: int, ledger: int) {
    env.confirmations <= 1 || ledger <= latest - env.confirmations + 1
  }

  /** `confirmedDeposits`. */
  function Confirmed(env: Env, ds: seq<Deposit>, latest: int): seq<Deposit> {
    if env.confirmations <= 1 || ds == [] then ds
    else
      var rest := Confirmed(env, ds[..|ds| - 1], latest);
      var d := ds[|ds| - 1];
      if d.ledger <= latest - env.confirmations + 1 then rest + [d] else rest
  }

  /** Exactly the final deposits, each as often as before. */
  lemma {:induction false} ConfirmedMeans(env: Env, ds: seq<Deposit>, latest: int)
    ensures forall d :: d in Confirmed(env, ds, latest) <==> d in ds && Final(env, latest, d.ledger)
    ensures Distinct(ds) ==> Distinct(Confirmed(env, ds, latest))
    decreases |ds|
  {
    if ds != [] && env.confirmations > 1 {
      var n := |ds| - 1;
      ConfirmedMeans(env, ds[..n], latest);
      assert forall x :: x in ds <==> x in ds[..n] || x == ds[n];
      if Distinct(ds) {
        forall x | x in Confirmed(env, ds[..n], latest)
          ensures x.index != ds[n].index
        {
          assert x in ds[..n];
        }
      }
    }
  }

  ghost predicate Distinct(ds: seq<Deposit>) {
    forall a, b :: 0 <= a < b < |ds| ==> ds[a].index != ds[b].index
  }

  /** Deposit ledgers rise with the index, so only a tail is dropped. */
  lemma {:induction false} OnlyTailDropped(env: Env, ds: seq<Deposit>, latest: int)
    requires forall a, b :: 0 <= a < b < |ds| ==> ds[a].ledger <= ds[b].ledger
    ensures Confirmed(env, ds, latest) <= ds
    decreases |ds|
  {
    if ds != [] && env.confirmations > 1 {
      var n := |ds| - 1;
      OnlyTailDropped(env, ds[..n], latest);
      if Final(env, latest, ds[n].ledger) {
        AllFinal(env, ds[..n], latest);
      }
    }
  }

  lemma {:induction false} AllFinal(env: Env, ds: seq<Deposit>, latest: int)
    requires forall k :: 0 <= k < |ds| ==> Final(env, latest, ds[k].ledger)
    ensures Confirmed(env, ds, latest) == ds
    decreases |ds|
  {
    if ds != [] {
      AllFinal(env, ds[..|ds| - 1], latest);
    }
  }

  // ---- Screening --------------------------------------------------------------------------

  function Max(a: int, b: int): int {
    if a < b then b else a
  }

  function Indices(ds: seq<Deposit>): set<nat> {
    set d | d in ds :: d.index
  }

  predicate Terminal(p: Pool, i: nat) {
    i in p.approved || i in p.rejected
  }

  predicate Known(p: Pool, i: nat) {
    Terminal(p, i) || i in p.deferred
  }

  /** One turn of the screening loop; `p.deferred` collects the deferrals of this tick. */
  function ScreenOne(p: Pool, d: Deposit, policy: Policy): Pool {
    if Terminal(p, d.index) then p
    else
      var v := policy(d.index);
      Pool(if v.Approve? then p.approved + [d.index] else p.approved,
           if v.Reject? then p.rejected + {d.index} else p.rejected,
           if v.Defer? then p.deferred + {d.index} else p.deferred,
           if v.Defer? then p.lastIndex else Max(p.lastIndex, d.index),
           Max(p.lastLedger, d.ledger))
  }

  function Screen(p: Pool, ds: seq<Deposit>, policy: Policy): Pool {
    if ds == [] then p else ScreenOne(Screen(p, ds[..|ds| - 1], policy), ds[|ds| - 1], policy)
  }

  /** No index is in two places. */
  predicate Tidy(p: Pool) {
    && (forall a, b :: 0 <= a < b < |p.approved| ==> p.approved[a] != p.approved[b])
    && p.rejected !! p.deferred
    && (forall i :: i in p.approved ==> i !in p.rejected && i !in p.deferred)
  }

  /** What screening a batch does: old verdicts stand, every deposit of the batch gets the
      policy's verdict, nothing else changes, and the cursors move to deposits of the batch. */
  ghost predicate Screens(p: Pool, q: Pool, ds: seq<Deposit>, policy: Policy) {
    && p.approved <= q.approved && p.rejected <= q.rejected
    && (forall i :: Known(q, i) <==> Known(p, i) || i in Indices(ds))
    && (forall i :: i in Indices(ds) && !Terminal(p, i) ==>
          match policy(i)
          case Approve => i in q.approved
          case Reject => i in q.rejected
          case Defer => i in q.deferred)
    && p.lastIndex <= q.lastIndex && p.lastLedger <= q.lastLedger
    && (q.lastIndex == p.lastIndex || (q.lastIndex >= 0 && q.lastIndex in Indices(ds)))
  }

  lemma ScreenOneTidy(p: Pool, d: Deposit, policy: Policy)
    requires Tidy(p) && d.index !in p.deferred
    ensures Tidy(ScreenOne(p, d, policy))
  {
  }

  lemma {:induction false} ScreenScreens(p: Pool, ds: seq<Deposit>, policy: Policy)
    requires Tidy(p) && p.deferred == {} && Distinct(ds)
    ensures Tidy(Screen(p, ds, policy)) && Screens(p, Screen(p, ds, policy), ds, policy)
    ensures Screen(p, ds, policy).deferred <= Indices(ds)
    decreases |ds|
  {
    if ds != [] {
      var n := |ds| - 1;
      ScreenScreens(p, ds[..n], policy);
      var q := Screen(p, ds[..n], policy);
      assert Indices(ds) == Indices(ds[..n]) + {ds[n].index} by {
        assert forall x :: x in ds <==> x in ds[..n] || x == ds[n];
      }
      assert ds[n].index !in Indices(ds[..n]);
      ScreenOneTidy(q, ds[n], policy);
      ScreenMore(p, q, ds, policy);
    }
  }

  lemma ScreenMore(p: Pool, q: Pool, ds: seq<Deposit>, policy: Policy)
    requires ds != [] && p.deferred == {} && Screens(p, q, ds[..|ds| - 1], policy)
    requires Indices(ds) == Indices(ds[..|ds| - 1]) + {ds[|ds| - 1].index}
    ensures Screens(p, ScreenOne(q, ds[|ds| - 1], policy), ds, policy)
  {
  }

  // ---- Roots ------------------------------------------------------------------------------

  function Labels(env: Env, indices: seq<nat>): (r: seq<int>)
    ensures |r| == |indices|
  {
    seq(|indices|, i requires 0 <= i < |indices| => env.h(env.scope, indices[i]))
  }

  function RootOf(env: Env, indices: seq<nat>): int {
    Merkle.Node(env.h, Labels(env, indices), 0, env.depth)
  }

  /** With an injective hash that gives no zero label, comparing roots compares approvals. */
  lemma RootsCompareApprovals(env: Env, a: seq<nat>, b: seq<nat>)
    requires Merkle.Injective(env.h) && |a| <= Pow2(env.depth) && |b| <= Pow2(env.depth)
    requires forall i: nat :: env.h(env.scope, i) != 0
    ensures RootOf(env, a) == RootOf(env, b) <==> a == b
  {
    var x, y := Labels(env, a), Labels(env, b);
    Merkle.RootsEqualIffLeavesAgree(env.h, x, y, env.depth);
    if Merkle.Agree(x, y, 0, Pow2(env.depth)) {
      SameLength(env, a, b);
      SameLength(env, b, a);
      forall i | 0 <= i < |a|
        ensures a[i] == b[i]
      {
        assert Merkle.Padded(x, i) == Merkle.Padded(y, i);
        assert env.h(env.scope, a[i]) == env.h(env.scope, b[i]);
      }
    }
  }

  lemma SameLength(env: Env, a: seq<nat>, b: seq<nat>)
    requires |a| <= Pow2(env.depth) && forall i: nat :: env.h(env.scope, i) != 0
    requires forall i :: 0 <= i < Pow2(env.depth) ==>
               Merkle.Padded(Labels(env, a), i) == Merkle.Padded(Labels(env, b), i)
    ensures |a| <= |b|
  {
    PaddedLabel(env, a, |b|);
    PaddedLabel(env, b, |b|);
  }

  lemma PaddedLabel(env: Env, a: seq<nat>, k: nat)
    requires forall i: nat :: env.h(env.scope, i) != 0
    ensures Merkle.Padded(Labels(env, a), k) == 0 <==> k >= |a|
  {
    if k < |a| {
      assert Labels(env, a)[k] == env.h(env.scope, a[k]);
    }
  }

  // ---- The world around the tick ----------------------------------------------------------

  /** `ledgers[i]` is the ledger of deposit `i`; `guard` is the guard's expected ledger, if there
      is a guard. */
  datatype World = World(
    ledgers: seq<int>, head: int, root: Option<int>, saved: Option<Pool>, guard: Option<int>, posts: nat)

  /** How far a tick gets. */
  datatype Ending = DiesBeforeGuard | DiesBeforePost | DiesAfterPost | Completes

  datatype Event =
    | Tick(policy: Policy, read: seq<Deposit>, latest: int, ending: Ending)
    | Grow(more: seq<int>)
    | Restart

  function Loaded(w: World): Pool {
    if w.saved.Some? then w.saved.value else INIT
  }

  function ReadAfter(p: Pool): int {
    if p.deferred != {} then -1 else p.lastIndex
  }

  /** The adapter returns every deposit after the cursor, each once. */
  ghost predicate Reads(w: World, after: int, ds: seq<Deposit>) {
    && Distinct(ds)
    && (forall d :: d in ds ==> after < d.index < |w.ledgers| && d.ledger == w.ledgers[d.index])
    && (forall i: nat :: after < i < |w.ledgers| ==> Deposit(i, w.ledgers[i]) in ds)
  }

  function Batch(env: Env, e: Event): seq<Deposit>
    requires e.Tick?
  {
    Confirmed(env, e.read, e.latest)
  }

  function Screened(env: Env, w: World, e: Event): Pool
    requires e.Tick?
  {
    Screen(Loaded(w).(deferred := {}), Batch(env, e), e.policy)
  }

  function MaxLedger(ds: seq<Deposit>): int
    requires ds != []
  {
    if |ds| == 1 then ds[0].ledger else Max(MaxLedger(ds[..|ds| - 1]), ds[|ds| - 1].ledger)
  }

  predicate Rejects(expected: int, ledger: int) {
    expected != 0 && ledger < expected
  }

  /** The guard is asked once the set has been rebuilt, if the batch is not empty. */
  predicate Consults(env: Env, w: World, e: Event) {
    && e.Tick? && !e.ending.DiesBeforeGuard? && |Screened(env, w, e).approved| <= Pow2(env.depth)
    && w.guard.Some? && Batch(env, e) != []
  }

  predicate Halts(env: Env, w: World, e: Event) {
    Consults(env, w, e) && Rejects(w.guard.value, Screened(env, w, e).lastLedger)
  }

  predicate Mismatch(env: Env, w: World, p: Pool) {
    p.approved != [] && w.root != Some(RootOf(env, p.approved))
  }

  function TickStep(env: Env, w: World, e: Event): World
    requires e.Tick?
  {
    var p := Screened(env, w, e);
    var w0 := w.(head := e.latest);
    if e.ending.DiesBeforeGuard? || |p.approved| > Pow2(env.depth) then w0
    else if Halts(env, w, e) then w0.(saved := Some(p), guard := Some(p.lastLedger))
    else
      var w1 := if Consults(env, w, e) then w0.(guard := Some(MaxLedger(Batch(env, e)) + 1)) else w0;
      if e.ending.DiesBeforePost? then w1
      else
        var w2 := if Mismatch(env, w, p) then w1.(root := Some(RootOf(env, p.approved)), posts := w.posts + 1) else w1;
        if e.ending.DiesAfterPost? then w2 else w2.(saved := Some(p))
  }

  /** The tick ran to a save. */
  predicate Saves(env: Env, w: World, e: Event) {
    && e.Tick? && !e.ending.DiesBeforeGuard? && |Screened(env, w, e).approved| <= Pow2(env.depth)
    && (Halts(env, w, e) || e.ending.Completes?)
  }

  ghost predicate Rising(ledgers: seq<int>) {
    forall a, b :: 0 <= a < b < |ledgers| ==> ledgers[a] <= ledgers[b]
  }

  ghost predicate Enabled(env: Env, w: World, e: Event) {
    match e
    case Tick(_, ds, latest, _) => w.head <= latest && Reads(w, ReadAfter(Loaded(w)), ds)
    case Grow(more) => Rising(w.ledgers + more)
    case Restart => true
  }

  function Step(env: Env, w: World, e: Event): World {
    match e
    case Tick(_, _, _, _) => TickStep(env, w, e)
    case Grow(more) => w.(ledgers := w.ledgers + more)
    case Restart => w.(guard := if w.guard.Some? then Some(0) else None)
  }

  /** Event `i` is possible in world `i` and leads to the next one. */
  ghost predicate Follows(env: Env, run: seq<World>, events: seq<Event>, i: nat) {
    && i < |events| && i + 1 < |run|
    && Enabled(env, run[i], events[i]) && run[i + 1] == Step(env, run[i], events[i])
  }

  ghost predicate Run(env: Env, run: seq<World>, events: seq<Event>) {
    && |run| == |events| + 1 && run[0].saved.None? && Rising(run[0].ledgers)
    && (run[0].guard.None? || run[0].guard == Some(0))
    && forall i :: 0 <= i < |events| ==> Follows(env, run, events, i)
  }

  // ---- No deposit is lost -----------------------------------------------------------------

  ghost predicate PoolOk(env: Env, w: World, p: Pool) {
    && Tidy(p)
    && (forall i: nat :: Known(p, i) ==> i < |w.ledgers| && Final(env, w.head, w.ledgers[i]))
    && (forall i: nat :: i <= p.lastIndex ==> Known(p, i))
  }

  ghost predicate Inv(env: Env, w: World) {
    Rising(w.ledgers) && PoolOk(env, w, Loaded(w))
  }

  /** Every confirmed deposit has a place. */
  ghost predicate Complete(env: Env, w: World, p: Pool) {
    forall i: nat :: i < |w.ledgers| && Final(env, w.head, w.ledgers[i]) ==> Known(p, i)
  }

  lemma BatchMeans(env: Env, w: World, e: Event)
    requires e.Tick? && Enabled(env, w, e)
    ensures Distinct(Batch(env, e))
    ensures forall i: nat :: i in Indices(Batch(env, e)) <==>
              ReadAfter(Loaded(w)) < i < |w.ledgers| && Final(env, e.latest, w.ledgers[i])
  {
    ConfirmedMeans(env, e.read, e.latest);
    forall i: nat | ReadAfter(Loaded(w)) < i < |w.ledgers| && Final(env, e.latest, w.ledgers[i])
      ensures i in Indices(Batch(env, e))
    {
      assert Deposit(i, w.ledgers[i]) in Batch(env, e);
    }
  }

  lemma FinalStays(env: Env, a: int, b: int, ledger: int)
    requires a <= b && Final(env, a, ledger)
    ensures Final(env, b, ledger)
  {
  }

  /** The screened pool knows every deposit that is confirmed, and only those. */
  lemma ScreenedKnows(env: Env, w: World, e: Event, i: nat)
    requires Inv(env, w) && e.Tick? && Enabled(env, w, e)
    ensures Known(Screened(env, w, e), i) <==> i < |w.ledgers| && Final(env, e.latest, w.ledgers[i])
  {
    var p0 := Loaded(w);
    var p := p0.(deferred := {});
    BatchMeans(env, w, e);
    assert Tidy(p);
    ScreenScreens(p, Batch(env, e), e.policy);
    if Known(p, i) {
      assert Known(p0, i);
      FinalStays(env, w.head, e.latest, w.ledgers[i]);
    }
    if i < |w.ledgers| && Final(env, e.latest, w.ledgers[i]) && i <= p0.lastIndex && p0.deferred == {} {
      assert Known(p0, i) && Known(p, i);
    }
  }

  lemma ScreenedOk(env: Env, w: World, e: Event)
    requires Inv(env, w) && e.Tick? && Enabled(env, w, e)
    ensures PoolOk(env, w.(head := e.latest), Screened(env, w, e))
    ensures Complete(env, w.(head := e.latest), Screened(env, w, e))
    ensures Screens(Loaded(w).(deferred := {}), Screened(env, w, e), Batch(env, e), e.policy)
  {
    var p := Loaded(w).(deferred := {});
    var q := Screened(env, w, e);
    BatchMeans(env, w, e);
    assert Tidy(p);
    ScreenScreens(p, Batch(env, e), e.policy);
    forall i: nat
      ensures Known(q, i) <==> i < |w.ledgers| && Final(env, e.latest, w.ledgers[i])
    {
      ScreenedKnows(env, w, e, i);
    }
    forall i: nat | i <= q.lastIndex
      ensures Known(q, i)
    {
      CursorPassesKnown(env, w, e, i);
    }
  }

  lemma CursorPassesKnown(env: Env, w: World, e: Event, i: nat)
    requires Inv(env, w) && e.Tick? && Enabled(env, w, e) && i <= Screened(env, w, e).lastIndex
    requires Screens(Loaded(w).(deferred := {}), Screened(env, w, e), Batch(env, e), e.policy)
    ensures Known(Screened(env, w, e), i)
  {
    var q := Screened(env, w, e);
    BatchMeans(env, w, e);
    if i <= Loaded(w).lastIndex {
      assert Known(Loaded(w), i);
      FinalStays(env, w.head, e.latest, w.ledgers[i]);
    } else {
      assert q.lastIndex in Indices(Batch(env, e));
      assert w.ledgers[i] <= w.ledgers[q.lastIndex];
    }
    ScreenedKnows(env, w, e, i);
  }

  lemma PoolStaysOk(env: Env, w: World, w': World, p: Pool)
    requires PoolOk(env, w, p) && w.ledgers <= w'.ledgers && w.head <= w'.head
    ensures PoolOk(env, w', p)
  {
    forall i: nat | Known(p, i)
      ensures i < |w'.ledgers| && Final(env, w'.head, w'.ledgers[i])
    {
      FinalStays(env, w.head, w'.head, w.ledgers[i]);
    }
  }

  lemma StepKeeps(env: Env, w: World, e: Event)
    requires Inv(env, w) && Enabled(env, w, e)
    ensures Inv(env, Step(env, w, e))
  {
    var w' := Step(env, w, e);
    if e.Tick? {
      ScreenedOk(env, w, e);
      PoolStaysOk(env, w.(head := e.latest), w', Screened(env, w, e));
    }
    PoolStaysOk(env, w, w', Loaded(w));
  }

  lemma {:induction false} RunKeeps(env: Env, run: seq<World>, events: seq<Event>, i: nat)
    requires Run(env, run, events) && i < |run|
    ensures Inv(env, run[i])
  {
    assert i > 0 ==> Follows(env, run, events, i - 1);
    if i > 0 {
      RunKeeps(env, run, events, i - 1);
      StepKeeps(env, run[i - 1], events[i - 1]);
    }
  }

  /** No deposit lost: after every tick that saves, in every run and under every policy, each
      deposit confirmed by then is in exactly one of approved, rejected and deferred, and nothing
      else is in any. */
  lemma NoDepositLost(env: Env, run: seq<World>, events: seq<Event>, t: nat, i: nat)
    requires Run(env, run, events) && t < |events| && Saves(env, run[t], events[t])
    ensures var w := run[t + 1]; var p := Loaded(w);
            && (Known(p, i) <==> i < |w.ledgers| && Final(env, w.head, w.ledgers[i]))
            && !(i in p.approved && i in p.rejected) && !(i in p.approved && i in p.deferred)
            && !(i in p.rejected && i in p.deferred)
  {
    assert Follows(env, run, events, t);
    RunKeeps(env, run, events, t);
    RunKeeps(env, run, events, t + 1);
    ScreenedKnows(env, run[t], events[t], i);
  }

  lemma UndecidedIsRead(env: Env, w: World, i: nat)
    requires Inv(env, w) && !Terminal(Loaded(w), i)
    ensures ReadAfter(Loaded(w)) < i
  {
    assert i <= Loaded(w).lastIndex ==> Known(Loaded(w), i);
  }

  /** Fresh verdicts are the policy's. */
  lemma VerdictsArePolicy(env: Env, run: seq<World>, events: seq<Event>, t: nat, i: nat)
    requires Run(env, run, events) && t < |events| && Saves(env, run[t], events[t])
    requires !Terminal(Loaded(run[t]), i) && i < |run[t].ledgers| && Final(env, events[t].latest, run[t].ledgers[i])
    ensures var p := Loaded(run[t + 1]);
            match events[t].policy(i)
            case Approve => i in p.approved
            case Reject => i in p.rejected
            case Defer => i in p.deferred
  {
    assert Follows(env, run, events, t);
    var w, e := run[t], events[t];
    RunKeeps(env, run, events, t);
    ScreenedOk(env, w, e);
    BatchMeans(env, w, e);
    UndecidedIsRead(env, w, i);
  }

  predicate OnlyAdds(p: Pool, q: Pool) {
    && p.approved <= q.approved && p.rejected <= q.rejected
    && p.lastIndex <= q.lastIndex && p.lastLedger <= q.lastLedger
  }

  /** The approved list only grows at its end and the rejected set only grows: no terminal verdict
      ever changes. */
  lemma VerdictsAreFinal(env: Env, run: seq<World>, events: seq<Event>, i: nat, j: nat)
    requires Run(env, run, events) && i <= j < |run|
    ensures OnlyAdds(Loaded(run[i]), Loaded(run[j]))
  {
    var pools := seq(|run|, k requires 0 <= k < |run| => Loaded(run[k]));
    forall k | 0 <= k < |pools| - 1
      ensures OnlyAdds(pools[k], pools[k + 1])
    {
      RunStepOnlyAdds(env, run, events, k);
    }
    AddsAlong(pools, i, j);
  }

  lemma {:induction false} AddsAlong(pools: seq<Pool>, i: nat, j: nat)
    requires forall k :: 0 <= k < |pools| - 1 ==> OnlyAdds(pools[k], pools[k + 1])
    requires i <= j < |pools|
    ensures OnlyAdds(pools[i], pools[j])
    decreases j
  {
    if i < j {
      AddsAlong(pools, i, j - 1);
      assert OnlyAdds(pools[j - 1], pools[(j - 1) + 1]);
      OnlyAddsTwice(pools[i], pools[j - 1], pools[j]);
    }
  }

  lemma RunStepOnlyAdds(env: Env, run: seq<World>, events: seq<Event>, k: nat)
    requires Run(env, run, events) && k < |events|
    ensures OnlyAdds(Loaded(run[k]), Loaded(run[k + 1]))
  {
    assert Follows(env, run, events, k);
    RunKeeps(env, run, events, k);
    StepOnlyAdds(env, run[k], events[k]);
  }

  lemma StepOnlyAdds(env: Env, w: World, e: Event)
    requires Inv(env, w) && Enabled(env, w, e)
    ensures OnlyAdds(Loaded(w), Loaded(Step(env, w, e)))
  {
    StepLoads(env, w, e);
    if e.Tick? {
      ScreenedOnlyAdds(env, w, e);
    }
  }

  lemma StepLoads(env: Env, w: World, e: Event)
    ensures var p := Loaded(Step(env, w, e)); p == Loaded(w) || (e.Tick? && p == Screened(env, w, e))
  {
  }

  lemma ScreenedOnlyAdds(env: Env, w: World, e: Event)
    requires Inv(env, w) && Enabled(env, w, e) && e.Tick?
    ensures OnlyAdds(Loaded(w), Screened(env, w, e))
  {
    ScreenedOk(env, w, e);
  }

  lemma OnlyAddsTwice(p: Pool, q: Pool, r: Pool)
    requires OnlyAdds(p, q) && OnlyAdds(q, r)
    ensures OnlyAdds(p, r)
  {
  }

  // ---- Convergence ------------------------------------------------------------------------

  /** After a tick that completes without a halt, the chain holds the root of the approvals. */
  lemma Converges(env: Env, w: World, e: Event)
    requires e.Tick? && Saves(env, w, e) && !Halts(env, w, e)
    ensures var w' := TickStep(env, w, e);
            Loaded(w').approved != [] ==> w'.root == Some(RootOf(env, Loaded(w').approved))
    ensures TickStep(env, w, e).posts == w.posts <==>
              (Screened(env, w, e).approved == [] || w.root == Some(RootOf(env, Screened(env, w, e).approved)))
  {
  }

  lemma {:induction false} ApprovesNothing(p: Pool, ds: seq<Deposit>, policy: Policy)
    requires forall i :: i in Indices(ds) && !Terminal(p, i) ==> !policy(i).Approve?
    ensures Screen(p, ds, policy).approved == p.approved && p.rejected <= Screen(p, ds, policy).rejected
    decreases |ds|
  {
    if ds != [] {
      var n := |ds| - 1;
      assert forall x :: x in ds[..n] ==> x in ds;
      ApprovesNothing(p, ds[..n], policy);
      assert ds[n] in ds;
    }
  }

  /** A further tick that finds nothing new to approve posts nothing, however it ends. */
  lemma NothingNewNothingPosted(env: Env, w: World, e: Event, f: Event)
    requires e.Tick? && Saves(env, w, e) && !Halts(env, w, e) && f.Tick?
    requires var w' := TickStep(env, w, e);
             forall i :: i in Indices(Batch(env, f)) && !Terminal(Loaded(w'), i) ==> !f.policy(i).Approve?
    ensures var w' := TickStep(env, w, e);
            TickStep(env, w', f).posts == w'.posts && TickStep(env, w', f).root == w'.root
  {
    var w' := TickStep(env, w, e);
    ApprovesNothing(Loaded(w').(deferred := {}), Batch(env, f), f.policy);
    Converges(env, w, e);
  }

  lemma {:induction false} ScreenAppends(p: Pool, ds: seq<Deposit>, extra: seq<Deposit>, policy: Policy)
    ensures Screen(p, ds + extra, policy) == Screen(Screen(p, ds, policy), extra, policy)
    decreases |extra|
  {
    if extra == [] {
      assert ds + extra == ds;
    } else {
      var n := |extra| - 1;
      var all := ds + extra;
      assert all[..|all| - 1] == ds + extra[..n] && all[|all| - 1] == extra[n];
      ScreenAppends(p, ds, extra[..n], policy);
    }
  }

  lemma {:induction false} ApprovedGrows(p: Pool, ds: seq<Deposit>, policy: Policy)
    ensures p.approved <= Screen(p, ds, policy).approved
    decreases |ds|
  {
    if ds != [] {
      ApprovedGrows(p, ds[..|ds| - 1], policy);
    }
  }

  /** A crash between post and save. The process restarts, deposits may have arrived, and a tick
      with the same policy reads the old batch again, perhaps with more: the fresh guard does not
      halt it, it approves what the dead tick approved and then perhaps more, it posts again only
      for something newly approved, and the chain ends with the root of what it saves. With
      nothing new, it saves what the dead tick would have saved. */
  lemma CrashReplay(env: Env, w: World, e: Event, more: seq<int>, f: Event)
    requires e.Tick? && e.ending.DiesAfterPost? && !Halts(env, w, e)
    requires |Screened(env, w, e).approved| <= Pow2(env.depth)
    requires f.Tick? && f.ending.Completes? && f.policy == e.policy && Batch(env, e) <= Batch(env, f)
    ensures var w1 := Step(env, Step(env, TickStep(env, w, e), Restart), Grow(more));
            && !Halts(env, w1, f)
            && Screened(env, w, e).approved <= Screened(env, w1, f).approved
            && (|Screened(env, w1, f).approved| <= Pow2(env.depth) ==>
                  var w2 := TickStep(env, w1, f);
                  && w2.saved == Some(Screened(env, w1, f))
                  && (w2.posts != w1.posts ==> Screened(env, w1, f).approved != Screened(env, w, e).approved)
                  && (Loaded(w2).approved != [] ==> w2.root == Some(RootOf(env, Loaded(w2).approved)))
                  && (Batch(env, f) == Batch(env, e) ==>
                        w2.saved == TickStep(env, w, e.(ending := Completes)).saved && w2.root == w1.root))
  {
    var w1 := Step(env, Step(env, TickStep(env, w, e), Restart), Grow(more));
    var extra := Batch(env, f)[|Batch(env, e)|..];
    assert Batch(env, f) == Batch(env, e) + extra;
    assert Loaded(w1) == Loaded(w);
    ScreenAppends(Loaded(w).(deferred := {}), Batch(env, e), extra, e.policy);
    ApprovedGrows(Screened(env, w, e), extra, e.policy);
  }

  /** The adapter that lists deposits in index order. */
  function Listing(ledgers: seq<int>, after: int): seq<Deposit>
    requires -1 <= after
  {
    var n := |ledgers| - (after + 1);
    if n <= 0 then [] else seq(n, k requires 0 <= k < n => Deposit(after + 1 + k, ledgers[after + 1 + k]))
  }

  /** It reads what a tick needs, and a later batch of it continues an earlier one. */
  lemma ListingBatchGrows(env: Env, w: World, after: int, more: seq<int>, t: int, t': int)
    requires -1 <= after && Rising(w.ledgers + more) && t <= t'
    ensures Reads(w, after, Listing(w.ledgers, after))
    ensures Confirmed(env, Listing(w.ledgers, after), t) <= Confirmed(env, Listing(w.ledgers + more, after), t')
  {
    var ds, ds' := Listing(w.ledgers, after), Listing(w.ledgers + more, after);
    forall i: nat | after < i < |w.ledgers|
      ensures Deposit(i, w.ledgers[i]) in ds
    {
      assert ds[i - (after + 1)] == Deposit(i, w.ledgers[i]);
    }
    ListingRises(w.ledgers, more, after);
    OnlyTailDropped(env, ds, t);
    OnlyTailDropped(env, ds', t');
    ConfirmedLength(env, ds, ds', t, t');
  }

  lemma ListingRises(ledgers: seq<int>, more: seq<int>, after: int)
    requires -1 <= after && Rising(ledgers + more)
    ensures var ds, ds' := Listing(ledgers, after), Listing(ledgers + more, after);
            && ds <= ds' && Distinct(ds')
            && (forall a, b :: 0 <= a < b < |ds'| ==> ds'[a].ledger <= ds'[b].ledger)
            && (forall a, b :: 0 <= a < b < |ds| ==> ds[a].ledger <= ds[b].ledger)
  {
    var ds, ds' := Listing(ledgers, after), Listing(ledgers + more, after);
    forall k | 0 <= k < |ds|
      ensures ds[k] == ds'[k]
    {
    }
  }

  lemma ConfirmedLength(env: Env, ds: seq<Deposit>, ds': seq<Deposit>, t: int, t': int)
    requires ds <= ds' && Distinct(ds') && t <= t'
    requires Confirmed(env, ds, t) <= ds && Confirmed(env, ds', t') <= ds'
    ensures Confirmed(env, ds, t) <= Confirmed(env, ds', t')
  {
    var c, c' := Confirmed(env, ds, t), Confirmed(env, ds', t');
    if |c'| < |c| {
      var k := |c| - 1;
      ConfirmedMeans(env, ds, t);
      ConfirmedMeans(env, ds', t');
      assert c[k] in c && ds'[k] == c[k];
      FinalStays(env, t, t', c[k].ledger);
      assert ds'[k] in ds';
      NotInPrefix(ds', c', k);
    }
  }

  lemma NotInPrefix(ds: seq<Deposit>, c: seq<Deposit>, k: nat)
    requires Distinct(ds) && c <= ds && |c| <= k < |ds|
    ensures ds[k] !in c
  {
    forall i | 0 <= i < |c|
      ensures c[i] != ds[k]
    {
      assert ds[i].index != ds[k].index;
    }
  }

  // ---- When the next tick resolves a dead one ---------------------------------------------

  /** The tick's policy approves something that it reads and that was undecided. */
  predicate ApprovesSome(env: Env, w: World, e: Event)
    requires e.Tick?
  {
    exists k :: 0 <= k < |Batch(env, e)| && !Terminal(Loaded(w), Batch(env, e)[k].index)
                && e.policy(Batch(env, e)[k].index).Approve?
  }

  lemma NoneApprovedIff(env: Env, w: World, e: Event)
    requires Inv(env, w) && e.Tick? && Enabled(env, w, e)
    ensures Screened(env, w, e).approved == [] <==> Loaded(w).approved == [] && !ApprovesSome(env, w, e)
  {
    var p, batch := Loaded(w).(deferred := {}), Batch(env, e);
    BatchMeans(env, w, e);
    ScreenedOk(env, w, e);
    if ApprovesSome(env, w, e) {
      var k :| 0 <= k < |batch| && !Terminal(Loaded(w), batch[k].index) && e.policy(batch[k].index).Approve?;
      assert batch[k] in batch && batch[k].index in Indices(batch) && !Terminal(p, batch[k].index);
      assert batch[k].index in Screened(env, w, e).approved;
    } else {
      forall i | i in Indices(batch) && !Terminal(p, i)
        ensures !e.policy(i).Approve?
      {
        var k :| 0 <= k < |batch| && batch[k].index == i;
        assert !Terminal(Loaded(w), batch[k].index);
      }
      ApprovesNothing(p, batch, e.policy);
    }
  }

  lemma NoPostKeepsRoot(env: Env, w: World, e: Event)
    requires Step(env, w, e).posts == w.posts
    ensures Step(env, w, e).root == w.root
  {
  }

  lemma {:induction false} RootStays(env: Env, run: seq<World>, events: seq<Event>, i: nat, j: nat)
    requires Run(env, run, events) && i <= j < |run|
    requires forall k :: i <= k < j ==> run[k + 1].posts == run[k].posts
    ensures run[j].root == run[i].root
    decreases j
  {
    if i < j {
      RootStays(env, run, events, i, j - 1);
      assert Follows(env, run, events, j - 1);
      assert run[(j - 1) + 1].posts == run[j - 1].posts;
      NoPostKeepsRoot(env, run[j - 1], events[j - 1]);
    }
  }

  lemma DeadTickPosts(env: Env, w: World, e: Event)
    requires e.Tick? && e.ending.DiesAfterPost? && !Halts(env, w, e)
    requires 0 < |Screened(env, w, e).approved| <= Pow2(env.depth)
    ensures Step(env, w, e).root == Some(RootOf(env, Screened(env, w, e).approved))
  {
  }

  /** A tick with approvals dies after its post; later, with no post between, a tick with any policy
      saves unhalted. It brings the chain to the root of what it saves exactly if something was
      approved before or it approves something itself: an empty set is never published. */
  lemma DeadTickResolvedIff(env: Env, run: seq<World>, events: seq<Event>, i: nat, j: nat)
    requires Merkle.Injective(env.h) && forall k: nat :: env.h(env.scope, k) != 0
    requires Run(env, run, events) && i < j < |events|
    requires events[i].Tick? && events[i].ending.DiesAfterPost? && !Halts(env, run[i], events[i])
    requires 0 < |Screened(env, run[i], events[i]).approved| <= Pow2(env.depth)
    requires forall k :: i < k < j ==> run[k + 1].posts == run[k].posts
    requires Saves(env, run[j], events[j]) && !Halts(env, run[j], events[j])
    ensures run[j + 1].root == Some(RootOf(env, Loaded(run[j + 1]).approved)) <==>
              Loaded(run[j]).approved != [] || ApprovesSome(env, run[j], events[j])
  {
    var posted := Screened(env, run[i], events[i]).approved;
    assert Follows(env, run, events, i) && Follows(env, run, events, j);
    DeadTickPosts(env, run[i], events[i]);
    RootStays(env, run, events, i + 1, j);
    RunKeeps(env, run, events, j);
    NoneApprovedIff(env, run[j], events[j]);
    Converges(env, run[j], events[j]);
    RootsCompareApprovals(env, posted, []);
  }

  /** The failing input: one deposit, approved by a tick that dies after its post and rejected by the
      tick after the restart. The chain keeps the root of an approval that was never saved. */
  lemma RejectedAfterPost(env: Env, ledger: int)
    requires env.confirmations <= 1
    ensures var ds := [Deposit(0, ledger)];
            var w := World([ledger], ledger, None, None, Some(0), 0);
            var w1 := Step(env, Step(env, w, Tick(_ => Approve, ds, ledger, DiesAfterPost)), Restart);
            var w2 := Step(env, w1, Tick(_ => Reject, ds, ledger, Completes));
            w2.root == Some(RootOf(env, [0])) && Loaded(w2).approved == [] && Loaded(w2).rejected == {0}
  {
    var d := Deposit(0, ledger);
    var w := World([ledger], ledger, None, None, Some(0), 0);
    var e, f := Tick(_ => Approve, [d], ledger, DiesAfterPost), Tick(_ => Reject, [d], ledger, Completes);
    ScreenSingle(INIT, d, e.policy);
    assert Screened(env, w, e) == Pool([0], {}, {}, 0, Max(0, ledger));
    var w1 := Step(env, Step(env, w, e), Restart);
    ScreenSingle(INIT, d, f.policy);
    assert Screened(env, w1, f) == Pool([], {0}, {}, 0, Max(0, ledger));
  }

  // ---- The guard --------------------------------------------------------------------------

  /** The guard will accept whatever the next tick brings. */
  predicate Primed(w: World) {
    w.guard.Some? ==> w.guard.value == 0 || w.guard.value <= Loaded(w).lastLedger
  }

  lemma {:induction false} StaysPrimed(env: Env, run: seq<World>, events: seq<Event>, i: nat, j: nat)
    requires Run(env, run, events) && i < j < |run| && Halts(env, run[i], events[i])
    requires forall k :: i < k < j ==> !Consults(env, run[k], events[k])
    ensures Primed(run[j])
    decreases j
  {
    if i < j - 1 {
      StaysPrimed(env, run, events, i, j - 1);
    }
    StaysPrimedStep(env, run, events, i, j - 1);
  }

  lemma StaysPrimedStep(env: Env, run: seq<World>, events: seq<Event>, i: nat, k: nat)
    requires Run(env, run, events) && i <= k < |events| && Halts(env, run[i], events[i])
    requires i < k ==> Primed(run[k]) && !Consults(env, run[k], events[k])
    ensures Primed(run[k + 1])
  {
    assert Follows(env, run, events, k);
    if i < k {
      RunKeeps(env, run, events, k);
      PrimedStep(env, run[k], events[k]);
    } else {
      HaltPrimes(env, run[i], events[i]);
    }
  }

  lemma HaltPrimes(env: Env, w: World, e: Event)
    requires Halts(env, w, e)
    ensures Primed(Step(env, w, e))
  {
  }

  lemma PrimedStep(env: Env, w: World, e: Event)
    requires Inv(env, w) && Enabled(env, w, e) && Primed(w) && !Consults(env, w, e)
    ensures Primed(Step(env, w, e))
  {
    StepOnlyAdds(env, w, e);
  }

  /** Of two successive ticks that consult the guard, at most one halts. */
  lemma NoTwoHalts(env: Env, run: seq<World>, events: seq<Event>, i: nat, j: nat)
    requires Run(env, run, events) && i < j < |events| && Halts(env, run[i], events[i])
    requires Consults(env, run[j], events[j]) && forall k :: i < k < j ==> !Consults(env, run[k], events[k])
    ensures !Halts(env, run[j], events[j])
  {
    assert Follows(env, run, events, j);
    StaysPrimed(env, run, events, i, j);
    RunKeeps(env, run, events, j);
    ScreenedOnlyAdds(env, run[j], events[j]);
  }

  /** After a halt, the next tick that saves is not halted and brings the chain to the root of its
      approvals. */
  lemma ConvergesAfterHalt(env: Env, run: seq<World>, events: seq<Event>, i: nat, j: nat)
    requires Run(env, run, events) && i < j < |events| && Halts(env, run[i], events[i]) && Saves(env, run[j], events[j])
    requires forall k :: i < k < j ==> !Consults(env, run[k], events[k])
    ensures !Halts(env, run[j], events[j])
    ensures Loaded(run[j + 1]).approved != [] ==> run[j + 1].root == Some(RootOf(env, Loaded(run[j + 1]).approved))
  {
    assert Follows(env, run, events, j);
    if Consults(env, run[j], events[j]) {
      NoTwoHalts(env, run, events, i, j);
    }
    Converges(env, run[j], events[j]);
  }

  // ---- When the guard halts ---------------------------------------------------------------

  /** Between consultations, and without a restart, the guard remembers what it committed. */
  lemma {:induction false} GuardRemembers(env: Env, run: seq<World>, events: seq<Event>, i: nat, j: nat)
    requires Run(env, run, events) && i < j < |run|
    requires Consults(env, run[i], events[i]) && !Halts(env, run[i], events[i])
    requires forall k :: i < k < j ==> !Consults(env, run[k], events[k]) && !events[k].Restart?
    ensures run[j].guard == Some(MaxLedger(Batch(env, events[i])) + 1)
    decreases j
  {
    assert Follows(env, run, events, j - 1);
    if i < j - 1 {
      GuardRemembers(env, run, events, i, j - 1);
      UnconsultedKeepsGuard(env, run[j - 1], events[j - 1]);
    } else {
      AcceptCommits(env, run[i], events[i]);
    }
  }

  lemma UnconsultedKeepsGuard(env: Env, w: World, e: Event)
    requires !Consults(env, w, e) && !e.Restart?
    ensures Step(env, w, e).guard == w.guard
  {
  }

  lemma AcceptCommits(env: Env, w: World, e: Event)
    requires Consults(env, w, e) && !Halts(env, w, e)
    ensures Step(env, w, e).guard == Some(MaxLedger(Batch(env, e)) + 1)
  {
  }

  /** The ledger cursor stays at or below `m` exactly if it was there and no undecided deposit of
      the batch lies beyond. */
  lemma {:induction false} CursorBelow(p: Pool, ds: seq<Deposit>, policy: Policy, m: int)
    requires Distinct(ds)
    ensures Screen(p, ds, policy).lastLedger <= m <==>
              p.lastLedger <= m && forall k :: 0 <= k < |ds| && !Terminal(p, ds[k].index) ==> ds[k].ledger <= m
    ensures forall i: nat :: i !in Indices(ds) ==> (Terminal(Screen(p, ds, policy), i) <==> Terminal(p, i))
    decreases |ds|
  {
    if ds != [] {
      var n := |ds| - 1;
      CursorBelow(p, ds[..n], policy, m);
      assert Indices(ds) == Indices(ds[..n]) + {ds[n].index} by {
        assert forall x :: x in ds <==> x in ds[..n] || x == ds[n];
      }
      assert ds[n].index !in Indices(ds[..n]);
    }
  }

  /** The cursors point at deposits the pool knows. */
  ghost predicate CursorOk(w: World, p: Pool) {
    && TerminalsBelow(p)
    && (p.lastLedger <= 0 || exists i: nat :: Known(p, i) && i < |w.ledgers| && p.lastLedger <= w.ledgers[i])
  }

  ghost predicate TerminalsBelow(p: Pool) {
    forall i: nat :: Terminal(p, i) ==> i <= p.lastIndex
  }

  lemma WithoutDeferred(p: Pool)
    requires TerminalsBelow(p)
    ensures TerminalsBelow(p.(deferred := {}))
  {
    forall i: nat | Terminal(p.(deferred := {}), i)
      ensures i <= p.lastIndex
    {
      assert Terminal(p, i);
    }
  }

  lemma ScreenOneBelow(p: Pool, d: Deposit, policy: Policy)
    requires TerminalsBelow(p)
    ensures TerminalsBelow(ScreenOne(p, d, policy))
  {
    var q := ScreenOne(p, d, policy);
    forall i: nat | Terminal(q, i)
      ensures i <= q.lastIndex
    {
      assert Terminal(p, i) || i == d.index;
    }
  }

  lemma {:induction false} ScreenCursors(p: Pool, ds: seq<Deposit>, policy: Policy)
    requires TerminalsBelow(p)
    ensures var q := Screen(p, ds, policy);
            TerminalsBelow(q) && (q.lastLedger == p.lastLedger || exists d :: d in ds && q.lastLedger == d.ledger)
    decreases |ds|
  {
    if ds != [] {
      var n := |ds| - 1;
      ScreenCursors(p, ds[..n], policy);
      ScreenOneBelow(Screen(p, ds[..n], policy), ds[n], policy);
      assert forall x :: x in ds[..n] ==> x in ds;
      assert ds[n] in ds;
    }
  }

  lemma ScreenedCursorOk(env: Env, w: World, e: Event)
    requires Inv(env, w) && CursorOk(w, Loaded(w)) && e.Tick? && Enabled(env, w, e)
    ensures CursorOk(w, Screened(env, w, e))
  {
    var p, q := Loaded(w), Screened(env, w, e);
    WithoutDeferred(p);
    ScreenCursors(p.(deferred := {}), Batch(env, e), e.policy);
    ConfirmedMeans(env, e.read, e.latest);
    if q.lastLedger > 0 {
      if q.lastLedger == p.lastLedger {
        var i: nat :| Known(p, i) && i < |w.ledgers| && p.lastLedger <= w.ledgers[i];
        FinalStays(env, w.head, e.latest, w.ledgers[i]);
        ScreenedKnows(env, w, e, i);
      } else {
        var d :| d in Batch(env, e) && q.lastLedger == d.ledger;
        ScreenedKnows(env, w, e, d.index);
      }
    }
  }

  lemma StepCursorOk(env: Env, w: World, e: Event)
    requires Inv(env, w) && CursorOk(w, Loaded(w)) && Enabled(env, w, e)
    ensures CursorOk(Step(env, w, e), Loaded(Step(env, w, e)))
  {
    StepLoads(env, w, e);
    StepLedgers(env, w, e);
    if e.Tick? {
      ScreenedCursorOk(env, w, e);
    }
    CursorStays(w, Step(env, w, e), Loaded(Step(env, w, e)));
  }

  lemma StepLedgers(env: Env, w: World, e: Event)
    ensures w.ledgers <= Step(env, w, e).ledgers
  {
  }

  lemma CursorStays(w: World, w': World, p: Pool)
    requires CursorOk(w, p) && w.ledgers <= w'.ledgers
    ensures CursorOk(w', p)
  {
    if p.lastLedger > 0 {
      var i: nat :| Known(p, i) && i < |w.ledgers| && p.lastLedger <= w.ledgers[i];
      assert w'.ledgers[i] == w.ledgers[i];
    }
  }

  lemma {:induction false} RunCursorOk(env: Env, run: seq<World>, events: seq<Event>, i: nat)
    requires Run(env, run, events) && i < |run|
    ensures CursorOk(run[i], Loaded(run[i]))
  {
    assert i > 0 ==> Follows(env, run, events, i - 1);
    if i > 0 {
      RunCursorOk(env, run, events, i - 1);
      RunKeeps(env, run, events, i - 1);
      StepCursorOk(env, run[i - 1], events[i - 1]);
    }
  }

  lemma {:induction false} MaxLedgerIsMax(ds: seq<Deposit>, d: Deposit)
    requires d in ds
    ensures d.ledger <= MaxLedger(ds)
    decreases |ds|
  {
    var n := |ds| - 1;
    if d != ds[n] {
      assert d in ds[..n];
      MaxLedgerIsMax(ds[..n], d);
    }
  }

  /** What a tick commits covers the ledger cursor it found and the one it leaves. */
  lemma CommitCoversCursor(env: Env, w: World, e: Event)
    requires Inv(env, w) && CursorOk(w, Loaded(w)) && e.Tick? && Enabled(env, w, e)
    requires Batch(env, e) != [] && MaxLedger(Batch(env, e)) >= 0
    ensures Loaded(w).lastLedger <= MaxLedger(Batch(env, e))
    ensures Screened(env, w, e).lastLedger <= MaxLedger(Batch(env, e))
  {
    var p, batch := Loaded(w), Batch(env, e);
    ConfirmedMeans(env, e.read, e.latest);
    if p.lastLedger > 0 {
      var i: nat :| Known(p, i) && i < |w.ledgers| && p.lastLedger <= w.ledgers[i];
      FinalStays(env, w.head, e.latest, w.ledgers[i]);
      if p.deferred != {} {
        assert Deposit(i, w.ledgers[i]) in batch;
        MaxLedgerIsMax(batch, Deposit(i, w.ledgers[i]));
      } else {
        var d := batch[0];
        assert d in batch && i <= p.lastIndex < d.index;
        MaxLedgerIsMax(batch, d);
      }
    }
    WithoutDeferred(p);
    ScreenCursors(p.(deferred := {}), batch, e.policy);
    if Screened(env, w, e).lastLedger != p.lastLedger {
      var d :| d in batch && Screened(env, w, e).lastLedger == d.ledger;
      MaxLedgerIsMax(batch, d);
    }
  }

  lemma UnconsultedKeepsCursor(env: Env, w: World, e: Event)
    requires !Consults(env, w, e) && w.guard.Some?
    ensures Loaded(Step(env, w, e)).lastLedger == Loaded(w).lastLedger
  {
  }

  lemma CommitCovers(env: Env, run: seq<World>, events: seq<Event>, i: nat)
    requires Run(env, run, events) && i < |events| && Consults(env, run[i], events[i])
    requires MaxLedger(Batch(env, events[i])) >= 0
    ensures Loaded(run[i + 1]).lastLedger <= MaxLedger(Batch(env, events[i]))
  {
    assert Follows(env, run, events, i);
    RunKeeps(env, run, events, i);
    RunCursorOk(env, run, events, i);
    CommitCoversCursor(env, run[i], events[i]);
    StepLoads(env, run[i], events[i]);
  }

  lemma CoveredStep(env: Env, run: seq<World>, events: seq<Event>, k: nat, m: int)
    requires Run(env, run, events) && k < |events| && run[k].guard.Some? && !Consults(env, run[k], events[k])
    requires Loaded(run[k]).lastLedger <= m
    ensures Loaded(run[k + 1]).lastLedger <= m
  {
    assert Follows(env, run, events, k);
    UnconsultedKeepsCursor(env, run[k], events[k]);
  }

  /** Until the next consultation the saved cursor stays covered. */
  lemma {:induction false} CursorStaysCovered(env: Env, run: seq<World>, events: seq<Event>, i: nat, j: nat)
    requires Run(env, run, events) && i < j < |run|
    requires Consults(env, run[i], events[i]) && !Halts(env, run[i], events[i]) && MaxLedger(Batch(env, events[i])) >= 0
    requires forall k :: i < k < j ==> !Consults(env, run[k], events[k]) && !events[k].Restart?
    ensures Loaded(run[j]).lastLedger <= MaxLedger(Batch(env, events[i]))
    decreases j
  {
    if i < j - 1 {
      CursorStaysCovered(env, run, events, i, j - 1);
      GuardRemembers(env, run, events, i, j - 1);
      CoveredStep(env, run, events, j - 1, MaxLedger(Batch(env, events[i])));
    } else {
      CommitCovers(env, run, events, i);
    }
  }

  /** Every deposit this tick reads and has still to decide lies at or below ledger `m`. */
  predicate NothingBeyond(env: Env, w: World, e: Event, m: int)
    requires e.Tick?
  {
    forall k :: 0 <= k < |Batch(env, e)| && !Terminal(Loaded(w), Batch(env, e)[k].index) ==>
        Batch(env, e)[k].ledger <= m
  }

  /** When exactly the guard halts: after an accepted consultation, whether that tick then died or
      not, the next consultation in the same process halts if and only if no undecided deposit it
      reads lies beyond the committed ledger. No rollback is needed. */
  lemma HaltsIffNothingBeyond(env: Env, run: seq<World>, events: seq<Event>, i: nat, j: nat)
    requires Run(env, run, events) && i < j < |events|
    requires Consults(env, run[i], events[i]) && !Halts(env, run[i], events[i]) && MaxLedger(Batch(env, events[i])) >= 0
    requires forall k :: i < k < j ==> !Consults(env, run[k], events[k]) && !events[k].Restart?
    requires Consults(env, run[j], events[j])
    ensures Halts(env, run[j], events[j]) <==> NothingBeyond(env, run[j], events[j], MaxLedger(Batch(env, events[i])))
  {
    assert Follows(env, run, events, j);
    var m := MaxLedger(Batch(env, events[i]));
    GuardRemembers(env, run, events, i, j);
    CursorStaysCovered(env, run, events, i, j);
    BatchMeans(env, run[j], events[j]);
    CursorBelow(Loaded(run[j]).(deferred := {}), Batch(env, events[j]), events[j].policy, m);
    SameTerminals(env, run[j], events[j], m);
  }

  lemma SameTerminals(env: Env, w: World, e: Event, m: int)
    requires e.Tick?
    ensures var p := Loaded(w).(deferred := {});
            NothingBeyond(env, w, e, m) <==>
              forall k :: 0 <= k < |Batch(env, e)| && !Terminal(p, Batch(env, e)[k].index) ==>
                  Batch(env, e)[k].ledger <= m
  {
  }

  // ---- A quiet pool halts every other tick ------------------------------------------------

  function Repeated(env: Env, w: World, e: Event, n: nat): World {
    if n == 0 then w else Step(env, Repeated(env, w, e, n - 1), e)
  }

  /** The pool is settled: the tick changes nothing in it, and the guard expects `expected`. */
  predicate Settled(env: Env, w: World, e: Event, p: Pool, expected: int) {
    && e.Tick? && e.ending.Completes? && Loaded(w) == p && w.guard == Some(expected)
    && Batch(env, e) != [] && |p.approved| <= Pow2(env.depth)
    && Screen(p.(deferred := {}), Batch(env, e), e.policy) == p
  }

  lemma SettledStep(env: Env, w: World, e: Event, p: Pool, expected: int)
    requires Settled(env, w, e, p, expected)
    ensures Halts(env, w, e) <==> Rejects(expected, p.lastLedger)
    ensures Settled(env, Step(env, w, e), e, p,
                    if Rejects(expected, p.lastLedger) then p.lastLedger else MaxLedger(Batch(env, e)) + 1)
  {
  }

  /** Once a settled pool has committed its batch, every other tick halts, for ever. */
  lemma {:induction false} SettledAlternates(env: Env, w: World, e: Event, p: Pool, n: nat)
    requires e.Tick? && Batch(env, e) != []
    requires Settled(env, w, e, p, MaxLedger(Batch(env, e)) + 1) && 0 <= p.lastLedger <= MaxLedger(Batch(env, e))
    ensures Halts(env, Repeated(env, w, e, n), e) <==> n % 2 == 0
    ensures Settled(env, Repeated(env, w, e, n), e, p,
                    if n % 2 == 0 then MaxLedger(Batch(env, e)) + 1 else p.lastLedger)
  {
    if n > 0 {
      SettledAlternates(env, w, e, p, n - 1);
      SettledStep(env, Repeated(env, w, e, n - 1), e, p,
                  if (n - 1) % 2 == 0 then MaxLedger(Batch(env, e)) + 1 else p.lastLedger);
    }
    SettledStep(env, Repeated(env, w, e, n), e, p, if n % 2 == 0 then MaxLedger(Batch(env, e)) + 1 else p.lastLedger);
  }

  lemma ScreenSingle(p: Pool, d: Deposit, policy: Policy)
    ensures Screen(p, [d], policy) == ScreenOne(p, d, policy)
  {
    assert [d][..0] == [];
  }

  /** A halt needs no rollback: with one deposit that stays deferred, a fresh pool's guard accepts
      the first tick and halts every second one. */
  lemma DeferralHalts(env: Env, ledger: int, n: nat)
    requires env.confirmations <= 1 && ledger > 0
    ensures var e := Tick(_ => Defer, [Deposit(0, ledger)], ledger, Completes);
            var w := World([ledger], ledger, None, None, Some(0), 0);
            && Enabled(env, w, e) && Enabled(env, Step(env, w, e), e)
            && !Halts(env, w, e)
            && (Halts(env, Repeated(env, Step(env, w, e), e, n), e) <==> n % 2 == 0)
  {
    var d := Deposit(0, ledger);
    var e := Tick(_ => Defer, [d], ledger, Completes);
    var w := World([ledger], ledger, None, None, Some(0), 0);
    assert Batch(env, e) == [d];
    ScreenSingle(INIT, d, e.policy);
    var w1 := Step(env, w, e);
    var p := Loaded(w1);
    ScreenSingle(p.(deferred := {}), d, e.policy);
    assert Settled(env, w1, e, p, ledger + 1);
    SettledAlternates(env, w1, e, p, n);
  }
}
