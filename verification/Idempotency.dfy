/** Idempotency keys of the relayer: concurrent calls share one execution, later calls get the
    saved result until it expires, and the prune timer sweeps expired results. */
module Idempotency {

  type Key = string

  datatype Outcome = Pair(acceptedTx: string, submittedTx: string) | Nothing | Failed(error: string)

  /** One run of a payload; `released` once its promise has left the pending map. */
  datatype Execution = Execution(key: Key, outcome: Progress, released: bool)

  datatype Progress = Running | Settled(outcome: Outcome)

  datatype Saved = Saved(result: Outcome, expiresAt: int)

  datatype State = State(store: map<Key, Saved>, pending: map<Key, nat>, execs: seq<Execution>)

  datatype Event =
    | Call(key: Key, now: int)
    | Finish(exec: nat, outcome: Outcome, now: int)
    | Release(exec: nat)
    | Prune(now: int)

  datatype Answer = Replayed(result: Outcome) | Joined(exec: nat) | Started(exec: nat)

  const TTL: int := 24 * 60 * 60 * 1000

  // ---- Steps ------------------------------------------------------------------------------

  predicate Live(store: map<Key, Saved>, key: Key, now: int) {
    key in store && store[key].expiresAt > now
  }

  /** How a call is answered; the empty key counts as no key. */
  function Answered(s: State, key: Key, now: int): Answer {
    if key != "" && Live(s.store, key, now) then Replayed(s.store[key].result)
    else if key != "" && key in s.pending then Joined(s.pending[key])
    else Started(|s.execs|)
  }

  function Called(s: State, key: Key, now: int): State {
    var started := s.execs + [Execution(key, Running, false)];
    if key == "" then s.(execs := started)
    else if Live(s.store, key, now) then s
    else if key in s.pending then s.(store := s.store - {key})
    else State(s.store - {key}, s.pending[key := |s.execs|], started)
  }

  function Finished(s: State, e: nat, outcome: Outcome, now: int): State
    requires e < |s.execs|
  {
    var x := s.execs[e];
    State(if outcome.Pair? && x.key != "" then s.store[x.key := Saved(outcome, now + TTL)] else s.store,
          s.pending, s.execs[e := x.(outcome := Settled(outcome))])
  }

  function Released(s: State, e: nat): State
    requires e < |s.execs|
  {
    State(s.store, s.pending - {s.execs[e].key}, s.execs[e := s.execs[e].(released := true)])
  }

  function Pruned(s: State, now: int): State {
    s.(store := map k | k in s.store && now < s.store[k].expiresAt :: s.store[k])
  }

  predicate Enabled(s: State, e: Event) {
    match e
    case Finish(x, _, _) => x < |s.execs| && s.execs[x].outcome.Running?
    case Release(x) => x < |s.execs| && s.execs[x].outcome.Settled? && !s.execs[x].released && s.execs[x].key != ""
    case _ => true
  }

  function Step(s: State, e: Event): State
    requires Enabled(s, e)
  {
    match e
    case Call(key, now) => Called(s, key, now)
    case Finish(x, outcome, now) => Finished(s, x, outcome, now)
    case Release(x) => Released(s, x)
    case Prune(now) => Pruned(s, now)
  }

  predicate Possible(s: State, es: seq<Event>)
    decreases |es|
  {
    es == [] || (Enabled(s, es[0]) && Possible(Step(s, es[0]), es[1..]))
  }

  function After(s: State, es: seq<Event>): State
    requires Possible(s, es)
    decreases |es|
  {
    if es == [] then s else After(Step(s, es[0]), es[1..])
  }

  function Clock(e: Event, t: int): int {
    if e.Release? then t else e.now
  }

  /** The clock starts at `t` and never goes back. */
  predicate Clocked(es: seq<Event>, t: int)
    decreases |es|
  {
    es == [] || (t <= Clock(es[0], t) && Clocked(es[1..], Clock(es[0], t)))
  }

  // ---- One execution per key --------------------------------------------------------------

  /** Every execution of a key that has not left the pending map is the one registered there. */
  predicate Inv(s: State) {
    && (forall e :: 0 <= e < |s.execs| && s.execs[e].key != "" && !s.execs[e].released ==>
          s.execs[e].key in s.pending && s.pending[s.execs[e].key] == e)
    && (forall k :: k in s.pending ==>
          k != "" && s.pending[k] < |s.execs| && s.execs[s.pending[k]].key == k && !s.execs[s.pending[k]].released)
    && (forall e :: 0 <= e < |s.execs| && s.execs[e].outcome.Running? ==> !s.execs[e].released)
  }

  const EMPTY: State := State(map[], map[], [])

  lemma CallKeeps(s: State, key: Key, now: int)
    requires Inv(s)
    ensures Inv(Called(s, key, now))
  {
  }

  lemma FinishKeeps(s: State, e: nat, outcome: Outcome, now: int)
    requires Inv(s) && Enabled(s, Finish(e, outcome, now))
    ensures Inv(Finished(s, e, outcome, now))
  {
  }

  lemma ReleaseKeeps(s: State, e: nat)
    requires Inv(s) && Enabled(s, Release(e))
    ensures Inv(Released(s, e))
  {
  }

  lemma StepKeeps(s: State, e: Event)
    requires Inv(s) && Enabled(s, e)
    ensures Inv(Step(s, e))
  {
    match e
    case Call(key, now) => CallKeeps(s, key, now);
    case Finish(x, outcome, now) => FinishKeeps(s, x, outcome, now);
    case Release(x) => ReleaseKeeps(s, x);
    case Prune(_) =>
  }

  lemma {:induction false} RunKeeps(s: State, es: seq<Event>)
    requires Inv(s) && Possible(s, es)
    ensures Inv(After(s, es))
    decreases |es|
  {
    if es != [] {
      StepKeeps(s, es[0]);
      RunKeeps(Step(s, es[0]), es[1..]);
    }
  }

  /** At most one execution of a key is in flight, in every interleaving. */
  lemma OneInFlight(es: seq<Event>, e: nat, f: nat)
    requires Possible(EMPTY, es)
    requires var s := After(EMPTY, es);
             && e < |s.execs| && f < |s.execs| && s.execs[e].key == s.execs[f].key != ""
             && s.execs[e].outcome.Running? && s.execs[f].outcome.Running?
    ensures e == f
  {
    RunKeeps(EMPTY, es);
  }

  // ---- A success is final until it expires ------------------------------------------------

  /** The result a call gets, now or when the execution it joined has settled. */
  function Yields(s: State, a: Answer): Progress {
    match a
    case Replayed(r) => Settled(r)
    case Joined(e) => if e < |s.execs| then s.execs[e].outcome else Running
    case Started(_) => Running
  }

  /** Until `expiry`, key `k` is answered by execution `e`, with result `r`. */
  predicate Answering(s: State, k: Key, e: nat, r: Outcome, expiry: int, t: int) {
    && e < |s.execs| && s.execs[e] == Execution(k, Settled(r), s.execs[e].released)
    && (t < expiry ==>
          && k in s.store && s.store[k] == Saved(r, expiry)
          && forall f :: 0 <= f < |s.execs| && s.execs[f].key == k && !s.execs[f].released ==> f == e)
  }

  lemma AnsweringStep(s: State, ev: Event, k: Key, e: nat, r: Outcome, expiry: int, t: int)
    requires Inv(s) && Enabled(s, ev) && k != "" && Answering(s, k, e, r, expiry, t) && t <= Clock(ev, t)
    ensures Answering(Step(s, ev), k, e, r, expiry, Clock(ev, t))
  {
    if ev.Finish? {
      assert ev.exec != e;
    }
  }

  lemma {:induction false} AnsweringRun(
    s: State, es: seq<Event>, k: Key, e: nat, r: Outcome, expiry: int, t: int, last: int)
    requires Inv(s) && Possible(s, es) && k != "" && Answering(s, k, e, r, expiry, t)
    requires Clocked(es + [Call(k, last)], t)
    ensures Answering(After(s, es), k, e, r, expiry, last) && Inv(After(s, es))
    decreases |es|
  {
    if es == [] {
      assert Clocked([Call(k, last)], t);
    } else {
      assert (es + [Call(k, last)])[0] == es[0] && (es + [Call(k, last)])[1..] == es[1..] + [Call(k, last)];
      AnsweringStep(s, es[0], k, e, r, expiry, t);
      StepKeeps(s, es[0]);
      AnsweringRun(Step(s, es[0]), es[1..], k, e, r, expiry, Clock(es[0], t), last);
    }
  }

  /** Once an execution succeeds, every call with its key before expiry yields its pair and
      starts nothing, whatever happens in between. */
  lemma SuccessIsReplayed(before: seq<Event>, e: nat, r: Outcome, at: int, between: seq<Event>, now: int)
    requires Possible(EMPTY, before)
    requires var s := After(EMPTY, before);
             && Enabled(s, Finish(e, r, at)) && r.Pair? && s.execs[e].key != ""
             && Possible(Finished(s, e, r, at), between)
             && Clocked(between + [Call(s.execs[e].key, now)], at) && now < at + TTL
    ensures var s := After(EMPTY, before);
            var s' := After(Finished(s, e, r, at), between);
            var a := Answered(s', s.execs[e].key, now);
            !a.Started? && Yields(s', a) == Settled(r) && Called(s', s.execs[e].key, now).execs == s'.execs
  {
    var s := After(EMPTY, before);
    var k := s.execs[e].key;
    RunKeeps(EMPTY, before);
    StepKeeps(s, Finish(e, r, at));
    AnsweringRun(Finished(s, e, r, at), between, k, e, r, at + TTL, at, now);
  }

  // ---- Pruning is invisible ---------------------------------------------------------------

  function WithoutPrunes(es: seq<Event>): seq<Event>
    decreases |es|
  {
    if es == [] then []
    else (if es[0].Prune? then [] else [es[0]]) + WithoutPrunes(es[1..])
  }

  /** The answers to the calls of a run, in order. */
  function Answers(s: State, es: seq<Event>): seq<Answer>
    requires Possible(s, es)
    decreases |es|
  {
    if es == [] then []
    else (if es[0].Call? then [Answered(s, es[0].key, es[0].now)] else []) + Answers(Step(s, es[0]), es[1..])
  }

  /** Equal but for saved results that have expired. */
  ghost predicate Alike(s: State, u: State, t: int) {
    && s.pending == u.pending && s.execs == u.execs
    && forall k :: Live(s.store, k, t) || Live(u.store, k, t) ==>
         k in s.store && k in u.store && s.store[k] == u.store[k]
  }

  lemma AlikeStep(s: State, u: State, ev: Event, t: int)
    requires Alike(s, u, t) && Enabled(s, ev) && t <= Clock(ev, t) && !ev.Prune?
    ensures Enabled(u, ev) && Alike(Step(s, ev), Step(u, ev), Clock(ev, t))
    ensures ev.Call? ==> Answered(s, ev.key, ev.now) == Answered(u, ev.key, ev.now)
  {
    if ev.Call? {
      assert Live(s.store, ev.key, ev.now) == Live(u.store, ev.key, ev.now);
    }
  }

  lemma AlikePrune(s: State, u: State, now: int, t: int)
    requires Alike(s, u, t) && t <= now
    ensures Alike(Pruned(s, now), u, now)
  {
    forall k | Live(Pruned(s, now).store, k, now) || Live(u.store, k, now)
      ensures k in Pruned(s, now).store && k in u.store && Pruned(s, now).store[k] == u.store[k]
    {
      assert Live(s.store, k, t) || Live(u.store, k, t);
    }
  }

  lemma {:induction false} AlikeRun(s: State, u: State, es: seq<Event>, t: int)
    requires Alike(s, u, t) && Possible(s, es) && Clocked(es, t)
    ensures Possible(u, WithoutPrunes(es)) && Answers(s, es) == Answers(u, WithoutPrunes(es))
    decreases |es|
  {
    if es != [] {
      var s' := Step(s, es[0]);
      var t' := Clock(es[0], t);
      if es[0].Prune? {
        AlikePrune(s, u, es[0].now, t);
        AlikeRun(s', u, es[1..], t');
        assert WithoutPrunes(es) == WithoutPrunes(es[1..]);
      } else {
        AlikeStep(s, u, es[0], t);
        AlikeRun(s', Step(u, es[0]), es[1..], t');
        assert WithoutPrunes(es)[1..] == WithoutPrunes(es[1..]);
      }
    }
  }

  /** Pruning expired keys never changes the answer to any call. */
  lemma PruningInvisible(es: seq<Event>, t: int)
    requires Possible(EMPTY, es) && Clocked(es, t)
    ensures Possible(EMPTY, WithoutPrunes(es)) && Answers(EMPTY, es) == Answers(EMPTY, WithoutPrunes(es))
  {
    AlikeRun(EMPTY, EMPTY, es, t);
  }

  // ---- The maps of the engine -------------------------------------------------------------

  class Gate {
    var store: map<Key, Saved>
    var pending: map<Key, nat>
    var execs: seq<Execution>

    function Value(): State
      reads this
    {
      State(store, pending, execs)
    }

    constructor ()
      ensures Value() == EMPTY
    {
      store, pending, execs := map[], map[], [];
    }

    /** `handlePayload` up to its first await. */
    method Handle(key: Key, now: int) returns (a: Answer)
      modifies this
      ensures a == Answered(old(Value()), key, now) && Value() == Called(old(Value()), key, now)
    {
      if key != "" {
        if key in store && store[key].expiresAt > now {
          return Replayed(store[key].result);
        }
        store := store - {key};
        if key in pending {
          return Joined(pending[key]);
        }
      }
      a := Started(|execs|);
      if key != "" {
        pending := pending[key := |execs|];
      }
      execs := execs + [Execution(key, Running, false)];
    }

    /** The end of `processPayload`. */
    method Settle(e: nat, outcome: Outcome, now: int)
      requires Enabled(Value(), Finish(e, outcome, now))
      modifies this
      ensures Value() == Finished(old(Value()), e, outcome, now)
    {
      var key := execs[e].key;
      if outcome.Pair? && key != "" {
        store := store[key := Saved(outcome, now + TTL)];
      }
      execs := execs[e := execs[e].(outcome := Settled(outcome))];
    }

    /** The `finally` of the shared promise. */
    method Forget(e: nat)
      requires Enabled(Value(), Release(e))
      modifies this
      ensures Value() == Released(old(Value()), e)
    {
      pending := pending - {execs[e].key};
      execs := execs[e := execs[e].(released := true)];
    }

    /** The idempotency part of `prune`. */
    method Sweep(now: int)
      modifies this
      ensures Value() == Pruned(old(Value()), now)
    {
      var todo := store.Keys;
      while todo != {}
        invariant pending == old(pending) && execs == old(execs) && todo <= old(store).Keys
        invariant store == map k | k in old(store) && (k in todo || now < old(store)[k].expiresAt) :: old(store)[k]
      {
        var key :| key in todo;
        if now >= store[key].expiresAt {
          store := store - {key};
        }
        todo := todo - {key};
      }
    }
  }
}
