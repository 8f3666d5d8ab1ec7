/** What the durable queue is for: from every reachable state, a bonded job that is still in it
    can be finished after a crash, as long as the deadline leaves headroom. */
module Recoverable {
  import opened Wrappers
  import opened Registry
  import opened Recovery
  import opened RecoveryProof

  /** Bonded to us, with enough ledgers left, and the relayer is configured to submit at all. */
  predicate Due(cfg: Config, c: Chain, j: JobId) {
    && cfg.maxAttempts >= 1 && Bonded(c, j, cfg.us) && c.head < c.jobs[j].deadline
    && c.jobs[j].deadline - c.head >= cfg.margin
  }

  // ---- Restarting -------------------------------------------------------------------------

  /** Memory for the stored entries of `keys`, each at its own place. */
  predicate Filled(disk: map<JobId, Entry>, keys: set<JobId>, heap: seq<Entry>, live: map<JobId, nat>) {
    && live.Keys == keys <= disk.Keys
    && (forall k :: k in live ==> live[k] < |heap| && heap[live[k]] == disk[k])
    && (forall o :: 0 <= o < |heap| ==> heap[o].jobId in live && live[heap[o].jobId] == o)
  }

  lemma {:induction false} Fill(
    disk: map<JobId, Entry>, keys: set<JobId>) returns (heap: seq<Entry>, live: map<JobId, nat>)
    requires keys <= disk.Keys && forall k :: k in disk ==> disk[k].jobId == k
    ensures Filled(disk, keys, heap, live)
    decreases |keys|
  {
    if keys == {} {
      heap, live := [], map[];
    } else {
      var k :| k in keys;
      heap, live := Fill(disk, keys - {k});
      heap, live := FillMore(disk, keys - {k}, heap, live, k);
      assert keys - {k} + {k} == keys;
    }
  }

  lemma FillMore(disk: map<JobId, Entry>, keys: set<JobId>, heap: seq<Entry>, live: map<JobId, nat>, k: JobId)
    returns (heap': seq<Entry>, live': map<JobId, nat>)
    requires Filled(disk, keys, heap, live) && k in disk && k !in keys && disk[k].jobId == k
    ensures Filled(disk, keys + {k}, heap', live')
  {
    heap', live' := heap + [disk[k]], live[k := |heap|];
  }

  /** A pass that starts with the job's entry and then visits every other one. */
  function Order(first: nat, n: nat): (todo: seq<nat>)
    ensures todo != [] && todo[0] == first
  {
    [first] + seq(n, i requires 0 <= i < n => i)
  }

  lemma OrderVisits(first: nat, n: nat)
    requires first < n
    ensures forall o: nat :: o < n ==> o in Order(first, n)
    ensures forall k :: 0 <= k < |Order(first, n)| ==> Order(first, n)[k] < n
  {
    forall o: nat | o < n
      ensures o in Order(first, n)
    {
      assert Order(first, n)[o + 1] == o;
    }
  }

  // ---- One resume pass on the job ---------------------------------------------------------

  /** The only task is a resume pass that stands at `pc` with the entry of `j`. */
  predicate Working(s: State, j: JobId, pc: ResumePc) {
    && s.up && s.tasks.Keys == {0} && s.tasks[0].Resuming? && s.tasks[0].pc == pc && s.tasks[0].todo != []
    && s.tasks[0].todo[0] < |s.queue.heap| && s.queue.heap[s.tasks[0].todo[0]].jobId == j && j in s.queue.live
  }

  const REACHED: Event := TaskStep(0, Answers("tx", 0))

  /** What a step of the pass needs to know. */
  predicate Standing(cfg: Config, s: State, j: JobId, pc: ResumePc) {
    && Working(s, j, pc) && LiveOk(s.queue) && EntryOk(cfg, s, s.queue.heap[s.tasks[0].todo[0]])
    && forall k :: 0 <= k < |s.tasks[0].todo| ==> s.tasks[0].todo[k] < |s.queue.heap|
  }

  /** The next step of the pass is possible and leads to `pc'` with the chain as it was. */
  predicate Goes(cfg: Config, s: State, j: JobId, pc': ResumePc) {
    && Enabled(cfg, s, REACHED)
    && Working(Apply(cfg, s, REACHED), j, pc') && Apply(cfg, s, REACHED).chain == s.chain
  }

  lemma Restarts(cfg: Config, s: State, j: JobId) returns (boot: Event, start: Event)
    requires ConfigOk(cfg) && Inv(cfg, s) && !s.up && j in s.queue.disk
    ensures Enabled(cfg, s, boot) && Enabled(cfg, Apply(cfg, s, boot), start)
    ensures var s' := Apply(cfg, Apply(cfg, s, boot), start); Working(s', j, Next) && s'.chain == s.chain
  {
    var heap, live := Fill(s.queue.disk, s.queue.disk.Keys);
    boot := Boot(heap, live);
    assert Hydrates(s.queue.disk, heap, live);
    OrderVisits(live[j], |heap|);
    start := StartResume(0, Order(live[j], |heap|));
    Starts(cfg, Apply(cfg, s, boot), j);
  }

  lemma Starts(cfg: Config, s: State, j: JobId)
    requires s.up && s.tasks == map[] && j in s.queue.live
    requires forall k :: k in s.queue.live ==> s.queue.live[k] < |s.queue.heap|
    requires forall o :: 0 <= o < |s.queue.heap| ==>
               s.queue.heap[o].jobId in s.queue.live && s.queue.live[s.queue.heap[o].jobId] == o
    requires s.queue.heap[s.queue.live[j]].jobId == j
    ensures var start := StartResume(0, Order(s.queue.live[j], |s.queue.heap|));
            Enabled(cfg, s, start) && Working(Apply(cfg, s, start), j, Next) && Apply(cfg, s, start).chain == s.chain
  {
    var todo := Order(s.queue.live[j], |s.queue.heap|);
    OrderVisits(s.queue.live[j], |s.queue.heap|);
    forall k | 0 <= k < |todo|
      ensures todo[k] in s.queue.live.Values
    {
      assert s.queue.live[s.queue.heap[todo[k]].jobId] == todo[k];
    }
  }

  lemma LooksUp(cfg: Config, s: State, j: JobId)
    requires Standing(cfg, s, j, Next)
    ensures Goes(cfg, s, j, Decide(Some(s.chain.jobs[j])))
  {
  }

  /** An entry whose accept was never confirmed is confirmed now. */
  lemma Confirms(cfg: Config, s: State, j: JobId)
    requires Due(cfg, s.chain, j) && Standing(cfg, s, j, Decide(Some(s.chain.jobs[j])))
    requires Unaccepted(s.queue.heap[s.tasks[0].todo[0]])
    ensures Goes(cfg, s, j, Refresh)
  {
  }

  lemma Trusts(cfg: Config, s: State, j: JobId)
    requires Due(cfg, s.chain, j) && Standing(cfg, s, j, Decide(Some(s.chain.jobs[j])))
    requires !Unaccepted(s.queue.heap[s.tasks[0].todo[0]])
    ensures Goes(cfg, s, j, CheckHead)
  {
  }

  lemma Refreshes(cfg: Config, s: State, j: JobId)
    requires Standing(cfg, s, j, Refresh)
    ensures Goes(cfg, s, j, CheckHead)
  {
  }

  lemma ChecksHead(cfg: Config, s: State, j: JobId) returns (p: Payload)
    requires Due(cfg, s.chain, j) && Standing(cfg, s, j, CheckHead)
    ensures Goes(cfg, s, j, Pushing(p, Check(1)))
  {
    p := cfg.parse(s.queue.heap[s.tasks[0].todo[0]].wire).value;
  }

  lemma ChecksJob(cfg: Config, s: State, j: JobId, p: Payload)
    requires Due(cfg, s.chain, j) && Standing(cfg, s, j, Pushing(p, Check(1)))
    ensures Goes(cfg, s, j, Pushing(p, Send(1)))
  {
    Pushes(cfg, s, j, p, Check(1), SubmitEffect(Send(1), s.txs, s.queue));
  }

  /** A step of the retry loop, inside the pass. */
  lemma Pushes(cfg: Config, s: State, j: JobId, p: Payload, at: Submit, eff: SubmitEffect)
    requires Standing(cfg, s, j, Pushing(p, at)) && (at.Check? || at.Send?)
    requires eff == SubmitStep(cfg, s, j, p, s.queue.heap[s.tasks[0].todo[0]].deadline, at, REACHED.reply)
    ensures Enabled(cfg, s, REACHED)
    ensures Apply(cfg, s, REACHED) ==
              s.(txs := eff.txs, queue := eff.queue,
                  tasks := s.tasks[0 := Resuming(s.tasks[0].todo, Pushing(p, eff.next))])
  {
  }

  lemma Sends(cfg: Config, s: State, j: JobId, p: Payload)
    requires Standing(cfg, s, j, Pushing(p, Send(1)))
    ensures Goes(cfg, s, j, Pushing(p, AwaitSubmit(1, |s.txs|)))
    ensures Apply(cfg, s, REACHED).txs == s.txs + [Tx(SubmitTx(j, p), "tx", InFlight)]
  {
    var sent := s.txs + [Tx(SubmitTx(j, p), "tx", InFlight)];
    Pushes(cfg, s, j, p, Send(1), SubmitEffect(AwaitSubmit(1, |s.txs|), sent, s.queue));
  }

  // ---- The whole schedule -----------------------------------------------------------------

  /** Some schedule leads from `s` to `s'`. */
  ghost predicate Leads(cfg: Config, s: State, s': State) {
    exists run, events :: Path(cfg, run, events) && run[0] == s && run[|events|] == s'
  }

  lemma LeadsNowhere(cfg: Config, s: State)
    ensures Leads(cfg, s, s)
  {
    assert Path(cfg, [s], []);
  }

  lemma LeadsOn(cfg: Config, s: State, s': State, e: Event)
    requires Leads(cfg, s, s') && Enabled(cfg, s', e)
    ensures Leads(cfg, s, Apply(cfg, s', e))
  {
    var run, events :| Path(cfg, run, events) && run[0] == s && run[|events|] == s';
    PathOn(cfg, run, events, e, Apply(cfg, s', e));
    var run', events' := run + [Apply(cfg, s', e)], events + [e];
    assert run'[0] == s && run'[|events'|] == Apply(cfg, s', e);
  }

  lemma PathOn(cfg: Config, run: seq<State>, events: seq<Event>, e: Event, s': State)
    requires Path(cfg, run, events) && Enabled(cfg, run[|events|], e) && s' == Apply(cfg, run[|events|], e)
    ensures Path(cfg, run + [s'], events + [e])
  {
    var run', events' := run + [s'], events + [e];
    forall i | 0 <= i < |events'|
      ensures Follows(cfg, run', events', i)
    {
      assert i < |events| ==> Follows(cfg, run, events, i);
    }
  }

  /** On the way from `start`: the pass stands at `pc`, with the chain still `c`. */
  ghost predicate OnTheWay(cfg: Config, start: State, s: State, j: JobId, pc: ResumePc, c: Chain) {
    Leads(cfg, start, s) && Inv(cfg, s) && Working(s, j, pc) && s.chain == c
  }

  lemma Stands(cfg: Config, s: State, j: JobId, pc: ResumePc)
    requires Inv(cfg, s) && Working(s, j, pc)
    ensures Standing(cfg, s, j, pc)
  {
    assert TaskOk(cfg, s, s.tasks[0]);
  }

  lemma Advance(
    cfg: Config, start: State, s: State, j: JobId, pc: ResumePc, pc': ResumePc, c: Chain) returns (s': State)
    requires ConfigOk(cfg) && OnTheWay(cfg, start, s, j, pc, c) && Goes(cfg, s, j, pc')
    ensures OnTheWay(cfg, start, s', j, pc', c) && s' == Apply(cfg, s, REACHED)
  {
    s' := Apply(cfg, s, REACHED);
    LeadsOn(cfg, start, s, REACHED);
    EventKeeps(cfg, s, REACHED);
  }

  lemma ToResumePass(cfg: Config, s: State, j: JobId) returns (s': State)
    requires ConfigOk(cfg) && Inv(cfg, s) && j in s.queue.disk
    ensures OnTheWay(cfg, s, s', j, Next, s.chain)
  {
    LeadsNowhere(cfg, s);
    s' := s;
    if s.up {
      LeadsOn(cfg, s, s, Crash);
      EventKeeps(cfg, s, Crash);
      s' := Apply(cfg, s, Crash);
    }
    s' := FromDown(cfg, s, s', j);
  }

  lemma FromDown(cfg: Config, start: State, s: State, j: JobId) returns (s': State)
    requires ConfigOk(cfg) && Leads(cfg, start, s) && Inv(cfg, s) && !s.up && j in s.queue.disk
    ensures OnTheWay(cfg, start, s', j, Next, s.chain)
  {
    var boot, begin := Restarts(cfg, s, j);
    var booted := Apply(cfg, s, boot);
    LeadsOn(cfg, start, s, boot);
    EventKeeps(cfg, s, boot);
    LeadsOn(cfg, start, booted, begin);
    EventKeeps(cfg, booted, begin);
    s' := Apply(cfg, booted, begin);
  }

  lemma ToDecision(cfg: Config, start: State, s: State, j: JobId, c: Chain) returns (s': State)
    requires ConfigOk(cfg) && OnTheWay(cfg, start, s, j, Next, c)
    ensures j in c.jobs && OnTheWay(cfg, start, s', j, Decide(Some(c.jobs[j])), c)
  {
    Stands(cfg, s, j, Next);
    LooksUp(cfg, s, j);
    s' := Advance(cfg, start, s, j, Next, Decide(Some(c.jobs[j])), c);
  }

  lemma ToHeadroomCheck(cfg: Config, start: State, s: State, j: JobId, c: Chain) returns (s': State)
    requires ConfigOk(cfg) && Due(cfg, c, j) && OnTheWay(cfg, start, s, j, Decide(Some(c.jobs[j])), c)
    ensures OnTheWay(cfg, start, s', j, CheckHead, c)
  {
    var pc := Decide(Some(c.jobs[j]));
    Stands(cfg, s, j, pc);
    if Unaccepted(s.queue.heap[s.tasks[0].todo[0]]) {
      Confirms(cfg, s, j);
      s' := Advance(cfg, start, s, j, pc, Refresh, c);
      s' := AfterRefresh(cfg, start, s', j, c);
    } else {
      Trusts(cfg, s, j);
      s' := Advance(cfg, start, s, j, pc, CheckHead, c);
    }
  }

  lemma AfterRefresh(cfg: Config, start: State, s: State, j: JobId, c: Chain) returns (s': State)
    requires ConfigOk(cfg) && OnTheWay(cfg, start, s, j, Refresh, c)
    ensures OnTheWay(cfg, start, s', j, CheckHead, c)
  {
    Stands(cfg, s, j, Refresh);
    Refreshes(cfg, s, j);
    s' := Advance(cfg, start, s, j, Refresh, CheckHead, c);
  }

  lemma ToCheck(cfg: Config, start: State, s: State, j: JobId, c: Chain) returns (s': State, p: Payload)
    requires ConfigOk(cfg) && Due(cfg, c, j) && OnTheWay(cfg, start, s, j, CheckHead, c)
    ensures OnTheWay(cfg, start, s', j, Pushing(p, Check(1)), c)
  {
    Stands(cfg, s, j, CheckHead);
    p := ChecksHead(cfg, s, j);
    s' := Advance(cfg, start, s, j, CheckHead, Pushing(p, Check(1)), c);
  }

  lemma ToSend(cfg: Config, start: State, s: State, j: JobId, c: Chain, p: Payload) returns (s': State)
    requires ConfigOk(cfg) && Due(cfg, c, j) && OnTheWay(cfg, start, s, j, Pushing(p, Check(1)), c)
    ensures OnTheWay(cfg, start, s', j, Pushing(p, Send(1)), c)
  {
    Stands(cfg, s, j, Pushing(p, Check(1)));
    ChecksJob(cfg, s, j, p);
    s' := Advance(cfg, start, s, j, Pushing(p, Check(1)), Pushing(p, Send(1)), c);
  }

  lemma ToSent(cfg: Config, start: State, s: State, j: JobId, c: Chain, p: Payload) returns (s': State, n: nat)
    requires ConfigOk(cfg) && OnTheWay(cfg, start, s, j, Pushing(p, Send(1)), c)
    ensures Leads(cfg, start, s') && Inv(cfg, s') && s'.chain == c
    ensures n < |s'.txs| && s'.txs[n] == Tx(SubmitTx(j, p), "tx", InFlight)
  {
    n := |s.txs|;
    Stands(cfg, s, j, Pushing(p, Send(1)));
    Sends(cfg, s, j, p);
    s' := Advance(cfg, start, s, j, Pushing(p, Send(1)), Pushing(p, AwaitSubmit(1, n)), c);
  }

  lemma Lands(cfg: Config, start: State, s: State, j: JobId, p: Payload, n: nat) returns (s': State)
    requires Leads(cfg, start, s) && TxsOk(cfg, s) && Due(cfg, s.chain, j)
    requires n < |s.txs| && s.txs[n] == Tx(SubmitTx(j, p), "tx", InFlight)
    ensures Leads(cfg, start, s') && j in s'.chain.jobs && s'.chain.jobs[j].status.Submitted?
  {
    assert TxOk(cfg, s, s.txs[n]);
    LeadsOn(cfg, start, s, TxLands(n));
    s' := Apply(cfg, s, TxLands(n));
  }

  lemma Finishes(cfg: Config, s: State, j: JobId) returns (s': State)
    requires ConfigOk(cfg) && Inv(cfg, s) && j in s.queue.disk && Due(cfg, s.chain, j)
    ensures Leads(cfg, s, s') && j in s'.chain.jobs && s'.chain.jobs[j].status.Submitted?
  {
    var c := s.chain;
    s' := ToResumePass(cfg, s, j);
    s' := ToDecision(cfg, s, s', j, c);
    s' := ToHeadroomCheck(cfg, s, s', j, c);
    var p: Payload, n: nat;
    s', p := ToCheck(cfg, s, s', j, c);
    s' := ToSend(cfg, s, s', j, c, p);
    s', n := ToSent(cfg, s, s', j, c, p);
    s' := Lands(cfg, s, s', j, p, n);
  }

  /** From every reachable state: a bonded job in the durable queue, with headroom, can still be
      submitted, even if the process dies right now. */
  lemma BondedJobCanFinish(cfg: Config, run: seq<State>, events: seq<Event>, j: JobId)
    returns (run': seq<State>, events': seq<Event>)
    requires ConfigOk(cfg) && Run(cfg, run, events)
    requires j in run[|events|].queue.disk && Due(cfg, run[|events|].chain, j)
    ensures Run(cfg, run', events') && run <= run' && events <= events'
    ensures var c := run'[|events'|].chain; j in c.jobs && c.jobs[j].status.Submitted?
  {
    RunKeeps(cfg, run, events, |events|);
    var s' := Finishes(cfg, run[|events|], j);
    run', events' := Append(cfg, run, events, s');
  }

  lemma Append(cfg: Config, run: seq<State>, events: seq<Event>, s': State)
    returns (run': seq<State>, events': seq<Event>)
    requires Run(cfg, run, events) && Leads(cfg, run[|events|], s')
    ensures Run(cfg, run', events') && run <= run' && events <= events' && run'[|events'|] == s'
  {
    var more, es :| Path(cfg, more, es) && more[0] == run[|events|] && more[|es|] == s';
    run', events' := run + more[1..], events + es;
    forall i | 0 <= i < |events'|
      ensures Follows(cfg, run', events', i)
    {
      JoinFollows(cfg, run, more, events, es, i);
    }
  }

  lemma JoinFollows(cfg: Config, run: seq<State>, more: seq<State>, events: seq<Event>, es: seq<Event>, i: nat)
    requires Path(cfg, run, events) && Path(cfg, more, es) && more[0] == run[|events|] && i < |events| + |es|
    ensures Follows(cfg, run + more[1..], events + es, i)
  {
    var run', events' := run + more[1..], events + es;
    if i < |events| {
      assert Follows(cfg, run, events, i);
      assert events'[i] == events[i] && run'[i] == run[i] && run'[i + 1] == run[i + 1];
    } else {
      var k := i - |events|;
      assert Follows(cfg, more, es, k);
      assert events'[i] == es[k] && run'[i] == more[k] && run'[i + 1] == more[k + 1];
    }
  }
}
