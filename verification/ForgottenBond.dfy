/** The run that shows why a resume pass needs its lookup to answer: an accept that the RPC
    reported as failed lands late, the next pass cannot read the job, and the bond is dropped
    with the deadline still far away. */
module ForgottenBond {
  import opened Wrappers
  import opened Registry
  import opened Recovery
  import opened RecoveryProof

  const SETUP := Config("us", 30, 3, p => p, p => p, w => Some(w))
  const ANSWER := Answers("tx", 0)
  const OPEN_JOB := Job(Open, 5, 1000, "p", None)
  const OUR_JOB := OPEN_JOB.(status := Accepted, acceptedBy := Some("us"))
  const INTENT := Entry("j", None, Accepting, "p", 1000, 5, 0)
  const QUEUED := Queue([INTENT], map["j" := 0], map["j" := INTENT])
  const SENT := Tx(AcceptTx("j"), "tx", InFlight)
  const HANDLER := Handling("j", "p", 5, 1000, Headroom)

  const S0 := State(Chain(map[], 0), [], false, Queue([], map[], map[]), map[], map[], map[], {}, {}, {})
  const S1 := S0.(chain := Chain(map["j" := OPEN_JOB], 0))
  const S2 := S1.(up := true)
  const S3 := S2.(tasks := map[0 := Handling("j", "p", 0, 0, Lookup)])
  const S4 := S2.(tasks := map[0 := HANDLER])
  const S5 := S2.(tasks := map[0 := HANDLER.(at := Simulate)])
  const S6 := S2.(tasks := map[0 := HANDLER.(at := Enqueue)])
  const S7 := S2.(tasks := map[0 := HANDLER.(at := SendAccept)], queue := QUEUED, intents := {"j"})
  const S8 := S7.(tasks := map[0 := HANDLER.(at := AwaitAccept(0))], txs := [SENT])
  const S9 := S8.(tasks := map[0 := HANDLER.(at := Reconcile)])
  const S10 := S8.(tasks := map[])
  const S11 := S10.(txs := [SENT.(fate := Landed)], chain := Chain(map["j" := OUR_JOB], 0))
  const S12 := S11.(tasks := map[1 := Resuming([0], Next)])
  const S13 := S11.(tasks := map[1 := Resuming([0], Decide(None))])
  const S14 := S11.(tasks := map[1 := Resuming([], Next)], queue := Queue([INTENT], map[], map[]), blind := {"j"})

  ghost predicate Steps(s: State, e: Event, s': State) {
    Enabled(SETUP, s, e) && s' == Apply(SETUP, s, e)
  }

  lemma Starting()
    ensures Steps(S0, CreateJob("j", OPEN_JOB), S1) && Steps(S1, Boot([], map[]), S2)
    ensures Steps(S2, StartHandling(0, "j", "p"), S3)
  {
  }

  lemma Checking()
    ensures Steps(S3, TaskStep(0, ANSWER), S4) && Steps(S4, TaskStep(0, ANSWER), S5)
    ensures Steps(S5, TaskStep(0, ANSWER), S6)
  {
  }

  lemma Queueing()
    ensures Steps(S6, TaskStep(0, ANSWER), S7)
  {
  }

  lemma SendingAccept()
    ensures Steps(S7, TaskStep(0, ANSWER), S8) && Steps(S8, TaskStep(0, RpcFails), S9)
  {
  }

  lemma GivingUp()
    ensures Steps(S9, TaskStep(0, ANSWER), S10) && Steps(S10, TxLands(0), S11)
  {
  }

  lemma LookingUp()
    ensures Steps(S11, StartResume(1, [0]), S12) && Steps(S12, TaskStep(1, RpcFails), S13)
  {
    assert 0 in QUEUED.live.Values by { assert "j" in QUEUED.live && QUEUED.live["j"] == 0; }
  }

  lemma Dropping()
    ensures Steps(S13, TaskStep(1, ANSWER), S14)
  {
    assert QUEUED.live - {"j"} == map[];
    assert Resolved(QUEUED, "j") == Queue([INTENT], map[], map[]);
    assert [0][1..] == [];
  }

  lemma Extend(run: seq<State>, events: seq<Event>, e: Event, s: State) returns (run': seq<State>, events': seq<Event>)
    requires Run(SETUP, run, events) && Steps(run[|events|], e, s)
    ensures Run(SETUP, run', events') && run' == run + [s] && events' == events + [e]
    ensures run'[|events'|] == s && run'[|events|] == run[|events|]
  {
    run', events' := run + [s], events + [e];
    forall i | 0 <= i < |events'|
      ensures Follows(SETUP, run', events', i)
    {
      assert i < |events| ==> Follows(SETUP, run, events, i);
    }
  }

  /** The handler's part: the accept is sent. */
  lemma AcceptSent() returns (run: seq<State>, events: seq<Event>)
    ensures Run(SETUP, run, events) && run[|events|] == S8
  {
    Starting();
    Checking();
    Queueing();
    SendingAccept();
    run, events := [S0], [];
    run, events := Extend(run, events, CreateJob("j", OPEN_JOB), S1);
    run, events := Extend(run, events, Boot([], map[]), S2);
    run, events := Extend(run, events, StartHandling(0, "j", "p"), S3);
    run, events := Extend(run, events, TaskStep(0, ANSWER), S4);
    run, events := Extend(run, events, TaskStep(0, ANSWER), S5);
    run, events := Extend(run, events, TaskStep(0, ANSWER), S6);
    run, events := Extend(run, events, TaskStep(0, ANSWER), S7);
    run, events := Extend(run, events, TaskStep(0, ANSWER), S8);
  }

  /** It seems to fail, and lands after the handler gave up. */
  lemma LateAccept() returns (run: seq<State>, events: seq<Event>)
    ensures Run(SETUP, run, events) && run[|events|] == S11
  {
    SendingAccept();
    GivingUp();
    run, events := AcceptSent();
    run, events := Extend(run, events, TaskStep(0, RpcFails), S9);
    run, events := Extend(run, events, TaskStep(0, ANSWER), S10);
    run, events := Extend(run, events, TxLands(0), S11);
  }

  /** A bond can be forgotten with time to spare, but only in a run where a lookup fails. */
  lemma FailedLookupForgetsBond() returns (run: seq<State>, events: seq<Event>)
    ensures ConfigOk(SETUP) && Run(SETUP, run, events) && !LookupsAnswer(run, events)
    ensures var s := run[|events|];
            && Bonded(s.chain, "j", SETUP.us) && "j" !in s.queue.disk
            && s.chain.jobs["j"].deadline - s.chain.head >= SETUP.margin
  {
    LookingUp();
    Dropping();
    run, events := LateAccept();
    run, events := Extend(run, events, StartResume(1, [0]), S12);
    var n := |events|;
    run, events := Extend(run, events, TaskStep(1, RpcFails), S13);
    assert run[n] == S12 && events[n] == TaskStep(1, RpcFails);
    run, events := Extend(run, events, TaskStep(1, ANSWER), S14);
    assert !LookupAnswers(run[n], events[n]);
  }
}
