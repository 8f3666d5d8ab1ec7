/** The run in which a submitted job never reaches the ledger: the process dies after the queue entry
    is gone and before the ledger entry is written. */
module LostRecord {
  import opened Wrappers
  import opened Registry
  import opened Recovery
  import opened RecoveryProof
  import opened LedgerCoverage
  import opened ForgottenBond

  const LANDED := SENT.(fate := Landed)
  const MARKED := INTENT.(acceptedTx := Some("tx"), phase := AcceptedPhase)
  const BONDED := Queue([MARKED], map["j" := 0], map["j" := MARKED])
  const PUSHED := Tx(SubmitTx("j", "p"), "tx", InFlight)

  const T0 := S8.(txs := [LANDED], chain := Chain(map["j" := OUR_JOB], 0))
  const T1 := T0.(tasks := map[0 := HANDLER.(at := MarkAccepted("tx"))])
  const T2 := T0.(tasks := map[0 := HANDLER.(at := Submitting("tx", Check(1)))], queue := BONDED)
  const T3 := T2.(tasks := map[0 := HANDLER.(at := Submitting("tx", Send(1)))])
  const T4 := T2.(tasks := map[0 := HANDLER.(at := Submitting("tx", AwaitSubmit(1, 1)))], txs := [LANDED, PUSHED])
  const T5 := T4.(txs := [LANDED, PUSHED.(fate := Landed)],
      chain := Chain(map["j" := OUR_JOB.(status := Submitted)], 0))
  const T6 := T5.(tasks := map[0 := HANDLER.(at := Submitting("tx", Done("tx")))])
  const T7 := T5.(tasks := map[0 := HANDLER.(at := Record("tx", "tx"))], queue := Queue([MARKED], map[], map[]))
  const T8 := T7.(up := false, tasks := map[], queue := Queue([], map[], map[]))

  lemma AcceptLands()
    ensures Steps(S8, TxLands(0), T0)
  {
  }

  lemma AcceptReturns()
    ensures Steps(T0, TaskStep(0, ANSWER), T1)
  {
  }

  lemma MarkedQueue()
    ensures Marked(QUEUED, "j", "tx") == BONDED
  {
    assert QUEUED.heap[0 := MARKED] == [MARKED];
  }

  /** What a handler does with a confirmed accept. */
  lemma MarkStep(s: State, t: Task, tx: string)
    requires s.tasks == map[0 := t] && t.Handling? && t.at == MarkAccepted(tx)
    requires LiveOk(s.queue) && t.job in s.queue.live
    ensures Enabled(SETUP, s, TaskStep(0, ANSWER))
    ensures Apply(SETUP, s, TaskStep(0, ANSWER)) ==
              s.(queue := Marked(s.queue, t.job, tx), tasks := map[0 := t.(at := Submitting(tx, Check(1)))])
  {
  }

  lemma Marking()
    ensures Steps(T1, TaskStep(0, ANSWER), T2)
  {
    MarkedQueue();
    MarkStep(T1, HANDLER.(at := MarkAccepted("tx")), "tx");
  }

  lemma CheckingJob()
    ensures Steps(T2, TaskStep(0, ANSWER), T3)
  {
  }

  lemma Sending()
    ensures Steps(T3, TaskStep(0, ANSWER), T4)
  {
  }

  lemma SubmitLands()
    ensures Steps(T4, TxLands(1), T5)
  {
  }

  lemma SubmitReturns()
    ensures Steps(T5, TaskStep(0, ANSWER), T6)
  {
  }

  lemma ResolvedQueue()
    ensures Resolved(BONDED, "j") == Queue([MARKED], map[], map[])
  {
    assert BONDED.live - {"j"} == map[];
  }

  /** What a handler does once its submit is done. */
  lemma DoneStep(s: State, t: Task, tx: string, sub: string)
    requires s.tasks == map[0 := t] && t.Handling? && t.at == Submitting(tx, Done(sub)) && LiveOk(s.queue)
    ensures Enabled(SETUP, s, TaskStep(0, ANSWER))
    ensures Apply(SETUP, s, TaskStep(0, ANSWER)) ==
              s.(queue := Resolved(s.queue, t.job), tasks := map[0 := t.(at := Record(tx, sub))])
  {
  }

  lemma Resolving()
    ensures Steps(T6, TaskStep(0, ANSWER), T7)
  {
    ResolvedQueue();
    DoneStep(T6, HANDLER.(at := Submitting("tx", Done("tx"))), "tx", "tx");
  }

  lemma Crashing()
    ensures Steps(T7, Crash, T8)
  {
  }

  /** A job this relayer submitted is in neither store after the crash, and nothing covers it. */
  lemma CrashLosesRecord() returns (run: seq<State>, events: seq<Event>)
    ensures ConfigOk(SETUP) && Run(SETUP, run, events)
    ensures var s := run[|events|];
            && "j" in s.chain.jobs && s.chain.jobs["j"] == OUR_JOB.(status := Submitted)
            && !Covered(s, "j")
  {
    AcceptLands();
    AcceptReturns();
    Marking();
    CheckingJob();
    Sending();
    SubmitLands();
    SubmitReturns();
    Resolving();
    Crashing();
    run, events := AcceptSent();
    run, events := Extend(run, events, TxLands(0), T0);
    run, events := Extend(run, events, TaskStep(0, ANSWER), T1);
    run, events := Extend(run, events, TaskStep(0, ANSWER), T2);
    run, events := Extend(run, events, TaskStep(0, ANSWER), T3);
    run, events := Extend(run, events, TaskStep(0, ANSWER), T4);
    run, events := Extend(run, events, TxLands(1), T5);
    run, events := Extend(run, events, TaskStep(0, ANSWER), T6);
    run, events := Extend(run, events, TaskStep(0, ANSWER), T7);
    run, events := Extend(run, events, Crash, T8);
  }
}
