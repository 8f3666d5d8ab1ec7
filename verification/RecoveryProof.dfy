/** What every run of the relayer keeps: no bond is forgotten, every submit carries the
    committed payload, and every ledger entry is backed by a submitted job. */
module RecoveryProof {
  import opened Wrappers
  import opened Registry
  import opened Recovery

  // ---- The invariant ----------------------------------------------------------------------

  /** The terms a task or entry carries are the job's own, and the payload is the committed one. */
  predicate TermsOk(cfg: Config, c: Chain, j: JobId, p: Payload, fee: int, deadline: int) {
    && j in c.jobs && c.jobs[j].fee == fee && c.jobs[j].deadline == deadline
    && cfg.hash(p) == c.jobs[j].payloadHash
  }

  predicate EntryOk(cfg: Config, s: State, e: Entry) {
    && e.jobId in s.intents && cfg.parse(e.wire).Some?
    && TermsOk(cfg, s.chain, e.jobId, cfg.parse(e.wire).value, e.fee, e.deadline)
    && (e.phase.AcceptedPhase? ==> !s.chain.jobs[e.jobId].status.Open?)
  }

  predicate TxOk(cfg: Config, s: State, tx: Tx) {
    match tx.body
    case AcceptTx(j) =>
      j in s.intents && j in s.chain.jobs && (tx.fate.Landed? ==> !s.chain.jobs[j].status.Open?)
    case SubmitTx(j, p) =>
      && j in s.chain.jobs && cfg.hash(p) == s.chain.jobs[j].payloadHash
      && (tx.fate.Landed? ==> s.chain.jobs[j].status.Submitted?)
  }

  predicate LedgerOk(c: Chain, ledger: map<JobId, LedgerEntry>) {
    forall j :: j in ledger ==>
      && ledger[j].jobId == j && j in c.jobs
      && c.jobs[j].status.Submitted? && c.jobs[j].fee == ledger[j].expectedFee
  }

  /** Why a job we once queued may be missing from the disk. */
  predicate Excused(cfg: Config, s: State, j: JobId) {
    || j in s.blind
    || (j in s.late && j in s.chain.jobs && s.chain.jobs[j].deadline - s.chain.head < cfg.margin)
    || Closed(s.chain, j, cfg.us)
  }

  predicate IntentsCovered(cfg: Config, s: State) {
    && (forall j :: j in s.intents ==> j in s.queue.disk || Excused(cfg, s, j))
    && (forall j :: j in s.chain.jobs && s.chain.jobs[j].acceptedBy == Some(cfg.us) ==> j in s.intents)
  }

  predicate QueueOk(cfg: Config, s: State) {
    && (forall o :: 0 <= o < |s.queue.heap| ==> EntryOk(cfg, s, s.queue.heap[o]))
    && (forall j :: j in s.queue.disk ==> s.queue.disk[j].jobId == j && EntryOk(cfg, s, s.queue.disk[j]))
    && LiveOk(s.queue)
    && (s.up ==> s.queue.live.Keys == s.queue.disk.Keys)
    && (forall j :: j in s.queue.live ==> j in s.queue.disk && s.queue.disk[j] == s.queue.heap[s.queue.live[j]])
  }

  predicate SubmitOk(s: State, j: JobId, p: Payload, at: Submit) {
    && (at.AwaitSubmit? ==> at.tx < |s.txs| && s.txs[at.tx].body == SubmitTx(j, p))
    && (at.Done? ==> j in s.chain.jobs && s.chain.jobs[j].status.Submitted?)
  }

  predicate HandlerOk(cfg: Config, s: State, t: Task)
    requires t.Handling?
  {
    && (!t.at.Lookup? ==> TermsOk(cfg, s.chain, t.job, t.payload, t.fee, t.deadline))
    && (!t.at.Lookup? && !t.at.Headroom? && !t.at.Simulate? && !t.at.Enqueue? ==> t.job in s.intents)
    && (t.at.AwaitAccept? ==> t.at.tx < |s.txs| && s.txs[t.at.tx].body == AcceptTx(t.job))
    && (t.at.MarkAccepted? ==> !s.chain.jobs[t.job].status.Open?)
    && (t.at.Submitting? ==> SubmitOk(s, t.job, t.payload, t.at.submit))
    && (t.at.Record? ==> s.chain.jobs[t.job].status.Submitted?)
  }

  predicate ResumerOk(cfg: Config, s: State, t: Task)
    requires t.Resuming?
  {
    && (forall k :: 0 <= k < |t.todo| ==> t.todo[k] < |s.queue.heap|)
    && (!t.pc.Next? ==>
          && t.todo != [] && EntryOk(cfg, s, s.queue.heap[t.todo[0]])
          && var e := s.queue.heap[t.todo[0]];
             var job := s.chain.jobs[e.jobId];
             && (t.pc.Decide? && t.pc.seen.Some? ==> JobEvolves(t.pc.seen.value, job))
             && (t.pc.RecordSeen? || t.pc.RecordPushed? ==> job.status.Submitted?)
             && (t.pc.AwaitReaccept? ==> t.pc.tx < |s.txs| && s.txs[t.pc.tx].body == AcceptTx(e.jobId))
             && (t.pc.Reaccepted? ==> !job.status.Open?)
             && (t.pc.DropLate? ==> job.deadline - s.chain.head < cfg.margin)
             && (t.pc.Pushing? ==>
                   cfg.hash(t.pc.payload) == job.payloadHash && SubmitOk(s, e.jobId, t.pc.payload, t.pc.push)))
  }

  predicate TaskOk(cfg: Config, s: State, t: Task) {
    if t.Handling? then HandlerOk(cfg, s, t) else ResumerOk(cfg, s, t)
  }

  predicate TasksOk(cfg: Config, s: State) {
    && (!s.up ==> s.tasks == map[])
    && forall id :: id in s.tasks ==> TaskOk(cfg, s, s.tasks[id])
  }

  predicate TxsOk(cfg: Config, s: State) {
    forall n :: 0 <= n < |s.txs| ==> TxOk(cfg, s, s.txs[n])
  }

  predicate Inv(cfg: Config, s: State) {
    && ChainOk(s.chain)
    && TxsOk(cfg, s)
    && QueueOk(cfg, s)
    && LedgerOk(s.chain, s.ledger) && LedgerOk(s.chain, s.ledgerDisk)
    && TasksOk(cfg, s)
    && IntentsCovered(cfg, s)
  }

  // ---- What every step leaves standing ----------------------------------------------------

  predicate Keeps(s: State, s': State) {
    && Evolves(s.chain, s'.chain)
    && s.intents <= s'.intents && s.late <= s'.late && s.blind <= s'.blind
    && |s.txs| <= |s'.txs| && (forall n :: 0 <= n < |s.txs| ==> s'.txs[n].body == s.txs[n].body)
    && SameObjects(s.queue, s'.queue)
  }

  lemma EntryKept(cfg: Config, s: State, s': State, e: Entry)
    requires EntryOk(cfg, s, e) && Evolves(s.chain, s'.chain) && s.intents <= s'.intents
    ensures EntryOk(cfg, s', e)
  {
  }

  lemma TaskKept(cfg: Config, s: State, s': State, t: Task)
    requires TaskOk(cfg, s, t) && Keeps(s, s')
    requires forall o :: 0 <= o < |s'.queue.heap| ==> EntryOk(cfg, s', s'.queue.heap[o])
    ensures TaskOk(cfg, s', t)
  {
    if t.Resuming? && !t.pc.Next? {
      var o := t.todo[0];
      assert s'.queue.heap[o].jobId == s.queue.heap[o].jobId;
      assert JobEvolves(s.chain.jobs[s.queue.heap[o].jobId], s'.chain.jobs[s.queue.heap[o].jobId]);
    }
  }

  lemma ExcuseKept(cfg: Config, s: State, s': State, j: JobId)
    requires Excused(cfg, s, j) && ChainOk(s.chain)
    requires Evolves(s.chain, s'.chain) && s.late <= s'.late && s.blind <= s'.blind
    ensures Excused(cfg, s', j)
  {
    if j in s.chain.jobs {
      assert JobEvolves(s.chain.jobs[j], s'.chain.jobs[j]);
    }
  }

  predicate OnlyTask(s: State, s': State, id: nat) {
    forall k :: k in s'.tasks && k != id ==> k in s.tasks && s'.tasks[k] == s.tasks[k]
  }

  /** What the step of one task has to get right by itself. */
  predicate GoodStep(cfg: Config, s: State, s': State, id: nat) {
    && s'.up && s'.chain == s.chain && s'.ledgerDisk == s.ledgerDisk && Keeps(s, s')
    && OnlyTask(s, s', id) && (id in s'.tasks ==> TaskOk(cfg, s', s'.tasks[id]))
    && QueueOk(cfg, s') && TxsOk(cfg, s') && LedgerOk(s'.chain, s'.ledger)
    && (forall j :: j in s'.intents && j !in s.intents ==> j in s'.queue.disk)
    && (forall j :: j in s.queue.disk && j !in s'.queue.disk ==> Excused(cfg, s', j))
    && SightStep(s, s', id)
  }

  /** Entry objects never lose a confirmed accept. */
  predicate AcceptsKept(q: Queue, q': Queue) {
    && |q.heap| <= |q'.heap|
    && forall o :: 0 <= o < |q.heap| && !Unaccepted(q.heap[o]) ==> !Unaccepted(q'.heap[o])
  }

  predicate Unaccepted(e: Entry) {
    e.phase.Accepting? || e.acceptedTx.None?
  }

  /** A task keeps its kind; only a resume pass forgets: it refreshes its own entry, it drops an
      unconfirmed entry it could not look up, and it looks entries up one at a time. */
  predicate SightStep(s: State, s': State, id: nat) {
    && (id in s'.tasks && id in s.tasks ==> s'.tasks[id].Resuming? == s.tasks[id].Resuming?)
    && (AcceptsKept(s.queue, s'.queue) || (id in s.tasks && s.tasks[id].Resuming? && s.tasks[id].pc.Refresh?))
    && (s'.blind == s.blind ||
        (id in s.tasks && s.tasks[id].Resuming? && s.tasks[id].pc == Decide(None) && s.tasks[id].todo != []
         && s.tasks[id].todo[0] < |s.queue.heap| && Unaccepted(s.queue.heap[s.tasks[id].todo[0]])))
    && (id in s'.tasks && s'.tasks[id].Resuming? && s'.tasks[id].pc.Decide? ==>
          && id in s.tasks && s.tasks[id].Resuming? && s.tasks[id].pc.Next?
          && s'.queue == s.queue && s'.tasks[id].todo == s.tasks[id].todo && s.tasks[id].todo != [])
  }

  /** A good step keeps the other tasks and every intent. */
  lemma GoodStepKeeps(cfg: Config, s: State, s': State, id: nat)
    requires Inv(cfg, s) && s.up && GoodStep(cfg, s, s', id)
    ensures Inv(cfg, s')
  {
    forall k | k in s'.tasks && k != id
      ensures TaskOk(cfg, s', s'.tasks[k])
    {
      TaskKept(cfg, s, s', s.tasks[k]);
    }
    forall j | j in s'.intents && j !in s'.queue.disk
      ensures Excused(cfg, s', j)
    {
      if j !in s.queue.disk {
        ExcuseKept(cfg, s, s', j);
      }
    }
  }

  /** The chain, and with it the fate of transactions, moves on its own. */
  lemma ChainStepKeeps(cfg: Config, s: State, s': State)
    requires Inv(cfg, s) && Keeps(s, s') && ChainOk(s'.chain) && TxsOk(cfg, s')
    requires s' == s.(chain := s'.chain, txs := s'.txs)
    requires forall j :: j in s'.chain.jobs && s'.chain.jobs[j].acceptedBy == Some(cfg.us) ==> j in s.intents
    ensures Inv(cfg, s')
  {
    forall o | 0 <= o < |s.queue.heap|
      ensures EntryOk(cfg, s', s.queue.heap[o])
    {
      EntryKept(cfg, s, s', s.queue.heap[o]);
    }
    forall j | j in s.queue.disk
      ensures EntryOk(cfg, s', s.queue.disk[j])
    {
      EntryKept(cfg, s, s', s.queue.disk[j]);
    }
    forall k | k in s.tasks
      ensures TaskOk(cfg, s', s.tasks[k])
    {
      TaskKept(cfg, s, s', s.tasks[k]);
    }
    forall j | j in s.intents
      ensures j in s'.queue.disk || Excused(cfg, s', j)
    {
      if j !in s.queue.disk {
        ExcuseKept(cfg, s, s', j);
      }
    }
  }

  /** Other participants, the creator and the passing of ledgers. */
  lemma OthersKeep(cfg: Config, s: State, s': State)
    requires Inv(cfg, s) && s' == s.(chain := s'.chain) && Evolves(s.chain, s'.chain) && ChainOk(s'.chain)
    requires forall j :: j in s'.chain.jobs && s'.chain.jobs[j].acceptedBy == Some(cfg.us) ==> j in s.intents
    ensures Inv(cfg, s')
  {
    forall n | 0 <= n < |s.txs|
      ensures TxOk(cfg, s', s.txs[n])
    {
      TxKept(cfg, s, s', s.txs[n]);
    }
    ChainStepKeeps(cfg, s, s');
  }

  lemma DroppingKeeps(cfg: Config, s: State, n: nat)
    requires Inv(cfg, s) && n < |s.txs| && s.txs[n].fate.InFlight?
    ensures Inv(cfg, s.(txs := s.txs[n := s.txs[n].(fate := Dropped)]))
  {
    assert TxOk(cfg, s, s.txs[n]);
    ChainStepKeeps(cfg, s, s.(txs := s.txs[n := s.txs[n].(fate := Dropped)]));
  }

  lemma TxKept(cfg: Config, s: State, s': State, tx: Tx)
    requires TxOk(cfg, s, tx) && Evolves(s.chain, s'.chain) && s.intents <= s'.intents
    ensures TxOk(cfg, s', tx)
  {
    assert JobEvolves(s.chain.jobs[tx.body.job], s'.chain.jobs[tx.body.job]);
  }

  lemma LandingTxsOk(cfg: Config, s: State, n: nat)
    requires ChainOk(s.chain) && TxsOk(cfg, s) && TxCanLand(cfg, s, n)
    ensures Evolves(s.chain, Land(cfg, s, n).chain) && TxsOk(cfg, Land(cfg, s, n))
  {
    var s' := Land(cfg, s, n);
    assert TxOk(cfg, s, s.txs[n]);
    assert Evolves(s.chain, s'.chain);
    TxKept(cfg, s, s', s.txs[n]);
    forall k | 0 <= k < |s.txs| && k != n
      ensures TxOk(cfg, s', s'.txs[k])
    {
      TxKept(cfg, s, s', s.txs[k]);
    }
  }

  lemma LandingAccepts(cfg: Config, s: State, n: nat, j: JobId)
    requires ChainOk(s.chain) && TxsOk(cfg, s) && TxCanLand(cfg, s, n)
    requires j in Land(cfg, s, n).chain.jobs && Land(cfg, s, n).chain.jobs[j].acceptedBy == Some(cfg.us)
    ensures j in s.intents || (j in s.chain.jobs && s.chain.jobs[j].acceptedBy == Some(cfg.us))
  {
    assert TxOk(cfg, s, s.txs[n]);
  }

  lemma LandingChain(cfg: Config, s: State, n: nat)
    requires ChainOk(s.chain) && TxCanLand(cfg, s, n)
    ensures var s' := Land(cfg, s, n);
            && ChainOk(s'.chain) && s' == s.(chain := s'.chain, txs := s.txs[n := s.txs[n].(fate := Landed)])
  {
  }

  lemma LandingKeeps(cfg: Config, s: State, n: nat)
    requires Inv(cfg, s) && TxCanLand(cfg, s, n)
    ensures Inv(cfg, Land(cfg, s, n))
  {
    var s' := Land(cfg, s, n);
    LandingTxsOk(cfg, s, n);
    LandingChain(cfg, s, n);
    forall j | j in s'.chain.jobs && s'.chain.jobs[j].acceptedBy == Some(cfg.us)
      ensures j in s.intents
    {
      LandingAccepts(cfg, s, n, j);
    }
    LandedKeeps(cfg, s, s', n);
  }

  lemma LandedKeeps(cfg: Config, s: State, s': State, n: nat)
    requires Inv(cfg, s) && n < |s.txs| && ChainOk(s'.chain) && TxsOk(cfg, s') && Evolves(s.chain, s'.chain)
    requires s' == s.(chain := s'.chain, txs := s.txs[n := s.txs[n].(fate := Landed)])
    requires forall j :: j in s'.chain.jobs && s'.chain.jobs[j].acceptedBy == Some(cfg.us) ==> j in s.intents
    ensures Inv(cfg, s')
  {
    ChainStepKeeps(cfg, s, s');
  }

  // ---- The queue's operations keep the queue ----------------------------------------------

  /** Memory and disk agree after any operation that saves. */
  lemma PersistedOk(cfg: Config, s: State, s': State, q: Queue)
    requires QueueOk(cfg, s) && s.chain == s'.chain && s.intents <= s'.intents
    requires LiveOk(q) && s'.queue == Persist(q)
    requires forall o :: 0 <= o < |q.heap| ==> EntryOk(cfg, s', q.heap[o])
    ensures QueueOk(cfg, s')
  {
  }

  lemma EnqueuedOk(cfg: Config, s: State, s': State, e: Entry)
    requires QueueOk(cfg, s) && s.up && s'.queue == Enqueued(s.queue, e)
    requires s.chain == s'.chain && s.intents <= s'.intents && EntryOk(cfg, s', e)
    ensures QueueOk(cfg, s') && s'.queue.disk.Keys == s.queue.disk.Keys + {e.jobId}
  {
    var heap := s.queue.heap + [e];
    forall o | 0 <= o < |heap|
      ensures EntryOk(cfg, s', heap[o])
    {
      if o < |s.queue.heap| {
        EntryKept(cfg, s, s', s.queue.heap[o]);
      }
    }
    var q := s.queue.(heap := heap, live := s.queue.live[e.jobId := |s.queue.heap|]);
    EnqueuedLive(s.queue, e);
    PersistedOk(cfg, s, s', q);
  }

  lemma EnqueuedLive(q: Queue, e: Entry)
    requires LiveOk(q)
    ensures LiveOk(q.(heap := q.heap + [e], live := q.live[e.jobId := |q.heap|]))
    ensures Enqueued(q, e).disk.Keys == q.live.Keys + {e.jobId}
  {
  }

  lemma ResolvedOk(cfg: Config, s: State, s': State, j: JobId)
    requires QueueOk(cfg, s) && s.up && s'.queue == Resolved(s.queue, j)
    requires s.chain == s'.chain && s.intents == s'.intents
    ensures QueueOk(cfg, s') && s'.queue.disk.Keys == s.queue.disk.Keys - {j} && SameObjects(s.queue, s'.queue)
  {
    forall o | 0 <= o < |s.queue.heap|
      ensures EntryOk(cfg, s', s.queue.heap[o])
    {
      EntryKept(cfg, s, s', s.queue.heap[o]);
    }
    PersistedOk(cfg, s, s', s.queue.(live := s.queue.live - {j}));
  }

  /** Mutating one entry object in place and saving. */
  lemma MutatedOk(cfg: Config, s: State, s': State, o: nat, e: Entry)
    requires QueueOk(cfg, s) && s.up && o < |s.queue.heap|
    requires s'.queue == Persist(s.queue.(heap := s.queue.heap[o := e]))
    requires s.chain == s'.chain && s.intents == s'.intents
    requires EntryOk(cfg, s, e) && e.jobId == s.queue.heap[o].jobId && e.wire == s.queue.heap[o].wire
    requires e.fee == s.queue.heap[o].fee && e.deadline == s.queue.heap[o].deadline
    ensures QueueOk(cfg, s') && s'.queue.disk.Keys == s.queue.disk.Keys && SameObjects(s.queue, s'.queue)
  {
    var heap := s.queue.heap[o := e];
    forall k | 0 <= k < |heap|
      ensures EntryOk(cfg, s', heap[k])
    {
      EntryKept(cfg, s, s', heap[k]);
    }
    PersistedOk(cfg, s, s', s.queue.(heap := heap));
  }

  lemma MarkedOk(cfg: Config, s: State, s': State, j: JobId, tx: string)
    requires QueueOk(cfg, s) && s.up && j in s.queue.live && s'.queue == Marked(s.queue, j, tx)
    requires s.chain == s'.chain && s.intents == s'.intents
    requires j in s.chain.jobs && !s.chain.jobs[j].status.Open?
    ensures QueueOk(cfg, s') && s'.queue.disk.Keys == s.queue.disk.Keys && SameObjects(s.queue, s'.queue)
    ensures AcceptsKept(s.queue, s'.queue)
  {
    var o := s.queue.live[j];
    MutatedOk(cfg, s, s', o, s.queue.heap[o].(acceptedTx := Some(tx), phase := AcceptedPhase));
  }

  lemma FailureNotedOk(cfg: Config, s: State, s': State, j: JobId)
    requires QueueOk(cfg, s) && s.up && s'.up && s'.queue == FailureNoted(s.queue, j)
    requires s.chain == s'.chain && s.intents == s'.intents
    ensures QueueOk(cfg, s') && s'.queue.disk.Keys == s.queue.disk.Keys && SameObjects(s.queue, s'.queue)
    ensures AcceptsKept(s.queue, s'.queue)
  {
    if j in s.queue.live {
      var o := s.queue.live[j];
      MutatedOk(cfg, s, s', o, s.queue.heap[o].(attempts := s.queue.heap[o].attempts + 1));
    } else {
      UntouchedOk(cfg, s, s');
    }
  }

  /** The queue is untouched: its entries stay good. */
  lemma UntouchedOk(cfg: Config, s: State, s': State)
    requires QueueOk(cfg, s) && s'.queue == s.queue && s'.up == s.up
    requires s.chain == s'.chain && s.intents == s'.intents
    ensures QueueOk(cfg, s')
  {
    forall o | 0 <= o < |s.queue.heap|
      ensures EntryOk(cfg, s', s.queue.heap[o])
    {
      EntryKept(cfg, s, s', s.queue.heap[o]);
    }
    forall k | k in s.queue.disk
      ensures EntryOk(cfg, s', s.queue.disk[k])
    {
      EntryKept(cfg, s, s', s.queue.disk[k]);
    }
  }

  // ---- submitWithRetry --------------------------------------------------------------------

  /** One step of the retry loop, inside either kind of task: `s'` is the state after it. */
  lemma SubmitStepOk(cfg: Config, s: State, s': State, j: JobId, p: Payload, deadline: int, at: Submit, reply: Reply)
    requires QueueOk(cfg, s) && TxsOk(cfg, s) && s.up && SubmitEnabled(s, at, reply) && SubmitOk(s, j, p, at)
    requires j in s.chain.jobs && cfg.hash(p) == s.chain.jobs[j].payloadHash
    requires s'.chain == s.chain && s'.intents == s.intents && s'.up
    requires s'.txs == SubmitStep(cfg, s, j, p, deadline, at, reply).txs
    requires s'.queue == SubmitStep(cfg, s, j, p, deadline, at, reply).queue
    ensures QueueOk(cfg, s') && s'.queue.disk.Keys == s.queue.disk.Keys && SameObjects(s.queue, s'.queue)
    ensures AcceptsKept(s.queue, s'.queue)
    ensures TxsOk(cfg, s') && s.txs <= s'.txs
    ensures SubmitOk(s', j, p, SubmitStep(cfg, s, j, p, deadline, at, reply).next)
  {
    if at.NoteFailure? {
      FailureNotedOk(cfg, s, s', j);
      SameTxsOk(cfg, s, s');
    } else {
      assert s'.queue == s.queue;
      UntouchedOk(cfg, s, s');
      if s'.txs == s.txs {
        SameTxsOk(cfg, s, s');
        if at.AwaitSubmit? {
          assert TxOk(cfg, s, s.txs[at.tx]);
        }
      } else {
        SentTxsOk(cfg, s, s', s'.txs[|s.txs|]);
      }
    }
  }

  lemma SameTxsOk(cfg: Config, s: State, s': State)
    requires TxsOk(cfg, s) && s'.txs == s.txs && s'.chain == s.chain && s.intents <= s'.intents
    ensures TxsOk(cfg, s')
  {
    forall n | 0 <= n < |s.txs|
      ensures TxOk(cfg, s', s.txs[n])
    {
      assert TxOk(cfg, s, s.txs[n]);
    }
  }

  lemma SentTxsOk(cfg: Config, s: State, s': State, tx: Tx)
    requires TxsOk(cfg, s) && s'.txs == s.txs + [tx] && s'.chain == s.chain && s'.intents == s.intents
    requires TxOk(cfg, s, tx)
    ensures TxsOk(cfg, s')
  {
    forall n | 0 <= n < |s'.txs|
      ensures TxOk(cfg, s', s'.txs[n])
    {
      assert TxOk(cfg, s, s'.txs[n]);
    }
  }

  predicate SameObjects(q: Queue, q': Queue) {
    && |q.heap| <= |q'.heap|
    && (forall o :: 0 <= o < |q.heap| ==>
          && q'.heap[o].jobId == q.heap[o].jobId && q'.heap[o].wire == q.heap[o].wire
          && q'.heap[o].fee == q.heap[o].fee && q'.heap[o].deadline == q.heap[o].deadline)
  }

  // ---- Tasks ------------------------------------------------------------------------------

  /** The state around a running task. */
  predicate Around(cfg: Config, s: State) {
    s.up && ChainOk(s.chain) && TxsOk(cfg, s) && QueueOk(cfg, s) && LedgerOk(s.chain, s.ledger)
  }

  lemma LocalStepGood(cfg: Config, s: State, s': State, id: nat)
    requires Around(cfg, s) && s' == s.(tasks := s'.tasks) && OnlyTask(s, s', id)
    requires id in s'.tasks ==> TaskOk(cfg, s', s'.tasks[id])
    requires SightStep(s, s', id)
    ensures GoodStep(cfg, s, s', id)
  {
    UntouchedOk(cfg, s, s');
    SameTxsOk(cfg, s, s');
  }

  lemma QueueStepGood(cfg: Config, s: State, s': State, id: nat)
    requires Around(cfg, s) && OnlyTask(s, s', id)
    requires s' == s.(tasks := s'.tasks, queue := s'.queue, late := s'.late, blind := s'.blind)
    requires s.late <= s'.late && s.blind <= s'.blind && SameObjects(s.queue, s'.queue) && QueueOk(cfg, s')
    requires forall j :: j in s.queue.disk && j !in s'.queue.disk ==> Excused(cfg, s', j)
    requires id in s'.tasks ==> TaskOk(cfg, s', s'.tasks[id])
    requires SightStep(s, s', id)
    ensures GoodStep(cfg, s, s', id)
  {
    SameTxsOk(cfg, s, s');
  }

  /** Confirming an accept; the handler or pass moves on from it. */
  lemma MarkStepGood(cfg: Config, s: State, s': State, id: nat)
    requires Around(cfg, s) && OnlyTask(s, s', id)
    requires s' == s.(tasks := s'.tasks, queue := s'.queue) && QueueOk(cfg, s')
    requires s'.queue.disk.Keys == s.queue.disk.Keys && SameObjects(s.queue, s'.queue) && AcceptsKept(s.queue, s'.queue)
    requires id in s'.tasks && id in s.tasks && s'.tasks[id].Resuming? == s.tasks[id].Resuming?
    requires s'.tasks[id].Handling? ==> HandlerOk(cfg, s, s'.tasks[id])
    requires s'.tasks[id].Resuming? ==> s'.tasks[id].pc.Refresh? && s'.tasks[id].todo != []
    requires s'.tasks[id].Resuming? ==>
               forall k :: 0 <= k < |s'.tasks[id].todo| ==> s'.tasks[id].todo[k] < |s.queue.heap|
    ensures GoodStep(cfg, s, s', id)
  {
    forall j | j in s.queue.disk
      ensures j in s'.queue.disk
    {
      assert j in s.queue.disk.Keys;
    }
    QueueStepGood(cfg, s, s', id);
  }

  lemma SendStepGood(cfg: Config, s: State, s': State, id: nat, tx: Tx)
    requires Around(cfg, s) && OnlyTask(s, s', id)
    requires s' == s.(tasks := s'.tasks, txs := s.txs + [tx]) && TxOk(cfg, s, tx)
    requires id in s'.tasks ==> TaskOk(cfg, s', s'.tasks[id])
    requires SightStep(s, s', id)
    ensures GoodStep(cfg, s, s', id)
  {
    UntouchedOk(cfg, s, s');
    SentTxsOk(cfg, s, s', tx);
  }

  lemma HandlerReadsGood(cfg: Config, s: State, id: nat, reply: Reply)
    requires Around(cfg, s) && HandlerEnabled(s, id, reply) && HandlerOk(cfg, s, s.tasks[id])
    requires var at := s.tasks[id].at; at.Lookup? || at.Headroom? || at.Simulate? || at.AwaitAccept? || at.Reconcile?
    ensures GoodStep(cfg, s, HandlerStep(cfg, s, id, reply), id)
  {
    if s.tasks[id].at.AwaitAccept? || s.tasks[id].at.Reconcile? {
      HandlerAcceptedGood(cfg, s, id, reply);
    } else {
      HandlerChecksGood(cfg, s, id, reply);
    }
  }

  lemma HandlerChecksGood(cfg: Config, s: State, id: nat, reply: Reply)
    requires Around(cfg, s) && HandlerEnabled(s, id, reply) && HandlerOk(cfg, s, s.tasks[id])
    requires var at := s.tasks[id].at; at.Lookup? || at.Headroom? || at.Simulate?
    ensures GoodStep(cfg, s, HandlerStep(cfg, s, id, reply), id)
  {
    LocalStepGood(cfg, s, HandlerStep(cfg, s, id, reply), id);
  }

  lemma HandlerAcceptedGood(cfg: Config, s: State, id: nat, reply: Reply)
    requires Around(cfg, s) && HandlerEnabled(s, id, reply) && HandlerOk(cfg, s, s.tasks[id])
    requires var at := s.tasks[id].at; at.AwaitAccept? || at.Reconcile?
    ensures GoodStep(cfg, s, HandlerStep(cfg, s, id, reply), id)
  {
    var t := s.tasks[id];
    if t.at.AwaitAccept? {
      assert TxOk(cfg, s, s.txs[t.at.tx]);
    }
    LocalStepGood(cfg, s, HandlerStep(cfg, s, id, reply), id);
  }

  lemma HandlerEnqueueGood(cfg: Config, s: State, id: nat, reply: Reply)
    requires ConfigOk(cfg) && Around(cfg, s) && HandlerEnabled(s, id, reply) && HandlerOk(cfg, s, s.tasks[id])
    requires s.tasks[id].at.Enqueue?
    ensures GoodStep(cfg, s, HandlerStep(cfg, s, id, reply), id)
  {
    HandlerEnqueued(cfg, s, HandlerStep(cfg, s, id, reply), id);
  }

  lemma HandlerEnqueued(cfg: Config, s: State, s': State, id: nat)
    requires ConfigOk(cfg) && Around(cfg, s) && id in s.tasks && s.tasks[id].Handling? && s.tasks[id].at.Enqueue?
    requires HandlerOk(cfg, s, s.tasks[id])
    requires var t := s.tasks[id];
             var e := Entry(t.job, None, Accepting, cfg.serialize(t.payload), t.deadline, t.fee, 0);
             s' == s.(queue := Enqueued(s.queue, e), intents := s.intents + {t.job},
                      tasks := s.tasks[id := t.(at := SendAccept)])
    ensures GoodStep(cfg, s, s', id)
  {
    var t := s.tasks[id];
    EnqueuedOk(cfg, s, s', Entry(t.job, None, Accepting, cfg.serialize(t.payload), t.deadline, t.fee, 0));
    SameTxsOk(cfg, s, s');
  }

  lemma HandlerSendGood(cfg: Config, s: State, id: nat, reply: Reply)
    requires Around(cfg, s) && HandlerEnabled(s, id, reply) && HandlerOk(cfg, s, s.tasks[id])
    requires s.tasks[id].at.SendAccept?
    ensures GoodStep(cfg, s, HandlerStep(cfg, s, id, reply), id)
  {
    var s' := HandlerStep(cfg, s, id, reply);
    if reply.RpcFails? {
      LocalStepGood(cfg, s, s', id);
    } else {
      SendStepGood(cfg, s, s', id, Tx(AcceptTx(s.tasks[id].job), reply.text, InFlight));
    }
  }

  lemma HandlerMarkGood(cfg: Config, s: State, id: nat, reply: Reply)
    requires Around(cfg, s) && HandlerEnabled(s, id, reply) && HandlerOk(cfg, s, s.tasks[id])
    requires s.tasks[id].at.MarkAccepted?
    ensures GoodStep(cfg, s, HandlerStep(cfg, s, id, reply), id)
  {
    var s' := HandlerStep(cfg, s, id, reply);
    var t := s.tasks[id];
    if t.job in s.queue.live {
      HandlerMarked(cfg, s, s', id);
    } else {
      LocalStepGood(cfg, s, s', id);
    }
  }

  lemma HandlerMarked(cfg: Config, s: State, s': State, id: nat)
    requires Around(cfg, s) && id in s.tasks && s.tasks[id].Handling? && s.tasks[id].at.MarkAccepted?
    requires HandlerOk(cfg, s, s.tasks[id]) && s.tasks[id].job in s.queue.live
    requires var t := s.tasks[id];
             s' == s.(queue := Marked(s.queue, t.job, t.at.acceptedTx),
                      tasks := s.tasks[id := t.(at := Submitting(t.at.acceptedTx, FirstTry(cfg)))])
    ensures GoodStep(cfg, s, s', id)
  {
    MarkedOk(cfg, s, s', s.tasks[id].job, s.tasks[id].at.acceptedTx);
    MarkStepGood(cfg, s, s', id);
  }

  lemma HandlerRetryGood(cfg: Config, s: State, id: nat, reply: Reply)
    requires Around(cfg, s) && HandlerEnabled(s, id, reply) && HandlerOk(cfg, s, s.tasks[id])
    requires var at := s.tasks[id].at; at.Submitting? && !at.submit.Done? && !at.submit.GaveUp?
    ensures GoodStep(cfg, s, HandlerStep(cfg, s, id, reply), id)
  {
    var s' := HandlerStep(cfg, s, id, reply);
    var t := s.tasks[id];
    var eff := SubmitStep(cfg, s, t.job, t.payload, t.deadline, t.at.submit, reply);
    assert s' == s.(txs := eff.txs, queue := eff.queue,
                    tasks := s.tasks[id := t.(at := Submitting(t.at.acceptedTx, eff.next))]);
    SubmitStepOk(cfg, s, s', t.job, t.payload, t.deadline, t.at.submit, reply);
    HandlerRetried(cfg, s, s', id, eff.next);
  }

  lemma HandlerRetried(cfg: Config, s: State, s': State, id: nat, next: Submit)
    requires Around(cfg, s) && id in s.tasks && s.tasks[id].Handling? && s.tasks[id].at.Submitting?
    requires HandlerOk(cfg, s, s.tasks[id]) && Retried(cfg, s, s')
    requires s'.tasks == s.tasks[id := s.tasks[id].(at := Submitting(s.tasks[id].at.acceptedTx, next))]
    requires SubmitOk(s', s.tasks[id].job, s.tasks[id].payload, next)
    ensures GoodStep(cfg, s, s', id)
  {
    assert TaskOk(cfg, s', s'.tasks[id]);
    RetryStepGood(cfg, s, s', id);
  }

  /** What a step of the retry loop does to the rest of the state. */
  predicate Retried(cfg: Config, s: State, s': State) {
    && s' == s.(tasks := s'.tasks, txs := s'.txs, queue := s'.queue)
    && QueueOk(cfg, s') && TxsOk(cfg, s') && s.txs <= s'.txs
    && s'.queue.disk.Keys == s.queue.disk.Keys && SameObjects(s.queue, s'.queue) && AcceptsKept(s.queue, s'.queue)
  }

  lemma RetryStepGood(cfg: Config, s: State, s': State, id: nat)
    requires Around(cfg, s) && OnlyTask(s, s', id)
    requires Retried(cfg, s, s')
    requires id in s'.tasks ==> TaskOk(cfg, s', s'.tasks[id])
    requires SightStep(s, s', id)
    ensures GoodStep(cfg, s, s', id)
  {
    forall j | j in s.queue.disk
      ensures j in s'.queue.disk
    {
      assert j in s.queue.disk.Keys;
    }
  }

  lemma HandlerSettleGood(cfg: Config, s: State, id: nat, reply: Reply)
    requires Around(cfg, s) && HandlerEnabled(s, id, reply) && HandlerOk(cfg, s, s.tasks[id])
    requires var at := s.tasks[id].at; at.Submitting? && (at.submit.Done? || at.submit.GaveUp?)
    ensures GoodStep(cfg, s, HandlerStep(cfg, s, id, reply), id)
  {
    var s' := HandlerStep(cfg, s, id, reply);
    var t := s.tasks[id];
    if t.at.submit.Done? {
      HandlerDone(cfg, s, s', id);
    } else {
      LocalStepGood(cfg, s, s', id);
    }
  }

  lemma HandlerDone(cfg: Config, s: State, s': State, id: nat)
    requires Around(cfg, s) && id in s.tasks && s.tasks[id].Handling? && s.tasks[id].at.Submitting?
    requires HandlerOk(cfg, s, s.tasks[id]) && s.tasks[id].at.submit.Done?
    requires var t := s.tasks[id];
             s' == s.(queue := Resolved(s.queue, t.job),
                      tasks := s.tasks[id := t.(at := Record(t.at.acceptedTx, t.at.submit.hash))])
    ensures GoodStep(cfg, s, s', id)
  {
    ResolvedOk(cfg, s, s', s.tasks[id].job);
    QueueStepGood(cfg, s, s', id);
  }

  /** A ledger entry for a submitted job, under its own fee. */
  lemma RecordStepGood(cfg: Config, s: State, s': State, id: nat, e: LedgerEntry)
    requires Around(cfg, s) && OnlyTask(s, s', id) && s' == s.(tasks := s'.tasks, ledger := s.ledger[e.jobId := e])
    requires e.jobId in s.chain.jobs && s.chain.jobs[e.jobId].status.Submitted?
    requires s.chain.jobs[e.jobId].fee == e.expectedFee
    requires id in s'.tasks ==> TaskOk(cfg, s', s'.tasks[id])
    requires SightStep(s, s', id)
    ensures GoodStep(cfg, s, s', id)
  {
    UntouchedOk(cfg, s, s');
    SameTxsOk(cfg, s, s');
  }

  lemma HandlerRecordGood(cfg: Config, s: State, id: nat, reply: Reply)
    requires Around(cfg, s) && HandlerEnabled(s, id, reply) && HandlerOk(cfg, s, s.tasks[id])
    requires s.tasks[id].at.Record?
    ensures GoodStep(cfg, s, HandlerStep(cfg, s, id, reply), id)
  {
    var s' := HandlerStep(cfg, s, id, reply);
    RecordStepGood(cfg, s, s', id, s'.ledger[s.tasks[id].job]);
  }

  // ---- The resume pass --------------------------------------------------------------------

  lemma ResumeReadsGood(cfg: Config, s: State, id: nat, reply: Reply)
    requires Around(cfg, s) && ResumeEnabled(s, id, reply) && ResumerOk(cfg, s, s.tasks[id])
    requires var t := s.tasks[id]; t.todo == [] || t.pc.Next? || t.pc.AwaitReaccept? || t.pc.CheckHead?
    ensures GoodStep(cfg, s, ResumeStep(cfg, s, id, reply), id)
  {
    var t := s.tasks[id];
    if t.pc.AwaitReaccept? {
      ResumeAwaitGood(cfg, s, id, reply);
    } else if t.pc.CheckHead? {
      ResumeHeadGood(cfg, s, id, reply);
    } else {
      ResumeNextGood(cfg, s, id, reply);
    }
  }

  lemma ResumeNextGood(cfg: Config, s: State, id: nat, reply: Reply)
    requires Around(cfg, s) && ResumeEnabled(s, id, reply) && ResumerOk(cfg, s, s.tasks[id])
    requires s.tasks[id].todo == [] || s.tasks[id].pc.Next?
    ensures GoodStep(cfg, s, ResumeStep(cfg, s, id, reply), id)
  {
    LocalStepGood(cfg, s, ResumeStep(cfg, s, id, reply), id);
  }

  lemma ResumeAwaitGood(cfg: Config, s: State, id: nat, reply: Reply)
    requires Around(cfg, s) && ResumeEnabled(s, id, reply) && ResumerOk(cfg, s, s.tasks[id])
    requires s.tasks[id].pc.AwaitReaccept?
    ensures GoodStep(cfg, s, ResumeStep(cfg, s, id, reply), id)
  {
    assert TxOk(cfg, s, s.txs[s.tasks[id].pc.tx]);
    LocalStepGood(cfg, s, ResumeStep(cfg, s, id, reply), id);
  }

  lemma ResumeHeadGood(cfg: Config, s: State, id: nat, reply: Reply)
    requires Around(cfg, s) && ResumeEnabled(s, id, reply) && ResumerOk(cfg, s, s.tasks[id])
    requires s.tasks[id].pc.CheckHead?
    ensures GoodStep(cfg, s, ResumeStep(cfg, s, id, reply), id)
  {
    LocalStepGood(cfg, s, ResumeStep(cfg, s, id, reply), id);
  }

  /** Dropping is justified: submitted, not ours any more, blind, or late. */
  lemma ResumeDropGood(cfg: Config, s: State, s': State, id: nat, j: JobId)
    requires Around(cfg, s) && OnlyTask(s, s', id)
    requires s' == s.(tasks := s'.tasks, queue := Resolved(s.queue, j), late := s'.late, blind := s'.blind)
    requires s.late <= s'.late && s.blind <= s'.blind && Excused(cfg, s', j)
    requires id in s'.tasks ==> TaskOk(cfg, s', s'.tasks[id])
    requires SightStep(s, s', id)
    ensures GoodStep(cfg, s, s', id)
  {
    ResolvedOk(cfg, s, s', j);
    QueueStepGood(cfg, s, s', id);
  }

  /** Confirming the accept of the entry the pass works on. */
  lemma ResumeMarked(cfg: Config, s: State, s': State, id: nat, tx: string)
    requires Around(cfg, s) && id in s.tasks && s.tasks[id].Resuming? && !s.tasks[id].pc.Next?
    requires ResumerOk(cfg, s, s.tasks[id])
    requires var j := s.queue.heap[s.tasks[id].todo[0]].jobId;
             && j in s.queue.live && !s.chain.jobs[j].status.Open?
             && s' == s.(queue := Marked(s.queue, j, tx), tasks := s.tasks[id := Resuming(s.tasks[id].todo, Refresh)])
    ensures GoodStep(cfg, s, s', id)
  {
    MarkedOk(cfg, s, s', s.queue.heap[s.tasks[id].todo[0]].jobId, tx);
    MarkStepGood(cfg, s, s', id);
  }

  lemma ResumeSeenSubmittedGood(cfg: Config, s: State, id: nat, reply: Reply)
    requires Around(cfg, s) && ResumeEnabled(s, id, reply) && ResumerOk(cfg, s, s.tasks[id])
    requires s.tasks[id].pc.Decide?
    requires IsSubmitted(s.tasks[id].pc.seen)
    ensures GoodStep(cfg, s, ResumeStep(cfg, s, id, reply), id)
  {
    var s' := ResumeStep(cfg, s, id, reply);
    var j := s.queue.heap[s.tasks[id].todo[0]].jobId;
    ResolvedOk(cfg, s, s', j);
    ResumeDropGood(cfg, s, s', id, j);
  }

  lemma ResumeSeenOursGood(cfg: Config, s: State, id: nat, reply: Reply)
    requires Around(cfg, s) && ResumeEnabled(s, id, reply) && ResumerOk(cfg, s, s.tasks[id])
    requires s.tasks[id].pc.Decide?
    requires IsOurs(cfg, s.tasks[id].pc.seen) && Unaccepted(s.queue.heap[s.tasks[id].todo[0]])
    ensures GoodStep(cfg, s, ResumeStep(cfg, s, id, reply), id)
  {
    var s' := ResumeStep(cfg, s, id, reply);
    var j := s.queue.heap[s.tasks[id].todo[0]].jobId;
    if j in s.queue.live {
      ResumeMarked(cfg, s, s', id, "on-chain-accept:" + j);
    } else {
      LocalStepGood(cfg, s, s', id);
    }
  }

  lemma ResumeSeenOpenGood(cfg: Config, s: State, id: nat, reply: Reply)
    requires Around(cfg, s) && ResumeEnabled(s, id, reply) && ResumerOk(cfg, s, s.tasks[id])
    requires s.tasks[id].pc.Decide?
    requires var seen := s.tasks[id].pc.seen; seen.Some? && seen.value.status.Open?
    requires Unaccepted(s.queue.heap[s.tasks[id].todo[0]])
    ensures GoodStep(cfg, s, ResumeStep(cfg, s, id, reply), id)
  {
    var s' := ResumeStep(cfg, s, id, reply);
    if reply.RpcFails? {
      LocalStepGood(cfg, s, s', id);
    } else {
      SendStepGood(cfg, s, s', id, Tx(AcceptTx(s.queue.heap[s.tasks[id].todo[0]].jobId), reply.text, InFlight));
    }
  }

  lemma ResumeAbandonGood(cfg: Config, s: State, id: nat, reply: Reply)
    requires Around(cfg, s) && ResumeEnabled(s, id, reply) && ResumerOk(cfg, s, s.tasks[id])
    requires s.tasks[id].pc.Decide?
    requires var seen := s.tasks[id].pc.seen;
             !IsSubmitted(seen) && !IsOurs(cfg, seen) && !(seen.Some? && seen.value.status.Open?)
    requires Unaccepted(s.queue.heap[s.tasks[id].todo[0]])
    ensures GoodStep(cfg, s, ResumeStep(cfg, s, id, reply), id)
  {
    var s' := ResumeStep(cfg, s, id, reply);
    var j := s.queue.heap[s.tasks[id].todo[0]].jobId;
    assert s'.tasks[id] == Resuming(s.tasks[id].todo[1..], Next);
    assert Excused(cfg, s', j);
    ResumeDropGood(cfg, s, s', id, j);
  }

  lemma ResumeDecideGood(cfg: Config, s: State, id: nat, reply: Reply)
    requires Around(cfg, s) && ResumeEnabled(s, id, reply) && ResumerOk(cfg, s, s.tasks[id])
    requires s.tasks[id].pc.Decide?
    ensures GoodStep(cfg, s, ResumeStep(cfg, s, id, reply), id)
  {
    var e := s.queue.heap[s.tasks[id].todo[0]];
    var seen := s.tasks[id].pc.seen;
    if IsSubmitted(seen) {
      ResumeSeenSubmittedGood(cfg, s, id, reply);
    } else if !Unaccepted(e) {
      LocalStepGood(cfg, s, ResumeStep(cfg, s, id, reply), id);
    } else if IsOurs(cfg, seen) {
      ResumeSeenOursGood(cfg, s, id, reply);
    } else if seen.Some? && seen.value.status.Open? {
      ResumeSeenOpenGood(cfg, s, id, reply);
    } else {
      ResumeAbandonGood(cfg, s, id, reply);
    }
  }

  lemma ResumeRecordGood(cfg: Config, s: State, id: nat, reply: Reply)
    requires Around(cfg, s) && ResumeEnabled(s, id, reply) && ResumerOk(cfg, s, s.tasks[id])
    requires s.tasks[id].pc.RecordSeen? || s.tasks[id].pc.RecordPushed?
    ensures GoodStep(cfg, s, ResumeStep(cfg, s, id, reply), id)
  {
    var s' := ResumeStep(cfg, s, id, reply);
    var t := s.tasks[id];
    var e := s'.ledger[s.queue.heap[t.todo[0]].jobId];
    assert s' == s.(tasks := s.tasks[id := Resuming(t.todo[1..], Next)], ledger := s.ledger[e.jobId := e]);
    RecordStepGood(cfg, s, s', id, e);
  }

  lemma ResumeReacceptedGood(cfg: Config, s: State, id: nat, reply: Reply)
    requires Around(cfg, s) && ResumeEnabled(s, id, reply) && ResumerOk(cfg, s, s.tasks[id])
    requires s.tasks[id].pc.Reaccepted?
    ensures GoodStep(cfg, s, ResumeStep(cfg, s, id, reply), id)
  {
    var s' := ResumeStep(cfg, s, id, reply);
    var t := s.tasks[id];
    var e := s.queue.heap[t.todo[0]];
    if e.jobId in s.queue.live {
      ResumeMarked(cfg, s, s', id, t.pc.acceptedTx);
    } else {
      LocalStepGood(cfg, s, s', id);
    }
  }

  lemma ResumeFailureGood(cfg: Config, s: State, id: nat, reply: Reply)
    requires Around(cfg, s) && ResumeEnabled(s, id, reply) && ResumerOk(cfg, s, s.tasks[id])
    requires s.tasks[id].pc.ReacceptFailed?
    ensures GoodStep(cfg, s, ResumeStep(cfg, s, id, reply), id)
  {
    var s' := ResumeStep(cfg, s, id, reply);
    FailureNotedOk(cfg, s, s', s.queue.heap[s.tasks[id].todo[0]].jobId);
    QueueStepGood(cfg, s, s', id);
  }

  lemma ResumeRefreshGood(cfg: Config, s: State, id: nat, reply: Reply)
    requires Around(cfg, s) && ResumeEnabled(s, id, reply) && ResumerOk(cfg, s, s.tasks[id])
    requires s.tasks[id].pc.Refresh?
    ensures GoodStep(cfg, s, ResumeStep(cfg, s, id, reply), id)
  {
    var s' := ResumeStep(cfg, s, id, reply);
    var t := s.tasks[id];
    var o := t.todo[0];
    var e := s'.queue.heap[o];
    assert s' == s.(queue := s.queue.(heap := s.queue.heap[o := e]),
        tasks := s.tasks[id := Resuming(t.todo, CheckHead)]);
    assert e == s.queue.heap[o].(acceptedTx := e.acceptedTx);
    RefreshedOk(cfg, s, s', o, e);
    QueueStepGood(cfg, s, s', id);
  }

  /** Overwriting the accept hash of an object with the one its queue slot holds: an object that is
      still queued keeps its value, so memory and disk still agree. */
  lemma RefreshedOk(cfg: Config, s: State, s': State, o: nat, e: Entry)
    requires QueueOk(cfg, s) && o < |s.queue.heap| && s'.up == s.up && s'.chain == s.chain && s'.intents == s.intents
    requires s'.queue == s.queue.(heap := s.queue.heap[o := e]) && e == s.queue.heap[o].(acceptedTx := e.acceptedTx)
    requires e.jobId in s.queue.live && s.queue.live[e.jobId] == o ==> e == s.queue.heap[o]
    ensures QueueOk(cfg, s') && SameObjects(s.queue, s'.queue)
  {
    forall k | 0 <= k < |s'.queue.heap|
      ensures EntryOk(cfg, s', s'.queue.heap[k])
    {
      assert EntryOk(cfg, s, s.queue.heap[k]);
    }
    forall j | j in s.queue.disk
      ensures EntryOk(cfg, s', s.queue.disk[j])
    {
      EntryKept(cfg, s, s', s.queue.disk[j]);
    }
  }

  lemma ResumeLateGood(cfg: Config, s: State, id: nat, reply: Reply)
    requires Around(cfg, s) && ResumeEnabled(s, id, reply) && ResumerOk(cfg, s, s.tasks[id])
    requires s.tasks[id].pc.DropLate?
    ensures GoodStep(cfg, s, ResumeStep(cfg, s, id, reply), id)
  {
    ResumeDropGood(cfg, s, ResumeStep(cfg, s, id, reply), id, s.queue.heap[s.tasks[id].todo[0]].jobId);
  }

  lemma ResumeRetryGood(cfg: Config, s: State, id: nat, reply: Reply)
    requires Around(cfg, s) && ResumeEnabled(s, id, reply) && ResumerOk(cfg, s, s.tasks[id])
    requires var pc := s.tasks[id].pc; pc.Pushing? && !pc.push.Done? && !pc.push.GaveUp?
    ensures GoodStep(cfg, s, ResumeStep(cfg, s, id, reply), id)
  {
    var s' := ResumeStep(cfg, s, id, reply);
    var t := s.tasks[id];
    var e := s.queue.heap[t.todo[0]];
    var eff := SubmitStep(cfg, s, e.jobId, t.pc.payload, e.deadline, t.pc.push, reply);
    assert s' == s.(txs := eff.txs, queue := eff.queue,
                    tasks := s.tasks[id := Resuming(t.todo, Pushing(t.pc.payload, eff.next))]);
    SubmitStepOk(cfg, s, s', e.jobId, t.pc.payload, e.deadline, t.pc.push, reply);
    ResumeRetried(cfg, s, s', id, eff.next);
  }

  lemma ResumeRetried(cfg: Config, s: State, s': State, id: nat, next: Submit)
    requires Around(cfg, s) && id in s.tasks && s.tasks[id].Resuming? && s.tasks[id].pc.Pushing?
    requires ResumerOk(cfg, s, s.tasks[id]) && Retried(cfg, s, s')
    requires s'.tasks == s.tasks[id := Resuming(s.tasks[id].todo, Pushing(s.tasks[id].pc.payload, next))]
    requires SubmitOk(s', s.queue.heap[s.tasks[id].todo[0]].jobId, s.tasks[id].pc.payload, next)
    ensures GoodStep(cfg, s, s', id)
  {
    assert s'.queue.heap[s.tasks[id].todo[0]].jobId == s.queue.heap[s.tasks[id].todo[0]].jobId;
    assert TaskOk(cfg, s', s'.tasks[id]);
    RetryStepGood(cfg, s, s', id);
  }

  lemma ResumeSettleGood(cfg: Config, s: State, id: nat, reply: Reply)
    requires Around(cfg, s) && ResumeEnabled(s, id, reply) && ResumerOk(cfg, s, s.tasks[id])
    requires var pc := s.tasks[id].pc; pc.Pushing? && (pc.push.Done? || pc.push.GaveUp?)
    ensures GoodStep(cfg, s, ResumeStep(cfg, s, id, reply), id)
  {
    var s' := ResumeStep(cfg, s, id, reply);
    var j := s.queue.heap[s.tasks[id].todo[0]].jobId;
    if s.tasks[id].pc.push.Done? {
      ResolvedOk(cfg, s, s', j);
      ResumeDropGood(cfg, s, s', id, j);
    } else {
      LocalStepGood(cfg, s, s', id);
    }
  }

  // ---- Every step, every run --------------------------------------------------------------

  lemma HandlerStepGood(cfg: Config, s: State, id: nat, reply: Reply)
    requires ConfigOk(cfg) && Inv(cfg, s) && s.up && HandlerEnabled(s, id, reply)
    ensures GoodStep(cfg, s, HandlerStep(cfg, s, id, reply), id)
  {
    assert TaskOk(cfg, s, s.tasks[id]);
    match s.tasks[id].at {
      case Enqueue => HandlerEnqueueGood(cfg, s, id, reply);
      case SendAccept => HandlerSendGood(cfg, s, id, reply);
      case MarkAccepted(_) => HandlerMarkGood(cfg, s, id, reply);
      case Submitting(_, at) =>
        if at.Done? || at.GaveUp? {
          HandlerSettleGood(cfg, s, id, reply);
        } else {
          HandlerRetryGood(cfg, s, id, reply);
        }
      case Record(_, _) => HandlerRecordGood(cfg, s, id, reply);
      case _ => HandlerReadsGood(cfg, s, id, reply);
    }
  }

  lemma ResumeStepGood(cfg: Config, s: State, id: nat, reply: Reply)
    requires Inv(cfg, s) && s.up && ResumeEnabled(s, id, reply)
    ensures GoodStep(cfg, s, ResumeStep(cfg, s, id, reply), id)
  {
    assert TaskOk(cfg, s, s.tasks[id]);
    match s.tasks[id].pc {
      case Decide(_) => ResumeDecideGood(cfg, s, id, reply);
      case RecordSeen => ResumeRecordGood(cfg, s, id, reply);
      case Reaccepted(_) => ResumeReacceptedGood(cfg, s, id, reply);
      case ReacceptFailed => ResumeFailureGood(cfg, s, id, reply);
      case Refresh => ResumeRefreshGood(cfg, s, id, reply);
      case DropLate => ResumeLateGood(cfg, s, id, reply);
      case Pushing(_, at) =>
        if at.Done? || at.GaveUp? {
          ResumeSettleGood(cfg, s, id, reply);
        } else {
          ResumeRetryGood(cfg, s, id, reply);
        }
      case RecordPushed(_) => ResumeRecordGood(cfg, s, id, reply);
      case _ => ResumeReadsGood(cfg, s, id, reply);
    }
  }

  /** Losing memory, and restoring it from the stores. */
  lemma RestartKeeps(cfg: Config, s: State, e: Event)
    requires Inv(cfg, s) && Enabled(cfg, s, e) && (e.Crash? || e.Boot?)
    ensures Inv(cfg, Apply(cfg, s, e))
  {
    var s' := Apply(cfg, s, e);
    forall j | j in s.queue.disk
      ensures EntryOk(cfg, s', s.queue.disk[j])
    {
      EntryKept(cfg, s, s', s.queue.disk[j]);
    }
    SameTxsOk(cfg, s, s');
    forall j | j in s'.intents && j !in s'.queue.disk
      ensures Excused(cfg, s', j)
    {
      ExcuseKept(cfg, s, s', j);
    }
  }

  lemma StartKeeps(cfg: Config, s: State, e: Event)
    requires Inv(cfg, s) && Enabled(cfg, s, e) && (e.StartHandling? || e.StartResume?)
    ensures Inv(cfg, Apply(cfg, s, e))
  {
    var s' := Apply(cfg, s, e);
    LocalStepGood(cfg, s, s', e.id);
    GoodStepKeeps(cfg, s, s', e.id);
  }

  lemma SaveLedgerKeeps(cfg: Config, s: State)
    requires Inv(cfg, s)
    ensures Inv(cfg, s.(ledgerDisk := s.ledger))
  {
    var s' := s.(ledgerDisk := s.ledger);
    UntouchedOk(cfg, s, s');
    SameTxsOk(cfg, s, s');
    forall k | k in s.tasks
      ensures TaskOk(cfg, s', s.tasks[k])
    {
      TaskKept(cfg, s, s', s.tasks[k]);
    }
    forall j | j in s.intents && j !in s.queue.disk
      ensures Excused(cfg, s', j)
    {
      ExcuseKept(cfg, s, s', j);
    }
  }

  lemma OtherEventKeeps(cfg: Config, s: State, e: Event)
    requires Inv(cfg, s) && Enabled(cfg, s, e)
    requires e.AdvanceHead? || e.CreateJob? || e.OtherAccepts? || e.OtherSubmits? || e.SlashJob? || e.CancelJob?
    ensures Inv(cfg, Apply(cfg, s, e))
  {
    var s' := Apply(cfg, s, e);
    OtherEventEvolves(cfg, s, e);
    OthersKeep(cfg, s, s');
  }

  lemma OtherEventEvolves(cfg: Config, s: State, e: Event)
    requires ChainOk(s.chain) && Enabled(cfg, s, e)
    requires e.AdvanceHead? || e.CreateJob? || e.OtherAccepts? || e.OtherSubmits? || e.SlashJob? || e.CancelJob?
    ensures var c := Apply(cfg, s, e).chain;
            && Evolves(s.chain, c) && ChainOk(c)
            && forall j :: j in c.jobs && c.jobs[j].acceptedBy == Some(cfg.us) ==>
                 j in s.chain.jobs && s.chain.jobs[j].acceptedBy == Some(cfg.us)
  {
    match e
    case OtherAccepts(j, op) => AcceptEvolves(s.chain, j, op);
    case OtherSubmits(j, _) => SettleEvolves(s.chain, j, Status.Submitted);
    case SlashJob(j) => SettleEvolves(s.chain, j, Slashed);
    case CancelJob(j) => SettleEvolves(s.chain, j, Canceled);
    case _ =>
  }

  lemma TaskEventGood(cfg: Config, s: State, id: nat, reply: Reply)
    requires ConfigOk(cfg) && Inv(cfg, s) && Enabled(cfg, s, TaskStep(id, reply))
    ensures id in s.tasks && s.up && GoodStep(cfg, s, Apply(cfg, s, TaskStep(id, reply)), id)
  {
    assert id in s.tasks;
    if s.tasks[id].Handling? {
      HandlerStepGood(cfg, s, id, reply);
    } else {
      ResumeStepGood(cfg, s, id, reply);
    }
  }

  lemma EventKeeps(cfg: Config, s: State, e: Event)
    requires ConfigOk(cfg) && Inv(cfg, s) && Enabled(cfg, s, e)
    ensures Inv(cfg, Apply(cfg, s, e))
  {
    match e
    case TxLands(n) => LandingKeeps(cfg, s, n);
    case TxDrops(n) => DroppingKeeps(cfg, s, n);
    case Crash => RestartKeeps(cfg, s, e);
    case Boot(_, _) => RestartKeeps(cfg, s, e);
    case SaveLedger => SaveLedgerKeeps(cfg, s);
    case StartHandling(_, _, _) => StartKeeps(cfg, s, e);
    case StartResume(_, _) => StartKeeps(cfg, s, e);
    case TaskStep(id, reply) =>
      TaskEventGood(cfg, s, id, reply);
      GoodStepKeeps(cfg, s, Apply(cfg, s, e), id);
    case _ => OtherEventKeeps(cfg, s, e);
  }

  lemma {:induction false} RunKeeps(cfg: Config, run: seq<State>, events: seq<Event>, i: nat)
    requires ConfigOk(cfg) && Run(cfg, run, events) && i < |run|
    ensures Inv(cfg, run[i])
  {
    assert i > 0 ==> Follows(cfg, run, events, i - 1);
    if i > 0 {
      RunKeeps(cfg, run, events, i - 1);
      EventKeeps(cfg, run[i - 1], events[i - 1]);
    }
  }

  // ---- The theorems -----------------------------------------------------------------------

  /** No forgotten bond. In every reachable state, a job bonded to this operator and still to be
      submitted is in the durable queue, unless a resume pass dropped it: either with the chain
      head inside the deadline margin, or after its lookup of the job failed. */
  lemma NoForgottenBond(cfg: Config, run: seq<State>, events: seq<Event>, i: nat, j: JobId)
    requires ConfigOk(cfg) && Run(cfg, run, events) && i < |run|
    requires Bonded(run[i].chain, j, cfg.us) && j !in run[i].queue.disk
    ensures j in run[i].blind
         || (j in run[i].late && run[i].chain.jobs[j].deadline - run[i].chain.head < cfg.margin)
  {
    RunKeeps(cfg, run, events, i);
    assert j in run[i].intents;
  }

  /** Every `submit_pool_withdraw` ever sent carries the payload the job committed to. */
  lemma SubmitsMatchCommitment(cfg: Config, run: seq<State>, events: seq<Event>, i: nat, n: nat)
    requires ConfigOk(cfg) && Run(cfg, run, events) && i < |run|
    requires n < |run[i].txs| && run[i].txs[n].body.SubmitTx?
    ensures var tx := run[i].txs[n].body;
            tx.job in run[i].chain.jobs && cfg.hash(tx.payload) == run[i].chain.jobs[tx.job].payloadHash
  {
    RunKeeps(cfg, run, events, i);
    assert TxOk(cfg, run[i], run[i].txs[n]);
  }

  /** Every ledger entry, in memory or stored, names a job that is submitted on chain with the
      fee the entry expects. */
  lemma LedgerIsBacked(cfg: Config, run: seq<State>, events: seq<Event>, i: nat, j: JobId)
    requires ConfigOk(cfg) && Run(cfg, run, events) && i < |run|
    requires j in run[i].ledger || j in run[i].ledgerDisk
    ensures j in run[i].chain.jobs && run[i].chain.jobs[j].status.Submitted?
    ensures j in run[i].ledger ==> run[i].ledger[j].expectedFee == run[i].chain.jobs[j].fee
    ensures j in run[i].ledgerDisk ==> run[i].ledgerDisk[j].expectedFee == run[i].chain.jobs[j].fee
  {
    RunKeeps(cfg, run, events, i);
  }

  // ---- When lookups answer ----------------------------------------------------------------

  /** In every step of the run where a resume pass looks up a job whose accept is not confirmed,
      the RPC answers. */
  ghost predicate LookupsAnswer(run: seq<State>, events: seq<Event>) {
    |run| == |events| + 1 && forall i :: 0 <= i < |events| ==> LookupAnswers(run[i], events[i])
  }

  predicate LookupAnswers(s: State, e: Event) {
    e.TaskStep? && e.reply.RpcFails? && e.id in s.tasks && s.tasks[e.id].Resuming? && s.tasks[e.id].pc.Next?
      && s.tasks[e.id].todo != [] && s.tasks[e.id].todo[0] < |s.queue.heap|
    ==> !Unaccepted(s.queue.heap[s.tasks[e.id].todo[0]])
  }

  /** One resume pass at a time, and it holds an empty lookup only of a confirmed entry. */
  predicate Sighted(s: State) {
    && s.blind == {}
    && (forall a, b :: a in s.tasks && b in s.tasks && s.tasks[a].Resuming? && s.tasks[b].Resuming? ==> a == b)
    && (forall a :: a in s.tasks && s.tasks[a].Resuming? && s.tasks[a].pc == Decide(None) ==>
          && s.tasks[a].todo != [] && s.tasks[a].todo[0] < |s.queue.heap|
          && !Unaccepted(s.queue.heap[s.tasks[a].todo[0]]))
  }

  lemma SightedTask(cfg: Config, s: State, id: nat, reply: Reply)
    requires ConfigOk(cfg) && Inv(cfg, s) && Enabled(cfg, s, TaskStep(id, reply))
    requires Sighted(s) && LookupAnswers(s, TaskStep(id, reply))
    ensures Sighted(Apply(cfg, s, TaskStep(id, reply)))
  {
    var s' := Apply(cfg, s, TaskStep(id, reply));
    TaskEventGood(cfg, s, id, reply);
    GoodStepStaysSighted(cfg, s, s', id);
    if s.tasks[id].Resuming? && s.tasks[id].pc.Next? && s.tasks[id].todo != [] {
      assert EntryOk(cfg, s, s.queue.heap[s.tasks[id].todo[0]]);
    }
  }

  /** A good step stays sighted, given what it sees when it looks a job up. */
  lemma GoodStepStaysSighted(cfg: Config, s: State, s': State, id: nat)
    requires Sighted(s) && OnlyTask(s, s', id) && SightStep(s, s', id) && id in s.tasks
    requires Keeps(s, s')
    ensures s'.blind == {}
    ensures (id in s'.tasks && s'.tasks[id].Resuming? && s'.tasks[id].pc == Decide(None) ==>
               s.tasks[id].todo[0] < |s.queue.heap| && !Unaccepted(s.queue.heap[s.tasks[id].todo[0]])) ==> Sighted(s')
  {
  }

  lemma SightedEvent(cfg: Config, s: State, e: Event)
    requires ConfigOk(cfg) && Inv(cfg, s) && Enabled(cfg, s, e) && Sighted(s) && LookupAnswers(s, e)
    ensures Sighted(Apply(cfg, s, e))
  {
    match e
    case TaskStep(id, reply) => SightedTask(cfg, s, id, reply);
    case TxLands(n) => LandingKeepsTasks(cfg, s, n);
    case _ =>
  }

  lemma LandingKeepsTasks(cfg: Config, s: State, n: nat)
    requires TxCanLand(cfg, s, n)
    ensures var s' := Land(cfg, s, n); s'.tasks == s.tasks && s'.queue == s.queue && s'.blind == s.blind
  {
  }

  /** With answering lookups, every bonded job is in the durable queue until a resume pass drops
      it with the head inside the deadline margin. */
  lemma {:induction false} AnsweredLookupsForgetNothing(cfg: Config, run: seq<State>, events: seq<Event>, i: nat)
    requires ConfigOk(cfg) && Run(cfg, run, events) && LookupsAnswer(run, events) && i < |run|
    ensures Sighted(run[i])
    ensures forall j :: Bonded(run[i].chain, j, cfg.us) && j !in run[i].queue.disk ==>
              j in run[i].late && run[i].chain.jobs[j].deadline - run[i].chain.head < cfg.margin
  {
    assert i > 0 ==> Follows(cfg, run, events, i - 1);
    if i > 0 {
      AnsweredLookupsForgetNothing(cfg, run, events, i - 1);
      RunKeeps(cfg, run, events, i - 1);
      assert LookupAnswers(run[i - 1], events[i - 1]);
      SightedEvent(cfg, run[i - 1], events[i - 1]);
    }
    forall j | Bonded(run[i].chain, j, cfg.us) && j !in run[i].queue.disk
      ensures j in run[i].late && run[i].chain.jobs[j].deadline - run[i].chain.head < cfg.margin
    {
      NoForgottenBond(cfg, run, events, i, j);
    }
  }
}
