/** When exactly a bonded job leaves the durable queue. */
module DroppedBonds {
  import opened Wrappers
  import opened Registry
  import opened Recovery
  import opened RecoveryProof

  /** A resume pass holds the job's entry and is about to drop it: late, or unconfirmed with a
      lookup that came back empty. */
  predicate Dropping(s: State, e: Event, j: JobId) {
    && e.TaskStep? && e.id in s.tasks && s.tasks[e.id].Resuming? && DroppingPass(s, s.tasks[e.id], j)
  }

  predicate DroppingPass(s: State, t: Task, j: JobId)
    requires t.Resuming?
  {
    && t.todo != [] && t.todo[0] < |s.queue.heap| && s.queue.heap[t.todo[0]].jobId == j
    && (t.pc.DropLate? || (t.pc == Decide(None) && Unaccepted(s.queue.heap[t.todo[0]])))
  }

  // ---- What the queue's operations do to the stored jobs ----------------------------------

  lemma EnqueuedHas(q: Queue, e: Entry, k: JobId)
    requires LiveOk(q)
    ensures k in Enqueued(q, e).disk <==> k in q.live || k == e.jobId
  {
  }

  lemma ResolvedHas(q: Queue, j: JobId, k: JobId)
    requires LiveOk(q)
    ensures k in Resolved(q, j).disk <==> k in q.live && k != j
  {
  }

  lemma MarkedHas(q: Queue, j: JobId, tx: string, k: JobId)
    requires LiveOk(q) && j in q.live
    ensures k in Marked(q, j, tx).disk <==> k in q.live
  {
  }

  lemma FailureNotedHas(q: Queue, j: JobId, k: JobId)
    requires LiveOk(q) && q.live.Keys == q.disk.Keys
    ensures k in FailureNoted(q, j).disk <==> k in q.live
  {
  }

  lemma SubmitKeeps(cfg: Config, s: State, j: JobId, p: Payload, deadline: int, at: Submit, reply: Reply, k: JobId)
    requires SubmitEnabled(s, at, reply) && s.queue.live.Keys == s.queue.disk.Keys && k in s.queue.disk
    ensures k in SubmitStep(cfg, s, j, p, deadline, at, reply).queue.disk
  {
    FailureNotedHas(s.queue, j, k);
  }

  // ---- Handlers never drop a bond ---------------------------------------------------------

  lemma EarlyHandlerKeeps(cfg: Config, s: State, id: nat, reply: Reply, k: JobId)
    requires HandlerEnabled(s, id, reply) && s.queue.live.Keys == s.queue.disk.Keys && k in s.queue.disk
    requires !s.tasks[id].at.Submitting?
    ensures k in HandlerStep(cfg, s, id, reply).queue.disk
  {
    var t := s.tasks[id];
    if t.at.Enqueue? {
      EnqueueKeeps(cfg, s, id, reply, k);
    } else if t.at.MarkAccepted? {
      MarkKeeps(cfg, s, id, reply, k);
    }
  }

  lemma EnqueueKeeps(cfg: Config, s: State, id: nat, reply: Reply, k: JobId)
    requires HandlerEnabled(s, id, reply) && k in s.queue.live && s.tasks[id].at.Enqueue?
    ensures k in HandlerStep(cfg, s, id, reply).queue.disk
  {
    var t := s.tasks[id];
    EnqueuedHas(s.queue, Entry(t.job, None, Accepting, cfg.serialize(t.payload), t.deadline, t.fee, 0), k);
  }

  lemma MarkKeeps(cfg: Config, s: State, id: nat, reply: Reply, k: JobId)
    requires HandlerEnabled(s, id, reply) && s.queue.live.Keys == s.queue.disk.Keys && k in s.queue.disk
    requires s.tasks[id].at.MarkAccepted?
    ensures k in HandlerStep(cfg, s, id, reply).queue.disk
  {
    var t := s.tasks[id];
    if t.job in s.queue.live {
      MarkedHas(s.queue, t.job, t.at.acceptedTx, k);
    }
  }

  lemma SubmittingQueue(cfg: Config, s: State, id: nat, reply: Reply)
    requires HandlerEnabled(s, id, reply) && s.tasks[id].at.Submitting?
    ensures var t := s.tasks[id];
            HandlerStep(cfg, s, id, reply).queue == RetryQueue(cfg, s, t.job, t.payload, t.deadline, t.at.submit, reply)
  {
  }

  /** The queue after a step of the retry loop, or after its end. */
  function RetryQueue(cfg: Config, s: State, job: JobId, p: Payload, deadline: int, at: Submit, reply: Reply): Queue
    requires LiveOk(s.queue) && (!at.Done? && !at.GaveUp? ==> SubmitEnabled(s, at, reply))
  {
    if at.Done? then Resolved(s.queue, job)
    else if at.GaveUp? then s.queue
    else SubmitStep(cfg, s, job, p, deadline, at, reply).queue
  }

  lemma RetryKeepsBond(cfg: Config, s: State, job: JobId, p: Payload, deadline: int, at: Submit, reply: Reply, j: JobId)
    requires LiveOk(s.queue) && (!at.Done? && !at.GaveUp? ==> SubmitEnabled(s, at, reply))
    requires s.queue.live.Keys == s.queue.disk.Keys && SubmitOk(s, job, p, at)
    requires Bonded(s.chain, j, cfg.us) && j in s.queue.disk
    ensures j in RetryQueue(cfg, s, job, p, deadline, at, reply).disk
  {
    if at.Done? {
      ResolvedHas(s.queue, job, j);
    } else if !at.GaveUp? {
      SubmitKeeps(cfg, s, job, p, deadline, at, reply, j);
    }
  }

  lemma HandlerKeepsBond(cfg: Config, s: State, id: nat, reply: Reply, j: JobId)
    requires HandlerEnabled(s, id, reply) && HandlerOk(cfg, s, s.tasks[id]) && s.queue.live.Keys == s.queue.disk.Keys
    requires Bonded(s.chain, j, cfg.us) && j in s.queue.disk
    ensures j in HandlerStep(cfg, s, id, reply).queue.disk
  {
    var t := s.tasks[id];
    if t.at.Submitting? {
      SubmittingQueue(cfg, s, id, reply);
      RetryKeepsBond(cfg, s, t.job, t.payload, t.deadline, t.at.submit, reply, j);
    } else {
      EarlyHandlerKeeps(cfg, s, id, reply, j);
    }
  }

  // ---- A resume pass drops it in two places -----------------------------------------------

  lemma ResumeDropsIff(cfg: Config, s: State, id: nat, reply: Reply, j: JobId)
    requires ResumeEnabled(s, id, reply) && ResumerOk(cfg, s, s.tasks[id]) && s.queue.live.Keys == s.queue.disk.Keys
    requires Bonded(s.chain, j, cfg.us) && j in s.queue.disk
    ensures j !in ResumeStep(cfg, s, id, reply).queue.disk <==> DroppingPass(s, s.tasks[id], j)
  {
    var t := s.tasks[id];
    if t.todo == [] || t.pc.Next? || t.pc.AwaitReaccept? || t.pc.CheckHead? || t.pc.RecordSeen? || t.pc.RecordPushed? {
      ReadingDropsNothing(cfg, s, id, reply);
    } else if t.pc.Decide? {
      DecisionQueue(cfg, s, id, reply);
      DecisionDropsIff(cfg, s, t, j);
    } else if t.pc.Pushing? {
      var e := s.queue.heap[t.todo[0]];
      PushingQueue(cfg, s, id, reply);
      RetryKeepsBond(cfg, s, e.jobId, t.pc.payload, e.deadline, t.pc.push, reply, j);
    } else if t.pc.DropLate? {
      LateQueue(cfg, s, id, reply);
      ResolvedHas(s.queue, s.queue.heap[t.todo[0]].jobId, j);
    } else {
      OthersDropNothing(cfg, s, id, reply, j);
    }
  }

  lemma ReadingDropsNothing(cfg: Config, s: State, id: nat, reply: Reply)
    requires ResumeEnabled(s, id, reply)
    requires var t := s.tasks[id];
             || t.todo == [] || t.pc.Next? || t.pc.AwaitReaccept? || t.pc.CheckHead?
             || t.pc.RecordSeen? || t.pc.RecordPushed?
    ensures ResumeStep(cfg, s, id, reply).queue == s.queue
  {
  }

  /** The queue after a decision on entry `e`. */
  function Decided(cfg: Config, q: Queue, e: Entry, seen: Option<Job>): Queue
    requires LiveOk(q)
  {
    if IsSubmitted(seen) then Resolved(q, e.jobId)
    else if !Unaccepted(e) then q
    else if IsOurs(cfg, seen) then
      if e.jobId in q.live then Marked(q, e.jobId, "on-chain-accept:" + e.jobId) else q
    else if seen.Some? && seen.value.status.Open? then q
    else Resolved(q, e.jobId)
  }

  lemma DecisionQueue(cfg: Config, s: State, id: nat, reply: Reply)
    requires ResumeEnabled(s, id, reply) && s.tasks[id].pc.Decide?
    ensures ResumeStep(cfg, s, id, reply).queue ==
              Decided(cfg, s.queue, s.queue.heap[s.tasks[id].todo[0]], s.tasks[id].pc.seen)
  {
    var e := s.queue.heap[s.tasks[id].todo[0]];
    var seen := s.tasks[id].pc.seen;
    if IsSubmitted(seen) || !Unaccepted(e) {
      SettledQueue(cfg, s, id, reply);
    } else {
      UnconfirmedQueue(cfg, s, id, reply);
    }
  }

  lemma SettledQueue(cfg: Config, s: State, id: nat, reply: Reply)
    requires ResumeEnabled(s, id, reply) && s.tasks[id].pc.Decide?
    requires IsSubmitted(s.tasks[id].pc.seen) || !Unaccepted(s.queue.heap[s.tasks[id].todo[0]])
    ensures ResumeStep(cfg, s, id, reply).queue ==
              Decided(cfg, s.queue, s.queue.heap[s.tasks[id].todo[0]], s.tasks[id].pc.seen)
  {
  }

  lemma UnconfirmedQueue(cfg: Config, s: State, id: nat, reply: Reply)
    requires ResumeEnabled(s, id, reply) && s.tasks[id].pc.Decide?
    requires !IsSubmitted(s.tasks[id].pc.seen) && Unaccepted(s.queue.heap[s.tasks[id].todo[0]])
    ensures ResumeStep(cfg, s, id, reply).queue ==
              Decided(cfg, s.queue, s.queue.heap[s.tasks[id].todo[0]], s.tasks[id].pc.seen)
  {
  }

  lemma DecisionDropsIff(cfg: Config, s: State, t: Task, j: JobId)
    requires t.Resuming? && t.pc.Decide? && ResumerOk(cfg, s, t) && LiveOk(s.queue)
    requires s.queue.live.Keys == s.queue.disk.Keys && Bonded(s.chain, j, cfg.us) && j in s.queue.disk
    ensures j !in Decided(cfg, s.queue, s.queue.heap[t.todo[0]], t.pc.seen).disk <==> DroppingPass(s, t, j)
  {
    var e := s.queue.heap[t.todo[0]];
    ResolvedHas(s.queue, e.jobId, j);
    if e.jobId in s.queue.live {
      MarkedHas(s.queue, e.jobId, "on-chain-accept:" + e.jobId, j);
    }
    if e.jobId == j && t.pc.seen.Some? {
      SeenIsBonded(cfg, s, j, t.pc.seen.value);
    }
  }

  /** A lookup that answered, of a job that is bonded to us now, saw it open or already ours. */
  lemma SeenIsBonded(cfg: Config, s: State, j: JobId, seen: Job)
    requires Bonded(s.chain, j, cfg.us) && JobEvolves(seen, s.chain.jobs[j])
    ensures seen.status.Open? || IsOurs(cfg, Some(seen))
    ensures !seen.status.Submitted?
  {
  }

  lemma PushingQueue(cfg: Config, s: State, id: nat, reply: Reply)
    requires ResumeEnabled(s, id, reply) && s.tasks[id].pc.Pushing?
    ensures var t := s.tasks[id];
            var e := s.queue.heap[t.todo[0]];
            ResumeStep(cfg, s, id, reply).queue ==
                RetryQueue(cfg, s, e.jobId, t.pc.payload, e.deadline, t.pc.push, reply)
  {
  }

  lemma LateQueue(cfg: Config, s: State, id: nat, reply: Reply)
    requires ResumeEnabled(s, id, reply) && s.tasks[id].pc.DropLate?
    ensures ResumeStep(cfg, s, id, reply).queue == Resolved(s.queue, s.queue.heap[s.tasks[id].todo[0]].jobId)
  {
  }

  lemma OthersDropNothing(cfg: Config, s: State, id: nat, reply: Reply, k: JobId)
    requires ResumeEnabled(s, id, reply) && s.queue.live.Keys == s.queue.disk.Keys && k in s.queue.disk
    requires var pc := s.tasks[id].pc; pc.Reaccepted? || pc.ReacceptFailed? || pc.Refresh?
    ensures k in ResumeStep(cfg, s, id, reply).queue.disk
  {
    if s.tasks[id].pc.Reaccepted? {
      ReacceptKeeps(cfg, s, id, reply, k);
    } else {
      FailureNotedHas(s.queue, s.queue.heap[s.tasks[id].todo[0]].jobId, k);
    }
  }

  lemma ReacceptKeeps(cfg: Config, s: State, id: nat, reply: Reply, k: JobId)
    requires ResumeEnabled(s, id, reply) && s.queue.live.Keys == s.queue.disk.Keys && k in s.queue.disk
    requires s.tasks[id].pc.Reaccepted?
    ensures k in ResumeStep(cfg, s, id, reply).queue.disk
  {
    var e := s.queue.heap[s.tasks[id].todo[0]];
    if e.jobId in s.queue.live {
      MarkedHas(s.queue, e.jobId, s.tasks[id].pc.acceptedTx, k);
    }
  }

  /** In every reachable situation and for every event: a bonded job in the durable queue leaves it
      exactly when a resume pass drops its entry as late, or as unconfirmed after an empty
      lookup; and a late drop happens only with the head inside the deadline margin. */
  lemma BondDroppedIff(cfg: Config, run: seq<State>, events: seq<Event>, i: nat, j: JobId)
    requires ConfigOk(cfg) && Run(cfg, run, events) && i < |events|
    requires Bonded(run[i].chain, j, cfg.us) && j in run[i].queue.disk
    ensures j !in run[i + 1].queue.disk <==> Dropping(run[i], events[i], j)
    ensures Dropping(run[i], events[i], j) ==>
              BlindDrop(run[i], events[i]) || run[i].chain.jobs[j].deadline - run[i].chain.head < cfg.margin
  {
    assert Follows(cfg, run, events, i);
    RunKeeps(cfg, run, events, i);
    EventDropsIff(cfg, run[i], events[i], j);
    if Dropping(run[i], events[i], j) && !BlindDrop(run[i], events[i]) {
      LateIsLate(cfg, run[i], run[i].tasks[events[i].id], j);
    }
  }

  /** The pass holds the empty lookup of an unconfirmed entry. */
  predicate BlindDrop(s: State, e: Event) {
    && e.TaskStep? && e.id in s.tasks && s.tasks[e.id].Resuming? && s.tasks[e.id].pc == Decide(None)
    && s.tasks[e.id].todo != [] && s.tasks[e.id].todo[0] < |s.queue.heap|
    && Unaccepted(s.queue.heap[s.tasks[e.id].todo[0]])
  }

  lemma LateIsLate(cfg: Config, s: State, t: Task, j: JobId)
    requires TaskOk(cfg, s, t) && t.Resuming? && t.pc.DropLate? && DroppingPass(s, t, j) && j in s.chain.jobs
    ensures s.chain.jobs[j].deadline - s.chain.head < cfg.margin
  {
  }

  lemma EventDropsIff(cfg: Config, s: State, e: Event, j: JobId)
    requires Inv(cfg, s) && Enabled(cfg, s, e) && Bonded(s.chain, j, cfg.us) && j in s.queue.disk
    ensures j !in Apply(cfg, s, e).queue.disk <==> Dropping(s, e, j)
  {
    match e
    case TaskStep(id, reply) =>
      assert s.up && TaskOk(cfg, s, s.tasks[id]);
      if s.tasks[id].Handling? {
        HandlerKeepsBond(cfg, s, id, reply, j);
      } else {
        ResumeDropsIff(cfg, s, id, reply, j);
      }
    case TxLands(n) => LandingKeepsTasks(cfg, s, n);
    case _ =>
  }
}
