/** Whether a job that was queued ever reaches the ledger: when exactly a job that is queued, in the
    ledger or about to be recorded stops being any of these. */
module LedgerCoverage {
  import opened Wrappers
  import opened Registry
  import opened Recovery
  import opened RecoveryProof
  import opened DroppedBonds

  /** A task that has resolved the queue entry of `j` and is about to record it. */
  predicate Recording(q: Queue, t: Task, j: JobId) {
    if t.Handling? then t.at.Record? && t.job == j
    else
      && (t.pc.RecordSeen? || t.pc.RecordPushed?)
      && t.todo != [] && t.todo[0] < |q.heap| && q.heap[t.todo[0]].jobId == j
  }

  predicate RecordedBy(s: State, id: nat, j: JobId) {
    id in s.tasks && Recording(s.queue, s.tasks[id], j)
  }

  /** In the durable queue, in the ledger, or about to be recorded. */
  ghost predicate Covered(s: State, j: JobId) {
    j in s.queue.disk || j in s.ledger || j in s.ledgerDisk || exists id :: RecordedBy(s, id, j)
  }

  /** The two copies of the ledger: memory has what the store has, and nothing while down. */
  predicate CopiesOk(s: State) {
    if s.up then s.ledgerDisk.Keys <= s.ledger.Keys else s.ledger == map[]
  }

  // ---- The pass that drops without recording ----------------------------------------------

  /** A resume pass is about to drop the entry of `j` unrecorded: late, or unconfirmed with a lookup
      that shows it neither submitted, nor ours, nor open. */
  predicate Abandoning(cfg: Config, s: State, t: Task, j: JobId)
    requires t.Resuming?
  {
    && t.todo != [] && t.todo[0] < |s.queue.heap| && s.queue.heap[t.todo[0]].jobId == j
    && (t.pc.DropLate? || (t.pc.Decide? && Unaccepted(s.queue.heap[t.todo[0]]) && Hopeless(cfg, t.pc.seen)))
  }

  predicate Hopeless(cfg: Config, seen: Option<Job>) {
    !IsSubmitted(seen) && !IsOurs(cfg, seen) && !(seen.Some? && seen.value.status.Open?)
  }

  /** The event after which nothing remembers `j`: a crash with the job in neither store, or an
      abandoning pass when nothing else covers it. */
  ghost predicate Loses(cfg: Config, s: State, e: Event, j: JobId) {
    match e
    case Crash => j !in s.queue.disk && j !in s.ledgerDisk
    case TaskStep(id, _) =>
      && id in s.tasks && s.tasks[id].Resuming? && Abandoning(cfg, s, s.tasks[id], j)
      && j !in s.ledger && j !in s.ledgerDisk && forall k :: k != id ==> !RecordedBy(s, k, j)
    case _ => false
  }

  // ---- One task step ----------------------------------------------------------------------

  /** What the stepping task and the stores cover. */
  predicate Near(s: State, id: nat, j: JobId) {
    j in s.queue.disk || j in s.ledger || RecordedBy(s, id, j)
  }

  /** The other task `k` is still there, and so is a ledger entry for `j`. */
  predicate KeepsRest(s: State, s': State, id: nat, k: nat, j: JobId) {
    (k in s.tasks && k != id ==> k in s'.tasks) && (j in s.ledger ==> j in s'.ledger)
  }

  lemma ChecksKeepRest(cfg: Config, s: State, id: nat, reply: Reply, k: nat, j: JobId)
    requires HandlerEnabled(s, id, reply)
    requires (s.tasks[id].at.Lookup? || s.tasks[id].at.Headroom? || s.tasks[id].at.Simulate?)
    ensures KeepsRest(s, HandlerStep(cfg, s, id, reply), id, k, j)
  {
  }

  lemma SendsKeepRest(cfg: Config, s: State, id: nat, reply: Reply, k: nat, j: JobId)
    requires HandlerEnabled(s, id, reply) && (s.tasks[id].at.Enqueue? || s.tasks[id].at.SendAccept?)
    ensures KeepsRest(s, HandlerStep(cfg, s, id, reply), id, k, j)
  {
  }

  lemma AcceptsKeepRest(cfg: Config, s: State, id: nat, reply: Reply, k: nat, j: JobId)
    requires HandlerEnabled(s, id, reply)
    requires (s.tasks[id].at.AwaitAccept? || s.tasks[id].at.Reconcile? || s.tasks[id].at.MarkAccepted?)
    ensures KeepsRest(s, HandlerStep(cfg, s, id, reply), id, k, j)
  {
  }

  lemma SubmittingKeepsRest(cfg: Config, s: State, id: nat, reply: Reply, k: nat, j: JobId)
    requires HandlerEnabled(s, id, reply) && s.tasks[id].at.Submitting?
    ensures KeepsRest(s, HandlerStep(cfg, s, id, reply), id, k, j)
  {
  }

  lemma RecordKeepsRest(cfg: Config, s: State, id: nat, reply: Reply, k: nat, j: JobId)
    requires HandlerEnabled(s, id, reply) && s.tasks[id].at.Record?
    ensures KeepsRest(s, HandlerStep(cfg, s, id, reply), id, k, j)
  {
  }

  lemma ReadsKeepRest(cfg: Config, s: State, id: nat, reply: Reply, k: nat, j: JobId)
    requires ResumeEnabled(s, id, reply)
    requires var t := s.tasks[id]; t.todo == [] || t.pc.Next? || t.pc.AwaitReaccept? || t.pc.CheckHead?
    ensures KeepsRest(s, ResumeStep(cfg, s, id, reply), id, k, j)
  {
  }

  lemma DecideKeepsRest(cfg: Config, s: State, id: nat, reply: Reply, k: nat, j: JobId)
    requires ResumeEnabled(s, id, reply) && s.tasks[id].pc.Decide?
    ensures KeepsRest(s, ResumeStep(cfg, s, id, reply), id, k, j)
  {
  }

  lemma RecordsKeepRest(cfg: Config, s: State, id: nat, reply: Reply, k: nat, j: JobId)
    requires ResumeEnabled(s, id, reply) && (s.tasks[id].pc.RecordSeen? || s.tasks[id].pc.RecordPushed?)
    ensures KeepsRest(s, ResumeStep(cfg, s, id, reply), id, k, j)
  {
  }

  lemma ReacceptKeepsRest(cfg: Config, s: State, id: nat, reply: Reply, k: nat, j: JobId)
    requires ResumeEnabled(s, id, reply) && (s.tasks[id].pc.Reaccepted? || s.tasks[id].pc.ReacceptFailed?)
    ensures KeepsRest(s, ResumeStep(cfg, s, id, reply), id, k, j)
  {
  }

  lemma RefreshKeepsRest(cfg: Config, s: State, id: nat, reply: Reply, k: nat, j: JobId)
    requires ResumeEnabled(s, id, reply) && (s.tasks[id].pc.Refresh? || s.tasks[id].pc.DropLate?)
    ensures KeepsRest(s, ResumeStep(cfg, s, id, reply), id, k, j)
  {
  }

  lemma PushKeepsRest(cfg: Config, s: State, id: nat, reply: Reply, k: nat, j: JobId)
    requires ResumeEnabled(s, id, reply) && s.tasks[id].pc.Pushing?
    ensures KeepsRest(s, ResumeStep(cfg, s, id, reply), id, k, j)
  {
  }

  lemma HandlerKeepsRest(cfg: Config, s: State, id: nat, reply: Reply, k: nat, j: JobId)
    requires HandlerEnabled(s, id, reply)
    ensures KeepsRest(s, HandlerStep(cfg, s, id, reply), id, k, j)
  {
    match s.tasks[id].at
    case Lookup => ChecksKeepRest(cfg, s, id, reply, k, j);
    case Headroom => ChecksKeepRest(cfg, s, id, reply, k, j);
    case Simulate => ChecksKeepRest(cfg, s, id, reply, k, j);
    case Enqueue => SendsKeepRest(cfg, s, id, reply, k, j);
    case SendAccept => SendsKeepRest(cfg, s, id, reply, k, j);
    case Submitting(_, _) => SubmittingKeepsRest(cfg, s, id, reply, k, j);
    case Record(_, _) => RecordKeepsRest(cfg, s, id, reply, k, j);
    case _ => AcceptsKeepRest(cfg, s, id, reply, k, j);
  }

  lemma ResumeKeepsRest(cfg: Config, s: State, id: nat, reply: Reply, k: nat, j: JobId)
    requires ResumeEnabled(s, id, reply)
    ensures KeepsRest(s, ResumeStep(cfg, s, id, reply), id, k, j)
  {
    match s.tasks[id].pc
    case Decide(_) => DecideKeepsRest(cfg, s, id, reply, k, j);
    case RecordSeen => RecordsKeepRest(cfg, s, id, reply, k, j);
    case RecordPushed(_) => RecordsKeepRest(cfg, s, id, reply, k, j);
    case Reaccepted(_) => ReacceptKeepsRest(cfg, s, id, reply, k, j);
    case ReacceptFailed => ReacceptKeepsRest(cfg, s, id, reply, k, j);
    case Refresh => RefreshKeepsRest(cfg, s, id, reply, k, j);
    case DropLate => RefreshKeepsRest(cfg, s, id, reply, k, j);
    case Pushing(_, _) => PushKeepsRest(cfg, s, id, reply, k, j);
    case _ => ReadsKeepRest(cfg, s, id, reply, k, j);
  }

  lemma TaskStepKeepsRest(cfg: Config, s: State, id: nat, reply: Reply, k: nat, j: JobId)
    requires Enabled(cfg, s, TaskStep(id, reply))
    ensures KeepsRest(s, Apply(cfg, s, TaskStep(id, reply)), id, k, j)
  {
    if s.tasks[id].Handling? {
      HandlerKeepsRest(cfg, s, id, reply, k, j);
    } else {
      ResumeKeepsRest(cfg, s, id, reply, k, j);
    }
  }

  lemma HandlerStaysNear(cfg: Config, s: State, id: nat, reply: Reply, j: JobId)
    requires HandlerEnabled(s, id, reply) && s.queue.live.Keys == s.queue.disk.Keys && Near(s, id, j)
    ensures Near(HandlerStep(cfg, s, id, reply), id, j)
  {
    var t := s.tasks[id];
    if t.at.Record? {
      HandlerRecords(cfg, s, id, reply);
    } else if j in s.ledger {
      HandlerKeepsRest(cfg, s, id, reply, id, j);
    } else if t.at.Submitting? {
      SubmittingStaysNear(cfg, s, id, reply, j);
    } else {
      EarlyHandlerKeeps(cfg, s, id, reply, j);
    }
  }

  lemma HandlerRecords(cfg: Config, s: State, id: nat, reply: Reply)
    requires HandlerEnabled(s, id, reply) && s.tasks[id].at.Record?
    ensures var s' := HandlerStep(cfg, s, id, reply);
            s'.queue == s.queue && s'.ledger.Keys == s.ledger.Keys + {s.tasks[id].job}
  {
  }

  lemma SubmittingStaysNear(cfg: Config, s: State, id: nat, reply: Reply, j: JobId)
    requires HandlerEnabled(s, id, reply) && s.queue.live.Keys == s.queue.disk.Keys && j in s.queue.disk
    requires s.tasks[id].at.Submitting?
    ensures Near(HandlerStep(cfg, s, id, reply), id, j)
  {
    var t := s.tasks[id];
    SubmittingQueue(cfg, s, id, reply);
    if t.at.submit.Done? {
      ResolvedHas(s.queue, t.job, j);
    } else if !t.at.submit.GaveUp? {
      SubmitKeeps(cfg, s, t.job, t.payload, t.deadline, t.at.submit, reply, j);
    }
  }

  lemma ResumeRecords(cfg: Config, s: State, id: nat, reply: Reply)
    requires ResumeEnabled(s, id, reply) && (s.tasks[id].pc.RecordSeen? || s.tasks[id].pc.RecordPushed?)
    ensures var s' := ResumeStep(cfg, s, id, reply);
            && s'.queue == s.queue
            && s'.ledger.Keys == s.ledger.Keys + {s.queue.heap[s.tasks[id].todo[0]].jobId}
  {
  }

  lemma SubmittedPc(cfg: Config, s: State, id: nat, reply: Reply)
    requires ResumeEnabled(s, id, reply) && s.tasks[id].pc.Decide? && IsSubmitted(s.tasks[id].pc.seen)
    ensures var s' := ResumeStep(cfg, s, id, reply);
            && s'.tasks == s.tasks[id := Resuming(s.tasks[id].todo, RecordSeen)]
            && s'.queue.heap == s.queue.heap && s'.ledger == s.ledger
  {
  }

  lemma UnsubmittedPc(cfg: Config, s: State, id: nat, reply: Reply, j: JobId)
    requires ResumeEnabled(s, id, reply) && s.tasks[id].pc.Decide? && !IsSubmitted(s.tasks[id].pc.seen)
    ensures var s' := ResumeStep(cfg, s, id, reply); s'.ledger == s.ledger && !RecordedBy(s', id, j)
  {
    if Unaccepted(s.queue.heap[s.tasks[id].todo[0]]) {
      UnconfirmedPc(cfg, s, id, reply);
    }
  }

  lemma UnconfirmedPc(cfg: Config, s: State, id: nat, reply: Reply)
    requires ResumeEnabled(s, id, reply) && s.tasks[id].pc.Decide? && !IsSubmitted(s.tasks[id].pc.seen)
    requires Unaccepted(s.queue.heap[s.tasks[id].todo[0]])
    ensures var s' := ResumeStep(cfg, s, id, reply);
            && s'.ledger == s.ledger
            && (id in s'.tasks ==>
                  && s'.tasks[id].Resuming?
                  && !s'.tasks[id].pc.RecordSeen? && !s'.tasks[id].pc.RecordPushed?)
  {
  }

  lemma PushingPc(cfg: Config, s: State, id: nat, reply: Reply)
    requires ResumeEnabled(s, id, reply) && s.tasks[id].pc.Pushing? && s.tasks[id].pc.push.Done?
    ensures var s' := ResumeStep(cfg, s, id, reply);
            && s'.tasks == s.tasks[id := Resuming(s.tasks[id].todo, RecordPushed(s.tasks[id].pc.push.hash))]
            && s'.queue.heap == s.queue.heap
  {
  }

  lemma LatePc(cfg: Config, s: State, id: nat, reply: Reply, j: JobId)
    requires ResumeEnabled(s, id, reply) && s.tasks[id].pc.DropLate?
    ensures var s' := ResumeStep(cfg, s, id, reply);
            s'.ledger == s.ledger && !RecordedBy(s', id, j)
  {
  }

  /** A pass leaves a job uncovered exactly when it abandons it and the ledger does not have it. */
  lemma ResumeStaysNearIff(cfg: Config, s: State, id: nat, reply: Reply, j: JobId)
    requires ResumeEnabled(s, id, reply) && s.queue.live.Keys == s.queue.disk.Keys
    requires Near(s, id, j) || Abandoning(cfg, s, s.tasks[id], j)
    ensures Near(ResumeStep(cfg, s, id, reply), id, j) <==> !(Abandoning(cfg, s, s.tasks[id], j) && j !in s.ledger)
  {
    var t := s.tasks[id];
    if t.pc.Decide? {
      DecisionStaysNearIff(cfg, s, id, reply, j);
    } else if t.pc.DropLate? {
      LateQueue(cfg, s, id, reply);
      LatePc(cfg, s, id, reply, j);
      ResolvedHas(s.queue, s.queue.heap[t.todo[0]].jobId, j);
    } else if t.pc.RecordSeen? || t.pc.RecordPushed? {
      ResumeRecords(cfg, s, id, reply);
    } else if j in s.ledger {
      ResumeKeepsRest(cfg, s, id, reply, id, j);
    } else {
      OtherPassStaysNear(cfg, s, id, reply, j);
    }
  }

  lemma DecisionStaysNearIff(cfg: Config, s: State, id: nat, reply: Reply, j: JobId)
    requires ResumeEnabled(s, id, reply) && s.queue.live.Keys == s.queue.disk.Keys && s.tasks[id].pc.Decide?
    requires Near(s, id, j) || Abandoning(cfg, s, s.tasks[id], j)
    ensures Near(ResumeStep(cfg, s, id, reply), id, j) <==> !(Abandoning(cfg, s, s.tasks[id], j) && j !in s.ledger)
  {
    DecisionQueue(cfg, s, id, reply);
    if IsSubmitted(s.tasks[id].pc.seen) {
      SubmittedPc(cfg, s, id, reply);
    } else {
      UnsubmittedPc(cfg, s, id, reply, j);
    }
    DecidedHas(cfg, s.queue, s.queue.heap[s.tasks[id].todo[0]], s.tasks[id].pc.seen, j);
  }

  lemma DecidedHas(cfg: Config, q: Queue, e: Entry, seen: Option<Job>, j: JobId)
    requires LiveOk(q) && q.live.Keys == q.disk.Keys
    ensures j in Decided(cfg, q, e, seen).disk <==>
              j in q.disk && !(j == e.jobId && (IsSubmitted(seen) || (Unaccepted(e) && Hopeless(cfg, seen))))
  {
    ResolvedHas(q, e.jobId, j);
    if e.jobId in q.live {
      MarkedHas(q, e.jobId, "on-chain-accept:" + e.jobId, j);
    }
  }

  lemma OtherPassStaysNear(cfg: Config, s: State, id: nat, reply: Reply, j: JobId)
    requires ResumeEnabled(s, id, reply) && s.queue.live.Keys == s.queue.disk.Keys && j in s.queue.disk
    requires var pc := s.tasks[id].pc; !pc.Decide? && !pc.DropLate? && !pc.RecordSeen? && !pc.RecordPushed?
    ensures Near(ResumeStep(cfg, s, id, reply), id, j)
  {
    var t := s.tasks[id];
    if t.pc.Pushing? {
      PushingStaysNear(cfg, s, id, reply, j);
    } else if t.todo == [] || t.pc.Next? || t.pc.AwaitReaccept? || t.pc.CheckHead? {
      ReadingDropsNothing(cfg, s, id, reply);
    } else {
      OthersDropNothing(cfg, s, id, reply, j);
    }
  }

  lemma PushingStaysNear(cfg: Config, s: State, id: nat, reply: Reply, j: JobId)
    requires ResumeEnabled(s, id, reply) && s.queue.live.Keys == s.queue.disk.Keys && j in s.queue.disk
    requires s.tasks[id].pc.Pushing?
    ensures Near(ResumeStep(cfg, s, id, reply), id, j)
  {
    var t := s.tasks[id];
    var e := s.queue.heap[t.todo[0]];
    PushingQueue(cfg, s, id, reply);
    if t.pc.push.Done? {
      PushingPc(cfg, s, id, reply);
      ResolvedHas(s.queue, e.jobId, j);
    } else if !t.pc.push.GaveUp? {
      SubmitKeeps(cfg, s, e.jobId, t.pc.payload, e.deadline, t.pc.push, reply, j);
    }
  }

  /** The other tasks hold what they held. */
  lemma OthersHold(cfg: Config, s: State, s': State, id: nat, k: nat, j: JobId)
    requires OnlyTask(s, s', id) && SameObjects(s.queue, s'.queue) && k != id
    requires k in s.tasks ==> k in s'.tasks && TaskOk(cfg, s, s.tasks[k])
    ensures RecordedBy(s', k, j) <==> RecordedBy(s, k, j)
  {
  }

  lemma TaskLosesIff(cfg: Config, s: State, id: nat, reply: Reply, j: JobId)
    requires ConfigOk(cfg) && Inv(cfg, s) && Enabled(cfg, s, TaskStep(id, reply)) && Covered(s, j)
    ensures !Covered(Apply(cfg, s, TaskStep(id, reply)), j) <==> Loses(cfg, s, TaskStep(id, reply), j)
  {
    var s' := Apply(cfg, s, TaskStep(id, reply));
    TaskEventGood(cfg, s, id, reply);
    forall k | k != id
      ensures RecordedBy(s', k, j) <==> RecordedBy(s, k, j)
    {
      TaskStepKeepsRest(cfg, s, id, reply, k, j);
      OthersHold(cfg, s, s', id, k, j);
    }
    TaskStaysNearIff(cfg, s, id, reply, j);
    CoverageSplits(s, id, j);
    CoverageSplits(s', id, j);
  }

  lemma TaskStaysNearIff(cfg: Config, s: State, id: nat, reply: Reply, j: JobId)
    requires Inv(cfg, s) && Enabled(cfg, s, TaskStep(id, reply)) && id in s.tasks && s.up
    ensures var s' := Apply(cfg, s, TaskStep(id, reply));
            var abandons := s.tasks[id].Resuming? && Abandoning(cfg, s, s.tasks[id], j);
            && (abandons && j !in s.ledger ==> !Near(s', id, j))
            && (!(abandons && j !in s.ledger) && Near(s, id, j) ==> Near(s', id, j))
  {
    if s.tasks[id].Handling? {
      if Near(s, id, j) {
        HandlerStaysNear(cfg, s, id, reply, j);
      }
    } else if Near(s, id, j) || Abandoning(cfg, s, s.tasks[id], j) {
      ResumeStaysNearIff(cfg, s, id, reply, j);
    }
  }

  lemma CoverageSplits(s: State, id: nat, j: JobId)
    ensures Covered(s, j) <==> Near(s, id, j) || j in s.ledgerDisk || exists k :: k != id && RecordedBy(s, k, j)
  {
  }

  // ---- Every event, every run -------------------------------------------------------------

  lemma CopiesStep(cfg: Config, s: State, e: Event)
    requires ConfigOk(cfg) && Inv(cfg, s) && Enabled(cfg, s, e) && CopiesOk(s)
    ensures CopiesOk(Apply(cfg, s, e))
  {
    match e
    case TaskStep(id, reply) =>
      TaskEventGood(cfg, s, id, reply);
      forall j | j in s.ledger
        ensures j in Apply(cfg, s, e).ledger
      {
        TaskStepKeepsRest(cfg, s, id, reply, id, j);
      }
    case TxLands(n) => LandingChain(cfg, s, n);
    case _ =>
  }

  lemma EventLosesIff(cfg: Config, s: State, e: Event, j: JobId)
    requires ConfigOk(cfg) && Inv(cfg, s) && CopiesOk(s) && Enabled(cfg, s, e) && Covered(s, j)
    ensures !Covered(Apply(cfg, s, e), j) <==> Loses(cfg, s, e, j)
  {
    match e
    case TaskStep(id, reply) => TaskLosesIff(cfg, s, id, reply, j);
    case _ => QuietEventKeeps(cfg, s, e, j);
  }

  lemma QuietEventKeeps(cfg: Config, s: State, e: Event, j: JobId)
    requires Inv(cfg, s) && CopiesOk(s) && Enabled(cfg, s, e) && Covered(s, j) && !e.TaskStep?
    ensures !Covered(Apply(cfg, s, e), j) <==> Loses(cfg, s, e, j)
  {
    var s' := Apply(cfg, s, e);
    if e.TxLands? {
      LandingChain(cfg, s, e.tx);
    }
    if !e.Crash? {
      if id :| RecordedBy(s, id, j) {
        StillRecorded(cfg, s, e, id, j);
      }
    }
  }

  lemma StillRecorded(cfg: Config, s: State, e: Event, id: nat, j: JobId)
    requires Inv(cfg, s) && Enabled(cfg, s, e) && !e.TaskStep? && !e.Crash? && RecordedBy(s, id, j)
    ensures RecordedBy(Apply(cfg, s, e), id, j)
  {
    if e.TxLands? {
      LandingChain(cfg, s, e.tx);
    }
  }

  lemma {:induction false} RunCopiesOk(cfg: Config, run: seq<State>, events: seq<Event>, i: nat)
    requires ConfigOk(cfg) && Run(cfg, run, events) && i < |run|
    ensures CopiesOk(run[i])
  {
    assert i > 0 ==> Follows(cfg, run, events, i - 1);
    if i > 0 {
      RunCopiesOk(cfg, run, events, i - 1);
      RunKeeps(cfg, run, events, i - 1);
      CopiesStep(cfg, run[i - 1], events[i - 1]);
    }
  }

  /** In every run and for every event, a job that is queued, in the ledger or about to be recorded
      stops being any of these exactly at a crash that finds it in neither store (the queue entry
      goes before the ledger entry comes), or when a resume pass abandons it. */
  lemma CoverageLostIff(cfg: Config, run: seq<State>, events: seq<Event>, i: nat, j: JobId)
    requires ConfigOk(cfg) && Run(cfg, run, events) && i < |events| && Covered(run[i], j)
    ensures !Covered(run[i + 1], j) <==> Loses(cfg, run[i], events[i], j)
  {
    assert Follows(cfg, run, events, i);
    RunKeeps(cfg, run, events, i);
    RunCopiesOk(cfg, run, events, i);
    EventLosesIff(cfg, run[i], events[i], j);
  }
}
