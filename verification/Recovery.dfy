/** The relayer's accept-then-submit protocol with crash recovery, as a step machine.

    Payload handlers and one resume pass run as tasks that interleave at every `await`.
    Transactions may land while the RPC reports an error, or land later, or never. */
module Recovery {
  import opened Wrappers
  import opened Registry

  type Payload = string
  type Wire = string

  /** `parse` and `serialize` are the stored form of a payload, `hash` its commitment. */
  datatype Config = Config(
    us: Operator,
    margin: int,
    maxAttempts: nat,
    hash: Payload -> string,
    serialize: Payload -> Wire,
    parse: Wire -> Option<Payload>)

  ghost predicate ConfigOk(cfg: Config) {
    forall p: Payload :: cfg.parse(cfg.serialize(p)) == Some(p)
  }

  datatype Phase = Accepting | AcceptedPhase

  datatype Entry = Entry(
    jobId: JobId,
    acceptedTx: Option<string>,
    phase: Phase,
    wire: Wire,
    deadline: int,
    fee: int,
    attempts: nat)

  /** The accepted-job queue: entry objects live in `heap` and are mutated in place, `live` is
      the in-memory map to them and `disk` is what the store holds. */
  datatype Queue = Queue(heap: seq<Entry>, live: map<JobId, nat>, disk: map<JobId, Entry>)

  datatype LedgerEntry = LedgerEntry(
    jobId: JobId, acceptedTx: string, submittedTx: string, expectedFee: int, submittedAt: int)

  datatype TxBody = AcceptTx(job: JobId) | SubmitTx(job: JobId, payload: Payload)
  datatype TxFate = InFlight | Landed | Dropped
  datatype Tx = Tx(body: TxBody, hash: string, fate: TxFate)

  /** Where `submitWithRetry` stands. */
  datatype Submit =
    | Check(attempt: nat)
    | Send(attempt: nat)
    | AwaitSubmit(attempt: nat, tx: nat)
    | NoteFailure(attempt: nat)
    | Recheck(attempt: nat)
    | Backoff(attempt: nat)
    | Done(hash: string)
    | GaveUp

  datatype HandlerPc =
    | Lookup
    | Headroom
    | Simulate
    | Enqueue
    | SendAccept
    | AwaitAccept(tx: nat)
    | Reconcile
    | MarkAccepted(acceptedTx: string)
    | Submitting(acceptedTx: string, submit: Submit)
    | Record(acceptedTx: string, submittedTx: string)

  datatype ResumePc =
    | Next
    | Decide(seen: Option<Job>)
    | RecordSeen
    | AwaitReaccept(tx: nat)
    | Reaccepted(acceptedTx: string)
    | ReacceptFailed
    | Refresh
    | CheckHead
    | DropLate
    | Pushing(payload: Payload, push: Submit)
    | RecordPushed(submittedTx: string)

  /** `todo[0]` is the queue object a resume pass is working on. */
  datatype Task =
    | Handling(job: JobId, payload: Payload, fee: int, deadline: int, at: HandlerPc)
    | Resuming(todo: seq<nat>, pc: ResumePc)

  /** `intents`, `late` and `blind` are history: the jobs ever enqueued, those a resume pass
      dropped for lack of headroom, and those it dropped after a failed lookup. */
  datatype State = State(
    chain: Chain,
    txs: seq<Tx>,
    up: bool,
    queue: Queue,
    ledger: map<JobId, LedgerEntry>,
    ledgerDisk: map<JobId, LedgerEntry>,
    tasks: map<nat, Task>,
    intents: set<JobId>,
    late: set<JobId>,
    blind: set<JobId>)

  /** How the RPC behaves in one task step; `text` is the hash of a sent transaction,
      `time` the clock. */
  datatype Reply = Answers(text: string, time: int) | RpcFails

  datatype Event =
    | AdvanceHead(to: int)
    | CreateJob(job: JobId, terms: Job)
    | OtherAccepts(job: JobId, op: Operator)
    | OtherSubmits(job: JobId, op: Operator)
    | SlashJob(job: JobId)
    | CancelJob(job: JobId)
    | TxLands(tx: nat)
    | TxDrops(tx: nat)
    | Crash
    | Boot(heap: seq<Entry>, live: map<JobId, nat>)
    | SaveLedger
    | StartHandling(id: nat, job: JobId, payload: Payload)
    | StartResume(id: nat, todo: seq<nat>)
    | TaskStep(id: nat, reply: Reply)

  // ---- The queue's operations -------------------------------------------------------------

  function Persist(q: Queue): Queue
    requires forall j :: j in q.live ==> q.live[j] < |q.heap|
  {
    q.(disk := map j | j in q.live :: q.heap[q.live[j]])
  }

  predicate LiveOk(q: Queue) {
    forall j :: j in q.live ==> q.live[j] < |q.heap| && q.heap[q.live[j]].jobId == j
  }

  function Enqueued(q: Queue, e: Entry): Queue
    requires LiveOk(q)
  {
    Persist(q.(heap := q.heap + [e], live := q.live[e.jobId := |q.heap|]))
  }

  function Marked(q: Queue, j: JobId, acceptedTx: string): Queue
    requires LiveOk(q) && j in q.live
  {
    var o := q.live[j];
    Persist(q.(heap := q.heap[o := q.heap[o].(acceptedTx := Some(acceptedTx), phase := AcceptedPhase)]))
  }

  function Resolved(q: Queue, j: JobId): Queue
    requires LiveOk(q)
  {
    Persist(q.(live := q.live - {j}))
  }

  function FailureNoted(q: Queue, j: JobId): Queue
    requires LiveOk(q)
  {
    if j !in q.live then q
    else
      var o := q.live[j];
      Persist(q.(heap := q.heap[o := q.heap[o].(attempts := q.heap[o].attempts + 1)]))
  }

  // ---- One step of submitWithRetry --------------------------------------------------------

  datatype SubmitEffect = SubmitEffect(next: Submit, txs: seq<Tx>, queue: Queue)

  function ReadJob(s: State, j: JobId, reply: Reply): Option<Job> {
    if reply.RpcFails? || j !in s.chain.jobs then None else Some(s.chain.jobs[j])
  }

  predicate HasHeadroom(cfg: Config, s: State, deadline: int, reply: Reply) {
    reply.RpcFails? || deadline - s.chain.head >= cfg.margin
  }

  predicate IsSubmitted(seen: Option<Job>) {
    seen.Some? && seen.value.status.Submitted?
  }

  /** Accepted by nobody named, or by us. */
  predicate IsOurs(cfg: Config, seen: Option<Job>) {
    && seen.Some? && seen.value.status.Accepted?
    && (seen.value.acceptedBy.None? || seen.value.acceptedBy.value == cfg.us)
  }

  /** The retry loop may be configured to make no attempt at all. */
  function FirstTry(cfg: Config): Submit {
    if 1 <= cfg.maxAttempts then Check(1) else GaveUp
  }

  predicate ReturnsOk(s: State, tx: nat, reply: Reply) {
    reply.Answers? ==> tx < |s.txs| && s.txs[tx].fate.Landed?
  }

  predicate SubmitEnabled(s: State, at: Submit, reply: Reply) {
    && LiveOk(s.queue)
    && !at.Done? && !at.GaveUp?
    && (at.AwaitSubmit? ==> ReturnsOk(s, at.tx, reply))
  }

  function SubmitStep(cfg: Config, s: State, j: JobId, p: Payload, deadline: int, at: Submit, reply: Reply)
    : SubmitEffect
    requires SubmitEnabled(s, at, reply)
  {
    var same := SubmitEffect(at, s.txs, s.queue);
    match at
    case Check(n) =>
      var seen := ReadJob(s, j, reply);
      if reply.RpcFails? then same.(next := NoteFailure(n))
      else if IsSubmitted(seen) then same.(next := Done("on-chain:" + j))
      else same.(next := Send(n))
    case Send(n) =>
      if reply.RpcFails? then same.(next := NoteFailure(n))
      else SubmitEffect(AwaitSubmit(n, |s.txs|), s.txs + [Tx(SubmitTx(j, p), reply.text, InFlight)], s.queue)
    case AwaitSubmit(n, tx) =>
      if reply.RpcFails? then same.(next := NoteFailure(n))
      else same.(next := Done(s.txs[tx].hash))
    case NoteFailure(n) =>
      SubmitEffect(Recheck(n), s.txs, FailureNoted(s.queue, j))
    case Recheck(n) =>
      if IsSubmitted(ReadJob(s, j, reply)) then same.(next := Done("on-chain:" + j))
      else if n >= cfg.maxAttempts then same.(next := GaveUp)
      else same.(next := Backoff(n))
    case Backoff(n) =>
      if HasHeadroom(cfg, s, deadline, reply) then same.(next := Check(n + 1))
      else same.(next := GaveUp)
    case _ => same
  }

  // ---- One step of a payload handler ------------------------------------------------------

  function WithTask(s: State, id: nat, t: Option<Task>): State {
    if t.Some? then s.(tasks := s.tasks[id := t.value]) else s.(tasks := s.tasks - {id})
  }

  function Goto(s: State, id: nat, pc: HandlerPc): State
    requires id in s.tasks && s.tasks[id].Handling?
  {
    WithTask(s, id, Some(s.tasks[id].(at := pc)))
  }

  function RecordLedger(s: State, e: LedgerEntry): State {
    s.(ledger := s.ledger[e.jobId := e])
  }

  predicate HandlerEnabled(s: State, id: nat, reply: Reply) {
    && id in s.tasks && s.tasks[id].Handling? && LiveOk(s.queue)
    && (s.tasks[id].at.AwaitAccept? ==> ReturnsOk(s, s.tasks[id].at.tx, reply))
    && (s.tasks[id].at.Submitting? && !s.tasks[id].at.submit.Done? && !s.tasks[id].at.submit.GaveUp?
        ==> SubmitEnabled(s, s.tasks[id].at.submit, reply))
  }

  function HandlerStep(cfg: Config, s: State, id: nat, reply: Reply): State
    requires HandlerEnabled(s, id, reply)
  {
    var t := s.tasks[id];
    var stop := WithTask(s, id, None);
    match t.at
    case Lookup =>
      var seen := ReadJob(s, t.job, reply);
      if seen.None? || !seen.value.status.Open? then stop
      else if cfg.hash(t.payload) != seen.value.payloadHash then stop
      else WithTask(s, id, Some(Handling(t.job, t.payload, seen.value.fee, seen.value.deadline, Headroom)))
    case Headroom =>
      if HasHeadroom(cfg, s, t.deadline, reply) then Goto(s, id, Simulate) else stop
    case Simulate =>
      if reply.RpcFails? then stop else Goto(s, id, Enqueue)
    case Enqueue =>
      var e := Entry(t.job, None, Accepting, cfg.serialize(t.payload), t.deadline, t.fee, 0);
      Goto(s.(queue := Enqueued(s.queue, e), intents := s.intents + {t.job}), id, SendAccept)
    case SendAccept =>
      if reply.RpcFails? then Goto(s, id, Reconcile)
      else Goto(s.(txs := s.txs + [Tx(AcceptTx(t.job), reply.text, InFlight)]), id, AwaitAccept(|s.txs|))
    case AwaitAccept(tx) =>
      if reply.RpcFails? then Goto(s, id, Reconcile) else Goto(s, id, MarkAccepted(s.txs[tx].hash))
    case Reconcile =>
      if IsOurs(cfg, ReadJob(s, t.job, reply)) then Goto(s, id, MarkAccepted("on-chain-accept:" + t.job))
      else stop
    case MarkAccepted(tx) =>
      if t.job !in s.queue.live then stop
      else Goto(s.(queue := Marked(s.queue, t.job, tx)), id, Submitting(tx, FirstTry(cfg)))
    case Submitting(tx, at) =>
      (match at
       case Done(sub) => Goto(s.(queue := Resolved(s.queue, t.job)), id, Record(tx, sub))
       case GaveUp => stop
       case _ =>
         var eff := SubmitStep(cfg, s, t.job, t.payload, t.deadline, at, reply);
         Goto(s.(txs := eff.txs, queue := eff.queue), id, Submitting(tx, eff.next)))
    case Record(tx, sub) =>
      var time := if reply.Answers? then reply.time else 0;
      WithTask(RecordLedger(s, LedgerEntry(t.job, tx, sub, t.fee, time)), id, None)
  }

  // ---- One step of a resume pass ----------------------------------------------------------

  predicate ResumeEnabled(s: State, id: nat, reply: Reply) {
    && id in s.tasks && s.tasks[id].Resuming? && LiveOk(s.queue)
    && (!s.tasks[id].pc.Next? ==> s.tasks[id].todo != [])
    && (forall k :: 0 <= k < |s.tasks[id].todo| ==> s.tasks[id].todo[k] < |s.queue.heap|)
    && (s.tasks[id].pc.AwaitReaccept? ==> ReturnsOk(s, s.tasks[id].pc.tx, reply))
    && (s.tasks[id].pc.Pushing? && !s.tasks[id].pc.push.Done? && !s.tasks[id].pc.push.GaveUp?
        ==> SubmitEnabled(s, s.tasks[id].pc.push, reply))
  }

  function GotoR(s: State, id: nat, todo: seq<nat>, pc: ResumePc): State {
    WithTask(s, id, Some(Resuming(todo, pc)))
  }

  function ResumeStep(cfg: Config, s: State, id: nat, reply: Reply): State
    requires ResumeEnabled(s, id, reply)
  {
    var todo := s.tasks[id].todo;
    var pc := s.tasks[id].pc;
    if todo == [] then WithTask(s, id, None)
    else
      var o := todo[0];
      var e := s.queue.heap[o];
      var j := e.jobId;
      var time := if reply.Answers? then reply.time else 0;
      var dropped := s.(queue := Resolved(s.queue, j));
      match pc
      case Next => GotoR(s, id, todo, Decide(ReadJob(s, j, reply)))
      case Decide(seen) =>
        if IsSubmitted(seen) then GotoR(dropped, id, todo, RecordSeen)
        else if e.phase.Accepting? || e.acceptedTx.None? then
          if IsOurs(cfg, seen) then
            if j !in s.queue.live then WithTask(s, id, None)
            else GotoR(s.(queue := Marked(s.queue, j, "on-chain-accept:" + j)), id, todo, Refresh)
          else if seen.Some? && seen.value.status.Open? then
            if reply.RpcFails? then GotoR(s, id, todo, ReacceptFailed)
            else GotoR(s.(txs := s.txs + [Tx(AcceptTx(j), reply.text, InFlight)]), id, todo, AwaitReaccept(|s.txs|))
          else
            GotoR(if seen.None? then dropped.(blind := s.blind + {j}) else dropped, id, todo[1..], Next)
        else GotoR(s, id, todo, CheckHead)
      case RecordSeen =>
        GotoR(RecordLedger(s, LedgerEntry(j, RecordedTx(e), "on-chain:" + j, e.fee, time)), id, todo[1..], Next)
      case AwaitReaccept(tx) =>
        if reply.RpcFails? then GotoR(s, id, todo, ReacceptFailed) else GotoR(s, id, todo, Reaccepted(s.txs[tx].hash))
      case Reaccepted(tx) =>
        if j !in s.queue.live then GotoR(s, id, todo, ReacceptFailed)
        else GotoR(s.(queue := Marked(s.queue, j, tx)), id, todo, Refresh)
      case ReacceptFailed => GotoR(s.(queue := FailureNoted(s.queue, j)), id, todo[1..], Next)
      case Refresh =>
        var tx := if j in s.queue.live then s.queue.heap[s.queue.live[j]].acceptedTx else None;
        GotoR(s.(queue := s.queue.(heap := s.queue.heap[o := e.(acceptedTx := tx)])), id, todo, CheckHead)
      case CheckHead =>
        if !HasHeadroom(cfg, s, e.deadline, reply) then GotoR(s, id, todo, DropLate)
        else
          (match cfg.parse(e.wire)
           case None => GotoR(s, id, todo[1..], Next)
           case Some(p) => GotoR(s, id, todo, Pushing(p, FirstTry(cfg))))
      case DropLate => GotoR(dropped.(late := s.late + {j}), id, todo[1..], Next)
      case Pushing(p, at) =>
        (match at
         case Done(sub) => GotoR(dropped, id, todo, RecordPushed(sub))
         case GaveUp => GotoR(s, id, todo[1..], Next)
         case _ =>
           var eff := SubmitStep(cfg, s, j, p, e.deadline, at, reply);
           GotoR(s.(txs := eff.txs, queue := eff.queue), id, todo, Pushing(p, eff.next)))
      case RecordPushed(sub) =>
        GotoR(RecordLedger(s, LedgerEntry(j, RecordedTx(e), sub, e.fee, time)), id, todo[1..], Next)
  }

  function RecordedTx(e: Entry): string {
    if e.acceptedTx.Some? then e.acceptedTx.value else "on-chain-accept:" + e.jobId
  }

  // ---- The whole machine ------------------------------------------------------------------

  predicate TxCanLand(cfg: Config, s: State, n: nat) {
    && n < |s.txs| && s.txs[n].fate.InFlight?
    && match s.txs[n].body
       case AcceptTx(j) => CanAccept(s.chain, j)
       case SubmitTx(j, p) => CanSubmit(s.chain, j, cfg.us, cfg.hash(p))
  }

  /** The restored memory holds exactly what the store holds. */
  predicate Hydrates(disk: map<JobId, Entry>, heap: seq<Entry>, live: map<JobId, nat>) {
    && live.Keys == disk.Keys
    && (forall j :: j in live ==> live[j] < |heap| && heap[live[j]] == disk[j])
    && (forall o :: 0 <= o < |heap| ==> heap[o].jobId in disk && disk[heap[o].jobId] == heap[o])
  }

  predicate Enabled(cfg: Config, s: State, e: Event) {
    match e
    case AdvanceHead(to) => s.chain.head <= to
    case CreateJob(j, terms) => j !in s.chain.jobs && terms.status.Open? && terms.acceptedBy.None?
    case OtherAccepts(j, op) => op != cfg.us && CanAccept(s.chain, j)
    case OtherSubmits(j, op) =>
      op != cfg.us && j in s.chain.jobs && CanSubmit(s.chain, j, op, s.chain.jobs[j].payloadHash)
    case SlashJob(j) => CanSlash(s.chain, j)
    case CancelJob(j) => CanCancel(s.chain, j)
    case TxLands(n) => TxCanLand(cfg, s, n)
    case TxDrops(n) => n < |s.txs| && s.txs[n].fate.InFlight?
    case Crash => s.up
    case Boot(heap, live) => !s.up && Hydrates(s.queue.disk, heap, live)
    case SaveLedger => s.up
    case StartHandling(id, _, _) => s.up && id !in s.tasks
    case StartResume(id, todo) =>
      && s.up && id !in s.tasks
      && (forall t :: t in s.tasks ==> s.tasks[t].Handling?)
      && (forall j :: j in s.queue.live ==> s.queue.live[j] in todo)
      && (forall k :: 0 <= k < |todo| ==> todo[k] in s.queue.live.Values)
    case TaskStep(id, reply) => HandlerEnabled(s, id, reply) || ResumeEnabled(s, id, reply)
  }

  function Land(cfg: Config, s: State, n: nat): State
    requires TxCanLand(cfg, s, n)
  {
    var s := s.(txs := s.txs[n := s.txs[n].(fate := Landed)]);
    match s.txs[n].body
    case AcceptTx(j) => s.(chain := AcceptJob(s.chain, j, cfg.us))
    case SubmitTx(j, _) => s.(chain := Settle(s.chain, j, Status.Submitted))
  }

  function Apply(cfg: Config, s: State, e: Event): State
    requires Enabled(cfg, s, e)
  {
    match e
    case AdvanceHead(to) => s.(chain := s.chain.(head := to))
    case CreateJob(j, terms) => s.(chain := s.chain.(jobs := s.chain.jobs[j := terms]))
    case OtherAccepts(j, op) => s.(chain := AcceptJob(s.chain, j, op))
    case OtherSubmits(j, _) => s.(chain := Settle(s.chain, j, Status.Submitted))
    case SlashJob(j) => s.(chain := Settle(s.chain, j, Slashed))
    case CancelJob(j) => s.(chain := Settle(s.chain, j, Canceled))
    case TxLands(n) => Land(cfg, s, n)
    case TxDrops(n) => s.(txs := s.txs[n := s.txs[n].(fate := Dropped)])
    case Crash => s.(up := false, queue := Queue([], map[], s.queue.disk), ledger := map[], tasks := map[])
    case Boot(heap, live) => s.(up := true, queue := Queue(heap, live, s.queue.disk), ledger := s.ledgerDisk)
    case SaveLedger => s.(ledgerDisk := s.ledger)
    case StartHandling(id, j, p) => WithTask(s, id, Some(Handling(j, p, 0, 0, Lookup)))
    case StartResume(id, todo) => GotoR(s, id, todo, Next)
    case TaskStep(id, reply) =>
      if s.tasks[id].Handling? then HandlerStep(cfg, s, id, reply) else ResumeStep(cfg, s, id, reply)
  }

  predicate Init(s: State) {
    && s.chain.jobs == map[] && s.txs == [] && !s.up
    && s.queue == Queue([], map[], map[]) && s.ledger == map[] && s.ledgerDisk == map[]
    && s.tasks == map[] && s.intents == {} && s.late == {} && s.blind == {}
  }

  /** Event `i` is possible in state `i` and leads to the next one. */
  ghost predicate Follows(cfg: Config, run: seq<State>, events: seq<Event>, i: nat) {
    && i < |events| && i + 1 < |run|
    && Enabled(cfg, run[i], events[i]) && run[i + 1] == Apply(cfg, run[i], events[i])
  }

  /** `run` lists the states and `events` what happened between them. */
  ghost predicate Path(cfg: Config, run: seq<State>, events: seq<Event>) {
    |run| == |events| + 1 && forall i :: 0 <= i < |events| ==> Follows(cfg, run, events, i)
  }

  ghost predicate Run(cfg: Config, run: seq<State>, events: seq<Event>) {
    Path(cfg, run, events) && Init(run[0])
  }
}
