/** The job escrow of the relayer-registry contract: the part of the chain that the relayer
    reads and writes. Every other participant acts through the same transitions. */
module Registry {
  import opened Wrappers

  /** Job ids are 32-byte hex strings, already lower-cased. */
  type JobId = string
  type Operator = string

  datatype Status = Open | Accepted | Submitted | Slashed | Canceled

  datatype Job = Job(
    status: Status,
    fee: int,
    deadline: int,
    payloadHash: string,
    acceptedBy: Option<Operator>)

  datatype Chain = Chain(jobs: map<JobId, Job>, head: int)

  predicate CanAccept(c: Chain, j: JobId) {
    j in c.jobs && c.jobs[j].status.Open? && c.head < c.jobs[j].deadline
  }

  function AcceptJob(c: Chain, j: JobId, op: Operator): Chain
    requires CanAccept(c, j)
  {
    c.(jobs := c.jobs[j := c.jobs[j].(status := Accepted, acceptedBy := Some(op))])
  }

  predicate CanSubmit(c: Chain, j: JobId, op: Operator, hash: string) {
    && j in c.jobs && c.jobs[j].status.Accepted? && c.jobs[j].acceptedBy == Some(op)
    && c.head < c.jobs[j].deadline && hash == c.jobs[j].payloadHash
  }

  predicate CanSlash(c: Chain, j: JobId) {
    j in c.jobs && c.jobs[j].status.Accepted? && c.jobs[j].deadline < c.head
  }

  predicate CanCancel(c: Chain, j: JobId) {
    j in c.jobs && c.jobs[j].status.Open? && c.jobs[j].deadline < c.head
  }

  /** `submit_pool_withdraw`, `slash_job` and `cancel_job` only move the status. */
  function Settle(c: Chain, j: JobId, status: Status): Chain
    requires j in c.jobs
  {
    c.(jobs := c.jobs[j := c.jobs[j].(status := status)])
  }

  /** A job bonded to `op` that is still waiting for its submit. */
  predicate Bonded(c: Chain, j: JobId, op: Operator) {
    j in c.jobs && c.jobs[j].status.Accepted? && c.jobs[j].acceptedBy == Some(op)
  }

  /** `op` can no longer become, or no longer is, the bonded relayer of `j`. */
  predicate Closed(c: Chain, j: JobId, op: Operator) {
    j in c.jobs && !c.jobs[j].status.Open? && !Bonded(c, j, op)
  }

  predicate ChainOk(c: Chain) {
    forall j :: j in c.jobs ==>
      && (c.jobs[j].status.Open? ==> c.jobs[j].acceptedBy.None?)
      && (c.jobs[j].status.Accepted? || c.jobs[j].status.Submitted? ==> c.jobs[j].acceptedBy.Some?)
  }

  /** What one job can become: terms never change, final states are final, and an accepted
      job keeps its relayer. */
  predicate JobEvolves(a: Job, b: Job) {
    && a.fee == b.fee && a.deadline == b.deadline && a.payloadHash == b.payloadHash
    && (a.status.Submitted? || a.status.Slashed? || a.status.Canceled? ==> b == a)
    && (a.status.Accepted? ==>
          b.acceptedBy == a.acceptedBy && (b.status.Accepted? || b.status.Submitted? || b.status.Slashed?))
  }

  predicate Evolves(c: Chain, c': Chain) {
    && c.head <= c'.head
    && forall j :: j in c.jobs ==> j in c'.jobs && JobEvolves(c.jobs[j], c'.jobs[j])
  }

  lemma AcceptEvolves(c: Chain, j: JobId, op: Operator)
    requires ChainOk(c) && CanAccept(c, j)
    ensures Evolves(c, AcceptJob(c, j, op)) && ChainOk(AcceptJob(c, j, op))
  {
  }

  lemma SettleEvolves(c: Chain, j: JobId, status: Status)
    requires ChainOk(c) && j in c.jobs
    requires (c.jobs[j].status.Open? && status.Canceled?)
               || (c.jobs[j].status.Accepted? && (status.Submitted? || status.Slashed?))
    ensures Evolves(c, Settle(c, j, status)) && ChainOk(Settle(c, j, status))
  {
  }
}
