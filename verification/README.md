# Opaque services: verified models

This project models the stateful core of a privacy-payments system and proves what its services
promise over whole runs. The system has these parts: a relayer that bonds stake and submits
withdrawals, a hub that routes work between relayers, an association set provider (ASP) that
screens deposits and publishes a Merkle root, a reputation publisher that does the same for
attestation leaves, three copies of one Poseidon Merkle tree, and an on-chain Poseidon hash built
on limb arithmetic.

| file | what it holds |
|---|---|
| `Registry.dfy` | the job escrow on chain, as the relayer sees it |
| `Recovery.dfy`, `RecoveryProof.dfy` | accept-then-submit with crash recovery as a step machine: handlers and a resume pass interleave at every `await`, transactions land late or never, RPC calls fail, the process crashes and reboots; and its invariant |
| `DroppedBonds.dfy`, `ForgottenBond.dfy`, `Recoverable.dfy` | when exactly a bonded job leaves the durable queue, a run that forgets one, and the schedule that finishes every one that is still queued |
| `LedgerCoverage.dfy`, `LostRecord.dfy` | when exactly a job is lost to both the queue and the ledger, and a run that loses one |
| `JobQueue.dfy`, `Reconciler.dfy` | the accepted-job queue on shared mutable objects, the job ledger, the reconciler |
| `Idempotency.dfy` | idempotency keys of the payload handler |
| `Merkle.dfy`, `Snapshot.dfy` | eager and lazy trees, proofs, binding, hash cost, the exported node table |
| `AspTick.dfy`, `AspService.dfy` | the ASP tick over every run, and its objects |
| `Publisher.dfy`, `PublisherService.dfy` | the publisher tick over every run, and its store |
| `RateLimit.dfy` | the token bucket |
| `Hub.dfy` | failover and scores |
| `Modular.dfy`, `Euclid.dfy`, `Montgomery.dfy`, `Poseidon.dfy`, `FieldBytes.dfy` | congruences, the constants generator, CIOS Montgomery multiplication, the hash, its byte interface |
| `Sse.dfy`, `Messages.dfy` | the event-stream reader and the signed-message preimages |
| `Wrappers.dfy` | optional values, powers of two and the limb base |

`dafny verify dfyconfig.toml` checks everything.

Five places where the code does not do what its surroundings suggest, each with a failing input
and the exact statement that does hold:

* A resume pass that fails to look a job up treats the job as absent, and drops an entry whose
  accept was never confirmed. `ForgottenBond.FailedLookupForgetsBond` is such a run;
  `DroppedBonds.BondDroppedIff` says that a bonded job leaves the durable queue exactly there or
  with the deadline window closed.
* A handler or resume pass removes the queue entry before it writes the ledger entry, so a crash in
  between loses a submitted job from both stores: `LostRecord.CrashLosesRecord` is such a run, and
  `LedgerCoverage.CoverageLostIff` says that a job is lost exactly there or when a pass abandons it.
* A dead ASP tick is not always resolved by the next one: if nothing is approved any more, the chain
  keeps a root that was never saved. `AspTick.RejectedAfterPost` is such an input, and
  `AspTick.DeadTickResolvedIff` says when, for every policy.
* The ASP's reorg guard also halts when nothing was rolled back: a deposit that stays deferred
  (`AspTick.DeferralHalts`), or a tick that dies after the guard's commit and is retried in the
  same process. `AspTick.HaltsIffNothingBeyond` says when: after an accepted consultation the next
  one halts exactly if nothing undecided lies beyond the committed ledger.
  `AspTick.NoTwoHalts` says that it never halts twice in a row.
* After a crash between post and save, the publisher's rerun restores leaves, root and archive but
  not its record of the last published root: `Publisher.FirstPublicationForgotten` is such an
  input, and `Publisher.CrashForgetsLastPublished` says exactly when.

Amounts, ledger numbers and clocks are unbounded integers, rates and scores are reals. Clocks, RPC
answers, policies, attestation validity, the pair hash and the payload codec are parameters; an
injective hash is a hypothesis only where binding needs it.

## Model

| member | source | states |
|---|---|---|
| RecoveryProof.EventKeeps | relayer/src/engine.ts:272-515 | Every step of the machine (handler, retry loop, resume pass, crash, boot, late landing, other participants) keeps the invariant: memory mirrors disk, entries and tasks carry the job's own terms, ledger entries are backed, every job ever queued is still queued or excused |
| RecoveryProof.NoForgottenBond | relayer/src/engine.ts:312-341 | In every reachable state a job bonded to this operator and not yet submitted is in the durable queue, unless a resume pass dropped it after a failed lookup or with the head inside the deadline margin |
| RecoveryProof.AnsweredLookupsForgetNothing | relayer/src/engine.ts:452-490 | If every lookup of an unconfirmed entry answers, only the deadline margin can have removed a bonded job |
| RecoveryProof.SubmitsMatchCommitment | relayer/src/engine.ts:299-321 | Every `submit_pool_withdraw` ever sent, directly or after crashes, carries a payload whose hash is the job's committed one |
| RecoveryProof.LedgerIsBacked | relayer/src/engine.ts:343-349 | Every ledger entry, in memory or stored, names a job that is submitted on chain with exactly the expected fee, on all three recording paths |
| RecoveryProof.SubmitStepOk | relayer/src/engine.ts:392-415 | One step of the retry loop sends only the committed payload, reports done only for a submitted job, and neither adds nor drops a queue entry |
| RecoveryProof.ResumeDecideGood | relayer/src/engine.ts:453-485 | Each branch of the resume decision keeps the queue and drops an entry only if submitted, closed to us, or unreadable |
| DroppedBonds.BondDroppedIff | relayer/src/engine.ts:479-490 | In every run and for every event, a bonded job leaves the durable queue exactly when a resume pass drops its entry, unconfirmed after an empty lookup or as late, and then the head is inside the deadline margin |
| ForgottenBond.FailedLookupForgetsBond | relayer/src/engine.ts:479-482 | A concrete run in which a failed lookup drops a bonded job with the deadline far away |
| Recoverable.BondedJobCanFinish | relayer/src/engine.ts:444-515 | From every reachable state, a bonded job in the durable queue with headroom can still be submitted after a crash: some continuation of the run submits it |
| LedgerCoverage.CoverageLostIff | relayer/src/engine.ts:341-349 | In every run and for every event, a job that is queued, in the ledger or about to be recorded stops being any of these exactly at a crash that finds it in neither store, or when a resume pass abandons it with nothing else covering it |
| LostRecord.CrashLosesRecord | relayer/src/engine.ts:341-343 | The failing run: a job this relayer submitted is in neither store after a crash between resolving and recording |
| Reconciler.RunReconcilesClean | relayer/src/reconciler.ts:139-242 | The ledger of any run, looked up at that moment or any later one, reconciles clean: summary, counts, an empty discrepancy list, and nothing for a boot check to remove |
| Reconciler.StaysSubmitted | contracts/relayer-registry/src/lib.rs:389-535 | In every run a submitted job stays exactly as it is |
| Registry.AcceptEvolves | contracts/relayer-registry/src/lib.rs:359-387 | Accepting keeps the terms of every job and the well-formedness of the escrow |
| Registry.SettleEvolves | contracts/relayer-registry/src/lib.rs:389-535 | Submitting, slashing and canceling keep terms and relayers, and leave final jobs alone |
| JobQueue.AcceptedJobQueue.Hydrate | relayer/src/job-queue.ts:49-58 | The stored entries enter memory over whatever it held for their jobs, older ones with the phase their accept hash implies; in a fresh process memory becomes exactly what the store holds; a second call does nothing |
| JobQueue.AcceptedJobQueue.Enqueue | relayer/src/job-queue.ts:64-68 | The shared entry object is queued and the whole queue is durable on return: the recovery machine's enqueue |
| JobQueue.AcceptedJobQueue.MarkAccepted | relayer/src/job-queue.ts:70-76 | Mutates the shared object in place and saves, or fails without effect when the intent is missing |
| JobQueue.AcceptedJobQueue.Resolve | relayer/src/job-queue.ts:92-95 | Removes the job from memory and disk, leaving the object to whoever holds it |
| JobQueue.AcceptedJobQueue.RecordFailure | relayer/src/job-queue.ts:98-104 | Counts one more attempt on a queued job and changes nothing for an unknown one |
| JobQueue.AcceptedJobQueue.Persist | relayer/src/job-queue.ts:106-109 | The store becomes a copy of the memory, whatever it held |
| JobQueue.EnqueueKeepsStore | relayer/src/runtime.ts:89-90 | An enqueue keeps every stored job exactly when memory already knew them all, hence hydration comes first |
| JobQueue.SaveThenBoot | relayer/src/job-queue.ts:49-109 | Saving and rebooting restores exactly the queued entries |
| Reconciler.JobLedger.Record | relayer/src/reconciler.ts:32-35 | The last entry under a lower-cased id wins, in memory and in the store |
| Reconciler.JobLedger.Remove | relayer/src/reconciler.ts:63-66 | Removes one id, in memory and in the store |
| Reconciler.JobLedger.Hydrate | relayer/src/reconciler.ts:49-61 | Adds the stored entries once |
| Reconciler.Judge | relayer/src/reconciler.ts:147-215 | Clean exactly for a found job with the expected fee and status submitted, not-found exactly for an answered absence; an RPC error is neither |
| Reconciler.CheckAll | relayer/src/reconciler.ts:145-216 | The loop yields one result per ledger entry, counted by outcome, and every unclean entry's result |
| Reconciler.CoveredRange | relayer/src/reconciler.ts:223-227 | The tightest range around all submit times, none for an empty ledger |
| Reconciler.PayoutReconciler.Reconcile | relayer/src/reconciler.ts:139-242 | The report counts every entry once, lists exactly the unclean ones, is clean exactly if all are, and is kept as the last report |
| Reconciler.PayoutReconciler.VerifyOnBoot | relayer/src/reconciler.ts:278-291 | From any ledger, hydrated before or not: it keeps every entry but those whose job was confirmed absent, and saves exactly if it lost one |
| Idempotency.OneInFlight | relayer/src/engine.ts:278-289 | In every interleaving at most one execution of a key is in flight |
| Idempotency.SuccessIsReplayed | relayer/src/engine.ts:353-358 | Once an execution succeeds, every call with its key before expiry gets that pair and starts nothing, whatever happens between |
| Idempotency.PruningInvisible | relayer/src/engine.ts:577-581 | Under a clock that never goes back, pruning changes the answer to no call of any run |
| Idempotency.Gate.Handle | relayer/src/engine.ts:278-289 | The maps before the first await: replay, join or start |
| Idempotency.Gate.Settle | relayer/src/engine.ts:353-358 | Only a success under a key is saved, with its expiry |
| Idempotency.Gate.Forget | relayer/src/engine.ts:373-379 | The shared promise leaves the pending map |
| Idempotency.Gate.Sweep | relayer/src/engine.ts:577-581 | The prune loop deletes exactly the expired keys |
| Merkle.ProofsVerify | scanner/src/merkle.rs:187-241 | Completeness: for every depth, leaf list and index below capacity, the sibling path and direction bits verify against the root and encode the index |
| Merkle.Tree.Prove | asp/src/merkle.ts:69-80 | The xor-and-shift loop yields that path for every inserted leaf, and the out-of-bounds error otherwise |
| Merkle.VerifyProof | scanner/src/merkle.rs:231-241 | The loop accepts exactly the paths that hash up to the root |
| Merkle.ForgeryCollides | scanner/src/merkle.rs:231-241 | A path that verifies with another leaf than the padded one at its index exhibits a hash collision |
| Merkle.ProofsBind | scanner/src/merkle.rs:231-241 | Under an injective pair hash a verifying depth-length path carries the padded leaf at the index its bits encode |
| Merkle.RootsEqualIffLeavesAgree | asp/src/engine.ts:162 | Two leaf lists at one depth have equal roots exactly if they agree after zero padding |
| Merkle.LazyIsEager | asp/src/merkle.ts:51-58 | The short-circuiting recursion computes the eager one of the Rust tree, for every start, level and leaf list |
| Merkle.LazyCost | publisher/src/merkle.ts:39-46 | The lazy recursion, with every hash counted, computes its node with fewer than n + level hash calls for n leaves |
| Merkle.EagerCost | scanner/src/merkle.rs:172-184 | The eager recursion, with every hash counted, computes its node with exactly 2^level - 1 hash calls |
| Merkle.Tree.Insert | scanner/src/merkle.rs:138-147 | Appends below capacity and reports the index; a full tree stays as it is and reports its size |
| Snapshot.Exporter.NodeHash | publisher/src/snapshot.ts:30-47 | The recursion returns the tree node and writes only true nodes, among them every node it visits |
| Snapshot.BuildIntermediateHashes | publisher/src/snapshot.ts:21-51 | Every table entry is the tree node of its key, the root entry is the root, and exactly the visited nodes are present |
| Snapshot.ProofsReadable | publisher/src/merkle.ts:60-73 | Every element of every leaf's inclusion path can be read from the table under its level and start |
| AspTick.NoDepositLost | asp/src/engine.ts:88-128 | After every tick that saves, in every run with any policies and a rising head, each confirmed deposit is in exactly one of approved, rejected and deferred, and nothing else is in any |
| AspTick.VerdictsAreFinal | asp/src/engine.ts:112-125 | Over any part of any run the approved list grows only at its end, the rejected set only grows, and both cursors never go back |
| AspTick.VerdictsArePolicy | asp/src/engine.ts:100-126 | A confirmed deposit without a terminal verdict ends where this tick's policy puts it |
| AspTick.OnlyTailDropped | asp/src/engine.ts:67-79 | With ledgers rising, the confirmation filter drops only a tail |
| AspTick.ConfirmedMeans | asp/src/engine.ts:71-79 | The filter keeps exactly the deposits that are final |
| AspTick.ConvergesAfterHalt | asp/src/engine.ts:135-170 | In every run, after a halted tick the next tick that saves is not halted and leaves the root of its approvals on chain |
| AspTick.NothingNewNothingPosted | asp/src/engine.ts:162 | A further tick that approves nothing new posts nothing and leaves the root |
| AspTick.CrashReplay | asp/src/engine.ts:7-10 | After a crash between post and save, a restart and any new deposits, the replay is not halted, approves what the dead tick approved and then perhaps more, posts again only for something newly approved, and ends with its root on chain; with nothing new it saves what the dead tick would have saved |
| AspTick.ListingBatchGrows | asp/src/engine.ts:67-79 | With deposits listed in index order, a later batch continues an earlier one, as the replay needs |
| AspTick.DeadTickResolvedIff | asp/src/engine.ts:159-170 | In every run, after a tick that died past its post, the next one to save unhalted, with any policy, brings the chain to the root of what it saves exactly if something was approved before or it approves something |
| AspTick.RejectedAfterPost | asp/src/engine.ts:162 | The failing input: a deposit approved by a dying tick and rejected after the restart leaves its root on chain with an empty approved list |
| AspTick.RootsCompareApprovals | asp/src/engine.ts:130-162 | With an injective hash and nonzero labels, comparing roots compares the approved lists themselves |
| AspTick.NoTwoHalts | asp/src/reorg-guard.ts:47-78 | Of two successive ticks that consult the guard at most one halts |
| AspTick.HaltsIffNothingBeyond | asp/src/reorg-guard.ts:47-78 | In every run, after an accepted consultation (whether that tick then died or not) the next one in the same process halts exactly if no undecided deposit it reads lies beyond the committed ledger |
| AspTick.SettledAlternates | asp/src/reorg-guard.ts:54-78 | A pool whose ticks change nothing, once its batch is committed, is halted by every other tick, for any number of ticks |
| AspTick.DeferralHalts | asp/src/reorg-guard.ts:54-78 | The failing input: one deposit that stays deferred, no rollback, and for every n the ticks after the first halt alternately |
| AspService.ReorgGuard.Validate | asp/src/reorg-guard.ts:47-73 | Refuses exactly a ledger below a seeded expectation, and continues from the given ledger either way |
| AspService.ReorgGuard.Commit | asp/src/reorg-guard.ts:76-78 | Expects the ledger after the committed one |
| AspService.PoolService.Continuous | asp/src/engine.ts:135-157 | Asks the guard only for a batch that is not empty, commits its latest ledger exactly if the guard accepts |
| AspService.AssociationSet.Add | asp/src/set.ts:25-30 | Appends index and label and keeps tree, labels and indices in step; fails exactly when the tree is full |
| AspService.AssociationSet.Manifest | asp/src/set.ts:45-56 | Position k of the published lists is leaf k of the published root |
| AspService.Rebuild | asp/src/engine.ts:130-133 | The root rebuilt from the durable approvals, or failure when they exceed the tree |
| AspService.ScreenAll | asp/src/engine.ts:94-127 | The screening loop, with exact counts of new approvals and rejections |
| AspService.PoolService.RunPoolTick | asp/src/engine.ts:81-170 | One whole tick against store, adapter and guard is the tick the run theorems are about, with its result fields |
| Publisher.MergeExtends | publisher/src/engine.ts:42-80 | Merging keeps the old list as a prefix, keeps ids and leaves unique, and counts every item once as accepted, duplicate or collision |
| Publisher.MergeTakes | publisher/src/engine.ts:57-75 | Every merged item is in the list, or its id or leaf is |
| Publisher.FreshMeans | publisher/src/engine.ts:58-67 | An item is accepted exactly when neither its id nor its leaf is in the list |
| Publisher.ReplayIsNoOp | publisher/src/engine.ts:42-80 | Merging an inbox again, together with later arrivals, is merging the arrivals alone |
| Publisher.MergeLeaves | publisher/src/engine.ts:42-80 | The loops over map, set and lists compute that merge, for any existing list |
| Publisher.RunStaysUnique | publisher/src/engine.ts:118-137 | In every run, with attestations expiring freely and crashes anywhere, saved ids and leaves stay unique |
| Publisher.PositionsKept | publisher/src/engine.ts:76-78 | Leaves keep their positions while none becomes invalid |
| Publisher.RunQuiesces | publisher/src/engine.ts:149-199 | In every run, once a tick has completed with enough leaves the chain holds the root of the saved leaves, and any number of further ticks with the same validity and no submissions, crashing or not, post nothing and change no leaf |
| Publisher.TickAccounts | publisher/src/engine.ts:104-136 | All saved leaves are valid, every valid inbox item is in or taken, and the whole inbox is archived |
| Publisher.CrashReplay | publisher/src/engine.ts:173-199 | A crash after post or after save and a rerun with the same validity give the same leaves, root, inbox and archive as no crash, and no second post |
| Publisher.CrashForgetsLastPublished | publisher/src/engine.ts:189-191 | When the state's last published root names the root on chain after such a rerun, exactly |
| Publisher.FirstPublicationForgotten | publisher/src/engine.ts:186-198 | The failing inputs: a first publication that dies after its post; the rerun saves the leaves, leaves the root on chain and records no root |
| Publisher.OneLeafNext | publisher/src/engine.ts:135 | One valid leaf in the inbox of a new publisher is such an input |
| Publisher.ArchivedMeans | publisher/src/store.ts:222-225 | An item stays in the inbox exactly if none of the archived ids is its own |
| Publisher.ArchivedInOrder | publisher/src/store.ts:222-225 | Archiving works item by item, so what stays keeps its order |
| PublisherService.MemoryStore.ReadInbox | publisher/src/store.ts:198-212 | Returns and keeps the valid items, normalised and in order, and quarantines the others |
| PublisherService.InboxSplits | publisher/src/store.ts:198-212 | Every inbox item is returned or quarantined, and only failing ones are quarantined |
| PublisherService.SecondReadSame | publisher/src/store.ts:198-212 | With idempotent normalisation a second read changes nothing |
| PublisherService.MemoryStore.WriteInbox | publisher/src/store.ts:214-220 | Appends below the limit and refuses at it |
| PublisherService.MemoryStore.ArchiveInbox | publisher/src/store.ts:222-225 | Appends the ids to the archive; an item stays exactly if it was in the inbox and none of the ids is its own, in its place |
| PublisherService.BuildRoot | publisher/src/merkle.ts:76-81 | The tree root of the leaves, or failure when they exceed the tree |
| PublisherService.BuildProof | publisher/src/merkle.ts:83-99 | The first position of the leaf with a path that verifies against the root; not found exactly if it is absent |
| PublisherService.PublisherService.RunPublisherTick | publisher/src/engine.ts:99-215 | One whole tick on store and chain is the tick the run theorems are about, with its counts |
| RateLimit.SubRunBound | relayer/src/rate-limit.ts:28-66 | Between any two requests of any run with a non-decreasing clock, a source is allowed at most burst + max(burst, maxRequests) * elapsed / window requests |
| RateLimit.RateBound | relayer/src/rate-limit.ts:28-66 | The same bound from any reachable state |
| RateLimit.SweepUnobservable | relayer/src/rate-limit.ts:68-76 | Deleting stale buckets changes no verdict of any run |
| RateLimit.RateLimiter.Consume | relayer/src/rate-limit.ts:28-66 | Refill, spend and answer in place, for the found or a new full bucket |
| RateLimit.RateLimiter.MaybeCleanup | relayer/src/rate-limit.ts:68-76 | Deletes exactly the stale buckets, at most every two windows |
| Hub.FailoverFixpoint | relayer/src/hub.ts:225-238 | After a check every assignment is live or has no other live bidder, jobs moved only from a dead operator to a different live bidder, and a second check changes nothing |
| Hub.FirstAlternative | relayer/src/hub.ts:229-231 | The first live bidder other than the holder, none exactly if there is none |
| Hub.RelayerHub.RunFailoverCheck | relayer/src/hub.ts:225-238 | The loop computes that check and reports exactly one event per moved job, with both operators |
| Hub.PruningKeepsScores | relayer/src/hub.ts:266-321 | Under a clock that never goes back, every score any run answers is the score over everything ever recorded, pruned or trimmed or not |
| Hub.ScoreRange | relayer/src/hub.ts:303-321 | Scores lie in [0, 1]; neutral without recent outcomes, 0 exactly with only failures, 1 exactly with only completions |
| Hub.RelayerHub.ScoreFor | relayer/src/hub.ts:295-321 | The score and the two counts of the outcomes in the window, trimming the list on the way |
| Hub.RelayerHub.Prune | relayer/src/hub.ts:266-292 | Removes exactly expired bids, assignments and outcomes, and keeps one bid per operator and job |
| Hub.FreshBidsMeans | relayer/src/hub.ts:267-269 | A bid survives pruning exactly if it has not expired |
| Hub.RelayerHub.RememberBid | relayer/src/hub.ts:178-187 | The first bid of an operator on a job stands |
| Hub.RelayerHub.RememberAssignment | relayer/src/hub.ts:199-203 | A payload assigns the job to the operator of the first bid with its key, and changes nothing if no bid has it |
| Hub.RelayerHub.RecordHeartbeat | relayer/src/hub.ts:205-209 | The latest heartbeat of an operator replaces the one before |
| Hub.RelayerHub.HandleOutcome | relayer/src/hub.ts:116-120 | Records the outcome and settles the job's bids and assignment |
| Euclid.ModInv | scripts/gen-poseidon-constants.ts:45-54 | For every a and positive m the loop terminates with a residue x in [0, m) where a * x is congruent to gcd(a, m), so the inverse when they are coprime |
| Euclid.InverseNeedsCoprime | scripts/gen-poseidon-constants.ts:45-54 | An inverse exists only for coprime numbers |
| Euclid.NegInv64 | scripts/gen-poseidon-constants.ts:56-57 | For every odd modulus, INV * r is congruent to -1 modulo 2^64 |
| Euclid.LimbsLE | scripts/gen-poseidon-constants.ts:64-72 | The four limbs recombine to the number modulo 2^256 |
| Montgomery.MontMul | contracts/opaque-poseidon/src/field.rs:104-145 | For all four-limb inputs, result * 2^256 is congruent to the product, and the result is reduced as soon as one factor is |
| Montgomery.Reduce | contracts/opaque-poseidon/src/field.rs:123-137 | Adds the multiple of the modulus that clears the low limb and divides exactly by 2^64, in five limbs |
| Montgomery.AddProduct | contracts/opaque-poseidon/src/field.rs:112-121 | Adds a times one limb exactly, every stored limb in range |
| Montgomery.Ge | contracts/opaque-poseidon/src/field.rs:61-70 | Compares the numbers the limbs stand for |
| Montgomery.SubAssign | contracts/opaque-poseidon/src/field.rs:72-86 | Subtracts modulo 2^256, with the borrow it drops |
| Montgomery.ReduceOnce | contracts/opaque-poseidon/src/field.rs:139-144 | The overflow limb or the comparison decides one subtraction, which is exact |
| Montgomery.Add | contracts/opaque-poseidon/src/field.rs:88-102 | The sum modulo the field order, as a reduced element |
| Poseidon.ToMont | contracts/opaque-poseidon/src/field.rs:48-52 | Every 256-bit input, also one above the order, becomes its Montgomery form |
| Poseidon.FromMont | contracts/opaque-poseidon/src/field.rs:54-58 | The residue a Montgomery form stands for: the inverse of the conversion |
| Poseidon.Multiply | contracts/opaque-poseidon/src/field.rs:104-145 | In the Montgomery domain the multiplication represents the product of the represented values |
| Poseidon.Pow5 | contracts/opaque-poseidon/src/field.rs:147-153 | A word of the state becomes the fifth power of what it represents, and no other word changes |
| Poseidon.CancelRadix | contracts/opaque-poseidon/src/field.rs:104-145 | 2^256 cancels modulo every order that has an INV, so Montgomery forms are unique |
| Poseidon.Permute | contracts/opaque-poseidon/src/lib.rs:30-62 | The in-place permutation on limbs represents the Hades permutation on integers, for any width and tables |
| Poseidon.Hash | contracts/opaque-poseidon/src/lib.rs:64-85 | On limbs: the hash of any 256-bit inputs is the first word of the integer permutation modulo the order |
| FieldBytes.FromBeBytes | contracts/opaque-poseidon/src/field.rs:20-37 | 32 big-endian bytes become the reduced element of their number: the subtraction loop ends in the residue |
| FieldBytes.ToBeBytes | contracts/opaque-poseidon/src/field.rs:39-46 | 32 big-endian bytes that spell the element |
| FieldBytes.RoundTrip | contracts/opaque-poseidon/src/field.rs:20-46 | Encoding and decoding gives the element back |
| FieldBytes.HashBytes | contracts/opaque-poseidon/src/lib.rs:64-85 | Bytes to bytes: the first word of the integer permutation of zero and the input residues, modulo the order |
| Poseidon.EmitElement | scripts/gen-poseidon-constants.ts:59-76 | What the generator writes for any integer is the limbs of its Montgomery form |
| Poseidon.EmitTable | scripts/gen-poseidon-constants.ts:78-81 | A generated table represents its integers, as the permutation needs |
| Poseidon.Bn254Constants | contracts/opaque-poseidon/src/constants.rs:9-17 | The generated modulus, INV and R2 fit together |
| Sse.ReadSse | relayer/src/gossip.ts:107-127 | However the stream is cut into chunks, the frames handled are those of the whole stream split at blank lines, up to the first whose handling throws |
| Sse.FramesOfMore | relayer/src/gossip.ts:115-124 | Reading more text only appends frames |
| Sse.StreamDelivers | relayer/src/http.ts:165-168 | The server's writes, read back, serve the published messages in order |
| Sse.ServedMeans | relayer/src/gossip.ts:129-139 | Serving delivers every message if all are accepted, and otherwise those up to and including the first a subscriber rejects, which ends the reader |
| Sse.Receive | relayer/src/gossip.ts:107-139 | Server stream through the chunked reader, for every chunking: all published messages in order, or those up to the first a subscriber rejects |
| Messages.BidPreimagePins | relayer/src/messages.ts:141-158 | Two bids share a preimage exactly if all fields agree, chain and stake modulo their widths, endpoints of any length |
| Messages.OutcomePreimagePins | relayer/src/messages.ts:277-294 | Two outcomes share a preimage exactly if all fields agree, the unprefixed operator included |
| Messages.HeartbeatPreimagePins | relayer/src/messages.ts:296-304 | Two heartbeats share a preimage exactly if operator and timestamp modulo 2^64 agree |
| Messages.DomainsSeparate | relayer/src/messages.ts:141-304 | Bid, outcome and heartbeat preimages never coincide |
| Messages.Uint32Keeps | relayer/src/messages.ts:100-107 | The encoder keeps exactly the number modulo 2^32 |
| Messages.Uint64Keeps | relayer/src/messages.ts:109-119 | The encoder keeps exactly the number modulo 2^64 |

## Left out

- Stake amounts, `report_slash`, relayer registration and the withdrawal itself: the escrow model holds job states, terms and deadlines only.
- Failing or torn saves: each store save is one atomic replacement that succeeds; a handler whose save throws is not modelled.
- Outcome notifications, statistics, metrics, logging and manifests on disk: no effect on the modelled state.
- Resume order: a pass visits the queued entries in any order, where the code sorts by acceptance time.
- Backoff delays and jitter in the retry loop: a delay is any number of other events between two steps.
- JobQueue.AcceptedJobQueue.Persist: stores a map, not a list sorted by acceptance time, because hydration reads it back into a map.
- JobQueue.AcceptedJobQueue.Hydrate: a queue without a store, which keeps nothing across restarts, is not modelled.
- Reconciler.PayoutReconciler.VerifyOnBoot: no entry is recorded while the check waits for lookups.
- Discrepancy texts and the reconciler's timer.
- Idempotency.Gate.Handle: the recipient check and payload validation before it are not modelled.
- Trees of depth 31 and more in the TypeScript copies, where `1 << depth` wraps to 32 bits: the model's powers of two are unbounded, and the services use depth 20.
- Hex and decimal spellings of field elements: leaves, roots and labels are integers.
- AspService.PoolService.RunPoolTick: the decision log, the publication monitor and the state-root publication of asp/src/engine.ts:172-214 are not modelled.
- AspTick.NoDepositLost: the adapter is taken to return every deposit after the cursor, each once; a chain that takes deposits back is not modelled.
- Rejected and deferred indices are sets, stored by the code as sorted lists.
- PublisherService.PublisherService.RunPublisherTick: dataset hash, published ledger, manifest and metrics are not modelled; attestation lookups are one predicate per tick, and no submission arrives during a tick.
- The publisher's file store: same contract as the memory store, over directories.
- RateLimit.SubRunBound: arithmetic is over reals, not floating point.
- Hub persistence, message validation and the timers that call the hub's loops.
- Poseidon.Hash: the generated round constants and matrices are parameters that represent integer tables; their values are not in the model.
- The abort signal of the event-stream reader and the reconnect loop that follows a throw.
- UTF-8 and hex decoding in the signing preimages: fields are byte strings already.
- Stealth addresses, attestation scanning, encryption, signatures, HTTP routing, the frontend and the deploy scripts.
