/** The accepted-job queue on real objects: entry objects are shared with the engine and mutated
    in place, and every change saves the whole queue. Each method is proved to be the operation
    of the recovery machine with the same name. */
module JobQueue {
  import opened Wrappers
  import opened Registry
  import opened Recovery

  function LowerChar(c: char): char {
    if 'A' <= c <= 'Z' then (c as int + 32) as char else c
  }

  function Lower(s: string): string {
    seq(|s|, i requires 0 <= i < |s| => LowerChar(s[i]))
  }

  /** An entry as stored; entries saved by older versions have no phase. */
  datatype Record = Record(
    jobId: string,
    acceptedTx: Option<string>,
    phase: Option<Phase>,
    wire: Wire,
    deadline: int,
    fee: int,
    acceptedAt: int,
    attempts: nat,
    lastError: Option<string>)

  function PhaseOf(r: Record): Phase {
    if r.phase.Some? then r.phase.value
    else if r.acceptedTx.Some? && r.acceptedTx.value != "" then AcceptedPhase else Accepting
  }

  function EntryOf(r: Record): Entry {
    Entry(Lower(r.jobId), r.acceptedTx, PhaseOf(r), r.wire, r.deadline, r.fee, r.attempts)
  }

  class EntryObject {
    var rec: Record

    constructor (r: Record)
      ensures rec == r
    {
      rec := r;
    }
  }

  /** `model` is the queue as the recovery machine sees it; its heap lists every entry object the
      queue was ever given, since the engine may still hold it. */
  class AcceptedJobQueue {
    var entries: map<JobId, EntryObject>
    var store: map<JobId, Record>
    var loaded: bool
    ghost var objects: seq<EntryObject>
    ghost var model: Queue

    ghost predicate Valid()
      reads this`objects, this`model, this`entries, this`store, objects
    {
      Distinct() && HeapAgrees() && MemoryAgrees() && StoreAgrees()
    }

    ghost predicate Distinct()
      reads this`objects
    {
      forall i, j :: 0 <= i < j < |objects| ==> objects[i] != objects[j]
    }

    ghost predicate HeapAgrees()
      reads this`objects, this`model, objects
    {
      |model.heap| == |objects| && forall i :: 0 <= i < |objects| ==> model.heap[i] == EntryOf(objects[i].rec)
    }

    ghost predicate MemoryAgrees()
      reads this`objects, this`model, this`entries
    {
      model.live.Keys == entries.Keys && LiveOk(model) && |model.heap| == |objects|
      && forall k :: k in entries ==> objects[model.live[k]] == entries[k]
    }

    ghost predicate StoreAgrees()
      reads this`model, this`store
    {
      && model.disk.Keys == store.Keys
      && forall k :: k in store ==> model.disk[k] == EntryOf(store[k]) && Lower(store[k].jobId) == k
    }

    /** A process that has just started: nothing in memory. */
    constructor (saved: map<JobId, Record>)
      requires forall k :: k in saved ==> Lower(saved[k].jobId) == k
      ensures Valid() && !loaded && store == saved && Empty(model)
    {
      entries, store, loaded, objects := map[], saved, false, [];
      model := Queue([], map[], map k | k in saved :: EntryOf(saved[k]));
    }

    /** `persist`: the store becomes a copy of the memory. */
    method Persist()
      requires HeapAgrees() && MemoryAgrees()
      modifies this`store, this`model
      ensures model == Recovery.Persist(old(model)) && StoreAgrees()
    {
      var saved: map<JobId, Record> := map[];
      var todo := entries.Keys;
      while todo != {}
        invariant todo <= entries.Keys && saved.Keys == entries.Keys - todo
        invariant forall k :: k in saved ==> saved[k] == entries[k].rec
      {
        var k :| k in todo;
        saved := saved[k := entries[k].rec];
        todo := todo - {k};
      }
      store := saved;
      model := Recovery.Persist(model);
    }

    /** Entering an object into the map. */
    method Adopt(o: EntryObject)
      requires Distinct() && HeapAgrees() && MemoryAgrees() && o !in objects
      modifies this`entries, this`objects, this`model
      ensures Distinct() && HeapAgrees() && MemoryAgrees() && objects == old(objects) + [o]
      ensures entries == old(entries)[Lower(o.rec.jobId) := o]
      ensures model == old(model).(heap := old(model).heap + [EntryOf(o.rec)],
                                   live := old(model).live[Lower(o.rec.jobId) := |old(model).heap|])
    {
      var k := Lower(o.rec.jobId);
      entries := entries[k := o];
      objects := objects + [o];
      model := model.(heap := model.heap + [EntryOf(o.rec)], live := model.live[k := |model.heap|]);
    }

    /** `enqueue`: a new entry object, durable when the call returns. */
    method Enqueue(o: EntryObject)
      requires Valid() && o !in objects
      modifies this, o
      ensures Valid() && model == Enqueued(old(model), old(EntryOf(o.rec)))
    {
      if o.rec.phase.None? {
        o.rec := o.rec.(phase := Some(PhaseOf(o.rec)));
      }
      Adopt(o);
      Persist();
    }

    /** `markAccepted`: throws when the intent is missing. */
    method MarkAccepted(jobId: string, acceptedTx: string) returns (ok: bool)
      requires Valid()
      modifies this, objects
      ensures Valid() && ok == (Lower(jobId) in old(model).live)
      ensures model == if ok then Marked(old(model), Lower(jobId), acceptedTx) else old(model)
    {
      var k := Lower(jobId);
      if k !in entries {
        return false;
      }
      Mutate(k, entries[k].rec.(acceptedTx := Some(acceptedTx), phase := Some(AcceptedPhase)));
      return true;
    }

    /** Assigning to the fields of a queued entry object, then saving. */
    method Mutate(k: JobId, r: Record)
      requires Valid() && k in entries && r.jobId == entries[k].rec.jobId
      modifies this, objects
      ensures Valid()
      ensures model == Recovery.Persist(old(model).(heap := old(model).heap[old(model).live[k] := EntryOf(r)]))
    {
      entries[k].rec := r;
      model := model.(heap := model.heap[model.live[k] := EntryOf(r)]);
      Persist();
    }

    /** `resolve`. */
    method Resolve(jobId: string)
      requires Valid()
      modifies this
      ensures Valid() && model == Resolved(old(model), Lower(jobId))
    {
      entries := entries - {Lower(jobId)};
      model := model.(live := model.live - {Lower(jobId)});
      Persist();
    }

    /** `recordFailure`. */
    method RecordFailure(jobId: string, error: string)
      requires Valid()
      modifies this, objects
      ensures Valid() && model == FailureNoted(old(model), Lower(jobId))
    {
      var k := Lower(jobId);
      if k !in entries {
        return;
      }
      var r := entries[k].rec;
      Mutate(k, r.(attempts := r.attempts + 1, lastError := Some(error)));
    }

    /** `hydrate`: the stored entries enter memory, replacing what it held for their jobs; a second
        call does nothing. In a process that has just started, memory becomes what the store
        holds. */
    method Hydrate()
      requires Valid()
      modifies this`loaded, this`entries, this`objects, this`model
      ensures Valid() && loaded
      ensures if old(loaded) then model == old(model) else Rehydrated(old(model), model)
    {
      if loaded {
        return;
      }
      loaded := true;
      RestoreAll();
    }

    method RestoreAll()
      requires Valid()
      modifies this`entries, this`objects, this`model
      ensures Valid() && Rehydrated(old(model), model)
    {
      var todo := store.Keys;
      ghost var done: set<JobId> := {};
      while todo != {}
        invariant Valid() && todo + done == store.Keys
        invariant Overlaid(old(model), model, done)
      {
        var k :| k in todo;
        Restore(k, old(model), done);
        todo, done := todo - {k}, done + {k};
      }
      assert done == model.disk.Keys;
      OverlaidAll(old(model), model);
    }

    method Restore(k: JobId, ghost q0: Queue, ghost done: set<JobId>)
      requires Valid() && k in store && Overlaid(q0, model, done)
      modifies this`entries, this`objects, this`model
      ensures Valid() && Overlaid(q0, model, done + {k})
    {
      var r := store[k];
      var o := new EntryObject(if r.phase.None? then r.(phase := Some(PhaseOf(r))) else r);
      Adopt(o);
      OverlaidMore(q0, old(model), model, done, k);
    }
  }

  predicate Empty(q: Queue) {
    q.heap == [] && q.live == map[]
  }

  /** `q` is `q0` with the stored entries of `keys` laid over its memory. */
  predicate Overlaid(q0: Queue, q: Queue, keys: set<JobId>) {
    && q.disk == q0.disk && q0.heap <= q.heap && keys <= q.disk.Keys && q.live.Keys == q0.live.Keys + keys
    && (forall k :: k in keys ==> q.live[k] < |q.heap| && q.heap[q.live[k]] == q.disk[k])
    && (forall k :: k in q0.live && k !in keys ==> q.live[k] == q0.live[k])
    && (forall o :: |q0.heap| <= o < |q.heap| ==> q.heap[o].jobId in q.disk && q.disk[q.heap[o].jobId] == q.heap[o])
  }

  predicate Rehydrated(q0: Queue, q: Queue) {
    Overlaid(q0, q, q.disk.Keys) && (Empty(q0) ==> Hydrates(q.disk, q.heap, q.live))
  }

  lemma OverlaidAll(q0: Queue, q: Queue)
    requires Overlaid(q0, q, q.disk.Keys)
    ensures Rehydrated(q0, q)
  {
  }

  lemma OverlaidMore(q0: Queue, q: Queue, q': Queue, keys: set<JobId>, k: JobId)
    requires Overlaid(q0, q, keys) && k in q.disk && q.disk[k].jobId == k
    requires q' == Queue(q.heap + [q.disk[k]], q.live[k := |q.heap|], q.disk)
    ensures Overlaid(q0, q', keys + {k})
  {
  }

  // ---- Why hydration must come first ------------------------------------------------------

  /** An enqueue keeps every stored entry exactly when memory already knew every stored job, as
      it does after hydration: each save overwrites the whole store. */
  lemma EnqueueKeepsStore(q: Queue, e: Entry)
    requires LiveOk(q)
    ensures q.disk.Keys <= Enqueued(q, e).disk.Keys <==> q.disk.Keys <= q.live.Keys + {e.jobId}
  {
    assert Enqueued(q, e).disk.Keys == q.live.Keys + {e.jobId};
  }

  /** Saving and restarting restores the queue: the reloaded memory is what was saved. */
  lemma SaveThenBoot(q: Queue, heap: seq<Entry>, live: map<JobId, nat>, j: JobId)
    requires LiveOk(q) && Hydrates(Persist(q).disk, heap, live)
    ensures j in live <==> j in q.live
    ensures j in live ==> heap[live[j]] == q.heap[q.live[j]]
    ensures Persist(Queue(heap, live, Persist(q).disk)) == Queue(heap, live, Persist(q).disk)
  {
    assert j in live.Keys <==> j in Persist(q).disk.Keys;
    var q' := Queue(heap, live, Persist(q).disk);
    assert Persist(q').disk == q'.disk;
  }
}
