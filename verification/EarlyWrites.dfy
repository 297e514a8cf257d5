/** Writes by rank 0 between sync points: when they are safe wherever the other ranks are, and
    how they break the agreement of the ranks otherwise. */
module EarlyWrites {
  import opened AddressLists
  import opened CacheState
  import opened Options
  import opened Agreement
  import opened ParallelRun
  import opened ParallelSafety
  import opened ParallelSync
  import opened ParallelTheorems

  function WrittenEarly(w: World, a: Addr): World
    requires 0 < |w.procs| && a in w.procs[0].s.cache
  {
    var p := w.procs[0];
    Put(w, 0, p.(s := FlushEntry(p.s, a))).(disk := w.disk[a := p.s.cache[a].obj])
  }

  lemma SafeReadersFindTheirContent(job: Job, w: World, q: nat, a: Addr)
    requires w in Safe(job) && Shaped(job, w) && job.early && q < job.n
    requires a in SettledFor(job, w.bases, w.procs[q])
    ensures a in w.disk && w.disk[a] == ProgAt(job, w.procs[q].pos).truth[a]
  {
    hide Safe, Core, GoodProcs, ProgAt, TallyAt, SyncAt, NoSyncBefore, RankInv, BarrierInv, SettledFor, OwnsAddr, HistoryInv;
    SafeFacts(job, w);
    assert DiskFor(job, w, w.procs[q]);
    assert !Unwritten(job, w, a);
  }

  /** With an eye on all ranks: every one that may read the object from the file must expect
      the very content that is written. */
  lemma EarlyWriteIsHarmlessIff(job: Job, w: World, a: Addr)
    requires w in Safe(job) && Shaped(job, w) && MayWriteEarly(job, w, a)
    ensures WrittenEarly(w, a) in Safe(job) <==> HarmlessToReaders(job, w, a, w.procs[0].s.cache[a].obj)
  {
    hide Safe, Core, GoodProcs, ProgAt, TallyAt, Settled, FlushEntry;
    var w' := WrittenEarly(w, a);
    if HarmlessToReaders(job, w, a, w.procs[0].s.cache[a].obj) {
      EarlyIsZeroOnly(job, w);
      ZeroWriteKeepsSafe(job, w, a, w');
    }
    if w' in Safe(job) {
      SafeFacts(job, w');
      forall q | 0 <= q < job.n && a in SettledFor(job, w.bases, w.procs[q])
        ensures ProgAt(job, w.procs[q].pos).truth[a] == w.procs[0].s.cache[a].obj
      {
        assert a in SettledFor(job, w'.bases, w'.procs[q]);
        SafeReadersFindTheirContent(job, w', q, a);
      }
    }
  }

  /** What rank 0 can check by itself is enough, wherever the other ranks are. */
  lemma FittingWriteIsSafe(job: Job, w: World, a: Addr)
    requires w in Safe(job) && Shaped(job, w) && MayWriteEarly(job, w, a)
    requires FitsLastSync(job, w.bases[w.procs[0].epoch], a, w.procs[0].s.cache[a].obj)
    ensures WrittenEarly(w, a) in Safe(job)
  {
    hide Safe, WrittenEarly, FitsLastSync, HarmlessToReaders;
    FittingIsHarmless(job, w, a, w.procs[0].s.cache[a].obj);
    EarlyWriteIsHarmlessIff(job, w, a);
  }

  /** A rank that has done nothing since the last sync point, or has yet to leave it, may read
      whatever was settled there. */
  lemma ReaderAtLastSync(job: Job, w: World, q: nat)
    requires w in Safe(job) && Shaped(job, w) && q < job.n && w.procs[q].pos == w.bases[|w.lists|].pos
    ensures SettledFor(job, w.bases, w.procs[q]) == Settled(ProgAt(job, w.procs[q].pos), w.bases[|w.lists|].dirty)
  {
    hide Safe, Core, GoodProcs, ProgAt, SyncAt, NoSyncBefore, BarrierInv, HistoryInv, Agrees, CandidatesOk, MidWrite, DiskInv, Settled;
    SafeFacts(job, w);
    ProcFacts(job, w, q);
  }

  /** And while any rank still stands at the last sync point, that is the exact condition. */
  lemma EarlyWriteIsSafeIff(job: Job, w: World, a: Addr, q: nat)
    requires w in Safe(job) && Shaped(job, w) && MayWriteEarly(job, w, a)
    requires q < job.n && w.procs[q].pos == w.bases[|w.lists|].pos
    ensures w.procs[0].epoch == |w.lists|
    ensures WrittenEarly(w, a) in Safe(job)
            <==> FitsLastSync(job, w.bases[|w.lists|], a, w.procs[0].s.cache[a].obj)
  {
    hide Safe, WrittenEarly, Settled, ProgAt, SettledFor;
    EarlyWriteIsHarmlessIff(job, w, a);
    RunningFacts(job, w, 0);
    ReaderAtLastSync(job, w, q);
    if FitsLastSync(job, w.bases[|w.lists|], a, w.procs[0].s.cache[a].obj) {
      FittingWriteIsSafe(job, w, a);
    }
  }

  /** The optimisation conjectured in the design notes is sound: writing an entry that was
      dirty at the previous sync point, however far behind the other ranks are.  So is writing
      one that did not exist then. */
  lemma DirtyAtTheLastSyncIsHarmless(job: Job, w: World, a: Addr)
    requires w in Safe(job) && Shaped(job, w) && MayWriteEarly(job, w, a)
    requires var b := w.bases[w.procs[0].epoch]; a in b.dirty || a !in ProgAt(job, b.pos).truth
    ensures WrittenEarly(w, a) in Safe(job)
  {
    hide Safe, WrittenEarly, ProgAt;
    FittingWriteIsSafe(job, w, a);
  }

  /** So is writing while all ranks are at the same place in the program; but of that rank 0
      knows nothing. */
  lemma InStepIsHarmless(job: Job, w: World, a: Addr)
    requires w in Safe(job) && Shaped(job, w) && MayWriteEarly(job, w, a)
    requires forall q | 0 <= q < job.n :: w.procs[q].pos == w.procs[0].pos && w.procs[q].epoch == w.procs[0].epoch
    ensures WrittenEarly(w, a) in Safe(job)
  {
    hide Safe, Core, GoodProcs, ProgAt, TallyAt, SyncAt, NoSyncBefore, BarrierInv, HistoryInv, Coherent, WrittenEarly;
    RunningFacts(job, w, 0);
    assert a in DirtySet(w.procs[0].s);
    EarlyWriteIsHarmlessIff(job, w, a);
  }

  /** Otherwise the write is a message from the future: a rank that has not come so far reads
      content the program does not have yet at its place. */
  lemma HarmfulWriteIsRead(job: Job, w: World, a: Addr, q: nat)
    requires w in Safe(job) && Shaped(job, w) && MayWriteEarly(job, w, a) && 0 < q < job.n
    requires var p := w.procs[q]; p.phase.Running? && a !in p.s.cache
    requires a in SettledFor(job, w.bases, w.procs[q])
    requires ProgAt(job, w.procs[q].pos).truth[a] != w.procs[0].s.cache[a].obj
    ensures exists w' :: LoadStep(job, WrittenEarly(w, a), q, a, w')
              && w'.procs[q].s.cache[a].obj != ProgAt(job, w'.procs[q].pos).truth[a]
  {
    hide Safe, Core, GoodProcs, ProgAt, TallyAt, SyncAt, FlushEntry;
    var w1 := WrittenEarly(w, a);
    var p := w1.procs[q];
    var w' := Put(w1, q, p.(s := p.s.(cache := p.s.cache[a := Entry(w1.disk[a], false, false, false, false, false)])));
    assert LoadStep(job, w1, q, a, w');
  }
}
