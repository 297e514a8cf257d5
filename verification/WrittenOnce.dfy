/** In every distributed sync point each candidate is written exactly once, by its owner. */
module WrittenOnce {
  import opened AddressLists
  import opened CacheState
  import opened Options
  import opened Agreement
  import opened ParallelRun
  import opened ParallelSafety
  import opened ParallelSync
  import opened ParallelTheorems

  /** The step writes candidate a of the k-th sync point to the file. */
  ghost predicate WritesOut(job: Job, w: World, step: Step, k: nat, a: Addr) {
    && step.WriteOne? && step.addr == a && step.r < |w.procs| && job.n > 0
    && var p := w.procs[step.r];
    && p.phase.Writing? && p.epoch == k && OwnsAddr(job.n, p.phase.list, step.r, a)
  }

  /** The k-th sync point is distributed, and a is on its list, as far as that is settled. */
  ghost predicate OnList(job: Job, w: World, k: nat, a: Addr)
    requires Shaped(job, w)
  {
    k < |w.lists| ==> Dist(job, w.bases[k + 1].pos) && a in w.lists[k]
  }

  /** A rank deciding about a distributed sync point with work to do does not leave it at once. */
  lemma WorkIsNotSkipped(job: Job, w: World, step: Step, w': World, r: nat, a: Addr)
    requires w in Safe(job) && Shaped(job, w) && StepTo(job, w, step, w') && r < job.n && |w'.procs| == job.n
    requires w' in Safe(job) && Shaped(job, w') && OnList(job, w', w.procs[r].epoch, a)
    requires w.procs[r].phase.Deciding?
    ensures w'.procs[r].epoch == w.procs[r].epoch
  {
    hide Safe, StepTo, ValidJob, ProgAt, TallyAt, SyncAt;
    if w'.procs[r].epoch != w.procs[r].epoch {
      LeavingShape(job, w, step, w', r);
      StepExtendsHistory(job, w, step, w');
      SyncFacts(job, w, r);
      LeavingFacts(job, w, w', r);
      assert Dist(job, w.procs[r].pos);
      EmptyListSkips(job, w, step, w', r);
      assert false;
    }
  }

  /** The way out of a distributed sync point without writing is an empty list. */
  lemma EmptyListSkips(job: Job, w: World, step: Step, w': World, r: nat)
    requires w in Safe(job) && Shaped(job, w) && StepTo(job, w, step, w') && r < job.n && |w'.procs| == job.n
    requires w.procs[r].phase.Deciding? && w'.procs[r].epoch != w.procs[r].epoch && Dist(job, w.procs[r].pos)
    ensures w.procs[r].epoch < |w'.lists| && w'.lists[w.procs[r].epoch] == []
  {
    hide Safe, ValidJob, RunOp, CandidatesOk, ProgAt, MarkEntriesAsClean, OwnsAddr, Placed, TallyAt, SettleBytes, RankDemand,
         FlushEntry, ClearEntry, Sorted, BroadcastClean, TidyLists, ProtectedIn, DirtyIn, Elements;
    SyncFacts(job, w, r);
    if step.LocalCandidates? && w.procs[r].epoch < |w.lists| {
      LocalListIsTheList(job, w, r);
    }
  }

  lemma StaysDone(job: Job, w: World, step: Step, w': World, r: nat, k: nat, a: Addr)
    requires Shaped(job, w) && StepTo(job, w, step, w') && r < job.n && |w'.procs| == job.n
    requires DoneWith(w.procs[r], k, a)
    ensures DoneWith(w'.procs[r], k, a)
  {
    hide ValidJob, RunOp, CandidatesOk, ProgAt, MarkEntriesAsClean, OwnsAddr, Placed, TallyAt, SettleBytes, RankDemand,
         FlushEntry, ClearEntry, Sorted, BroadcastClean, TidyLists, ProtectedIn, DirtyIn, Elements;
    match step
    case Exec(_, cand) =>
    case Load(_, b) =>
    case Evict(_, b) =>
    case SetPin(_, b, pin) =>
    case EarlyFlush(b) =>
    case PassOpening(_) =>
    case ZeroFlush(b) =>
    case ZeroPost =>
    case ReceiveClean(_) =>
    case PostCandidates =>
    case ReceiveCandidates(_) =>
    case LocalCandidates(_) =>
    case WriteOne(_, b) =>
    case EndWriting(_) =>
    case Leave(_) =>
  }

  /** A rank gets done with a candidate of its epoch, other than by leaving, in one way only. */
  lemma DoneByWriting(job: Job, w: World, step: Step, w': World, r: nat, a: Addr)
    requires Shaped(job, w) && StepTo(job, w, step, w') && r < job.n && |w'.procs| == job.n
    requires w'.procs[r].epoch == w.procs[r].epoch
    requires !DoneWith(w.procs[r], w.procs[r].epoch, a) && DoneWith(w'.procs[r], w.procs[r].epoch, a)
    requires w.procs[r].epoch < |w'.lists| ==> a in w'.lists[w.procs[r].epoch]
    requires w.procs[r].phase.Deciding? && step.LocalCandidates? && step.r == r ==> a in Elements(Sorted(w.procs[r].s.cand))
    ensures step == WriteOne(r, a) && w.procs[r].phase.Writing?
  {
    hide ValidJob, RunOp, CandidatesOk, ProgAt, MarkEntriesAsClean, OwnsAddr, Placed, TallyAt, SettleBytes, RankDemand,
         FlushEntry, ClearEntry, Sorted, BroadcastClean, TidyLists, ProtectedIn, DirtyIn;
    match step
    case Exec(_, cand) =>
    case Load(_, b) =>
    case Evict(_, b) =>
    case SetPin(_, b, pin) =>
    case EarlyFlush(b) =>
    case PassOpening(_) =>
    case ZeroFlush(b) =>
    case ZeroPost =>
    case ReceiveClean(_) =>
    case PostCandidates =>
    case ReceiveCandidates(_) =>
    case LocalCandidates(_) =>
    case WriteOne(_, b) =>
    case EndWriting(_) =>
    case Leave(_) =>
  }

  lemma GetsDone(job: Job, w: World, step: Step, w': World, r: nat, k: nat, a: Addr)
    requires w in Safe(job) && Shaped(job, w) && StepTo(job, w, step, w') && r < job.n && |w'.procs| == job.n
    requires w' in Safe(job) && Shaped(job, w') && OnList(job, w', k, a)
    requires !DoneWith(w.procs[r], k, a) && DoneWith(w'.procs[r], k, a)
    ensures step == WriteOne(r, a) && w.procs[r].phase.Writing? && w.procs[r].epoch == k
  {
    hide Safe, StepTo, ValidJob, ProgAt, TallyAt, SyncAt, Sorted, Elements;
    var p, p' := w.procs[r], w'.procs[r];
    if p'.epoch != p.epoch {
      LeavingShape(job, w, step, w', r);
      if p.phase.Deciding? && p.epoch == k {
        WorkIsNotSkipped(job, w, step, w', r, a);
      }
    } else {
      if p.phase.Deciding? && step.LocalCandidates? && step.r == r && p.epoch == k {
        LocalListHas(job, w, step, w', r, a);
      }
      DoneByWriting(job, w, step, w', r, a);
    }
  }

  lemma LocalListHas(job: Job, w: World, step: Step, w': World, r: nat, a: Addr)
    requires w in Safe(job) && Shaped(job, w) && StepTo(job, w, step, w') && r < job.n && |w'.procs| == job.n
    requires Shaped(job, w') && OnList(job, w', w.procs[r].epoch, a)
    requires w.procs[r].phase.Deciding? && step == LocalCandidates(r)
    ensures a in Elements(Sorted(w.procs[r].s.cand))
  {
    hide Safe, ValidJob, ProgAt, TallyAt, Sorted, SyncAt, DirtyIn, Begin;
    SyncFacts(job, w, r);
    if w.procs[r].epoch < |w.lists| {
      LocalListIsTheList(job, w, r);
    }
  }

  // ------------------------------------------------------------- over a run

  lemma ListSoFar(job: Job, ws: seq<World>, steps: seq<Step>, i: nat, k: nat, a: Addr)
    requires Run(job, ws, steps) && i < |ws| && |ws| == |steps| + 1 && Shaped(job, ws[|steps|]) && OnList(job, ws[|steps|], k, a)
    requires k < |ws[|steps|].lists|
    ensures ws[i] in Safe(job) && Shaped(job, ws[i]) && |ws[i].procs| == job.n && OnList(job, ws[i], k, a)
  {
    hide Safe, Run, AnyRun, Dist, Placed, ValidJob;
    RunIsAnyRun(job, ws, steps);
    RunIsSafe(job, ws, steps, i);
    HistoryOnlyGrows(job, ws, steps, i, |steps|);
  }

  lemma {:induction false} DoneStays(job: Job, ws: seq<World>, steps: seq<Step>, i: nat, j: nat, r: nat, k: nat, a: Addr)
    requires Run(job, ws, steps) && i <= j < |ws| && r < job.n
    requires forall m | i <= m <= j :: |ws[m].procs| == job.n
    requires DoneWith(ws[i].procs[r], k, a)
    ensures DoneWith(ws[j].procs[r], k, a)
    decreases j
  {
    hide Shaped, StepTo, Init, ValidJob, DoneWith, Heedful;
    if i < j {
      DoneStays(job, ws, steps, i, j - 1, r, k, a);
      StaysDone(job, ws[j - 1], steps[j - 1], ws[j], r, k, a);
    }
  }

  /** When any rank has left the sync point, the owner has put the candidate away. */
  lemma LeftMeansDone(job: Job, w: World, k: nat, a: Addr, q: nat, o: nat)
    requires w in Safe(job) && Shaped(job, w) && k < |w.lists| && OnList(job, w, k, a)
    requires q < job.n && o < job.n && w.procs[q].epoch > k
    ensures DoneWith(w.procs[o], k, a)
  {
    hide Safe, ValidJob, Dist, Placed;
    SyncBarrier(job, w);
    EpochBound(job, w, q);
    assert Arrived(w.procs[o], |w.lists| - 1);
    if k == |w.lists| - 1 {
      assert w.procs[q].epoch == |w.lists| && w.lists[k] != [];
      assert Closed(w.procs[o], k);
    }
  }

  lemma {:induction false} WhenDone(job: Job, ws: seq<World>, steps: seq<Step>, n: nat, r: nat, k: nat, a: Addr) returns (i: nat)
    requires Run(job, ws, steps) && n < |ws| && r < job.n && (forall m | 0 <= m < |ws| :: |ws[m].procs| == job.n)
    requires |ws| == |steps| + 1 && Shaped(job, ws[|steps|]) && OnList(job, ws[|steps|], k, a) && k < |ws[|steps|].lists|
    requires DoneWith(ws[n].procs[r], k, a)
    ensures i < n && steps[i] == WriteOne(r, a) && ws[i].procs[r].phase.Writing? && ws[i].procs[r].epoch == k
    ensures !DoneWith(ws[i].procs[r], k, a)
  {
    hide Shaped, StepTo, ValidJob, Safe, Heedful, OnList;
    assert n > 0;
    if DoneWith(ws[n - 1].procs[r], k, a) {
      i := WhenDone(job, ws, steps, n - 1, r, k, a);
    } else {
      i := n - 1;
      ListSoFar(job, ws, steps, n - 1, k, a);
      ListSoFar(job, ws, steps, n, k, a);
      GetsDone(job, ws[i], steps[i], ws[n], r, k, a);
    }
  }

  /** Writing one's own candidate: the list applied is the list of the sync point. */
  lemma WriterFacts(job: Job, ws: seq<World>, steps: seq<Step>, i: nat, k: nat, a: Addr, r: nat)
    requires Run(job, ws, steps) && i < |steps| && |ws| == |steps| + 1 && Shaped(job, ws[|steps|])
    requires OnList(job, ws[|steps|], k, a) && k < |ws[|steps|].lists|
    requires steps[i] == WriteOne(r, a) && r < |ws[i].procs| && ws[i].procs[r].phase.Writing? && ws[i].procs[r].epoch == k
    ensures r < job.n && ws[i].procs[r].phase.list == ws[|steps|].lists[k] && Increasing(ws[|steps|].lists[k])
    ensures !DoneWith(ws[i].procs[r], k, a) && |ws[i + 1].procs| == job.n && DoneWith(ws[i + 1].procs[r], k, a)
  {
    hide Safe, Run, AnyRun, ProgAt, TallyAt, SyncAt, MidWrite, ValidJob, Dist, OwnsAddr, FlushEntry, ClearEntry;
    ListSoFar(job, ws, steps, i, k, a);
    ListSoFar(job, ws, steps, i + 1, k, a);
    RunIsAnyRun(job, ws, steps);
    HistoryOnlyGrows(job, ws, steps, i, |steps|);
    SyncFacts(job, ws[i], r);
    assert WriteOneStep(job, ws[i], r, a, ws[i + 1]) by { OneStep(job, ws, steps, i); }
  }

  lemma OneStep(job: Job, ws: seq<World>, steps: seq<Step>, i: nat)
    requires Run(job, ws, steps) && i < |steps|
    ensures |ws| == |steps| + 1 && Shaped(job, ws[i]) && StepTo(job, ws[i], steps[i], ws[i + 1])
  {
    hide StepTo;
  }

  /** Once a rank has left the k-th sync point, a distributed one, exactly one step has written
      candidate a of its list to the file, and no other rank than its owner took it. */
  lemma WrittenExactlyOnce(job: Job, ws: seq<World>, steps: seq<Step>, k: nat, a: Addr, q: nat) returns (i: nat)
    requires Run(job, ws, steps) && |ws| == |steps| + 1 && q < job.n == |ws[|steps|].procs|
    requires ws[|steps|].procs[q].epoch > k && k + 1 < |ws[|steps|].bases| && k < |ws[|steps|].lists|
    requires Dist(job, ws[|steps|].bases[k + 1].pos) && a in ws[|steps|].lists[k]
    ensures i < |steps| && WritesOut(job, ws[i], steps[i], k, a)
    ensures var s := ws[i].procs[steps[i].r].s; a in s.cache && ws[i + 1].disk == ws[i].disk[a := s.cache[a].obj]
    ensures forall j | 0 <= j < |steps| && WritesOut(job, ws[j], steps[j], k, a) :: j == i
  {
    hide Run, Safe, ValidJob, Dist, DoneWith, OwnsAddr;
    var n, list := |steps|, ws[|steps|].lists[k];
    RunIsSafe(job, ws, steps, n);
    forall m | 0 <= m < |ws| ensures |ws[m].procs| == job.n {
      ListSoFar(job, ws, steps, m, k, a);
    }
    ListIncreases(job, ws[n], k);
    var o := ExactlyOneWriter(job.n, list, a);
    LeftMeansDone(job, ws[n], k, a, q, o);
    i := WhenDone(job, ws, steps, n, o, k, a);
    WriterFacts(job, ws, steps, i, k, a, o);
    OneStep(job, ws, steps, i);
    OwnerWrites(job, ws[i], o, a, ws[i + 1]);
    forall j | 0 <= j < n && WritesOut(job, ws[j], steps[j], k, a) ensures j == i {
      WriterFacts(job, ws, steps, j, k, a, steps[j].r);
      assert steps[j].r == o;
      if j < i {
        DoneStays(job, ws, steps, j + 1, i, o, k, a);
      } else if i < j {
        DoneStays(job, ws, steps, i + 1, j, o, k, a);
      }
    }
  }

  lemma OwnerWrites(job: Job, w: World, r: nat, a: Addr, w': World)
    requires Shaped(job, w) && StepTo(job, w, WriteOne(r, a), w') && r < |w.procs| && job.n > 0
    requires w.procs[r].phase.Writing? && OwnsAddr(job.n, w.procs[r].phase.list, r, a)
    ensures var s := w.procs[r].s; a in s.cache && w'.disk == w.disk[a := s.cache[a].obj]
  {
    hide OwnsAddr;
  }

  lemma ListIncreases(job: Job, w: World, k: nat)
    requires w in Safe(job) && Shaped(job, w) && k < |w.lists|
    ensures Increasing(w.lists[k]) && job.n > 0
  {
    hide ProgAt, TallyAt, SyncAt, GoodProcs, BarrierInv, DiskInv;
    SafeFacts(job, w);
    CoreFacts(job, w);
    assert DecidedOk(job, w.bases[k], w.lists[k], w.bases[k + 1]);
  }
}
