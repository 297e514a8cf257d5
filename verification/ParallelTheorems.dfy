/** What every run of the protocol guarantees. */
module ParallelTheorems {
  import opened AddressLists
  import opened CacheState
  import opened Options
  import opened Agreement
  import opened ParallelRun
  import opened ParallelSafety
  import opened ParallelSync

  /** A run: a start and any steps of any ranks, in any order. */
  ghost predicate AnyRun(job: Job, ws: seq<World>, steps: seq<Step>) {
    && ValidJob(job)
    && |ws| == |steps| + 1
    && Init(job, ws[0])
    && forall i | 0 <= i < |steps| :: Shaped(job, ws[i]) && StepTo(job, ws[i], steps[i], ws[i + 1])
  }

  /** A run in which rank 0, if it writes between sync points at all, heeds what it has to.
      Without early writes every run is one. */
  ghost predicate Run(job: Job, ws: seq<World>, steps: seq<Step>) {
    && AnyRun(job, ws, steps)
    && (job.early ==> forall i | 0 <= i < |steps| :: Heedful(job, ws[i], steps[i]))
  }

  lemma {:induction false} RunIsSafe(job: Job, ws: seq<World>, steps: seq<Step>, i: nat)
    requires Run(job, ws, steps) && i < |ws|
    ensures ws[i] in Safe(job) && Shaped(job, ws[i])
  {
    hide Safe, Shaped, Init, StepTo, ValidJob, Heedful;
    if i == 0 {
      InitIsSafe(job, ws[0]);
    } else {
      RunIsSafe(job, ws, steps, i - 1);
      StepKeepsSafe(job, ws[i - 1], steps[i - 1], ws[i]);
      SafeFacts(job, ws[i]);
    }
  }

  // ------------------------------------------------------------- coherence

  /** Every copy of every object, on every rank, at every moment, is what the program run by
      one process would have at that rank's place in it. */
  lemma EveryCopyIsCurrent(job: Job, ws: seq<World>, steps: seq<Step>, i: nat, r: nat, a: Addr)
    requires Run(job, ws, steps) && i < |ws| && r < job.n && r < |ws[i].procs| && a in ws[i].procs[r].s.cache
    ensures ws[i].procs[r].pos <= |job.script|
    ensures a in ProgAt(job, ws[i].procs[r].pos).truth
    ensures ws[i].procs[r].s.cache[a].obj == ProgAt(job, ws[i].procs[r].pos).truth[a]
  {
    hide Safe, Core, GoodProcs, Run, ProgAt, TallyAt, SyncAt, NoSyncBefore, CandidatesOk, HistoryInv, DiskInv, ValidJob, DirtyIn, ProtectedIn;
    RunIsSafe(job, ws, steps, i);
    SafeFacts(job, ws[i]);
    ProcFacts(job, ws[i], r);
  }

  // ------------------------------------------------------------- agreement

  /** Two ranks at the same place between sync points, whatever each of them has read,
      evicted or (rank 0) written early: rank 0's dirtied list is the other's dirty set, its
      cleaned list is what it has itself cleaned of that, and the byte counts are equal. */
  lemma RanksAgree(job: Job, ws: seq<World>, steps: seq<Step>, i: nat, r: nat)
    requires Run(job, ws, steps) && i < |ws| && 0 < r < job.n && |ws[i].procs| == job.n
    requires var z, p := ws[i].procs[0], ws[i].procs[r];
      && (z.phase.Running? || z.phase.Opening?) && (p.phase.Running? || p.phase.Opening?)
      && z.pos == p.pos && z.epoch == p.epoch
    ensures var z, p := ws[i].procs[0].s, ws[i].procs[r].s;
      && z.dlist == DirtySet(p)
      && z.clist == z.dlist - DirtySet(z)
      && DirtySet(z) <= DirtySet(p)
      && z.bytes == p.bytes
  {
    hide Safe, Core, GoodProcs, Run, ProgAt, TallyAt, SyncAt, NoSyncBefore, CandidatesOk, HistoryInv, DiskInv,
         ValidJob, DirtyIn, ProtectedIn, Coherent;
    RunIsSafe(job, ws, steps, i);
    SafeFacts(job, ws[i]);
    ProcFacts(job, ws[i], 0);
    ProcFacts(job, ws[i], r);
  }

  // ----------------------------------------------- the same sync points

  lemma StepExtendsHistory(job: Job, w: World, step: Step, w': World)
    requires Shaped(job, w) && StepTo(job, w, step, w')
    ensures w.bases <= w'.bases && w.lists <= w'.lists
  {
    hide ValidJob, RunOp, CandidatesOk, ProgAt, MarkEntriesAsClean, OwnsAddr, Placed, TallyAt, SettleBytes, RankDemand,
         FlushEntry, ClearEntry, Sorted, Begin, Left, BroadcastClean, TidyLists;
    match step
    case Exec(r, cand) =>
    case Load(r, a) =>
    case Evict(r, a) =>
    case SetPin(r, a, pin) =>
    case EarlyFlush(a) =>
    case PassOpening(r) =>
    case ZeroFlush(a) =>
    case ZeroPost =>
    case ReceiveClean(r) =>
    case PostCandidates =>
    case ReceiveCandidates(r) =>
    case LocalCandidates(r) =>
    case WriteOne(r, a) =>
    case EndWriting(r) =>
    case Leave(r) =>
  }

  lemma {:induction false} HistoryOnlyGrows(job: Job, ws: seq<World>, steps: seq<Step>, i: nat, j: nat)
    requires AnyRun(job, ws, steps) && i <= j < |ws|
    ensures ws[i].bases <= ws[j].bases && ws[i].lists <= ws[j].lists
    decreases j
  {
    hide ValidJob, Init, StepTo, Shaped;
    if i < j {
      HistoryOnlyGrows(job, ws, steps, i, j - 1);
      StepExtendsHistory(job, ws[j - 1], steps[j - 1], ws[j]);
    }
  }

  lemma InSyncAt(job: Job, w: World, r: nat)
    requires w in Safe(job) && Shaped(job, w) && r < job.n && !w.procs[r].phase.Running?
    ensures SyncAt(job, w.bases[w.procs[r].epoch], w.procs[r].pos)
  {
    hide Safe, Core, GoodProcs, SyncAt, ProgAt, TallyAt;
    SyncFacts(job, w, r);
  }

  /** Every rank starts its k-th sync point after the same collective operation, whenever it
      gets there, although rank 0 counts dirty bytes by a rule of its own. */
  lemma SameSyncPoints(job: Job, ws: seq<World>, steps: seq<Step>, i: nat, j: nat, r: nat, q: nat)
    requires Run(job, ws, steps) && i < |ws| && j < |ws| && r < job.n && q < job.n
    requires |ws[i].procs| == job.n && |ws[j].procs| == job.n
    requires !ws[i].procs[r].phase.Running? && !ws[j].procs[q].phase.Running?
    requires ws[i].procs[r].epoch == ws[j].procs[q].epoch
    ensures ws[i].procs[r].pos == ws[j].procs[q].pos
  {
    hide Safe, Run, AnyRun, SyncAt, ProgAt, ValidJob;
    var k := ws[i].procs[r].epoch;
    RunIsAnyRun(job, ws, steps);
    RunIsSafe(job, ws, steps, i);
    RunIsSafe(job, ws, steps, j);
    InSyncAt(job, ws[i], r);
    InSyncAt(job, ws[j], q);
    if i <= j {
      HistoryOnlyGrows(job, ws, steps, i, j);
      assert ws[j].bases[k] == ws[i].bases[k];
    } else {
      HistoryOnlyGrows(job, ws, steps, j, i);
      assert ws[i].bases[k] == ws[j].bases[k];
    }
    SyncPlaceUnique(job, ws[i].bases[k], ws[i].procs[r].pos, ws[j].procs[q].pos);
  }

  lemma RunIsAnyRun(job: Job, ws: seq<World>, steps: seq<Step>)
    requires Run(job, ws, steps)
    ensures AnyRun(job, ws, steps) && ValidJob(job)
  {
  }

  lemma OpKeepsThreshold(g: Prog, op: Op)
    requires OpOk(g, op) && g.cfg.threshold > 0
    ensures ProgStep(g, op).cfg.threshold > 0
  {
  }

  lemma {:induction false} ThresholdIsPositive(job: Job, p: nat)
    requires ValidJob(job) && p <= |job.script|
    ensures ProgAt(job, p).cfg.threshold > 0
  {
    hide ProgStep, OpOk, Dist;
    if p > 0 {
      ThresholdIsPositive(job, p - 1);
      OpKeepsThreshold(ProgAt(job, p - 1), job.script[p - 1]);
    }
  }

  /** An insert, a move or an unprotect that has returned leaves the count below the
      threshold, on every rank. */
  lemma ReturnsBelowThreshold(job: Job, ws: seq<World>, steps: seq<Step>, i: nat, r: nat)
    requires Run(job, ws, steps) && i < |ws| && r < job.n && |ws[i].procs| == job.n
    requires ws[i].procs[r].phase.Running? && 0 < ws[i].procs[r].pos <= |job.script|
    requires var op := job.script[ws[i].procs[r].pos - 1]; op.Insert? || op.Move? || op.Unprotect?
    ensures ws[i].procs[r].s.bytes < ws[i].procs[r].s.cfg.threshold
  {
    hide Safe, Core, GoodProcs, Run, CandidatesOk, HistoryInv, DiskInv, DirtyIn, ProtectedIn, Coherent, ProgStep, TallyOp, OpOk, Live;
    RunIsSafe(job, ws, steps, i);
    SafeFacts(job, ws[i]);
    ProcFacts(job, ws[i], r);
    var p := ws[i].procs[r];
    ThresholdIsPositive(job, p.pos);
    var b := ws[i].bases[p.epoch];
    if b.pos < p.pos {
      assert !DemandAt(job, b, p.pos).SyncPoint?;
      assert OpOk(ProgAt(job, p.pos - 1), job.script[p.pos - 1]);
    }
  }

  /** After which operations a rank finds itself at the opening barrier of a sync point: an
      insert, a move or an unprotect with the count at or above the threshold, unless evictions
      are disabled; and a flush, unless the strategy is distributed and nothing is dirty. */
  lemma ArrivesIff(job: Job, w: World, r: nat, cand: set<Addr>, w': World)
    requires Shaped(job, w) && StepTo(job, w, Exec(r, cand), w') && r < job.n && |w'.procs| == job.n
    requires w.procs[r].pos < |job.script|
    ensures var op, s := job.script[w.procs[r].pos], w'.procs[r].s;
      && (op.Insert? || op.Move? || op.Unprotect? ==>
            (w'.procs[r].phase.Opening? <==> s.cfg.evictions && s.bytes >= s.cfg.threshold))
      && (op.Flush? ==> (w'.procs[r].phase.Opening? <==> s.cfg.strategy.ProcessZeroOnly? || exists a :: a in s.cache && s.cache[a].dirty))
      && (op.Protect? || op.MarkDirty? || op.Resize? || op.Configure? ==> !w'.procs[r].phase.Opening?)
      && (w'.procs[r].phase.Opening? || w'.procs[r].phase.Running?)
  {
    hide ProgAt, Placed, ValidJob, RunOp, CandidatesOk;
    var op := job.script[w.procs[r].pos];
    var s1 := RunOp(w.procs[r].s, op).value;
    assert DirtySet(s1) == {} <==> !exists a :: a in s1.cache && s1.cache[a].dirty by {
      if a :| a in s1.cache && s1.cache[a].dirty {
        assert a in DirtySet(s1);
      }
      if DirtySet(s1) != {} {
        var a :| a in DirtySet(s1);
      }
    }
  }

  // --------------------------------------------------------- write safety

  lemma WritesAreSyncSteps(job: Job, w: World, step: Step, w': World)
    requires Shaped(job, w) && StepTo(job, w, step, w') && w'.disk != w.disk && !step.EarlyFlush?
    ensures step.ZeroFlush? || step.WriteOne?
    ensures var r := if step.ZeroFlush? then 0 else step.r;
            r < job.n && WritePermitted(w.procs[r].s) && (w.procs[r].phase.Deciding? || w.procs[r].phase.Writing?)
  {
    hide ValidJob, RunOp, CandidatesOk, ProgAt, MarkEntriesAsClean, OwnsAddr, Placed, TallyAt, SettleBytes, RankDemand,
         FlushEntry, ClearEntry, Sorted, Begin, Left, BroadcastClean, TidyLists;
    match step
    case Exec(r, cand) =>
    case Load(r, a) =>
    case Evict(r, a) =>
    case SetPin(r, a, pin) =>
    case EarlyFlush(a) =>
    case PassOpening(r) =>
    case ZeroFlush(a) =>
    case ZeroPost =>
    case ReceiveClean(r) =>
    case PostCandidates =>
    case ReceiveCandidates(r) =>
    case LocalCandidates(r) =>
    case WriteOne(r, a) =>
    case EndWriting(r) =>
    case Leave(r) =>
  }

  /** Every rank past the opening barrier of its sync point knows that all have arrived. */
  lemma PastTheBarrier(job: Job, w: World, r: nat)
    requires w in Safe(job) && Shaped(job, w) && r < job.n
    requires var ph := w.procs[r].phase; ph.Deciding? || ph.Writing? || ph.Closing?
    ensures AllArrived(w, w.procs[r].epoch)
  {
    hide Safe, Core, GoodProcs, ProgAt, TallyAt, SyncAt, HistoryInv, DecidedOk, CandidatesOk, Agrees, DemandAt, MidWrite, CleanedOnDisk;
    SyncFacts(job, w, r);
    SyncBarrier(job, w);
    assert w.procs[r].epoch == |w.lists| ==> DecidingAt(w.procs[r], |w.lists|);
  }

  /** No rank writes, outside the early writes of rank 0, before all ranks have entered the
      sync point; the writer has write permission. */
  lemma NoWriteBeforeAllEntered(job: Job, ws: seq<World>, steps: seq<Step>, i: nat)
    requires Run(job, ws, steps) && i < |steps| && ws[i + 1].disk != ws[i].disk && !steps[i].EarlyFlush?
    ensures steps[i].ZeroFlush? || steps[i].WriteOne?
    ensures var r := if steps[i].ZeroFlush? then 0 else steps[i].r;
            r < |ws[i].procs| && WritePermitted(ws[i].procs[r].s) && AllArrived(ws[i], ws[i].procs[r].epoch)
  {
    hide Safe, ProgAt, ValidJob, Placed, StepTo, Init;
    RunIsSafe(job, ws, steps, i);
    WritesAreSyncSteps(job, ws[i], steps[i], ws[i + 1]);
    PastTheBarrier(job, ws[i], if steps[i].ZeroFlush? then 0 else steps[i].r);
  }

  /** A rank has write permission exactly inside a sync point, past the opening and before the
      closing barrier: rank 0 while it flushes under process-0-only, every rank while it
      applies a candidate list under the distributed strategy. */
  lemma WritePermittedIff(job: Job, ws: seq<World>, steps: seq<Step>, i: nat, r: nat)
    requires Run(job, ws, steps) && i < |ws| && r < job.n && |ws[i].procs| == job.n
    ensures var p := ws[i].procs[r];
      WritePermitted(p.s) <==> p.phase.Writing? || (p.phase.Deciding? && r == 0 && p.s.cfg.strategy.ProcessZeroOnly?)
  {
    hide Safe, Core, GoodProcs, Run, ProgAt, TallyAt, SyncAt, NoSyncBefore, CandidatesOk, HistoryInv, DiskInv, ValidJob, Coherent, Live;
    RunIsSafe(job, ws, steps, i);
    SafeFacts(job, ws[i]);
    ProcFacts(job, ws[i], r);
  }

  /** Outside a sync point no rank has write permission. */
  lemma NoPermissionOutside(job: Job, ws: seq<World>, steps: seq<Step>, i: nat, r: nat)
    requires Run(job, ws, steps) && i < |ws| && r < job.n && |ws[i].procs| == job.n
    requires var ph := ws[i].procs[r].phase; ph.Running? || ph.Opening? || ph.Closing?
    ensures !WritePermitted(ws[i].procs[r].s)
  {
    hide Run, WritePermitted;
    WritePermittedIff(job, ws, steps, i, r);
  }

  /** Every candidate of a list has exactly one rank to write it. */
  lemma ExactlyOneWriter(n: nat, list: seq<Addr>, a: Addr) returns (r: nat)
    requires n > 0 && Increasing(list) && a in list
    ensures r < n && OwnsAddr(n, list, r, a)
    ensures forall q | OwnsAddr(n, list, q, a) :: q == r
  {
    var i :| 0 <= i < |list| && list[i] == a;
    r := Owner(|list|, n, i);
    forall q | OwnsAddr(n, list, q, a) ensures q == r {
      var j :| 0 <= j < |list| && list[j] == a && Owns(|list|, n, q, j);
      assert i == j;
      ExactlyOneOwner(|list|, n, i, q);
    }
  }

  /** All ranks applying a candidate list apply the same one, broadcast or built alone. */
  lemma IdenticalLists(job: Job, ws: seq<World>, steps: seq<Step>, i: nat, r: nat, q: nat)
    requires Run(job, ws, steps) && i < |ws| && r < job.n && q < job.n && |ws[i].procs| == job.n
    requires ws[i].procs[r].phase.Writing? && (ws[i].procs[q].phase.Writing? || ws[i].procs[q].phase.Closing?)
    ensures ws[i].procs[r].epoch == ws[i].procs[q].epoch
    ensures ws[i].procs[r].phase.list == ws[i].procs[q].phase.list
    ensures Increasing(ws[i].procs[r].phase.list)
  {
    hide Safe, Core, GoodProcs, Run, ProgAt, TallyAt, SyncAt, NoSyncBefore, CandidatesOk, DiskInv, ValidJob, MidWrite, HistoryInv;
    RunIsSafe(job, ws, steps, i);
    SyncFacts(job, ws[i], r);
    SyncFacts(job, ws[i], q);
  }

  // ------------------------------------------------- a sync point as a whole

  /** How a rank looks when it leaves a sync point. */
  lemma LeavingShape(job: Job, w: World, step: Step, w': World, r: nat)
    requires Shaped(job, w) && StepTo(job, w, step, w') && r < job.n && |w'.procs| == job.n
    requires w'.procs[r].epoch != w.procs[r].epoch
    ensures var p, p' := w.procs[r], w'.procs[r];
      && p'.epoch == p.epoch + 1 && p'.pos == p.pos && p'.phase.Running? && p'.s.bytes == 0
      && (p.phase.Deciding? || p.phase.Closing?)
      && (r == 0 && p.phase.Deciding? && p.s.cfg.strategy.ProcessZeroOnly? ==> p'.s.clist == {})
  {
    hide ValidJob, RunOp, CandidatesOk, ProgAt, MarkEntriesAsClean, OwnsAddr, Placed, TallyAt, SettleBytes, RankDemand,
         FlushEntry, ClearEntry, Sorted, TidyLists, ProtectedIn, DirtyIn, Elements;
    match step
    case Exec(_, cand) =>
    case Load(_, a) =>
    case Evict(_, a) =>
    case SetPin(_, a, pin) =>
    case EarlyFlush(a) =>
    case PassOpening(_) =>
    case ZeroFlush(a) =>
    case ZeroPost =>
    case ReceiveClean(_) =>
    case PostCandidates =>
    case ReceiveCandidates(_) =>
    case LocalCandidates(_) =>
    case WriteOne(_, a) =>
    case EndWriting(_) =>
    case Leave(_) =>
  }

  /** What rank r takes away from the sync point it leaves in a step. */
  lemma LeavingFacts(job: Job, w: World, w': World, r: nat)
    requires w in Safe(job) && Shaped(job, w) && w' in Safe(job) && Shaped(job, w') && r < job.n
    requires w.bases <= w'.bases && !w.procs[r].phase.Running? && w'.procs[r].phase.Running?
    requires w'.procs[r].epoch == w.procs[r].epoch + 1 && w'.procs[r].pos == w.procs[r].pos
    ensures var p, p' := w.procs[r], w'.procs[r]; var k := |w'.lists|;
      && p'.epoch == k && w'.bases[k].pos == p.pos
      && Live(ProgAt(job, p.pos), TallyAt(job, w.bases[p.epoch], p.pos))
      && DecidedOk(job, w.bases[p.epoch], w'.lists[p.epoch], w'.bases[k])
      && Agrees(p'.s, ProgAt(job, p.pos), Tally(w'.bases[k].dirty, 0))
      && p'.s.zero == (r == 0) && p'.s.cand == {} && (!job.early ==> p'.s.clist == {})
      && SettledFor(job, w'.bases, p') == Settled(ProgAt(job, p.pos), w'.bases[k].dirty)
  {
    hide Safe, Core, GoodProcs, ProgAt, SyncAt, CandidatesOk, DemandAt, MidWrite, CleanedOnDisk, DirtyIn, ProtectedIn, Settled, BarrierInv, DiskInv;
    SyncFacts(job, w, r);
    SafeFacts(job, w');
    ProcFacts(job, w', r);
    var p, k := w.procs[r], |w'.lists|;
    assert w'.procs[r].epoch == k && w'.bases[p.epoch] == w.bases[p.epoch];
    assert DecidedOk(job, w'.bases[p.epoch], w'.lists[p.epoch], w'.bases[k]);
    SyncPlaceUnique(job, w.bases[p.epoch], p.pos, w'.bases[k].pos);
  }

  /** The outcome of one atomic sync point for a rank: one list of dirty entries is cleaned
      (all of them, for a flush); the file holds the current content of each; what is dirty
      afterwards, on rank 0 and in its dirtied list as on every other rank, is what was dirty
      before, minus that list; the other lists are empty and the count is back to zero. */
  ghost predicate AtomicOutcome(g: Prog, dirty: set<Addr>, flush: bool, list: seq<Addr>, disk: map<Addr, Obj>, s: Rank) {
    && Increasing(list) && Elements(list) <= dirty
    && (flush ==> Elements(list) == dirty)
    && (forall a | a in list :: a in disk && a in g.truth && disk[a] == g.truth[a])
    && DirtySet(s) == dirty - Elements(list)
    && s.bytes == 0 && s.clist == {} && s.cand == {}
    && (s.zero ==> s.dlist == DirtySet(s))
  }

  /** Rank r leaves its sync point between w and w', with the effect of an atomic one. */
  ghost predicate LeavesAtomically(job: Job, w: World, w': World, r: nat)
    requires Shaped(job, w) && Shaped(job, w') && r < job.n
  {
    var p, p' := w.procs[r], w'.procs[r];
    && p'.epoch == p.epoch + 1 && p'.pos == p.pos > 0 && p'.phase.Running?
    && AllArrived(w, p.epoch)
    && |w'.lists| == p.epoch + 1
    && p'.s.zero == (r == 0)
    && AtomicOutcome(ProgAt(job, p.pos), TallyAt(job, w.bases[p.epoch], p.pos).dirty, job.script[p.pos - 1].Flush?,
                     w'.lists[p.epoch], w'.disk, p'.s)
  }

  /** Each rank leaves its k-th sync point exactly as if the sync point had been one step
      common to all ranks, which had all arrived. */
  lemma SyncPointIsAtomic(job: Job, ws: seq<World>, steps: seq<Step>, i: nat, r: nat)
    requires Run(job, ws, steps) && i < |steps| && r < job.n && |ws[i].procs| == job.n && |ws[i + 1].procs| == job.n
    requires ws[i + 1].procs[r].epoch != ws[i].procs[r].epoch
    ensures Shaped(job, ws[i]) && Shaped(job, ws[i + 1]) && LeavesAtomically(job, ws[i], ws[i + 1], r)
  {
    hide Safe, Core, GoodProcs, ProgAt, TallyAt, SyncAt, StepTo, Init, ValidJob, SettledFor, DirtyIn, Coherent, AllArrived;
    RunIsSafe(job, ws, steps, i);
    RunIsSafe(job, ws, steps, i + 1);
    var w, w', p := ws[i], ws[i + 1], ws[i].procs[r];
    LeavingShape(job, w, steps[i], w', r);
    StepExtendsHistory(job, w, steps[i], w');
    PastTheBarrier(job, w, r);
    LeavingFacts(job, w, w', r);
    SafeFacts(job, w');
    SyncFacts(job, w, r);
    SyncIsDemanded(job, w.bases[p.epoch], p.pos);
    NothingLeftCleaned(job, w, steps[i], w', r);
    NothingCleanedYet(w'.procs[r].s, ProgAt(job, p.pos), Tally(w'.bases[|w'.lists|].dirty, 0));
    CandidatesAreOnDisk(job, w', r, w'.lists[p.epoch]);
  }

  /** The cleaned list went into the broadcast, or no entry was cleaned outside the list. */
  lemma NothingLeftCleaned(job: Job, w: World, step: Step, w': World, r: nat)
    requires w in Safe(job) && Shaped(job, w) && StepTo(job, w, step, w') && r < job.n && |w'.procs| == job.n
    requires w' in Safe(job) && Shaped(job, w')
    requires w'.procs[r].epoch != w.procs[r].epoch
    ensures w'.procs[r].s.clist == {}
  {
    hide Safe, Core, GoodProcs, ProgAt, TallyAt, SyncAt, StepTo, SettledFor, DirtyIn, Coherent;
    LeavingShape(job, w, step, w', r);
    StepExtendsHistory(job, w, step, w');
    LeavingFacts(job, w, w', r);
    SyncFacts(job, w, r);
    if job.early {
      ZeroOnlyPhases(job, w, r);
    }
  }

  lemma CandidatesAreOnDisk(job: Job, w: World, r: nat, list: seq<Addr>)
    requires w in Safe(job) && Shaped(job, w) && r < job.n && w.procs[r].phase.Running?
    requires forall a | a in list :: a in SettledFor(job, w.bases, w.procs[r])
    ensures var g := ProgAt(job, w.procs[r].pos);
            forall a | a in list :: a in w.disk && a in g.truth && w.disk[a] == g.truth[a]
  {
    hide Safe, Core, GoodProcs, ProgAt, TallyAt, ValidJob, SettledFor, Unwritten, DirtyIn, Coherent;
    SafeFacts(job, w);
    assert DiskFor(job, w, w.procs[r]);
    forall a | a in list ensures !Unwritten(job, w, a) {
      RunningMeansAllWritten(job, w, r, a);
    }
  }

  lemma DirtyStaysDirty(s: Rank, op: Op, s1: Rank, a: Addr)
    requires RunOp(s, op) == Some(s1) && a in s.cache && s.cache[a].dirty && !s.cache[a].clear && a in s1.cache
    ensures s1.cache[a].dirty
  {
  }

  lemma ZeroOnlyPhases(job: Job, w: World, r: nat)
    requires w in Safe(job) && Shaped(job, w) && r < job.n && !Dist(job, w.procs[r].pos)
    ensures !w.procs[r].phase.Writing? && !w.procs[r].phase.Closing?
    ensures w.procs[r].phase.Running? ==> forall a | a in w.procs[r].s.cache :: !w.procs[r].s.cache[a].clear
  {
    hide Safe, Core, GoodProcs, ProgAt, TallyAt, HistoryInv, NoSyncBefore, SyncAt, DemandAt, CandidatesOk, MidWrite, BarrierInv, DiskInv, DirtyIn;
    SafeFacts(job, w);
    ProcFacts(job, w, r);
  }

  /** Under process-0-only, a rank other than rank 0 marks an entry clean only by receiving the
      clean list. */
  lemma OnlyReceivingCleans(job: Job, w: World, step: Step, w': World, r: nat, a: Addr)
    requires w in Safe(job) && Shaped(job, w) && StepTo(job, w, step, w') && 0 < r < job.n && |w'.procs| == job.n
    requires !Dist(job, w.procs[r].pos)
    requires var c, c' := w.procs[r].s.cache, w'.procs[r].s.cache; a in c && c[a].dirty && a in c' && !c'[a].dirty
    ensures step == ReceiveClean(r)
  {
    hide Safe, ProgAt, TallyAt, CandidatesOk, ValidJob, Placed, Dist,
         RunOp, MarkEntriesAsClean, OwnsAddr, Sorted, ProtectedIn, Elements;
    ZeroOnlyPhases(job, w, r);
    match step
    case Exec(q, cand) =>
      if q == r {
        DirtyStaysDirty(w.procs[r].s, job.script[w.procs[r].pos], RunOp(w.procs[r].s, job.script[w.procs[r].pos]).value, a);
      }
    case Load(_, b) =>
    case Evict(_, b) =>
    case SetPin(_, b, pin) =>
    case EarlyFlush(b) =>
    case PassOpening(_) =>
    case ZeroFlush(b) =>
    case ZeroPost =>
    case ReceiveClean(_) =>
    case PostCandidates =>
    case ReceiveCandidates(_) =>
    case LocalCandidates(_) =>
    case WriteOne(_, b) =>
    case EndWriting(_) =>
    case Leave(_) =>
  }

  /** Under process-0-only no rank marks an entry clean before rank 0 has finished: rank 0 has
      left the sync point, and the file holds the entry's current content. */
  lemma NotCleanBeforeWritten(job: Job, ws: seq<World>, steps: seq<Step>, i: nat, r: nat, a: Addr)
    requires Run(job, ws, steps) && i < |steps| && 0 < r < job.n && |ws[i].procs| == job.n && |ws[i + 1].procs| == job.n
    requires !Dist(job, ws[i].procs[r].pos)
    requires var c, c' := ws[i].procs[r].s.cache, ws[i + 1].procs[r].s.cache; a in c && c[a].dirty && a in c' && !c'[a].dirty
    ensures ws[i].procs[0].epoch > ws[i].procs[r].epoch
    ensures ws[i].procs[r].pos <= |job.script| && var truth := ProgAt(job, ws[i].procs[r].pos).truth;
            a in ws[i + 1].disk && a in truth && ws[i + 1].disk[a] == truth[a]
  {
    hide Safe, Core, GoodProcs, ProgAt, TallyAt, SyncAt, DemandAt, Init, ValidJob, SettledFor, Coherent,
         CandidatesOk, MidWrite, DirtyIn, Agrees, HistoryInv;
    RunIsSafe(job, ws, steps, i);
    var w, w' := ws[i], ws[i + 1];
    OnlyReceivingCleans(job, w, steps[i], w', r, a);
    SafeFacts(job, w);
    ProcFacts(job, w, r);
    ProcFacts(job, w, 0);
    SyncPointIsAtomic(job, ws, steps, i, r);
  }

  /** A rank whose last operation was a flush, and which is back from whatever that involved,
      holds nothing dirty; on rank 0 the three lists are empty, as the destruction of the cache
      asserts. */
  lemma FlushEmptiesTheLists(job: Job, ws: seq<World>, steps: seq<Step>, i: nat, r: nat)
    requires Run(job, ws, steps) && i < |ws| && r < job.n && |ws[i].procs| == job.n
    requires ws[i].procs[r].phase.Running?
    requires 0 < ws[i].procs[r].pos <= |job.script| && job.script[ws[i].procs[r].pos - 1].Flush?
    ensures var s := ws[i].procs[r].s;
      DirtySet(s) == {} && s.dlist == {} && s.clist == {} && s.cand == {}
  {
    hide Safe, Core, GoodProcs, Run, ProgAt, TallyAt, CandidatesOk, DiskInv, DirtyIn, Coherent, Live, DemandAt, SyncAt;
    RunIsSafe(job, ws, steps, i);
    SafeFacts(job, ws[i]);
    ProcFacts(job, ws[i], r);
    FlushedIsClean(job, ws[i], r);
  }

  lemma FlushedIsClean(job: Job, w: World, r: nat)
    requires w in Safe(job) && Shaped(job, w) && r < job.n && w.procs[r].phase.Running?
    requires 0 < w.procs[r].pos <= |job.script| && job.script[w.procs[r].pos - 1].Flush?
    ensures var p := w.procs[r]; TallyAt(job, w.bases[p.epoch], p.pos).dirty == {}
  {
    hide Safe, Core, GoodProcs, ProgAt, CandidatesOk, DiskInv, DirtyIn, Coherent, Live, SyncAt, Agrees;
    SafeFacts(job, w);
    ProcFacts(job, w, r);
    var p := w.procs[r];
    var b := w.bases[p.epoch];
    if b.pos == p.pos {
      assert p.epoch > 0;
      assert DecidedOk(job, w.bases[p.epoch - 1], w.lists[p.epoch - 1], b);
    } else {
      assert !DemandAt(job, b, p.pos).SyncPoint?;
      FlushNotDue(job, b, p.pos);
    }
  }

  /** A flush that starts no sync point is one with nothing to do. */
  lemma FlushNotDue(job: Job, b: Base, p: nat)
    requires ValidJob(job) && b.pos < p <= |job.script| && job.script[p - 1].Flush? && !DemandAt(job, b, p).SyncPoint?
    ensures TallyAt(job, b, p).dirty == {}
  {
    hide ProgAt;
    assert OpOk(ProgAt(job, p - 1), job.script[p - 1]);
  }

  lemma RunningHasNoCandidates(job: Job, w: World, r: nat)
    requires w in Safe(job) && Shaped(job, w) && r < job.n && w.procs[r].phase.Running?
    ensures w.procs[r].s.cand == {}
  {
    hide ProgAt, TallyAt, Agrees;
    SafeFacts(job, w);
    ProcFacts(job, w, r);
  }
}
