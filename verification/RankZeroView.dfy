/** What rank 0 can know: it sees its own state and remembers past sync points, but not where
    the other ranks are.  In every reachable world it cannot tell from its own, an early write is
    safe exactly if the condition it can check holds. */
module RankZeroView {
  import opened AddressLists
  import opened CacheState
  import opened Options
  import opened Agreement
  import opened ParallelRun
  import opened ParallelSafety
  import opened ParallelSync
  import opened ParallelTheorems
  import opened ParallelProgress
  import opened EarlyWrites
  import opened CleanLists

  /** To rank 0, w2 looks like w. */
  ghost predicate LooksAlike(w: World, w2: World) {
    0 < |w.procs| == |w2.procs| && w2.procs[0] == w.procs[0] && w2.lists == w.lists && w2.bases == w.bases
  }

  // ----------------------------------------- what rank 0 has written so far

  /** Between sync points, whatever rank 0 lists as cleaned passed the test. */
  ghost predicate Careful(job: Job, w: World)
    requires Shaped(job, w)
  {
    var p := w.procs[0];
    p.phase.Running? || p.phase.Opening? ==> CarefulAt(job, w.bases[p.epoch], p.s.clist, p.pos)
  }

  ghost predicate CarefulAt(job: Job, b: Base, clist: set<Addr>, pos: nat)
    requires b.pos <= |job.script| && pos <= |job.script|
  {
    var g := ProgAt(job, pos);
    forall x | x in clist && x !in Pending(g) && x in g.truth :: FitsLastSync(job, b, x, g.truth[x])
  }

  /** What a step can do to rank 0, as far as its cleaned list is concerned. */
  lemma ZeroStepShape(job: Job, w: World, step: Step, w': World)
    requires Shaped(job, w) && Shaped(job, w') && StepTo(job, w, step, w')
    ensures var p, p' := w.procs[0], w'.procs[0];
      || (step.Exec? && step.r == 0)
      || step.EarlyFlush?
      || (p'.pos == p.pos && p'.epoch == p.epoch && p'.s.clist == p.s.clist && (p'.phase == p.phase || p'.phase.Deciding?))
      || p'.epoch != p.epoch
      || !(p'.phase.Running? || p'.phase.Opening?)
  {
    hide ValidJob, RunOp, CandidatesOk, ProgAt, MarkEntriesAsClean, OwnsAddr, Placed, TallyAt, SettleBytes, RankDemand,
         FlushEntry, ClearEntry, Sorted, BroadcastClean, TidyLists, ProtectedIn, DirtyIn, Elements;
    match step
    case Exec(_, cand) =>
    case Load(_, a) =>
    case Evict(_, a) =>
    case SetPin(_, a, pin) =>
    case EarlyFlush(a) =>
    case PassOpening(_) =>
    case ZeroFlush(a) =>
    case ZeroPost =>
    case ReceiveClean(_) =>
    case PostCandidates =>
    case ReceiveCandidates(_) =>
    case LocalCandidates(_) =>
    case WriteOne(_, a) =>
    case EndWriting(_) =>
    case Leave(_) =>
  }

  lemma ExecIsCareful(job: Job, w: World, cand: set<Addr>, w': World)
    requires w in Safe(job) && Shaped(job, w) && Shaped(job, w') && ExecStep(job, w, 0, cand, w') && Careful(job, w)
    ensures Careful(job, w')
  {
    hide Safe, GoodProcs, ProgAt, TallyAt, DemandAt, RunOp, Coherent, RankDemand, Agrees, CandidatesOk, ValidJob, Pending, FitsLastSync;
    RunningFacts(job, w, 0);
    var p := w.procs[0];
    ExecAgrees(job, w.bases[p.epoch], p.s, p.pos, RunOp(p.s, job.script[p.pos]).value);
  }

  lemma EarlyFlushIsCareful(job: Job, w: World, a: Addr, w': World)
    requires w in Safe(job) && Shaped(job, w) && Shaped(job, w') && EarlyFlushStep(job, w, a, w') && Careful(job, w)
    requires Heedful(job, w, EarlyFlush(a))
    ensures Careful(job, w')
  {
    hide Safe, GoodProcs, ProgAt, TallyAt, Pending, FitsLastSync, ValidJob, Live;
    RunningFacts(job, w, 0);
    assert w'.procs[0].s.clist <= w.procs[0].s.clist + {a};
  }

  lemma StepIsCareful(job: Job, w: World, step: Step, w': World)
    requires w in Safe(job) && Shaped(job, w) && w' in Safe(job) && Shaped(job, w')
    requires StepTo(job, w, step, w') && Careful(job, w) && (job.early ==> Heedful(job, w, step))
    ensures Careful(job, w')
  {
    hide Safe, ExecStep, EarlyFlushStep, CarefulAt;
    ZeroStepShape(job, w, step, w');
    StepExtendsHistory(job, w, step, w');
    JobHasRanks(job);
    if step.Exec? && step.r == 0 {
      ExecIsCareful(job, w, step.cand, w');
    } else if step.EarlyFlush? {
      OnlyEarlyJobsWriteEarly(job, w, step.addr, w');
      EarlyFlushIsCareful(job, w, step.addr, w');
    } else if w'.procs[0].epoch != w.procs[0].epoch {
      NothingLeftCleaned(job, w, step, w', 0);
      EmptyIsCareful(job, w'.bases[w'.procs[0].epoch], w'.procs[0].pos);
    }
  }

  lemma EmptyIsCareful(job: Job, b: Base, pos: nat)
    requires b.pos <= |job.script| && pos <= |job.script|
    ensures CarefulAt(job, b, {}, pos)
  {
  }

  lemma {:induction false} RunIsCareful(job: Job, ws: seq<World>, steps: seq<Step>, i: nat)
    requires Run(job, ws, steps) && i < |ws|
    ensures Shaped(job, ws[i]) && Careful(job, ws[i])
  {
    hide Safe, ValidJob, StepTo, CarefulAt, Placed;
    RunIsSafe(job, ws, steps, i);
    if i == 0 {
      JobHasRanks(job);
      EmptyIsCareful(job, Base(0, {}), 0);
    } else {
      RunIsSafe(job, ws, steps, i - 1);
      RunIsCareful(job, ws, steps, i - 1);
      StepIsCareful(job, ws[i - 1], steps[i - 1], ws[i]);
    }
  }

  // ------------------------------------------------------ reachable worlds

  ghost predicate Reachable(job: Job, w: World) {
    exists ws, steps :: RunTo(job, ws, steps, w)
  }

  ghost predicate RunTo(job: Job, ws: seq<World>, steps: seq<Step>, w: World) {
    Run(job, ws, steps) && ws[|steps|] == w
  }

  lemma ReachableIsSafe(job: Job, w: World)
    requires Reachable(job, w)
    ensures w in Safe(job) && Shaped(job, w)
  {
    hide Safe, Run, Shaped;
    var ws, steps :| RunTo(job, ws, steps, w);
    RunLength(job, ws, steps);
    RunIsSafe(job, ws, steps, |steps|);
  }

  lemma RunLength(job: Job, ws: seq<World>, steps: seq<Step>)
    requires Run(job, ws, steps)
    ensures |ws| == |steps| + 1
  {
  }

  lemma StartReaches(job: Job, w: World)
    requires ValidJob(job) && Init(job, w)
    ensures Reachable(job, w)
  {
    assert RunTo(job, [w], [], w);
  }

  lemma StepReaches(job: Job, w: World, step: Step, w': World)
    requires Reachable(job, w) && Shaped(job, w) && StepTo(job, w, step, w') && (job.early ==> Heedful(job, w, step))
    ensures Reachable(job, w')
  {
    hide Shaped, StepTo, Heedful, Init, ValidJob;
    var ws, steps :| RunTo(job, ws, steps, w);
    var ws1, steps1 := ws + [w'], steps + [step];
    forall i | 0 <= i < |steps1|
      ensures Shaped(job, ws1[i]) && StepTo(job, ws1[i], steps1[i], ws1[i + 1])
      ensures job.early ==> Heedful(job, ws1[i], steps1[i])
    {
      if i < |steps| {
        assert ws1[i] == ws[i] && ws1[i + 1] == ws[i + 1] && steps1[i] == steps[i];
      } else {
        assert ws1[i] == w && ws1[i + 1] == w' && steps1[i] == step;
      }
    }
    assert RunTo(job, ws1, steps1, w');
  }

  // ------------------------------------------------- ranks that lag behind

  /** Rank r has done nothing since the last sync point: it has yet to leave it, or there was
      none so far. */
  predicate StillThere(w: World, r: nat) {
    && r < |w.procs| && |w.bases| == |w.lists| + 1
    && w.procs[r].pos == w.bases[|w.lists|].pos
    && (if |w.lists| == 0 then w.procs[r].phase.Running? && w.procs[r].epoch == 0
        else Waits(w.procs[r]) && w.procs[r].epoch + 1 == |w.lists|)
  }

  /** w2 looks like w to rank 0, has the same file, and no other rank has moved on from the
      last sync point. */
  ghost predicate LagsBehind(w: World, w2: World) {
    LooksAlike(w, w2) && w2.disk == w.disk && forall r | 0 < r < |w2.procs| :: StillThere(w2, r)
  }

  /** Under process-0-only, a step of another rank changes nothing rank 0 or the file has. */
  lemma OthersStep(job: Job, w: World, step: Step, w': World)
    requires w in Safe(job) && Shaped(job, w) && StepTo(job, w, step, w') && job.early && Actor(step) != 0
    ensures LooksAlike(w, w') && w'.disk == w.disk
  {
    hide Safe, ValidJob, RunOp, CandidatesOk, ProgAt, MarkEntriesAsClean, OwnsAddr, Placed, TallyAt, SettleBytes, RankDemand,
         FlushEntry, ClearEntry, Sorted, BroadcastClean, TidyLists, ProtectedIn, DirtyIn, Elements;
    JobHasRanks(job);
    if Actor(step) < job.n {
      EarlyPlaces(job, w, Actor(step));
    }
  }

  lemma EarlyPlaces(job: Job, w: World, r: nat)
    requires w in Safe(job) && Shaped(job, w) && job.early && r < job.n
    ensures !Dist(job, w.procs[r].pos) && !w.procs[r].phase.Writing? && !w.procs[r].phase.Closing?
    ensures w.procs[r].s.cfg.strategy.ProcessZeroOnly?
  {
    hide Safe, Core, GoodProcs, ProgAt, TallyAt, HistoryInv, NoSyncBefore, SyncAt, DemandAt, CandidatesOk, MidWrite, BarrierInv, DiskInv,
         DirtyIn, Coherent, Live;
    SafeFacts(job, w);
    ProcFacts(job, w, r);
    ZeroOnlyPlace(job, w.procs[r].pos);
    ZeroOnlyPhases(job, w, r);
  }

  lemma ZeroOnlyPlace(job: Job, pos: nat)
    requires ValidJob(job) && job.early && pos <= |job.script|
    ensures !Dist(job, pos) && ProgAt(job, pos).cfg.strategy.ProcessZeroOnly?
  {
    hide ProgAt;
  }

  /** A step of rank 0 between sync points can be taken whatever the others are doing. */
  lemma ZeroStepsAlone(job: Job, w: World, step: Step, w': World, w2: World)
    requires Shaped(job, w) && StepTo(job, w, step, w') && Actor(step) == 0 && w.procs[0].phase.Running?
    requires Shaped(job, w2) && LagsBehind(w, w2)
    ensures |w'.procs| > 0 && var w2' := World(w2.procs[0 := w'.procs[0]], w'.disk, w2.lists, w2.bases);
      StepTo(job, w2, step, w2') && (Heedful(job, w, step) ==> Heedful(job, w2, step)) && LagsBehind(w', w2')
  {
    hide ValidJob, RunOp, CandidatesOk, ProgAt, MarkEntriesAsClean, OwnsAddr, Placed, TallyAt, SettleBytes, RankDemand,
         FlushEntry, ClearEntry, Sorted, BroadcastClean, TidyLists, ProtectedIn, DirtyIn, Elements, FitsLastSync;
    var w2' := World(w2.procs[0 := w'.procs[0]], w'.disk, w2.lists, w2.bases);
    assert w'.lists == w.lists && w'.bases == w.bases && |w'.procs| == |w.procs|;
    forall r | 0 < r < |w2'.procs| ensures StillThere(w2', r) {
      assert StillThere(w2, r);
    }
  }

  /** Rank 0 posts its clean list: everybody else is still at that sync point. */
  lemma PostingLeavesOthers(job: Job, w: World, step: Step, w': World)
    requires w in Safe(job) && Shaped(job, w) && StepTo(job, w, step, w') && job.early && Actor(step) == 0
    requires Shaped(job, w') && !w.procs[0].phase.Running? && w'.procs[0].phase.Running?
    ensures LagsBehind(w', w')
  {
    hide Safe, ValidJob, RunOp, CandidatesOk, ProgAt, MarkEntriesAsClean, OwnsAddr, Placed, TallyAt, SettleBytes, RankDemand,
         FlushEntry, ClearEntry, Sorted, BroadcastClean, TidyLists, ProtectedIn, DirtyIn, Elements, Agrees;
    JobHasRanks(job);
    EarlyPlaces(job, w, 0);
    forall r | 0 < r < |w'.procs| ensures StillThere(w', r) {
      var g, t := PosterAndReceiver(job, w, w', r);
    }
  }

  /** Whatever run has led to this view of rank 0, there is one with the same view in which no
      other rank has moved on from the last sync point. */
  lemma {:induction false} OthersMayLag(job: Job, ws: seq<World>, steps: seq<Step>, i: nat) returns (w2: World)
    requires Run(job, ws, steps) && job.early && i < |ws| && |ws[i].procs| > 0 && ws[i].procs[0].phase.Running?
    ensures Reachable(job, w2) && LagsBehind(ws[i], w2)
  {
    hide Run, Safe, Shaped, StepTo, Reachable, LagsBehind, Heedful, Init;
    RunIsSafe(job, ws, steps, i);
    RunParts(job, ws, steps, i);
    if i == 0 {
      w2 := ws[0];
      StartReaches(job, w2);
      StartLags(job, w2);
    } else {
      RunIsSafe(job, ws, steps, i - 1);
      var w, step := ws[i - 1], steps[i - 1];
      ShapedProcs(job, w);
      if Actor(step) != 0 {
        OthersStep(job, w, step, ws[i]);
        w2 := OthersMayLag(job, ws, steps, i - 1);
        SameView(w, ws[i], w2);
      } else if w.procs[0].phase.Running? {
        var w1 := OthersMayLag(job, ws, steps, i - 1);
        ReachableIsSafe(job, w1);
        ShapedProcs(job, w1);
        ZeroStepsAlone(job, w, step, ws[i], w1);
        w2 := World(w1.procs[0 := ws[i].procs[0]], ws[i].disk, w1.lists, w1.bases);
        StepReaches(job, w1, step, w2);
      } else {
        PostingLeavesOthers(job, w, step, ws[i]);
        w2 := ws[i];
        PrefixReaches(job, ws, steps, i);
      }
    }
  }

  lemma RunParts(job: Job, ws: seq<World>, steps: seq<Step>, i: nat)
    requires Run(job, ws, steps) && i < |ws|
    ensures ValidJob(job) && |ws| == |steps| + 1 && Init(job, ws[0])
    ensures i > 0 ==> Shaped(job, ws[i - 1]) && StepTo(job, ws[i - 1], steps[i - 1], ws[i])
                      && (job.early ==> Heedful(job, ws[i - 1], steps[i - 1]))
  {
    hide Init, ValidJob, StepTo, Heedful;
  }

  lemma ShapedProcs(job: Job, w: World)
    requires Shaped(job, w)
    ensures |w.procs| == job.n > 0
  {
  }

  lemma StartLags(job: Job, w: World)
    requires ValidJob(job) && Init(job, w)
    ensures LagsBehind(w, w)
  {
  }

  lemma SameView(w: World, w': World, w2: World)
    requires LooksAlike(w, w') && w'.disk == w.disk && LagsBehind(w, w2)
    ensures LagsBehind(w', w2)
  {
  }

  lemma {:induction false} PrefixReaches(job: Job, ws: seq<World>, steps: seq<Step>, i: nat)
    requires Run(job, ws, steps) && i < |ws|
    ensures Reachable(job, ws[i])
  {
    hide Run, Shaped, StepTo, Reachable, Heedful, Init, Safe;
    RunParts(job, ws, steps, i);
    if i == 0 {
      StartReaches(job, ws[0]);
    } else {
      PrefixReaches(job, ws, steps, i - 1);
      StepReaches(job, ws[i - 1], steps[i - 1], ws[i]);
    }
  }

  // ------------------------------------------------------ the exact condition

  /** Rank 0 may write entry `a` out whatever the other ranks are doing, as far as it can know,
      exactly if the condition it can check holds: the write is safe in every world that some
      run leads to and that looks the same to rank 0. */
  lemma SafeForAllRankZeroKnowsIff(job: Job, w: World, a: Addr)
    requires Reachable(job, w) && Shaped(job, w) && 1 < job.n && MayWriteEarly(job, w, a)
    ensures FitsLastSync(job, w.bases[w.procs[0].epoch], a, w.procs[0].s.cache[a].obj)
            <==> forall w2 | Reachable(job, w2) && LooksAlike(w, w2) :: WrittenEarly(w2, a) in Safe(job)
  {
    hide Safe, ProgAt, ValidJob, FitsLastSync, WrittenEarly, Reachable;
    if FitsLastSync(job, w.bases[w.procs[0].epoch], a, w.procs[0].s.cache[a].obj) {
      forall w2 | Reachable(job, w2) && LooksAlike(w, w2) ensures WrittenEarly(w2, a) in Safe(job) {
        ReachableIsSafe(job, w2);
        FittingWriteIsSafe(job, w2, a);
      }
    }
    var w2 := LaggingView(job, w);
    ReachableIsSafe(job, w2);
    assert StillThere(w2, 1);
    if WrittenEarly(w2, a) in Safe(job) {
      EarlyWriteIsSafeIff(job, w2, a, 1);
    }
  }

  lemma LaggingView(job: Job, w: World) returns (w2: World)
    requires Reachable(job, w) && job.early && |w.procs| > 0 && w.procs[0].phase.Running?
    ensures Reachable(job, w2) && LagsBehind(w, w2)
  {
    hide Run, LagsBehind;
    var ws, steps :| RunTo(job, ws, steps, w);
    RunLength(job, ws, steps);
    w2 := OthersMayLag(job, ws, steps, |steps|);
  }

  // ----------------------------------------------------- the harm, in a run

  /** Rank 1 is back from the last sync point and has done nothing since. */
  predicate JustBack(w: World) {
    && 1 < |w.procs| && |w.bases| == |w.lists| + 1
    && var p := w.procs[1];
    && p.phase.Running? && p.epoch == |w.lists| && p.pos == w.bases[|w.lists|].pos
  }

  lemma RankOneReturns(job: Job, w: World) returns (w2: World)
    requires Reachable(job, w) && job.early && 1 < |w.procs| && StillThere(w, 1) && w.procs[0].phase.Running?
    ensures Reachable(job, w2) && LooksAlike(w, w2) && JustBack(w2)
  {
    hide Safe, Shaped, StepTo, Reachable, AllArrived, Heedful;
    ReachableIsSafe(job, w);
    w2 := w;
    if |w.lists| > 0 {
      ShapedProcs(job, w);
      SyncBarrier(job, w);
      var w1 := w;
      if w.procs[1].phase.Opening? {
        var step;
        step, w1 := PastOpening(job, w, |w.lists| - 1, 1);
        PassesOpening(job, w, w1);
        StepReaches(job, w, step, w1);
      }
      ReachableIsSafe(job, w1);
      EarlyPlaces(job, w1, 1);
      var step;
      step, w2 := ReceiverCanClean(job, w1, 1);
      Returns(job, w1, w2);
      StepReaches(job, w1, step, w2);
    }
  }

  lemma PassesOpening(job: Job, w: World, w': World)
    requires Shaped(job, w) && StepTo(job, w, PassOpening(1), w') && 1 < |w.procs| && StillThere(w, 1)
    ensures LooksAlike(w, w') && StillThere(w', 1) && w'.procs[1].phase.Deciding? && Heedful(job, w, PassOpening(1))
  {
  }

  lemma Returns(job: Job, w: World, w': World)
    requires Shaped(job, w) && StepTo(job, w, ReceiveClean(1), w') && 1 < |w.procs| && StillThere(w, 1) && |w.lists| > 0
    ensures LooksAlike(w, w') && JustBack(w') && Heedful(job, w, ReceiveClean(1))
  {
    hide MarkEntriesAsClean;
  }

  /** An entry that is clean and not protected can leave the cache of rank 1. */
  lemma RankOneForgets(job: Job, w: World, a: Addr) returns (w2: World)
    requires Reachable(job, w) && Shaped(job, w) && JustBack(w)
    requires var b := w.bases[|w.lists|]; a in Settled(ProgAt(job, b.pos), b.dirty) && a !in ProgAt(job, b.pos).prot
    ensures Reachable(job, w2) && LooksAlike(w, w2) && JustBack(w2) && a !in w2.procs[1].s.cache
  {
    hide Safe, Shaped, Reachable, ProgAt, SetPinStep, EvictStep;
    w2 := w;
    if a in w.procs[1].s.cache {
      CleanAtSync(job, w, a);
      var w1 := Put(w, 1, w.procs[1].(s := Unpinned(w.procs[1].s, a)));
      Unpins(w, a, w1);
      StepReaches(job, w, SetPin(1, a, false), w1);
      ReachableIsSafe(job, w1);
      w2 := Put(w1, 1, w1.procs[1].(s := w1.procs[1].s.(cache := w1.procs[1].s.cache - {a})));
      Evicts(w1, a, w2);
      StepReaches(job, w1, Evict(1, a), w2);
    }
  }

  function Unpinned(s: Rank, a: Addr): Rank
    requires a in s.cache
  {
    s.(cache := s.cache[a := s.cache[a].(pinned := false)])
  }

  lemma Unpins(w: World, a: Addr, w': World)
    requires JustBack(w) && a in w.procs[1].s.cache && w' == Put(w, 1, w.procs[1].(s := Unpinned(w.procs[1].s, a)))
    ensures SetPinStep(w, 1, a, false, w') && LooksAlike(w, w') && JustBack(w')
  {
  }

  lemma Evicts(w: World, a: Addr, w': World)
    requires JustBack(w) && a in w.procs[1].s.cache
    requires var e := w.procs[1].s.cache[a]; !e.dirty && !e.pinned && !e.prot
    requires w' == Put(w, 1, w.procs[1].(s := w.procs[1].s.(cache := w.procs[1].s.cache - {a})))
    ensures EvictStep(w, 1, a, w') && LooksAlike(w, w') && JustBack(w') && a !in w'.procs[1].s.cache
  {
  }

  lemma CleanAtSync(job: Job, w: World, a: Addr)
    requires Reachable(job, w) && Shaped(job, w) && JustBack(w) && a in w.procs[1].s.cache
    requires var b := w.bases[|w.lists|]; a in Settled(ProgAt(job, b.pos), b.dirty) && a !in ProgAt(job, b.pos).prot
    ensures var e := w.procs[1].s.cache[a]; !e.dirty && !e.prot
  {
    hide Safe, Core, GoodProcs, Reachable, ProgAt, Live, CleanedOnDisk;
    ReachableIsSafe(job, w);
    RunningFacts(job, w, 1);
    assert a !in DirtySet(w.procs[1].s);
  }

  /** If the condition fails for an entry that was not protected at the last sync point, there
      is a run with the same view of rank 0 in which the write leaves rank 1 with content the
      program does not have at its place. */
  lemma UnfitWriteIsRead(job: Job, w: World, a: Addr) returns (w2: World, w3: World, w4: World)
    requires Reachable(job, w) && Shaped(job, w) && 1 < job.n && MayWriteEarly(job, w, a)
    requires var b := w.bases[w.procs[0].epoch];
      !FitsLastSync(job, b, a, w.procs[0].s.cache[a].obj) && a !in ProgAt(job, b.pos).prot
    ensures Reachable(job, w2) && Shaped(job, w2) && LooksAlike(w, w2)
    ensures EarlyFlushStep(job, w2, a, w3) && LoadStep(job, w3, 1, a, w4) && w4.procs[1].pos <= |job.script|
    ensures a in w4.procs[1].s.cache && a in ProgAt(job, w4.procs[1].pos).truth
            && w4.procs[1].s.cache[a].obj != ProgAt(job, w4.procs[1].pos).truth[a]
  {
    hide Safe, ProgAt, Reachable, LagsBehind;
    ReachableIsSafe(job, w);
    RunningFacts(job, w, 0);
    var w0 := LaggingView(job, w);
    LagFacts(w, w0);
    var w1 := RankOneReturns(job, w0);
    ReachableIsSafe(job, w1);
    w2 := RankOneForgets(job, w1, a);
    ReachableIsSafe(job, w2);
    w3 := WrittenEarly(w2, a);
    var p := w3.procs[1];
    w4 := Put(w3, 1, p.(s := p.s.(cache := p.s.cache[a := Entry(w3.disk[a], false, false, false, false, false)])));
  }

  lemma LagFacts(w: World, w2: World)
    requires LagsBehind(w, w2) && 1 < |w.procs|
    ensures LooksAlike(w, w2) && StillThere(w2, 1)
  {
  }
}
