/** The steps a rank takes through a sync point, as MPI calls: they are the calls its routine
    makes. */
module RoutineTrace {
  import opened AddressLists
  import opened CacheState
  import opened Options
  import opened Agreement
  import opened SyncEffects
  import opened ParallelRun
  import opened ParallelSafety
  import opened ParallelSync
  import opened ParallelTheorems
  import opened ParallelProgress
  import opened WrittenOnce

  /** The MPI calls behind a step, as far as rank r makes them: passing the opening barrier,
      sending or receiving a list, leaving through the closing barrier. */
  ghost function CallsOf(w: World, step: Step, r: nat): seq<Call>
    requires r < |w.procs|
  {
    var p := w.procs[r];
    match step
    case PassOpening(q) => if q == r then [Barrier] else []
    case ZeroPost => if r == 0 then Announced(Sorted(p.s.clist)) else []
    case ReceiveClean(q) => if q == r && p.epoch < |w.lists| then Announced(w.lists[p.epoch]) else []
    case PostCandidates => if r == 0 then Announced(Sorted(p.s.cand)) else []
    case ReceiveCandidates(q) => if q == r && p.epoch < |w.lists| then Announced(w.lists[p.epoch]) else []
    case Leave(q) => if q == r then [Barrier] else []
    case _ => []
  }

  /** A list is announced by its length, and sent if there is anything to send. */
  function Announced(list: seq<Addr>): seq<Call> {
    if list == [] then [BcastCount(0)] else [BcastCount(|list|), BcastList(list)]
  }

  /** What rank r has called in steps i to j. */
  ghost function Trace(ws: seq<World>, steps: seq<Step>, i: nat, j: nat, r: nat): seq<Call>
    requires i <= j <= |steps| < |ws| && forall m | i <= m < j :: r < |ws[m].procs|
    decreases j
  {
    if i == j then [] else Trace(ws, steps, i, j - 1, r) + CallsOf(ws[j - 1], steps[j - 1], r)
  }

  /** What a rank has called by the time it is where p is in its sync point. */
  ghost predicate CalledBy(p: Proc, flush: bool, calls: seq<Call>) {
    match p.phase
    case Running => false
    case Opening => calls == []
    case Deciding => calls == [Barrier]
    case Writing(list, _) => list != [] && calls == [Barrier] + if flush then [] else Announced(list)
    case Closing(list) => list != [] && calls == [Barrier] + if flush then [] else Announced(list)
  }

  /** What it has called when it is back. */
  ghost predicate CalledInAll(dist: bool, flush: bool, list: seq<Addr>, calls: seq<Call>) {
    calls == [Barrier] + (if dist && flush then [] else Announced(list)) + if dist && list != [] then [Barrier] else []
  }

  /** Rank r goes on from p to p' making the calls `more`. */
  ghost predicate GoesOnCalling(job: Job, p: Proc, p': Proc, lists: seq<seq<Addr>>, more: seq<Call>)
    requires 0 < p.pos <= |job.script|
  {
    var flush := job.script[p.pos - 1].Flush?;
    && p'.pos == p.pos
    && forall calls | CalledBy(p, flush, calls) ::
         if p'.epoch == p.epoch then CalledBy(p', flush, calls + more)
         else p'.epoch == p.epoch + 1 && p.epoch < |lists| && CalledInAll(Dist(job, p.pos), flush, lists[p.epoch], calls + more)
  }

  /** A rank that takes no step makes no call. */
  lemma Bystander(job: Job, w: World, step: Step, w': World, r: nat)
    requires Shaped(job, w) && StepTo(job, w, step, w') && r < job.n && |w'.procs| == job.n && Actor(step) != r
    ensures w'.procs[r] == w.procs[r] && CallsOf(w, step, r) == []
  {
    hide ValidJob, RunOp, CandidatesOk, ProgAt, MarkEntriesAsClean, OwnsAddr, Placed, TallyAt, SettleBytes, RankDemand,
         FlushEntry, ClearEntry, Sorted, BroadcastClean, TidyLists, ProtectedIn, DirtyIn, Elements, Announced;
    match step
    case Exec(_, cand) =>
    case Load(_, a) =>
    case Evict(_, a) =>
    case SetPin(_, a, pin) =>
    case EarlyFlush(a) =>
    case PassOpening(_) =>
    case ZeroFlush(a) =>
    case ZeroPost =>
    case ReceiveClean(_) =>
    case PostCandidates =>
    case ReceiveCandidates(_) =>
    case LocalCandidates(_) =>
    case WriteOne(_, a) =>
    case EndWriting(_) =>
    case Leave(_) =>
  }

  lemma StaysPut(job: Job, p: Proc, lists: seq<seq<Addr>>)
    requires 0 < p.pos <= |job.script|
    ensures GoesOnCalling(job, p, p, lists, [])
  {
    hide CalledBy;
    assert forall calls: seq<Call> :: calls + [] == calls;
  }

  /** Steps that call nothing: writing out or clearing entries, and passing from the list being
      applied to waiting at the closing barrier. */
  lemma QuietSteps(job: Job, w: World, step: Step, w': World, r: nat)
    requires Shaped(job, w) && StepTo(job, w, step, w') && r < job.n && |w'.procs| == job.n && Actor(step) == r
    requires !w.procs[r].phase.Running? && 0 < w.procs[r].pos <= |job.script|
    requires step.ZeroFlush? || step.WriteOne? || step.EndWriting?
    ensures GoesOnCalling(job, w.procs[r], w'.procs[r], w'.lists, CallsOf(w, step, r))
  {
    hide ValidJob, ProgAt, OwnsAddr, Placed, TallyAt, FlushEntry, ClearEntry, DirtyIn, Elements, Announced;
    assert forall calls: seq<Call> :: calls + [] == calls;
  }

  lemma BarrierSteps(job: Job, w: World, step: Step, w': World, r: nat)
    requires w in Safe(job) && Shaped(job, w) && StepTo(job, w, step, w') && r < job.n && |w'.procs| == job.n && Actor(step) == r
    requires !w.procs[r].phase.Running? && 0 < w.procs[r].pos <= |job.script|
    requires step.PassOpening? || step.Leave?
    ensures GoesOnCalling(job, w.procs[r], w'.procs[r], w'.lists, CallsOf(w, step, r))
  {
    hide Safe, ValidJob, ProgAt, Placed, TallyAt, SyncAt, Elements, Announced, TidyLists, Agrees, MidWrite;
    SyncFacts(job, w, r);
  }

  lemma CleanListSteps(job: Job, w: World, step: Step, w': World, r: nat)
    requires w in Safe(job) && Shaped(job, w) && StepTo(job, w, step, w') && r < job.n && |w'.procs| == job.n && Actor(step) == r
    requires 0 < w.procs[r].pos <= |job.script|
    requires step.ZeroPost? || step.ReceiveClean?
    ensures GoesOnCalling(job, w.procs[r], w'.procs[r], w'.lists, CallsOf(w, step, r))
  {
    hide Safe, ValidJob, ProgAt, Placed, TallyAt, SyncAt, Elements, Announced, MarkEntriesAsClean, Sorted, BroadcastClean, DirtyIn, Agrees;
    SyncFacts(job, w, r);
  }

  lemma CandidateListSteps(job: Job, w: World, step: Step, w': World, r: nat)
    requires w in Safe(job) && Shaped(job, w) && StepTo(job, w, step, w') && r < job.n && |w'.procs| == job.n && Actor(step) == r
    requires 0 < w.procs[r].pos <= |job.script|
    requires step.PostCandidates? || step.ReceiveCandidates? || step.LocalCandidates?
    ensures GoesOnCalling(job, w.procs[r], w'.procs[r], w'.lists, CallsOf(w, step, r))
  {
    hide Safe, ValidJob, ProgAt, Placed, TallyAt, SyncAt, Elements, Announced, Sorted, DirtyIn, Agrees;
    SyncFacts(job, w, r);
    if step.LocalCandidates? && w.procs[r].epoch < |w.lists| {
      LocalListIsTheList(job, w, r);
    }
  }

  lemma StepCalls(job: Job, w: World, step: Step, w': World, r: nat)
    requires w in Safe(job) && Shaped(job, w) && StepTo(job, w, step, w') && r < job.n && |w'.procs| == job.n
    requires !w.procs[r].phase.Running? && 0 < w.procs[r].pos <= |job.script|
    ensures GoesOnCalling(job, w.procs[r], w'.procs[r], w'.lists, CallsOf(w, step, r))
  {
    hide Safe, StepTo, ValidJob, Placed, GoesOnCalling, CallsOf;
    if Actor(step) != r {
      Bystander(job, w, step, w', r);
      StaysPut(job, w.procs[r], w'.lists);
    } else if step.PassOpening? || step.Leave? {
      BarrierSteps(job, w, step, w', r);
    } else if step.ZeroPost? || step.ReceiveClean? {
      CleanListSteps(job, w, step, w', r);
    } else if step.PostCandidates? || step.ReceiveCandidates? || step.LocalCandidates? {
      CandidateListSteps(job, w, step, w', r);
    } else if step.ZeroFlush? || step.WriteOne? || step.EndWriting? {
      QuietSteps(job, w, step, w', r);
    } else {
      RunningSteps(job, w, step, w');
    }
  }

  lemma RunningSteps(job: Job, w: World, step: Step, w': World)
    requires Shaped(job, w) && StepTo(job, w, step, w')
    requires step.Exec? || step.Load? || step.Evict? || step.SetPin? || step.EarlyFlush?
    ensures Actor(step) < |w.procs| && w.procs[Actor(step)].phase.Running?
  {
    hide ValidJob, RunOp, CandidatesOk, ProgAt, Placed, TallyAt, SettleBytes, RankDemand, FlushEntry;
  }

  // ------------------------------------------------------------- over a run

  lemma {:induction false} TraceSoFar(job: Job, ws: seq<World>, steps: seq<Step>, i: nat, j: nat, r: nat)
    requires Run(job, ws, steps) && i <= j < |ws| == |steps| + 1 && r < job.n && (forall m | i <= m <= j :: |ws[m].procs| == job.n)
    requires ws[i].procs[r].phase.Opening? && 0 < ws[i].procs[r].pos <= |job.script|
    requires forall m | i <= m <= j :: ws[m].procs[r].epoch == ws[i].procs[r].epoch
    ensures ws[j].procs[r].pos == ws[i].procs[r].pos
    ensures CalledBy(ws[j].procs[r], job.script[ws[i].procs[r].pos - 1].Flush?, Trace(ws, steps, i, j, r))
    decreases j
  {
    hide Run, Safe, StepTo, Shaped, CallsOf;
    if i < j {
      TraceSoFar(job, ws, steps, i, j - 1, r);
      OneStep(job, ws, steps, j - 1);
      RunIsSafe(job, ws, steps, j - 1);
      StepCalls(job, ws[j - 1], steps[j - 1], ws[j], r);
    }
  }

  /** From arriving at a sync point to leaving it, a rank makes exactly the calls of its routine:
      the opening barrier, the list, and the closing barrier if there was a list to apply. */
  lemma StepsMakeTheCalls(job: Job, ws: seq<World>, steps: seq<Step>, i: nat, j: nat, r: nat)
    requires Run(job, ws, steps) && i < j < |ws| == |steps| + 1 && r < job.n && (forall m | i <= m <= j :: |ws[m].procs| == job.n)
    requires ws[i].procs[r].phase.Opening? && 0 < ws[i].procs[r].pos <= |job.script|
    requires forall m | i <= m < j :: ws[m].procs[r].epoch == ws[i].procs[r].epoch
    requires ws[j].procs[r].epoch != ws[i].procs[r].epoch && ws[i].procs[r].epoch < |ws[j].lists|
    ensures var p, list := ws[i].procs[r], ws[j].lists[ws[i].procs[r].epoch];
      Trace(ws, steps, i, j, r)
      == SyncCalls(p.s.cfg, if job.script[p.pos - 1].Flush? then WholeCache else ToMinClean, list, true, true)
  {
    hide Run, Safe, StepTo, Shaped, CallsOf, SyncCalls, ProgAt;
    TraceSoFar(job, ws, steps, i, j - 1, r);
    OneStep(job, ws, steps, j - 1);
    RunIsSafe(job, ws, steps, j - 1);
    RunIsSafe(job, ws, steps, i);
    StepCalls(job, ws[j - 1], steps[j - 1], ws[j], r);
    RunIsSafe(job, ws, steps, j);
    var p, list := ws[i].procs[r], ws[j].lists[ws[i].procs[r].epoch];
    SyncFacts(job, ws[i], r);
    RunIsAnyRun(job, ws, steps);
    HistoryOnlyGrows(job, ws, steps, i, j);
    DueHere(job, ws[i].bases[p.epoch], p.pos);
    if Dist(job, p.pos) && job.script[p.pos - 1].Flush? {
      FlushHasAList(job, ws[j], p.epoch, p.pos);
    }
    CallsInAll(p.s.cfg, job.script[p.pos - 1].Flush?, list, Trace(ws, steps, i, j, r));
  }

  lemma CallsInAll(cfg: Config, flush: bool, list: seq<Addr>, calls: seq<Call>)
    requires CalledInAll(cfg.strategy.Distributed?, flush, list, calls) && (flush || cfg.evictions)
    requires cfg.strategy.Distributed? && flush ==> list != []
    ensures calls == SyncCalls(cfg, if flush then WholeCache else ToMinClean, list, true, true)
  {
  }

  lemma DueHere(job: Job, b: Base, p: nat)
    requires ValidJob(job) && SyncAt(job, b, p)
    ensures job.script[p - 1].Flush? || ProgAt(job, p).cfg.evictions
  {
    hide TallyAt, TallyOp, NoSyncBefore;
    assert OpOk(ProgAt(job, p - 1), job.script[p - 1]);
  }

  lemma FlushHasAList(job: Job, w: World, k: nat, pos: nat)
    requires w in Safe(job) && Shaped(job, w) && k < |w.lists| && SyncAt(job, w.bases[k], pos)
    requires Dist(job, pos) && job.script[pos - 1].Flush?
    ensures w.lists[k] != []
  {
    hide Safe, Core, GoodProcs, ProgAt, TallyAt, SyncAt, DemandAt, BarrierInv, DiskInv;
    SafeFacts(job, w);
    CoreFacts(job, w);
    assert DecidedOk(job, w.bases[k], w.lists[k], w.bases[k + 1]);
    SyncPlaceUnique(job, w.bases[k], pos, w.bases[k + 1].pos);
    FlushIsForSomething(job, w.bases[k], pos);
    EmptyList();
  }

  lemma FlushIsForSomething(job: Job, b: Base, p: nat)
    requires ValidJob(job) && SyncAt(job, b, p) && Dist(job, p) && job.script[p - 1].Flush?
    ensures TallyAt(job, b, p).dirty != {}
  {
    hide NoSyncBefore, TallyOp;
    assert OpOk(ProgAt(job, p - 1), job.script[p - 1]);
  }
}
