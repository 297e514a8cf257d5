/** Inside a sync point: nothing but dirty flags changes, and the sync point completes. */
module ParallelProgress {
  import opened AddressLists
  import opened CacheState
  import opened Options
  import opened Agreement
  import opened ParallelRun
  import opened ParallelSafety
  import opened ParallelSync
  import opened ParallelTheorems

  /** The rank that takes a step. */
  function Actor(step: Step): nat {
    match step
    case EarlyFlush(_) => 0
    case ZeroFlush(_) => 0
    case ZeroPost => 0
    case PostCandidates => 0
    case _ => step.r
  }

  /** A step taken inside a sync point, as opposed to one between sync points. */
  predicate SyncStep(step: Step) {
    !step.Exec? && !step.Load? && !step.Evict? && !step.SetPin? && !step.EarlyFlush?
  }

  // ------------------------------------------------------- what can happen

  /** Between sync points a rank can run the next operation as soon as it is accepted.  If it is
      rank 0 and comes to a distributed partial clean by it, it can pick any unprotected dirty
      entries as candidates. */
  lemma CanRunNext(job: Job, w: World, r: nat, pick: set<Addr>) returns (cand: set<Addr>, w': World)
    requires Shaped(job, w) && r < job.n && w.procs[r].phase.Running? && w.procs[r].pos < |job.script|
    requires RunOp(w.procs[r].s, job.script[w.procs[r].pos]).Some?
    requires var s := RunOp(w.procs[r].s, job.script[w.procs[r].pos]).value; pick <= DirtySet(s) - ProtectedSet(s)
    ensures StepTo(job, w, Exec(r, cand), w')
    ensures var op, s := job.script[w.procs[r].pos], w'.procs[r].s;
      |w'.procs| == job.n && w'.procs[r].phase.Opening? && s.zero && !op.Flush? && s.cfg.strategy.Distributed? ==> s.cand == pick
  {
    hide RunOp, ProgAt, ValidJob, Placed;
    var p, op := w.procs[r], job.script[w.procs[r].pos];
    var s := RunOp(p.s, op).value;
    var d := RankDemand(s, op);
    cand := if !d.SyncPoint? || !s.cfg.strategy.Distributed? then {}
            else if d.extent.WholeCache? then DirtySet(s) else if s.zero then pick else {};
    w' := Put(w, r, Proc(SettleBytes(s, op).(cand := cand), p.pos + 1, p.epoch, if d.SyncPoint? then Opening else Running));
    assert ExecStep(job, w, r, cand, w');
  }

  /** And it can read any object of the program that it does not hold. */
  lemma CanLoad(job: Job, w: World, r: nat, a: Addr) returns (w': World)
    requires w in Safe(job) && Shaped(job, w) && r < job.n && w.procs[r].phase.Running?
    requires a in ProgAt(job, w.procs[r].pos).truth && a !in w.procs[r].s.cache
    ensures StepTo(job, w, Load(r, a), w')
    ensures |w'.procs| == job.n && a in w'.procs[r].s.cache
            && w'.procs[r].s.cache[a] == Entry(ProgAt(job, w.procs[r].pos).truth[a], false, false, false, false, false)
  {
    hide Safe, ProgAt, ValidJob;
    LoadIsCurrent(job, w, r, a);
    var p := w.procs[r];
    w' := Put(w, r, p.(s := p.s.(cache := p.s.cache[a := Entry(w.disk[a], false, false, false, false, false)])));
    assert LoadStep(job, w, r, a, w');
  }

  // --------------------------------------------- only dirty flags change

  predicate OnlyCleaner(c: map<Addr, Entry>, c': map<Addr, Entry>) {
    && c'.Keys == c.Keys
    && forall a | a in c :: c'[a] == c[a] || c'[a] == c[a].(dirty := false)
  }

  lemma MarkingOnlyCleans(s: Rank, list: set<Addr>, s1: Rank)
    requires MarkEntriesAsClean(s, list) == Some(s1) && list !! ProtectedSet(s)
    ensures OnlyCleaner(s.cache, s1.cache)
  {
    forall a | a in s.cache ensures s1.cache[a] == s.cache[a] || s1.cache[a] == s.cache[a].(dirty := false) {
      assert s.cache[a].prot ==> a in ProtectedSet(s);
    }
  }

  /** What a receiver marks clean is not protected on it, so no entry is left waiting to be
      cleared when it is released. */
  lemma ReceivedListIsUnprotected(job: Job, w: World, r: nat)
    requires w in Safe(job) && Shaped(job, w) && r < job.n && !w.procs[r].phase.Running?
    requires w.procs[r].epoch < |w.lists|
    ensures Elements(w.lists[w.procs[r].epoch]) !! ProtectedSet(w.procs[r].s)
  {
    hide Safe, Core, GoodProcs, ProgAt, TallyAt, SyncAt, DemandAt, CandidatesOk, CleanedOnDisk, Elements, MidWrite,
         RankInv, HistoryInv, Agrees, DirtyIn;
    SyncFacts(job, w, r);
  }

  lemma SyncStepOnlyCleans(job: Job, w: World, step: Step, w': World, r: nat)
    requires w in Safe(job) && Shaped(job, w) && StepTo(job, w, step, w') && r < job.n && |w'.procs| == job.n
    requires !w.procs[r].phase.Running?
    ensures OnlyCleaner(w.procs[r].s.cache, w'.procs[r].s.cache)
  {
    hide Safe, ValidJob, RunOp, CandidatesOk, ProgAt, MarkEntriesAsClean, OwnsAddr, Placed, TallyAt, SettleBytes, RankDemand,
         Sorted, ProtectedIn, DirtyIn, Elements, OnlyCleaner;
    CleanerIsReflexive(w.procs[r].s.cache);
    match step
    case Exec(_, cand) =>
    case Load(_, a) =>
    case Evict(_, a) =>
    case SetPin(_, a, pin) =>
    case EarlyFlush(a) =>
    case PassOpening(_) =>
    case ZeroFlush(a) => OneCleaner(w.procs[0].s.cache, a);
    case ZeroPost =>
    case ReceiveClean(q) =>
      ReceivedListIsUnprotected(job, w, q);
      MarkingOnlyCleans(w.procs[q].s, Elements(w.lists[w.procs[q].epoch]), MarkEntriesAsClean(w.procs[q].s, Elements(w.lists[w.procs[q].epoch])).value);
    case PostCandidates =>
    case ReceiveCandidates(_) =>
    case LocalCandidates(_) =>
    case WriteOne(q, a) => OneCleaner(w.procs[q].s.cache, a);
    case EndWriting(_) =>
    case Leave(_) =>
  }

  lemma CleanerIsReflexive(c: map<Addr, Entry>)
    ensures OnlyCleaner(c, c)
  {
  }

  lemma OneCleaner(c: map<Addr, Entry>, a: Addr)
    requires a in c
    ensures OnlyCleaner(c, c[a := c[a].(dirty := false)])
  {
  }

  /** From arriving at a sync point to leaving it, a rank's cache changes only in that dirty
      entries become clean: no entry comes, goes, moves or changes content or protection.
      Which entries are clean afterwards is what SyncPointIsAtomic says. */
  lemma {:induction false} SyncPointOnlyCleans(job: Job, ws: seq<World>, steps: seq<Step>, i: nat, j: nat, r: nat)
    requires Run(job, ws, steps) && i <= j < |ws| && r < job.n
    requires forall m | i <= m <= j :: |ws[m].procs| == job.n
    requires forall m | i <= m < j :: !ws[m].procs[r].phase.Running?
    ensures OnlyCleaner(ws[i].procs[r].s.cache, ws[j].procs[r].s.cache)
    decreases j
  {
    hide Safe, ValidJob, Init, StepTo, Shaped;
    if i < j {
      SyncPointOnlyCleans(job, ws, steps, i, j - 1, r);
      RunIsSafe(job, ws, steps, j - 1);
      SyncStepOnlyCleans(job, ws[j - 1], steps[j - 1], ws[j], r);
    }
  }

  // ------------------------------------------------------------- progress

  /** An upper bound on the steps rank p still has to take in its sync point. */
  function Work(p: Proc): nat {
    match p.phase
    case Running => 0
    case Closing(_) => 1
    case Writing(_, todo) => 2 + |todo|
    case Deciding => 3 + |p.s.cache| + |DirtySet(p.s)|
    case Opening => 4 + 2 * |p.s.cache|
  }

  function TotalWork(procs: seq<Proc>): nat {
    if procs == [] then 0 else Work(procs[0]) + TotalWork(procs[1..])
  }

  lemma {:induction false} LessWork(procs: seq<Proc>, r: nat, p': Proc)
    requires r < |procs| && Work(p') < Work(procs[r])
    ensures TotalWork(procs[r := p']) < TotalWork(procs)
  {
    if r == 0 {
      assert procs[0 := p'][1..] == procs[1..];
    } else {
      LessWork(procs[1..], r - 1, p');
      assert procs[r := p'][1..] == procs[1..][r - 1 := p'];
    }
  }

  /** The dirty and the listed entries of a rank in a sync point are in its cache. */
  lemma ListIsCached(job: Job, w: World, r: nat)
    requires w in Safe(job) && Shaped(job, w) && r < job.n && w.procs[r].phase.Deciding?
    ensures |DirtySet(w.procs[r].s)| <= |w.procs[r].s.cache|
    ensures Dist(job, w.procs[r].pos) ==> w.procs[r].s.cand <= DirtySet(w.procs[r].s)
    ensures Dist(job, w.procs[r].pos) && w.procs[r].epoch < |w.lists| ==>
              Elements(w.lists[w.procs[r].epoch]) <= DirtySet(w.procs[r].s)
  {
    hide Safe, Core, GoodProcs, ProgAt, TallyAt, SyncAt, DemandAt, CleanedOnDisk, Elements, MidWrite, HistoryInv, Live, Coherent;
    SyncFacts(job, w, r);
    var p := w.procs[r];
    SubsetIsSmaller(DirtySet(p.s), p.s.cache.Keys);
    if Dist(job, p.pos) {
      NothingCleanedYet(p.s, ProgAt(job, p.pos), TallyAt(job, w.bases[p.epoch], p.pos));
    }
  }

  lemma CleanedIsSmaller(s: Rank, a: Addr)
    requires a in s.cache && s.cache[a].dirty
    ensures |FlushEntry(s, a).cache| == |s.cache| && |DirtySet(FlushEntry(s, a))| < |DirtySet(s)|
  {
    assert FlushEntry(s, a).cache.Keys == s.cache.Keys;
    assert DirtySet(FlushEntry(s, a)) == DirtySet(s) - {a};
  }

  lemma BeginIsLess(p: Proc, list: seq<Addr>)
    requires p.phase.Deciding? && Elements(list) <= DirtySet(p.s)
    ensures Work(Begin(p, list)) < Work(p) && Advances(p, Begin(p, list))
  {
    SubsetIsSmaller(Elements(list), DirtySet(p.s));
  }

  lemma TakingListIsProgress(job: Job, w: World, r: nat, list: seq<Addr>)
    requires w in Safe(job) && Shaped(job, w) && r < job.n && w.procs[r].phase.Deciding?
    requires w.procs[r].s.cfg.strategy.Distributed?
    requires list == Sorted(w.procs[r].s.cand)
             || (w.procs[r].epoch < |w.lists| && list == w.lists[w.procs[r].epoch])
    ensures Work(Begin(w.procs[r], list)) < Work(w.procs[r]) && Advances(w.procs[r], Begin(w.procs[r], list))
  {
    hide Safe, Begin, Work, DirtyIn, ProgAt, TallyAt, SyncAt, Elements, Dist;
    SyncFacts(job, w, r);
    ListIsCached(job, w, r);
    BeginIsLess(w.procs[r], list);
  }

  lemma DirtyIsCached(s: Rank)
    ensures |DirtySet(s)| <= |s.cache|
  {
    SubsetIsSmaller(DirtySet(s), s.cache.Keys);
  }

  /** A rank goes back to running only by starting its next epoch. */
  predicate Advances(p: Proc, p': Proc) {
    p'.epoch >= p.epoch && (p'.phase.Running? ==> p'.epoch > p.epoch)
  }

  /** Rank r alone moved, and is closer to leaving its sync point. */
  ghost predicate Progress(w: World, w': World, r: nat) {
    && r < |w.procs| && !w.procs[r].phase.Running?
    && |w'.procs| == |w.procs| && w'.procs == w.procs[r := w'.procs[r]]
    && Advances(w.procs[r], w'.procs[r])
    && Work(w'.procs[r]) < Work(w.procs[r])
  }

  lemma WritingIsProgress(job: Job, w: World, step: Step, w': World)
    requires Shaped(job, w) && StepTo(job, w, step, w')
    requires step.PassOpening? || step.ZeroFlush? || step.WriteOne? || step.EndWriting? || step.Leave?
    ensures Progress(w, w', Actor(step))
  {
    hide Shaped, OwnsAddr, DirtyIn, Elements, FlushEntry, ClearEntry, TidyLists, Progress, AllArrived, AllClosed;
    match step
    case PassOpening(r) =>
      DirtyIsCached(w.procs[r].s);
      MakeProgress(w, w', r, w'.procs[r]);
    case ZeroFlush(a) =>
      CleanedIsSmaller(w.procs[0].s, a);
      MakeProgress(w, w', 0, w'.procs[0]);
    case WriteOne(r, a) => MakeProgress(w, w', r, w'.procs[r]);
    case EndWriting(r) => MakeProgress(w, w', r, w'.procs[r]);
    case Leave(r) => MakeProgress(w, w', r, w'.procs[r]);
  }

  lemma MakeProgress(w: World, w': World, r: nat, p': Proc)
    requires r < |w.procs| && !w.procs[r].phase.Running?
    requires w'.procs == Put(w, r, p').procs
    requires Advances(w.procs[r], p') && Work(p') < Work(w.procs[r])
    ensures Progress(w, w', r)
  {
    hide Work;
  }

  /** A step inside a sync point is taken by a rank that is in it, brings that rank closer to
      leaving, and leaves every other rank where it was. */
  lemma SyncStepIsProgress(job: Job, w: World, step: Step, w': World)
    requires w in Safe(job) && Shaped(job, w) && StepTo(job, w, step, w') && SyncStep(step)
    ensures Progress(w, w', Actor(step))
  {
    hide Safe, ValidJob, CandidatesOk, ProgAt, MarkEntriesAsClean, Placed, TallyAt, Sorted, ProtectedIn, DirtyIn, Elements,
         BroadcastClean, Begin, PassOpeningStep, ZeroFlushStep, WriteOneStep, EndWritingStep, LeaveStep;
    match step
    case ZeroPost => JobHasRanks(job);
    case ReceiveClean(_) =>
    case PostCandidates =>
      JobHasRanks(job);
      TakingListIsProgress(job, w, 0, Sorted(w.procs[0].s.cand));
    case ReceiveCandidates(r) => TakingListIsProgress(job, w, r, w.lists[w.procs[r].epoch]);
    case LocalCandidates(r) => TakingListIsProgress(job, w, r, Sorted(w.procs[r].s.cand));
    case _ => WritingIsProgress(job, w, step, w');
  }

  lemma StaysArrived(job: Job, w: World, w': World, r: nat, k: nat)
    requires Progress(w, w', r) && AllArrived(w, k)
    ensures AllArrived(w', k)
  {
    hide Work;
    forall q | 0 <= q < |w'.procs| ensures Arrived(w'.procs[q], k) {
      assert Arrived(w.procs[q], k);
    }
  }

  /** Some rank in its k-th sync point can take `step`. */
  ghost predicate GoesOnAt(job: Job, w: World, k: nat, step: Step, w': World)
    requires Shaped(job, w)
  {
    StepTo(job, w, step, w') && SyncStep(step) && Actor(step) < job.n && w.procs[Actor(step)].epoch == k
  }

  lemma PastOpening(job: Job, w: World, k: nat, r: nat) returns (step: Step, w': World)
    requires Shaped(job, w) && r < job.n && w.procs[r].phase.Opening? && w.procs[r].epoch == k && AllArrived(w, k)
    ensures GoesOnAt(job, w, k, step, w') && step == PassOpening(r)
  {
    hide ValidJob, Placed, AllArrived;
    var p := w.procs[r];
    step := PassOpening(r);
    w' := Put(w, r, p.(phase := Deciding, s := p.s.(permitted := p.s.zero && p.s.cfg.strategy.ProcessZeroOnly?)));
    assert PassOpeningStep(w, r, w');
  }

  lemma CanPostClean(job: Job, w: World) returns (step: Step, w': World)
    requires Shaped(job, w) && DecidingAt(w.procs[0], |w.lists|) && w.procs[0].s.cfg.strategy.ProcessZeroOnly?
    requires 0 < w.procs[0].pos
    requires job.script[w.procs[0].pos - 1].Flush? ==> DirtySet(w.procs[0].s) == {}
    ensures GoesOnAt(job, w, |w.lists|, step, w')
  {
    hide ProgAt, TallyAt, Left, DirtyIn, ProtectedIn;
    var p := w.procs[0];
    step := ZeroPost;
    w' := Put(Decided(job, w, p, Sorted(p.s.clist)), 0, Left(p, BroadcastClean(p.s)));
    assert ZeroPostStep(job, w, w');
  }

  lemma CanFlush(job: Job, w: World, a: Addr) returns (step: Step, w': World)
    requires Shaped(job, w) && DecidingAt(w.procs[0], |w.lists|) && w.procs[0].s.cfg.strategy.ProcessZeroOnly?
    requires WritePermitted(w.procs[0].s)
    requires var s := w.procs[0].s; a in s.cache && s.cache[a].dirty && !s.cache[a].prot
    ensures GoesOnAt(job, w, |w.lists|, step, w')
  {
    hide ProgAt, TallyAt;
    var p := w.procs[0];
    step := ZeroFlush(a);
    w' := Put(w, 0, p.(s := FlushEntry(p.s, a))).(disk := w.disk[a := p.s.cache[a].obj]);
    assert ZeroFlushStep(w, a, w');
  }

  /** Rank 0 under process-0-only: it writes on, or broadcasts what it has cleaned. */
  lemma ZeroCanDecide(job: Job, w: World) returns (step: Step, w': World)
    requires w in Safe(job) && Shaped(job, w)
    requires DecidingAt(w.procs[0], |w.lists|) && !Dist(job, w.procs[0].pos)
    ensures GoesOnAt(job, w, |w.lists|, step, w')
  {
    hide Safe, Core, GoodProcs, ProgAt, TallyAt, SyncAt, DemandAt, HistoryInv, CleanedOnDisk, CandidatesOk, MidWrite, Agrees, GoesOnAt;
    var p, k := w.procs[0], |w.lists|;
    SyncFacts(job, w, 0);
    SyncIsDemanded(job, w.bases[k], p.pos);
    FlushDemand(job, w.bases[k], p.pos);
    if job.script[p.pos - 1].Flush? && DirtySet(p.s) != {} {
      var a :| a in DirtySet(p.s);
      step, w' := CanFlush(job, w, a);
    } else {
      step, w' := CanPostClean(job, w);
    }
  }

  lemma ReceiverCanClean(job: Job, w: World, r: nat) returns (step: Step, w': World)
    requires w in Safe(job) && Shaped(job, w) && 0 < r < job.n && w.procs[r].phase.Deciding?
    requires w.procs[r].epoch < |w.lists| && !Dist(job, w.procs[r].pos)
    ensures GoesOnAt(job, w, w.procs[r].epoch, step, w') && step == ReceiveClean(r)
  {
    hide Safe, Core, GoodProcs, ProgAt, TallyAt, SyncAt, DemandAt, HistoryInv, CleanedOnDisk, CandidatesOk, MidWrite, Left, Coherent, Live;
    var p := w.procs[r];
    SyncFacts(job, w, r);
    var list := Elements(w.lists[p.epoch]);
    assert list <= DirtySet(p.s);
    step := ReceiveClean(r);
    w' := Put(w, r, Left(p, MarkEntriesAsClean(p.s, list).value));
    assert ReceiveCleanStep(w, r, w');
  }

  lemma CanTakeLocalList(job: Job, w: World, r: nat) returns (step: Step, w': World)
    requires Shaped(job, w) && r < job.n && w.procs[r].phase.Deciding? && w.procs[r].s.cfg.strategy.Distributed?
    requires 0 < w.procs[r].pos && job.script[w.procs[r].pos - 1].Flush?
    ensures GoesOnAt(job, w, w.procs[r].epoch, step, w')
  {
    hide ProgAt, TallyAt, Begin;
    var p := w.procs[r];
    var list := Sorted(p.s.cand);
    step := LocalCandidates(r);
    w' := Put(if p.epoch == |w.lists| then Decided(job, w, p, list) else w, r, Begin(p, list));
    assert LocalCandidatesStep(job, w, r, w');
  }

  lemma CanPostList(job: Job, w: World) returns (step: Step, w': World)
    requires Shaped(job, w) && w.procs[0].phase.Deciding? && w.procs[0].s.cfg.strategy.Distributed?
    requires 0 < w.procs[0].pos && !job.script[w.procs[0].pos - 1].Flush? && w.procs[0].epoch == |w.lists|
    ensures GoesOnAt(job, w, w.procs[0].epoch, step, w')
  {
    hide ProgAt, TallyAt, Begin;
    var p := w.procs[0];
    var list := Sorted(p.s.cand);
    step := PostCandidates;
    w' := Put(Decided(job, w, p, list), 0, Begin(p, list));
    assert PostCandidatesStep(job, w, w');
  }

  lemma CanReceiveList(job: Job, w: World, r: nat) returns (step: Step, w': World)
    requires Shaped(job, w) && 0 < r < job.n && w.procs[r].phase.Deciding? && w.procs[r].s.cfg.strategy.Distributed?
    requires 0 < w.procs[r].pos && !job.script[w.procs[r].pos - 1].Flush? && w.procs[r].epoch < |w.lists|
    ensures GoesOnAt(job, w, w.procs[r].epoch, step, w')
  {
    hide ProgAt, TallyAt, Begin;
    step := ReceiveCandidates(r);
    w' := Put(w, r, Begin(w.procs[r], w.lists[w.procs[r].epoch]));
    assert ReceiveCandidatesStep(job, w, r, w');
  }

  /** Distributed strategy: a rank builds, posts or receives the candidate list. */
  lemma CanTakeList(job: Job, w: World, r: nat) returns (step: Step, w': World)
    requires w in Safe(job) && Shaped(job, w) && r < job.n && w.procs[r].phase.Deciding? && Dist(job, w.procs[r].pos)
    requires r == 0 || w.procs[r].epoch < |w.lists| || (0 < w.procs[r].pos && job.script[w.procs[r].pos - 1].Flush?)
    ensures GoesOnAt(job, w, w.procs[r].epoch, step, w')
  {
    hide Safe, Core, GoodProcs, ProgAt, TallyAt, SyncAt, DemandAt, HistoryInv, CleanedOnDisk, CandidatesOk, MidWrite, Agrees, Dist, GoesOnAt;
    var p := w.procs[r];
    SyncFacts(job, w, r);
    SyncIsDemanded(job, w.bases[p.epoch], p.pos);
    if job.script[p.pos - 1].Flush? {
      step, w' := CanTakeLocalList(job, w, r);
    } else if r == 0 {
      step, w' := CanPostList(job, w);
    } else {
      step, w' := CanReceiveList(job, w, r);
    }
  }

  lemma WriterCanGoOn(job: Job, w: World, r: nat) returns (step: Step, w': World)
    requires w in Safe(job) && Shaped(job, w) && r < job.n && w.procs[r].phase.Writing?
    ensures GoesOnAt(job, w, w.procs[r].epoch, step, w')
  {
    hide Safe, Core, GoodProcs, ProgAt, TallyAt, SyncAt, DemandAt, HistoryInv, CleanedOnDisk, CandidatesOk, Agrees,
         Live, OwnsAddr, FlushEntry, ClearEntry;
    var p := w.procs[r];
    SyncFacts(job, w, r);
    if p.phase.todo == {} {
      step := EndWriting(r);
      w' := Put(w, r, p.(s := p.s.(permitted := false), phase := Closing(p.phase.list)));
      assert EndWritingStep(w, r, w');
    } else {
      var a :| a in p.phase.todo;
      assert a in DirtySet(p.s);
      step := WriteOne(r, a);
      var ph := p.phase.(todo := p.phase.todo - {a});
      w' := if OwnsAddr(job.n, p.phase.list, r, a)
            then Put(w, r, p.(s := FlushEntry(p.s, a), phase := ph)).(disk := w.disk[a := p.s.cache[a].obj])
            else Put(w, r, p.(s := ClearEntry(p.s, a), phase := ph));
      assert WriteOneStep(job, w, r, a, w');
    }
  }

  lemma DeciderCanGoOn(job: Job, w: World, r: nat) returns (step: Step, w': World)
    requires w in Safe(job) && Shaped(job, w) && r < job.n && w.procs[r].phase.Deciding?
    ensures GoesOnAt(job, w, w.procs[r].epoch, step, w')
  {
    hide Safe, Core, GoodProcs, ProgAt, TallyAt, SyncAt, DemandAt, HistoryInv, CleanedOnDisk, CandidatesOk, Agrees, MidWrite, Dist, GoesOnAt;
    var p, k := w.procs[r], |w.lists|;
    SyncFacts(job, w, r);
    SyncIsDemanded(job, w.bases[p.epoch], p.pos);
    if p.epoch < k || r == 0 || (Dist(job, p.pos) && job.script[p.pos - 1].Flush?) {
      if Dist(job, p.pos) {
        step, w' := CanTakeList(job, w, r);
      } else if r == 0 {
        step, w' := ZeroCanDecide(job, w);
      } else {
        step, w' := ReceiverCanClean(job, w, r);
      }
    } else {
      EverybodyIsHere(job, w, r, 0);
      SyncFacts(job, w, 0);
      if w.procs[0].phase.Opening? {
        SyncBarrier(job, w);
        assert DecidingAt(p, k);
        step, w' := PastOpening(job, w, k, 0);
      } else if Dist(job, p.pos) {
        step, w' := CanTakeList(job, w, 0);
      } else {
        step, w' := ZeroCanDecide(job, w);
      }
    }
  }

  /** No deadlock: once every rank has arrived at a sync point, and until every rank has left
      it, some rank in it can go on. */
  lemma NoDeadlock(job: Job, w: World, k: nat, r: nat) returns (step: Step, w': World)
    requires w in Safe(job) && Shaped(job, w) && AllArrived(w, k)
    requires r < job.n && w.procs[r].epoch == k
    ensures GoesOnAt(job, w, k, step, w')
  {
    hide Safe, GoodProcs, ValidJob, Placed, GoesOnAt, StepTo, ProgAt;
    assert Arrived(w.procs[r], k);
    if w.procs[r].phase.Closing? {
      if AllClosed(w, k) {
        step, w' := CanLeave(job, w, r);
      } else {
        var q :| 0 <= q < job.n && !Closed(w.procs[q], k);
        assert Arrived(w.procs[q], k);
        step, w' := NoDeadlockHere(job, w, k, q);
      }
    } else {
      step, w' := NoDeadlockHere(job, w, k, r);
    }
  }

  lemma CanLeave(job: Job, w: World, r: nat) returns (step: Step, w': World)
    requires Shaped(job, w) && r < job.n && w.procs[r].phase.Closing? && AllClosed(w, w.procs[r].epoch)
    ensures GoesOnAt(job, w, w.procs[r].epoch, step, w')
  {
    hide ValidJob, Placed, AllClosed, TidyLists;
    var p := w.procs[r];
    step := Leave(r);
    w' := Put(w, r, Left(p, if p.s.zero then TidyLists(p.s, Elements(p.phase.list)) else p.s));
    assert LeaveStep(w, r, w');
  }

  lemma NoDeadlockHere(job: Job, w: World, k: nat, r: nat) returns (step: Step, w': World)
    requires w in Safe(job) && Shaped(job, w) && AllArrived(w, k)
    requires r < job.n && w.procs[r].epoch == k && !w.procs[r].phase.Running? && !w.procs[r].phase.Closing?
    ensures GoesOnAt(job, w, k, step, w')
  {
    hide Safe, GoodProcs, ValidJob, Placed, GoesOnAt, StepTo, ProgAt, AllArrived;
    match w.procs[r].phase
    case Opening => step, w' := PastOpening(job, w, k, r);
    case Deciding => step, w' := DeciderCanGoOn(job, w, r);
    case Writing(_, _) => step, w' := WriterCanGoOn(job, w, r);
  }

  /** A stretch of a run made of steps inside sync points only. */
  ghost predicate Stretch(job: Job, ws: seq<World>, steps: seq<Step>) {
    && |ws| == |steps| + 1
    && forall i | 0 <= i < |steps| ::
         && Shaped(job, ws[i]) && StepTo(job, ws[i], steps[i], ws[i + 1]) && SyncStep(steps[i])
         && (job.early ==> Heedful(job, ws[i], steps[i]))
  }

  /** Rank 0 is past the k-th sync point, or has listed nothing as cleaned that is protected. */
  predicate ListHeeds(w: World, k: nat) {
    0 < |w.procs| && (w.procs[0].epoch <= k ==> w.procs[0].s.clist !! ProtectedSet(w.procs[0].s))
  }

  lemma StillHeeds(job: Job, w: World, k: nat, step: Step, w': World)
    requires w in Safe(job) && Shaped(job, w) && GoesOnAt(job, w, k, step, w') && job.early && ListHeeds(w, k)
    ensures Heedful(job, w, step) && (|w'.procs| == |w.procs| ==> ListHeeds(w', k))
  {
    hide Safe, ValidJob, RunOp, CandidatesOk, ProgAt, MarkEntriesAsClean, OwnsAddr, Placed, TallyAt, SettleBytes, RankDemand,
         Sorted, DirtyIn, Elements;
    JobHasRanks(job);
    EarlyIsZeroOnly(job, w);
    ZeroOnlyPhases(job, w, 0);
  }

  /** One more step inside the sync point, after which less is left to do. */
  lemma OneStepOn(job: Job, w: World, k: nat, r: nat) returns (step: Step, w': World)
    requires w in Safe(job) && Shaped(job, w) && AllArrived(w, k) && (job.early ==> ListHeeds(w, k))
    requires r < job.n && w.procs[r].epoch <= k
    ensures StepTo(job, w, step, w') && SyncStep(step)
    ensures job.early ==> Heedful(job, w, step) && ListHeeds(w', k)
    ensures w' in Safe(job) && Shaped(job, w') && AllArrived(w', k)
    ensures TotalWork(w'.procs) < TotalWork(w.procs)
  {
    hide Safe, ValidJob, Placed, StepTo, TotalWork, Work, RankInv, ProgAt;
    assert Arrived(w.procs[r], k);
    step, w' := NoDeadlock(job, w, k, r);
    var q := Actor(step);
    JobHasRanks(job);
    StepKeepsSafe(job, w, step, w');
    SafeFacts(job, w');
    SyncStepIsProgress(job, w, step, w');
    if job.early {
      StillHeeds(job, w, k, step, w');
    }
    LessWork(w.procs, q, w'.procs[q]);
    StaysArrived(job, w, w', q, k);
  }

  lemma Prepend(job: Job, w: World, step: Step, ws: seq<World>, steps: seq<Step>)
    requires Stretch(job, ws, steps) && Shaped(job, w) && StepTo(job, w, step, ws[0]) && SyncStep(step)
    requires job.early ==> Heedful(job, w, step)
    ensures Stretch(job, [w] + ws, [step] + steps)
  {
    hide Shaped, StepTo, Heedful;
    var ws', steps' := [w] + ws, [step] + steps;
    forall i | 0 <= i < |steps'|
      ensures Shaped(job, ws'[i]) && StepTo(job, ws'[i], steps'[i], ws'[i + 1]) && SyncStep(steps'[i])
      ensures job.early ==> Heedful(job, ws'[i], steps'[i])
    {
      if i > 0 {
        assert ws'[i] == ws[i - 1] && ws'[i + 1] == ws[i] && steps'[i] == steps[i - 1];
      }
    }
  }

  /** Once every rank has arrived at its k-th sync point, the sync point completes: it takes
      no more steps than the ranks' remaining work, and every rank leaves.  Rank 0 heeds what it
      has to throughout if it does so far. */
  lemma {:induction false} SyncPointCompletes(job: Job, w: World, k: nat) returns (ws: seq<World>, steps: seq<Step>)
    requires w in Safe(job) && Shaped(job, w) && AllArrived(w, k) && (job.early ==> ListHeeds(w, k))
    ensures Stretch(job, ws, steps) && |ws| == |steps| + 1 && ws[0] == w && |steps| <= TotalWork(w.procs)
    ensures |ws[|steps|].procs| == job.n && forall r | 0 <= r < job.n :: ws[|steps|].procs[r].epoch > k
    decreases TotalWork(w.procs)
  {
    hide Safe, ValidJob, Placed, StepTo, TotalWork, Work, AllArrived, Stretch, ListHeeds, Heedful;
    if exists r | 0 <= r < job.n :: w.procs[r].epoch <= k {
      var r :| 0 <= r < job.n && w.procs[r].epoch <= k;
      var step, w1 := OneStepOn(job, w, k, r);
      var ws1, steps1 := SyncPointCompletes(job, w1, k);
      ws, steps := [w] + ws1, [step] + steps1;
      Prepend(job, w, step, ws1, steps1);
      assert ws[|steps|] == ws1[|steps1|];
    } else {
      ws, steps := [w], [];
      EmptyStretch(job, w);
    }
  }

  lemma EmptyStretch(job: Job, w: World)
    ensures Stretch(job, [w], [])
  {
  }
}
