/** Clean lists that name protected entries: a receiver only flags such an entry, so the ranks
    no longer agree about what is dirty.  The code posts whatever rank 0 has cleaned. */
module CleanLists {
  import opened AddressLists
  import opened CacheState
  import opened Options
  import opened Agreement
  import opened ParallelRun
  import opened ParallelSafety
  import opened ParallelSync
  import opened ParallelTheorems

  /** Rank 0 and rank r are in agreement with the program, in the middle of a process-0-only
      sync point; the clean list is sent and received. */
  ghost predicate CleanListArrives(z: Rank, s: Rank, g: Prog, t: Tally, s1: Rank) {
    && z.zero && !s.zero
    && Agrees(z.(permitted := false), g, t) && Agrees(s.(permitted := false), g, t)
    && MarkEntriesAsClean(s, z.clist) == Some(s1)
  }

  /** The clean list leaves the ranks in agreement exactly when none of the entries on it is
      protected at that moment: a receiver only flags a protected entry for clearing. */
  lemma CleanListAgreesIff(z: Rank, s: Rank, g: Prog, t: Tally, s1: Rank)
    requires CleanListArrives(z, s, g, t, s1)
    ensures BroadcastClean(z).dlist == DirtySet(s1) <==> z.clist !! g.prot.Keys
    ensures DirtySet(s1) == BroadcastClean(z).dlist + z.clist * g.prot.Keys
  {
    assert DirtySet(s1) == DirtySet(s) - (z.clist - g.prot.Keys);
  }

  /** Releasing such an entry brings the two views together again; but if it was modified, the
      ranks have counted differently: rank 0 counts it again, the receiver does not. */
  lemma ReleasingAFlaggedEntry(z: Rank, s: Rank, g: Prog, t: Tally, s1: Rank, op: Op, z2: Rank, s2: Rank)
    requires CleanListArrives(z, s, g, t, s1) && z.bytes == s1.bytes
    requires op.Unprotect? && OpOk(g, op) && !op.deleted
    requires z.clist * g.prot.Keys == {op.addr}
    requires RunOp(BroadcastClean(z), op) == Some(z2) && RunOp(s1, op) == Some(s2)
    ensures z2.dlist == DirtySet(s2)
    ensures z2.bytes == s2.bytes <==> (op.dirtied || g.prot[op.addr] ==> g.truth[op.addr].size == 0)
  {
    var a := op.addr;
    CleanListAgreesIff(z, s, g, t, s1);
    assert a in z.clist && a in g.prot && a !in DirtySet(z);
    assert s1.cache[a] == s.cache[a].(clear := true);
    assert DirtySet(s2) == if op.dirtied || g.prot[a] then DirtySet(s1) else DirtySet(s1) - {a};
  }

  // ------------------------------------------------------- the same in runs

  /** A rank waiting for the clean list. */
  predicate Waits(p: Proc) {
    (p.phase.Opening? || p.phase.Deciding?) && p.s.cfg.strategy.ProcessZeroOnly?
  }

  /** It has not moved, but for passing the opening barrier. */
  predicate StillWaits(p: Proc, p': Proc) {
    Waits(p') && p'.epoch == p.epoch && p'.pos == p.pos && p'.s == p.s.(permitted := p'.s.permitted)
  }

  lemma StepWaits(job: Job, w: World, step: Step, w': World, r: nat)
    requires Shaped(job, w) && StepTo(job, w, step, w') && 0 < r < job.n && |w'.procs| == job.n
    ensures w'.procs[r].epoch >= w.procs[r].epoch
    ensures Waits(w.procs[r]) && w'.procs[r].epoch == w.procs[r].epoch ==> StillWaits(w.procs[r], w'.procs[r])
  {
    hide ValidJob, RunOp, CandidatesOk, ProgAt, MarkEntriesAsClean, OwnsAddr, Placed, TallyAt, SettleBytes, RankDemand,
         FlushEntry, ClearEntry, Sorted, BroadcastClean, TidyLists, ProtectedIn, DirtyIn, Elements;
    match step
    case Exec(_, cand) =>
    case Load(_, a) =>
    case Evict(_, a) =>
    case SetPin(_, a, pin) =>
    case EarlyFlush(a) =>
    case PassOpening(_) =>
    case ZeroFlush(a) =>
    case ZeroPost =>
    case ReceiveClean(_) =>
    case PostCandidates =>
    case ReceiveCandidates(_) =>
    case LocalCandidates(_) =>
    case WriteOne(_, a) =>
    case EndWriting(_) =>
    case Leave(_) =>
  }

  lemma RunShape(job: Job, ws: seq<World>, steps: seq<Step>, i: nat)
    requires AnyRun(job, ws, steps) && i < |steps|
    ensures |ws| == |steps| + 1 && Shaped(job, ws[i]) && |ws[i].procs| == job.n && job.n > 0 && StepTo(job, ws[i], steps[i], ws[i + 1])
  {
    hide StepTo, Init;
  }

  lemma {:induction false} ReceiverWaits(job: Job, ws: seq<World>, steps: seq<Step>, i: nat, j: nat, r: nat)
    requires AnyRun(job, ws, steps) && i <= j < |steps| && 0 < r < job.n && |ws[i].procs| == job.n && |ws[j].procs| == job.n
    requires Waits(ws[i].procs[r])
    ensures ws[j].procs[r].epoch >= ws[i].procs[r].epoch
    ensures ws[j].procs[r].epoch == ws[i].procs[r].epoch ==> StillWaits(ws[i].procs[r], ws[j].procs[r])
    decreases j
  {
    hide AnyRun, StepTo, Shaped, Waits;
    if i < j {
      RunShape(job, ws, steps, j - 1);
      RunShape(job, ws, steps, j);
      ReceiverWaits(job, ws, steps, i, j - 1, r);
      StepWaits(job, ws[j - 1], steps[j - 1], ws[j], r);
    }
  }

  /** Up to step i rank 0 has heeded what it has to. */
  ghost predicate HeedsUntil(job: Job, ws: seq<World>, steps: seq<Step>, i: nat)
    requires AnyRun(job, ws, steps) && i < |ws|
  {
    job.early ==> forall m | 0 <= m < i :: Heedful(job, ws[m], steps[m])
  }

  lemma PrefixIsRun(job: Job, ws: seq<World>, steps: seq<Step>, i: nat)
    requires AnyRun(job, ws, steps) && i < |steps| && HeedsUntil(job, ws, steps, i)
    ensures ws[i] in Safe(job) && Shaped(job, ws[i])
  {
    hide Safe, Shaped, StepTo, Init, ValidJob, Heedful;
    var ws1, steps1 := ws[..i + 1], steps[..i];
    forall m | 0 <= m < i
      ensures Shaped(job, ws1[m]) && StepTo(job, ws1[m], steps1[m], ws1[m + 1])
      ensures job.early ==> Heedful(job, ws1[m], steps1[m])
    {
      assert ws1[m] == ws[m] && ws1[m + 1] == ws[m + 1] && steps1[m] == steps[m];
    }
    assert Run(job, ws1, steps1);
    RunIsSafe(job, ws1, steps1, i);
  }

  /** Rank 0 posts its clean list and is in agreement with the waiting rank r at that moment. */
  lemma PosterAndReceiver(job: Job, w: World, w': World, r: nat) returns (g: Prog, t: Tally)
    requires w in Safe(job) && Shaped(job, w) && ZeroPostStep(job, w, w') && 0 < r < job.n
    ensures var z, p := w.procs[0], w.procs[r];
      && Waits(p) && p.epoch == z.epoch == |w.lists| && p.pos == z.pos && z.s.zero && !p.s.zero
      && Agrees(z.s.(permitted := false), g, t) && Agrees(p.s.(permitted := false), g, t)
      && ProtectedSet(z.s) == g.prot.Keys
    ensures w'.lists == w.lists + [Sorted(w.procs[0].s.clist)]
    ensures |w'.procs| == |w.procs| && w'.procs[r] == w.procs[r] && w'.procs[0].s.dlist == BroadcastClean(w.procs[0].s).dlist
  {
    hide Safe, Core, GoodProcs, ProgAt, TallyAt, SyncAt, HistoryInv, CandidatesOk, DemandAt, CleanedOnDisk, DirtyIn, DiskInv;
    SafeFacts(job, w);
    SyncFacts(job, w, 0);
    EverybodyIsHere(job, w, 0, r);
    SyncFacts(job, w, r);
    g, t := ProgAt(job, w.procs[0].pos), TallyAt(job, w.bases[w.procs[0].epoch], w.procs[0].pos);
  }

  /** In a run in which rank 0 has heeded what it has to until it posts a clean list, the ranks
      agree about what is dirty after that sync point exactly if the list names no protected
      entry; otherwise the protected entries on it are what they disagree about. */
  lemma PostedListAgreesIff(job: Job, ws: seq<World>, steps: seq<Step>, i: nat, j: nat, r: nat)
    requires AnyRun(job, ws, steps) && i < j < |steps| && HeedsUntil(job, ws, steps, i)
    requires 0 < r < job.n && |ws[i].procs| == |ws[i + 1].procs| == |ws[j].procs| == |ws[j + 1].procs| == job.n
    requires steps[i] == ZeroPost && steps[j] == ReceiveClean(r) && ws[j].procs[r].epoch == ws[i].procs[0].epoch
    ensures var z, p := ws[i + 1].procs[0], ws[j + 1].procs[r]; var said := ws[i].procs[0].s;
      && z.pos == p.pos && z.epoch == p.epoch && z.phase.Running? && p.phase.Running?
      && (z.s.dlist == DirtySet(p.s) <==> said.clist !! ProtectedSet(said))
      && DirtySet(p.s) == z.s.dlist + said.clist * ProtectedSet(said)
  {
    hide AnyRun, Safe, StepTo, Shaped, Waits, HeedsUntil, ProgAt, TallyAt, MarkEntriesAsClean, Agrees, DirtyIn, ProtectedIn,
         BroadcastClean, Elements, ValidJob;
    RunShape(job, ws, steps, i);
    RunShape(job, ws, steps, j);
    PrefixIsRun(job, ws, steps, i);
    Posts(job, ws[i], ws[i + 1]);
    var g, t := PosterAndReceiver(job, ws[i], ws[i + 1], r);
    ReceiverWaits(job, ws, steps, i, j, r);
    HistoryOnlyGrows(job, ws, steps, i + 1, j);
    var k := ws[i].procs[0].epoch;
    assert ws[j].lists[k] == ws[i + 1].lists[k];
    Receives(job, ws[j], r, ws[j + 1]);
    ListArrives(ws[i].procs[0].s, ws[i].procs[r].s, ws[j].procs[r].s, g, t, Elements(ws[j].lists[k]), ws[j + 1].procs[r].s);
  }

  /** The same for the ranks alone: z posts, and s1, which is s but for its write permission,
      receives the list and goes on as s2. */
  lemma ListArrives(z: Rank, s: Rank, s1: Rank, g: Prog, t: Tally, list: set<Addr>, s2: Rank)
    requires z.zero && !s.zero && Agrees(z.(permitted := false), g, t) && Agrees(s.(permitted := false), g, t)
    requires ProtectedSet(z) == g.prot.Keys && s1 == s.(permitted := s1.permitted) && list == z.clist
    requires var res := MarkEntriesAsClean(s1, list); res.Some? && s2 == res.value.(bytes := 0, permitted := false)
    ensures BroadcastClean(z).dlist == DirtySet(s2) <==> z.clist !! ProtectedSet(z)
    ensures DirtySet(s2) == BroadcastClean(z).dlist + z.clist * ProtectedSet(z)
  {
    hide Agrees, MarkEntriesAsClean, BroadcastClean, DirtyIn, ProtectedIn;
    assert s1.(permitted := false) == s.(permitted := false);
    CleanListAgreesIff(z, s1, g, t, MarkEntriesAsClean(s1, list).value);
  }

  lemma Receivable(z: Rank, s: Rank, s1: Rank, g: Prog, t: Tally)
    requires z.zero && !s.zero && Agrees(z.(permitted := false), g, t) && Agrees(s.(permitted := false), g, t)
    requires s1 == s.(permitted := s1.permitted)
    ensures MarkEntriesAsClean(s1, z.clist).Some?
  {
    assert z.clist <= DirtySet(s1);
  }

  /** Protected entries or not, a posted list can be received by every rank waiting for it. */
  lemma PostedListIsReceived(job: Job, ws: seq<World>, steps: seq<Step>, i: nat, j: nat, r: nat) returns (w': World)
    requires AnyRun(job, ws, steps) && i < j < |steps| && HeedsUntil(job, ws, steps, i)
    requires 0 < r < job.n && |ws[i].procs| == |ws[j].procs| == job.n
    requires steps[i] == ZeroPost && ws[j].procs[r].epoch == ws[i].procs[0].epoch && ws[j].procs[r].phase.Deciding?
    ensures ReceiveCleanStep(ws[j], r, w')
  {
    hide AnyRun, Safe, StepTo, Shaped, HeedsUntil, MarkEntriesAsClean, Agrees, ValidJob, Elements, ProtectedIn;
    RunShape(job, ws, steps, i);
    RunShape(job, ws, steps, j);
    PrefixIsRun(job, ws, steps, i);
    Posts(job, ws[i], ws[i + 1]);
    var g, t := PosterAndReceiver(job, ws[i], ws[i + 1], r);
    ReceiverWaits(job, ws, steps, i, j, r);
    HistoryOnlyGrows(job, ws, steps, i + 1, j);
    var p, k := ws[j].procs[r], ws[i].procs[0].epoch;
    assert ws[j].lists[k] == ws[i + 1].lists[k];
    Receivable(ws[i].procs[0].s, ws[i].procs[r].s, p.s, g, t);
    w' := Put(ws[j], r, Left(p, MarkEntriesAsClean(p.s, Elements(ws[j].lists[k])).value));
  }

  lemma Posts(job: Job, w: World, w': World)
    requires Shaped(job, w) && StepTo(job, w, ZeroPost, w')
    ensures ZeroPostStep(job, w, w') && 0 < |w.procs| == |w'.procs|
    ensures w'.procs[0].pos == w.procs[0].pos && w'.procs[0].epoch == w.procs[0].epoch + 1 && w'.procs[0].phase.Running?
  {
  }

  lemma Receives(job: Job, w: World, r: nat, w': World)
    requires Shaped(job, w) && StepTo(job, w, ReceiveClean(r), w') && r < job.n && |w'.procs| == job.n
    ensures var p, p' := w.procs[r], w'.procs[r];
      && p'.pos == p.pos && p'.epoch == p.epoch + 1 && p'.phase.Running? && p.epoch < |w.lists|
      && var res := MarkEntriesAsClean(p.s, Elements(w.lists[p.epoch]));
      && res.Some? && p'.s == res.value.(bytes := 0, permitted := false)
  {
    hide MarkEntriesAsClean;
  }
}
