/** Every step of the asynchronous run stays within the safe worlds. */
module ParallelSafety {
  import opened AddressLists
  import opened CacheState
  import opened Options
  import opened Agreement
  import opened ParallelRun

  lemma SafeFacts(job: Job, w: World)
    requires w in Safe(job)
    ensures w in Core(job) && Shaped(job, w) && DiskInv(job, w)
  {
  }

  lemma CoreFacts(job: Job, w: World)
    requires w in Core(job)
    ensures Shaped(job, w) && HistoryInv(job, w.lists, w.bases) && BarrierInv(job, w)
    ensures forall r | 0 <= r < job.n :: w.procs[r] in GoodProcs(job, w.lists, w.bases, r)
  {
  }

  lemma MakeCore(job: Job, w: World)
    requires Shaped(job, w) && HistoryInv(job, w.lists, w.bases) && BarrierInv(job, w)
    requires forall r | 0 <= r < job.n :: w.procs[r] in GoodProcs(job, w.lists, w.bases, r)
    ensures w in Core(job)
  {
  }

  lemma MakeSafe(job: Job, w: World)
    requires w in Core(job) && Shaped(job, w)
    requires forall r | 0 <= r < job.n :: DiskFor(job, w, w.procs[r])
    requires !w.procs[0].phase.Writing? && !w.procs[0].phase.Closing? ==> CleanedOnDisk(job, w.disk, w.procs[0].s.clist, w.procs[0].pos)
    ensures w in Safe(job)
  {
  }

  /** What the invariant says of one rank. */
  lemma ProcFacts(job: Job, w: World, r: nat)
    requires w in Core(job) && Shaped(job, w) && r < job.n
    ensures HistoryInv(job, w.lists, w.bases)
    ensures RankInv(job, w.lists, w.bases, r, w.procs[r])
  {
    assert w.procs[r] in GoodProcs(job, w.lists, w.bases, r);
  }

  // -------------------------------------- one rank moves, nothing is decided

  /** Rank p may become p': it never un-arrives, and it starts the next epoch of a
      distributed sync point with work only through the closing barrier. */
  ghost predicate MovesForward(job: Job, w: World, p: Proc, p': Proc)
    requires Shaped(job, w)
  {
    && (forall k :: Arrived(p, k) ==> Arrived(p', k))
    && (forall k :: Closed(p, k) ==> Closed(p', k))
    && var k := |w.lists|;
    && (DecidingAt(p', k) && !DecidingAt(p, k) ==> AllArrived(w, k))
    && (k > 0 && p'.epoch == k && p.epoch != k && Dist(job, w.bases[k].pos) && w.lists[k - 1] != []
        ==> AllClosed(w, k - 1))
  }

  lemma PutKeepsBarriers(job: Job, w: World, r: nat, p': Proc)
    requires Shaped(job, w) && BarrierInv(job, w) && r < job.n
    requires Placed(job, w.bases, p')
    requires MovesForward(job, w, w.procs[r], p')
    ensures Shaped(job, Put(w, r, p')) && BarrierInv(job, Put(w, r, p'))
  {
    hide ValidJob, Dist;
    var w', k := Put(w, r, p'), |w.lists|;
    if exists q | 0 <= q < job.n :: DecidingAt(w'.procs[q], k) {
      var q :| 0 <= q < job.n && DecidingAt(w'.procs[q], k);
      assert q != r ==> DecidingAt(w.procs[q], k);
      forall q | 0 <= q < job.n ensures Arrived(w'.procs[q], k) {
        assert Arrived(w.procs[q], k);
      }
    }
    if k > 0 {
      forall q | 0 <= q < job.n ensures Arrived(w'.procs[q], k - 1) {
        assert Arrived(w.procs[q], k - 1);
      }
      if Dist(job, w.bases[k].pos) && w.lists[k - 1] != [] && exists q | 0 <= q < job.n :: w'.procs[q].epoch == k {
        var q :| 0 <= q < job.n && w'.procs[q].epoch == k;
        assert q != r ==> w.procs[q].epoch == k;
        forall q | 0 <= q < job.n ensures Closed(w'.procs[q], k - 1) {
          assert Closed(w.procs[q], k - 1);
        }
      }
    }
  }

  lemma PutKeepsCore(job: Job, w: World, r: nat, p': Proc)
    requires w in Core(job) && Shaped(job, w) && r < job.n
    requires Placed(job, w.bases, p') && p' in GoodProcs(job, w.lists, w.bases, r)
    requires MovesForward(job, w, w.procs[r], p')
    ensures Put(w, r, p') in Core(job) && Shaped(job, Put(w, r, p'))
  {
    hide Core, GoodProcs, HistoryInv, BarrierInv, MovesForward, Placed, ValidJob;
    CoreFacts(job, w);
    PutKeepsBarriers(job, w, r, p');
    MakeCore(job, Put(w, r, p'));
  }

  /** Rank r owns nothing that p' claims to have done and it had not. */
  ghost predicate ClaimsNothing(job: Job, w: World, r: nat, p': Proc)
    requires Shaped(job, w) && r < job.n
  {
    var k := |w.lists|;
    k > 0 && Dist(job, w.bases[k].pos) ==>
      var list, e := w.lists[k - 1], k - 1;
      forall a | OwnsAddr(job.n, list, r, a) && DoneWith(p', e, a) :: DoneWith(w.procs[r], e, a)
  }

  lemma StaysUnwritten(job: Job, w: World, r: nat, p': Proc, a: Addr)
    requires Shaped(job, w) && r < job.n && Shaped(job, Put(w, r, p'))
    requires ClaimsNothing(job, w, r, p') && Unwritten(job, w, a)
    ensures Unwritten(job, Put(w, r, p'), a)
  {
    hide ValidJob, Placed, OwnsAddr, Dist, DoneWith;
    var k, w' := |w.lists|, Put(w, r, p');
    var q :| 0 <= q < job.n && OwnsAddr(job.n, w.lists[k - 1], q, a) && !DoneWith(w.procs[q], k - 1, a);
    assert OwnsAddr(job.n, w'.lists[k - 1], q, a) && !DoneWith(w'.procs[q], k - 1, a);
  }

  /** What p' may read it could read before, or the file holds it anyway. */
  ghost predicate ReadsNoMore(job: Job, w: World, p: Proc, p': Proc)
    requires Shaped(job, w) && Placed(job, w.bases, p) && Placed(job, w.bases, p')
  {
    forall a | a in SettledFor(job, w.bases, p') ::
      a in SettledFor(job, w.bases, p) && ProgAt(job, p'.pos).truth[a] == ProgAt(job, p.pos).truth[a]
  }

  lemma PutKeepsSafe(job: Job, w: World, r: nat, p': Proc)
    requires w in Safe(job) && Shaped(job, w) && r < job.n
    requires Placed(job, w.bases, p') && p' in GoodProcs(job, w.lists, w.bases, r)
    requires MovesForward(job, w, w.procs[r], p')
    requires ClaimsNothing(job, w, r, p')
    requires ReadsNoMore(job, w, w.procs[r], p')
    requires r == 0 && !p'.phase.Writing? && !p'.phase.Closing? ==> CleanedOnDisk(job, w.disk, p'.s.clist, p'.pos)
    ensures Put(w, r, p') in Safe(job)
  {
    hide Safe, Core, GoodProcs, MovesForward, ClaimsNothing, Unwritten, CleanedOnDisk, SettledFor, ProgAt, ValidJob;
    SafeFacts(job, w);
    PutKeepsCore(job, w, r, p');
    var w' := Put(w, r, p');
    forall q | 0 <= q < job.n ensures DiskFor(job, w', w'.procs[q]) {
      assert DiskFor(job, w, w.procs[q]);
      forall a | a in SettledFor(job, w'.bases, w'.procs[q]) && !Unwritten(job, w', a)
        ensures a in w'.disk && w'.disk[a] == ProgAt(job, w'.procs[q].pos).truth[a]
      {
        if Unwritten(job, w, a) {
          StaysUnwritten(job, w, r, p', a);
        }
      }
    }
    MakeSafe(job, w');
  }

  // --------------------------------------------------- between sync points

  /** A rank that is running is past every decided sync point, so no candidate of the latest
      one is still unwritten: no rank leaves before all assigned writes are done. */
  lemma RunningMeansAllWritten(job: Job, w: World, r: nat, a: Addr)
    requires w in Core(job) && Shaped(job, w) && r < job.n && w.procs[r].phase.Running?
    ensures !Unwritten(job, w, a)
  {
    hide Core, GoodProcs, HistoryInv, ValidJob, Dist, Agrees, ProgAt, TallyAt, Placed, NoSyncBefore;
    CoreFacts(job, w);
    ProcFacts(job, w, r);
    var k := |w.lists|;
    if k > 0 && Dist(job, w.bases[k].pos) {
      forall q | 0 <= q < job.n && OwnsAddr(job.n, w.lists[k - 1], q, a) ensures DoneWith(w.procs[q], k - 1, a) {
        assert w.procs[r].epoch == k && w.lists[k - 1] != [];
        assert Closed(w.procs[q], k - 1);
      }
    }
  }

  lemma RunningFacts(job: Job, w: World, r: nat)
    requires w in Safe(job) && Shaped(job, w) && r < job.n && w.procs[r].phase.Running?
    ensures var p := w.procs[r];
      && p in GoodProcs(job, w.lists, w.bases, r)
      && p.epoch == |w.lists| && p.s.zero == (r == 0)
      && Agrees(p.s, ProgAt(job, p.pos), TallyAt(job, w.bases[p.epoch], p.pos))
      && Coherent(p.s, ProgAt(job, p.pos))
      && (Dist(job, p.pos) ==> p.s.clist == {})
      && (r == 0 ==> CleanedOnDisk(job, w.disk, p.s.clist, p.pos))
  {
    hide Safe, Core, GoodProcs, HistoryInv, NoSyncBefore, ProgAt, TallyAt, CleanedOnDisk;
    SafeFacts(job, w);
    CoreFacts(job, w);
    ProcFacts(job, w, r);
  }

  /** A step inside one rank, between sync points. */
  lemma LocalStepKeepsSafe(job: Job, w: World, r: nat, p': Proc)
    requires w in Safe(job) && Shaped(job, w) && r < job.n
    requires w.procs[r].phase.Running? && p'.epoch == w.procs[r].epoch && (p'.phase.Running? || p'.phase.Opening?)
    requires Placed(job, w.bases, p') && p' in GoodProcs(job, w.lists, w.bases, r)
    requires ReadsNoMore(job, w, w.procs[r], p')
    requires r == 0 ==> CleanedOnDisk(job, w.disk, p'.s.clist, p'.pos)
    ensures Put(w, r, p') in Safe(job)
  {
    hide Safe, GoodProcs, ReadsNoMore, CleanedOnDisk, Agrees, Coherent, ProgAt, TallyAt, ValidJob, Dist, OwnsAddr;
    RunningFacts(job, w, r);
    PutKeepsSafe(job, w, r, p');
  }

  lemma OpShrinksCleaned(s: Rank, op: Op, s1: Rank)
    requires RunOp(s, op) == Some(s1)
    ensures s1.clist <= s.clist && s1.zero == s.zero
  {
  }

  /** The next operation on a rank at position pos, against the program. */
  lemma ExecAgrees(job: Job, b: Base, s: Rank, pos: nat, s1: Rank)
    requires ValidJob(job) && b.pos <= pos < |job.script|
    requires Agrees(s, ProgAt(job, pos), TallyAt(job, b, pos))
    requires RunOp(s, job.script[pos]) == Some(s1)
    requires Dist(job, pos) ==> s.clist == {}
    ensures RankDemand(s1, job.script[pos]) == DemandAt(job, b, pos + 1)
    ensures Agrees(SettleBytes(s1, job.script[pos]), ProgAt(job, pos + 1), TallyAt(job, b, pos + 1))
    ensures SettleBytes(s1, job.script[pos]).zero == s.zero
    ensures s1.clist <= s.clist
    ensures forall a | a in s1.clist && a !in Pending(ProgAt(job, pos + 1)) ::
              && a in s.clist && a !in Pending(ProgAt(job, pos)) && a in ProgAt(job, pos).truth
              && a in ProgAt(job, pos + 1).truth && ProgAt(job, pos + 1).truth[a] == ProgAt(job, pos).truth[a]
  {
    hide RunOp, ProgStep, TallyStep, ProgDemand, RankDemand, Pending;
    var op, g, t := job.script[pos], ProgAt(job, pos), TallyAt(job, b, pos);
    assert OpOk(g, op);
    OpKeepsAgreement(s, g, t, op, s1);
    forall a | a in s1.clist && a !in Pending(ProgAt(job, pos + 1))
      ensures && a in s.clist && a !in Pending(g) && a in g.truth
              && a in ProgStep(g, op).truth && ProgStep(g, op).truth[a] == g.truth[a]
    {
      OpKeepsCleanedList(s, g, t, op, s1, a);
    }
    OpShrinksCleaned(s, op, s1);
  }

  lemma ExecOnlyUnsettles(job: Job, b: Base, pos: nat, a: Addr)
    requires ValidJob(job) && b.pos <= pos < |job.script|
    requires Live(ProgAt(job, pos), TallyAt(job, b, pos))
    requires a in Settled(ProgAt(job, pos + 1), TallyAt(job, b, pos + 1).dirty)
    ensures a in Settled(ProgAt(job, pos), TallyAt(job, b, pos).dirty)
    ensures ProgAt(job, pos + 1).truth[a] == ProgAt(job, pos).truth[a]
  {
    OpOnlyUnsettles(ProgAt(job, pos), TallyAt(job, b, pos), job.script[pos], a);
  }

  /** A running rank that has just executed an operation keeps running, or arrives. */
  lemma NextPlaceKeepsRank(job: Job, lists: seq<seq<Addr>>, bases: seq<Base>, r: nat, p: Proc, s1: Rank, cand: set<Addr>)
    requires ValidJob(job) && |bases| == |lists| + 1 && Placed(job, bases, p)
    requires p in GoodProcs(job, lists, bases, r) && p.phase.Running? && p.pos < |job.script|
    requires Agrees(s1, ProgAt(job, p.pos + 1), TallyAt(job, bases[p.epoch], p.pos + 1))
    requires s1.zero == p.s.zero && s1.clist <= p.s.clist
    requires CandidatesOk(s1, DemandAt(job, bases[p.epoch], p.pos + 1), cand)
    ensures Proc(s1.(cand := cand), p.pos + 1, p.epoch,
                 if DemandAt(job, bases[p.epoch], p.pos + 1).SyncPoint? then Opening else Running)
            in GoodProcs(job, lists, bases, r)
  {
    hide ProgAt, TallyAt, DemandAt, Live, DirtyIn, ProtectedIn;
  }

  /** Where rank p ends up after an operation that left it in s1. */
  function NextPlace(p: Proc, op: Op, s1: Rank, cand: set<Addr>): Proc {
    Proc(SettleBytes(s1, op).(cand := cand), p.pos + 1, p.epoch,
         if RankDemand(s1, op).SyncPoint? then Opening else Running)
  }

  lemma SettlingKeepsCandidates(s1: Rank, op: Op, d: Demand, cand: set<Addr>)
    requires CandidatesOk(s1, d, cand)
    ensures CandidatesOk(SettleBytes(s1, op), d, cand)
  {
  }

  lemma NextPlaceIsGood(job: Job, w: World, r: nat, s1: Rank, cand: set<Addr>)
    requires w in Safe(job) && Shaped(job, w)
    requires r < job.n && w.procs[r].phase.Running? && w.procs[r].pos < |job.script|
    requires var p := w.procs[r];
      && RunOp(p.s, job.script[p.pos]) == Some(s1)
      && CandidatesOk(s1, RankDemand(s1, job.script[p.pos]), cand)
    ensures var p := w.procs[r]; var p' := NextPlace(p, job.script[p.pos], s1, cand);
      && p' in GoodProcs(job, w.lists, w.bases, r)
      && (r == 0 ==> CleanedOnDisk(job, w.disk, p'.s.clist, p'.pos))
  {
    hide Safe, GoodProcs, ProgAt, TallyAt, DemandAt, RunOp, Coherent, RankDemand, Agrees, CandidatesOk, ValidJob, Pending;
    RunningFacts(job, w, r);
    var p := w.procs[r];
    var op, b := job.script[p.pos], w.bases[p.epoch];
    ExecAgrees(job, b, p.s, p.pos, s1);
    SettlingKeepsCandidates(s1, op, RankDemand(s1, op), cand);
    NextPlaceKeepsRank(job, w.lists, w.bases, r, p, SettleBytes(s1, op), cand);
  }

  lemma NextPlaceReadsNoMore(job: Job, w: World, r: nat, p': Proc)
    requires w in Safe(job) && Shaped(job, w)
    requires r < job.n && w.procs[r].phase.Running? && w.procs[r].pos < |job.script|
    requires p'.pos == w.procs[r].pos + 1 && p'.epoch == w.procs[r].epoch
    ensures Placed(job, w.bases, p') && ReadsNoMore(job, w, w.procs[r], p')
  {
    hide Safe, GoodProcs, ProgAt, TallyAt, Settled, Coherent, CleanedOnDisk, ValidJob, Dist, Live;
    RunningFacts(job, w, r);
    var p := w.procs[r];
    forall a | a in SettledFor(job, w.bases, p')
      ensures a in SettledFor(job, w.bases, p) && ProgAt(job, p'.pos).truth[a] == ProgAt(job, p.pos).truth[a]
    {
      ExecOnlyUnsettles(job, w.bases[p.epoch], p.pos, a);
    }
  }

  lemma ExecKeepsSafe(job: Job, w: World, r: nat, cand: set<Addr>, w': World)
    requires w in Safe(job) && Shaped(job, w) && ExecStep(job, w, r, cand, w')
    ensures w' in Safe(job)
  {
    hide Safe, GoodProcs, RunOp, CandidatesOk, RankDemand, SettledFor, ProgAt, ReadsNoMore, CleanedOnDisk, Placed, ValidJob;
    var p := w.procs[r];
    NextPlaceIsGood(job, w, r, RunOp(p.s, job.script[p.pos]).value, cand);
    NextPlaceReadsNoMore(job, w, r, w'.procs[r]);
    LocalStepKeepsSafe(job, w, r, w'.procs[r]);
  }

  /** An independent read finds the content the program has at the reader's position. */
  lemma LoadIsCurrent(job: Job, w: World, r: nat, a: Addr)
    requires w in Safe(job) && Shaped(job, w) && r < job.n && w.procs[r].phase.Running?
    requires a in ProgAt(job, w.procs[r].pos).truth && a !in w.procs[r].s.cache
    ensures a in w.disk && w.disk[a] == ProgAt(job, w.procs[r].pos).truth[a]
  {
    hide Safe, Core, GoodProcs, ProgAt, TallyAt, Unwritten, ValidJob, Dist;
    var p := w.procs[r];
    RunningFacts(job, w, r);
    SafeFacts(job, w);
    RunningMeansAllWritten(job, w, r, a);
    assert DiskFor(job, w, p);
    assert a !in ProgAt(job, p.pos).prot && a !in DirtySet(p.s);
    if a in TallyAt(job, w.bases[p.epoch], p.pos).dirty {
      assert r == 0 && a in p.s.clist;
    } else {
      assert a in SettledFor(job, w.bases, p);
    }
  }

  lemma NewCacheIsGood(job: Job, lists: seq<seq<Addr>>, bases: seq<Base>, r: nat, p: Proc, cache: map<Addr, Entry>)
    requires ValidJob(job) && |bases| == |lists| + 1 && Placed(job, bases, p)
    requires p in GoodProcs(job, lists, bases, r) && p.phase.Running?
    requires DirtyIn(cache) == DirtySet(p.s) && Coherent(p.s.(cache := cache), ProgAt(job, p.pos))
    ensures p.(s := p.s.(cache := cache)) in GoodProcs(job, lists, bases, r)
  {
    hide ProgAt, TallyAt, Live, Coherent, DirtyIn;
  }

  /** A running rank changes only which clean entries it holds, or what it has pinned. */
  lemma CacheStepKeepsSafe(job: Job, w: World, r: nat, cache: map<Addr, Entry>)
    requires w in Safe(job) && Shaped(job, w) && r < job.n && w.procs[r].phase.Running?
    requires DirtyIn(cache) == DirtySet(w.procs[r].s)
    requires Coherent(w.procs[r].s.(cache := cache), ProgAt(job, w.procs[r].pos))
    ensures var p := w.procs[r]; Put(w, r, p.(s := p.s.(cache := cache))) in Safe(job)
  {
    hide Safe, GoodProcs, ProgAt, TallyAt, Coherent, DirtyIn, ValidJob, Agrees, Pending;
    var p := w.procs[r];
    RunningFacts(job, w, r);
    NewCacheIsGood(job, w.lists, w.bases, r, p, cache);
    LocalStepKeepsSafe(job, w, r, p.(s := p.s.(cache := cache)));
  }

  lemma LoadKeepsSafe(job: Job, w: World, r: nat, a: Addr, w': World)
    requires w in Safe(job) && Shaped(job, w) && LoadStep(job, w, r, a, w')
    ensures w' in Safe(job)
  {
    hide Safe, GoodProcs, ProgAt, TallyAt, ValidJob, Agrees, Placed, CleanedOnDisk;
    RunningFacts(job, w, r);
    LoadIsCurrent(job, w, r, a);
    var s, s' := w.procs[r].s, w'.procs[r].s;
    assert DirtySet(s') == DirtySet(s);
    CacheStepKeepsSafe(job, w, r, s'.cache);
  }

  lemma EvictKeepsSafe(job: Job, w: World, r: nat, a: Addr, w': World)
    requires w in Safe(job) && Shaped(job, w) && EvictStep(w, r, a, w')
    ensures w' in Safe(job)
  {
    hide Safe, GoodProcs, ProgAt, TallyAt, ValidJob, Agrees, Placed, CleanedOnDisk;
    RunningFacts(job, w, r);
    var s, s' := w.procs[r].s, w'.procs[r].s;
    assert DirtySet(s') == DirtySet(s);
    CacheStepKeepsSafe(job, w, r, s'.cache);
  }

  lemma SetPinKeepsSafe(job: Job, w: World, r: nat, a: Addr, pin: bool, w': World)
    requires w in Safe(job) && Shaped(job, w) && SetPinStep(w, r, a, pin, w')
    ensures w' in Safe(job)
  {
    hide Safe, GoodProcs, ProgAt, TallyAt, ValidJob, Agrees, Placed, CleanedOnDisk;
    RunningFacts(job, w, r);
    var s, s' := w.procs[r].s, w'.procs[r].s;
    assert DirtySet(s') == DirtySet(s);
    CacheStepKeepsSafe(job, w, r, s'.cache);
  }
}
