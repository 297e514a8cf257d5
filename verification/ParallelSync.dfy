/** The steps of a sync point keep the run within the safe worlds. */
module ParallelSync {
  import opened AddressLists
  import opened CacheState
  import opened Options
  import opened Agreement
  import opened ParallelRun
  import opened ParallelSafety

  lemma SyncPlaceUnique(job: Job, b: Base, p: nat, q: nat)
    requires ValidJob(job) && SyncAt(job, b, p) && SyncAt(job, b, q)
    ensures p == q
  {
  }

  /** What the invariant says of a rank in a sync point. */
  lemma SyncFacts(job: Job, w: World, r: nat)
    requires w in Safe(job) && Shaped(job, w) && r < job.n && !w.procs[r].phase.Running?
    ensures var p, k := w.procs[r], |w.lists|;
      && RankInv(job, w.lists, w.bases, r, p)
      && p in GoodProcs(job, w.lists, w.bases, r)
      && p.s.zero == (r == 0) && (p.epoch == k || p.epoch + 1 == k)
      && SyncAt(job, w.bases[p.epoch], p.pos)
      && p.s.cfg == ProgAt(job, p.pos).cfg
      && Live(ProgAt(job, p.pos), TallyAt(job, w.bases[p.epoch], p.pos)) && Coherent(p.s, ProgAt(job, p.pos))
      && (p.s.cfg.strategy.Distributed? <==> Dist(job, p.pos))
      && (p.epoch + 1 == k ==> w.bases[k].pos == p.pos
                               && DecidedOk(job, w.bases[p.epoch], w.lists[p.epoch], w.bases[k]))
      && (!p.phase.Writing? && !p.phase.Closing? ==>
            if Dist(job, p.pos) then p.s.clist == {} else p.s.cand == {})
      && (r == 0 && !p.phase.Writing? && !p.phase.Closing? ==> CleanedOnDisk(job, w.disk, p.s.clist, p.pos))
    ensures HistoryInv(job, w.lists, w.bases)
  {
    hide Safe, Core, GoodProcs, DecidedOk, SyncAt, ProgAt, TallyAt, CleanedOnDisk, DirtyIn, ProtectedIn;
    SafeFacts(job, w);
    CoreFacts(job, w);
    ProcFacts(job, w, r);
  }

  /** Past an opening barrier, every rank has arrived at that sync point. */
  lemma SyncBarrier(job: Job, w: World)
    requires w in Safe(job) && Shaped(job, w)
    ensures BarrierInv(job, w)
    ensures |w.lists| > 0 ==> AllArrived(w, |w.lists| - 1)
  {
    SafeFacts(job, w);
    CoreFacts(job, w);
  }

  // ------------------------------------------------------- opening barrier

  lemma PassOpeningIsGood(job: Job, lists: seq<seq<Addr>>, bases: seq<Base>, r: nat, p: Proc, p': Proc)
    requires ValidJob(job) && |bases| == |lists| + 1
    requires RankInv(job, lists, bases, r, p) && p.phase.Opening?
    requires p' == p.(phase := Deciding, s := p.s.(permitted := p.s.zero && p.s.cfg.strategy.ProcessZeroOnly?))
    requires Dist(job, p.pos) ==> p.s.clist == {}
    ensures p' in GoodProcs(job, lists, bases, r)
  {
    hide SyncAt, ProgAt, TallyAt, DemandAt, Coherent, Live;
    assert p'.s.(permitted := false) == p.s;
  }

  lemma PassOpeningKeepsSafe(job: Job, w: World, r: nat, w': World)
    requires w in Safe(job) && Shaped(job, w) && PassOpeningStep(w, r, w')
    ensures w' in Safe(job)
  {
    hide Safe, GoodProcs, SyncAt, HistoryInv, ProgAt, TallyAt, DemandAt, DecidedOk, CleanedOnDisk, ValidJob, Agrees, CandidatesOk;
    SyncFacts(job, w, r);
    PassOpeningIsGood(job, w.lists, w.bases, r, w.procs[r], w'.procs[r]);
    PutKeepsSafe(job, w, r, w'.procs[r]);
  }

  // --------------------------------------------------- deciding what to clean

  /** A rank that has arrived at the sync point being decided. */
  lemma DecidingKeepsRank(job: Job, lists: seq<seq<Addr>>, bases: seq<Base>, q: nat, p: Proc, list: seq<Addr>, b': Base)
    requires ValidJob(job) && |bases| == |lists| + 1
    requires RankInv(job, lists, bases, q, p) && p.epoch == |lists| && !p.phase.Running?
    requires SyncAt(job, bases[|lists|], b'.pos)
    requires q == 0 ==> Dist(job, b'.pos) && job.script[b'.pos - 1].Flush?
    ensures p in GoodProcs(job, lists + [list], bases + [b'], q)
  {
    hide ProgAt, TallyAt, DemandAt, Agrees, CandidatesOk, MidWrite;
    SyncPlaceUnique(job, bases[|lists|], p.pos, b'.pos);
    assert (bases + [b'])[p.epoch] == bases[p.epoch];
  }

  /** How the rank that decides goes on: into writing, or straight back to running. */
  ghost predicate GoesOn(job: Job, p: Proc, p': Proc, list: seq<Addr>) {
    && p'.pos == p.pos
    && if Dist(job, p.pos) && list != []
       then p'.epoch == p.epoch && p'.phase == Writing(list, Elements(list))
       else p'.epoch == p.epoch + 1 && p'.phase.Running?
  }

  lemma DecidingKeepsCore(job: Job, w: World, r: nat, list: seq<Addr>, p': Proc)
    requires w in Safe(job) && Shaped(job, w) && r < job.n && DecidingAt(w.procs[r], |w.lists|)
    requires var w1 := Decided(job, w, w.procs[r], list);
      && DecidedOk(job, w.bases[|w.lists|], list, w1.bases[|w.lists| + 1])
      && p' in GoodProcs(job, w1.lists, w1.bases, r)
    requires GoesOn(job, w.procs[r], p', list)
    requires r != 0 ==> Dist(job, w.procs[r].pos) && job.script[w.procs[r].pos - 1].Flush?
    ensures var w' := Put(Decided(job, w, w.procs[r], list), r, p'); Shaped(job, w') && w' in Core(job)
  {
    hide Safe, Core, GoodProcs, RankInv, ProgAt, TallyAt, CleanedOnDisk, ValidJob, Elements, SyncAt;
    SyncBarrier(job, w);
    var k, p := |w.lists|, w.procs[r];
    var w' := Put(Decided(job, w, p, list), r, p');
    assert AllArrived(w, k);
    forall q | 0 <= q < job.n
      ensures Placed(job, w'.bases, w'.procs[q]) && w'.procs[q] in GoodProcs(job, w'.lists, w'.bases, q)
      ensures q != r ==> w'.procs[q].epoch == k
    {
      assert Arrived(w.procs[q], k);
      if q != r {
        SyncFacts(job, w, q);
        DecidingKeepsRank(job, w.lists, w.bases, q, w.procs[q], list, w'.bases[k + 1]);
      }
    }
    DecidingKeepsHistory(job, w, list, w');
    MakeCore(job, w');
  }

  lemma DecidingKeepsHistory(job: Job, w: World, list: seq<Addr>, w': World)
    requires w in Safe(job) && Shaped(job, w) && |w'.bases| == |w.bases| + 1
    requires w'.lists == w.lists + [list] && w'.bases == w.bases + [w'.bases[|w.bases|]]
    requires DecidedOk(job, w.bases[|w.lists|], list, w'.bases[|w.bases|])
    ensures HistoryInv(job, w'.lists, w'.bases)
  {
    hide Safe, Core, GoodProcs, DecidedOk, BarrierInv, DiskInv, ValidJob, Placed;
    SafeFacts(job, w);
    CoreFacts(job, w);
    forall k | 0 <= k < |w'.lists| ensures DecidedOk(job, w'.bases[k], w'.lists[k], w'.bases[k + 1]) {
      if k < |w.lists| {
        assert DecidedOk(job, w.bases[k], w.lists[k], w.bases[k + 1]);
      }
    }
  }

  /** Everybody is at the sync point being decided, past every earlier one. */
  lemma EverybodyIsHere(job: Job, w: World, r: nat, q: nat)
    requires w in Safe(job) && Shaped(job, w) && r < job.n && q < job.n
    requires DecidingAt(w.procs[r], |w.lists|)
    ensures w.procs[q].epoch == |w.lists| && w.procs[q].pos == w.procs[r].pos
    ensures w.procs[q].phase.Opening? || w.procs[q].phase.Deciding?
  {
    hide Safe, GoodProcs, ProgAt, TallyAt, CleanedOnDisk, ValidJob, SyncAt, HistoryInv, DecidedOk, CandidatesOk, Agrees, DemandAt;
    SyncBarrier(job, w);
    assert AllArrived(w, |w.lists|);
    assert Arrived(w.procs[q], |w.lists|);
    SyncFacts(job, w, r);
    SyncFacts(job, w, q);
    SyncPlaceUnique(job, w.bases[|w.lists|], w.procs[q].pos, w.procs[r].pos);
  }

  /** Each candidate of a list just decided is waiting for its owner. */
  lemma NewCandidateUnwritten(job: Job, w': World, list: seq<Addr>, a: Addr)
    requires Shaped(job, w') && |w'.lists| > 0 && w'.lists[|w'.lists| - 1] == list
    requires Dist(job, w'.bases[|w'.lists|].pos) && a in list
    requires forall q | 0 <= q < job.n :: w'.procs[q].epoch == |w'.lists| - 1
               && (w'.procs[q].phase.Opening? || w'.procs[q].phase.Deciding? || w'.procs[q].phase == Writing(list, Elements(list)))
    ensures Unwritten(job, w', a)
  {
    hide Dist, Placed;
    var i :| 0 <= i < |list| && list[i] == a;
    var o := Owner(|list|, job.n, i);
    assert OwnsAddr(job.n, list, o, a);
    assert !DoneWith(w'.procs[o], |w'.lists| - 1, a);
  }

  lemma DecidingKeepsDisk(job: Job, w: World, r: nat, list: seq<Addr>, p': Proc, q: nat)
    requires w in Safe(job) && Shaped(job, w) && r < job.n && q < job.n && DecidingAt(w.procs[r], |w.lists|)
    requires GoesOn(job, w.procs[r], p', list)
    requires !Dist(job, w.procs[r].pos) ==> forall a | a in list ::
               && a in w.disk && a in ProgAt(job, w.procs[r].pos).truth
               && w.disk[a] == ProgAt(job, w.procs[r].pos).truth[a]
    requires var w' := Put(Decided(job, w, w.procs[r], list), r, p'); Shaped(job, w')
    ensures var w' := Put(Decided(job, w, w.procs[r], list), r, p'); DiskFor(job, w', w'.procs[q])
  {
    hide Safe, Core, GoodProcs, ProgAt, CleanedOnDisk, ValidJob;
    SafeFacts(job, w);
    var k, p := |w.lists|, w.procs[r];
    var w' := Put(Decided(job, w, p, list), r, p');
    forall o | 0 <= o < job.n
      ensures w.procs[o].epoch == k && w.procs[o].pos == p.pos
      ensures w.procs[o].phase.Opening? || w.procs[o].phase.Deciding?
    {
      EverybodyIsHere(job, w, r, o);
    }
    assert DiskFor(job, w, w.procs[q]);
    forall a | a in SettledFor(job, w'.bases, w'.procs[q]) && !Unwritten(job, w', a)
      ensures a in w'.disk && w'.disk[a] == ProgAt(job, w'.procs[q].pos).truth[a]
    {
      if a in list {
        if Dist(job, p.pos) {
          NewCandidateUnwritten(job, w', list, a);
        }
      } else {
        assert a in SettledFor(job, w.bases, w.procs[q]);
        assert !Unwritten(job, w, a);
      }
    }
  }

  lemma DecidingKeepsSafe(job: Job, w: World, r: nat, list: seq<Addr>, p': Proc)
    requires w in Safe(job) && Shaped(job, w) && r < job.n && DecidingAt(w.procs[r], |w.lists|)
    requires var w1 := Decided(job, w, w.procs[r], list);
      && DecidedOk(job, w.bases[|w.lists|], list, w1.bases[|w.lists| + 1])
      && p' in GoodProcs(job, w1.lists, w1.bases, r)
    requires GoesOn(job, w.procs[r], p', list)
    requires r != 0 ==> Dist(job, w.procs[r].pos) && job.script[w.procs[r].pos - 1].Flush?
    requires !Dist(job, w.procs[r].pos) ==> forall a | a in list ::
               && a in w.disk && a in ProgAt(job, w.procs[r].pos).truth
               && w.disk[a] == ProgAt(job, w.procs[r].pos).truth[a]
    requires r == 0 ==> p'.s.clist == {}
    ensures Put(Decided(job, w, w.procs[r], list), r, p') in Safe(job)
  {
    hide Safe, Core, GoodProcs, ProgAt, TallyAt, DecidedOk, GoesOn, HistoryInv, RankInv, DiskFor, Dist;
    SafeFacts(job, w);
    DecidingKeepsCore(job, w, r, list, p');
    var w' := Put(Decided(job, w, w.procs[r], list), r, p');
    forall q | 0 <= q < job.n ensures DiskFor(job, w', w'.procs[q]) {
      DecidingKeepsDisk(job, w, r, list, p', q);
    }
    if r != 0 {
      EverybodyIsHere(job, w, r, 0);
    }
    MakeSafe(job, w');
  }

  // --------------------------------------------------------- process-0-only

  /** A rank back in normal running right after the k-th sync point. */
  lemma LeftIsGood(job: Job, lists: seq<seq<Addr>>, bases: seq<Base>, r: nat, p': Proc)
    requires ValidJob(job) && |bases| == |lists| + 1 && |lists| > 0
    requires p'.epoch == |lists| && p'.phase.Running? && p'.pos == bases[|lists|].pos <= |job.script|
    requires Agrees(p'.s, ProgAt(job, p'.pos), Tally(bases[|lists|].dirty, 0))
    requires p'.s.cand == {} && p'.s.clist == {} && p'.s.zero == (r == 0)
    ensures p' in GoodProcs(job, lists, bases, r)
  {
    hide ProgAt, Agrees;
  }

  lemma BroadcastKeepsAgreement(s: Rank, g: Prog, t: Tally)
    requires s.zero && Agrees(s.(permitted := false), g, t) && s.clist !! ProtectedSet(s)
    ensures Agrees(BroadcastClean(s).(bytes := 0, permitted := false), g, Tally(t.dirty - s.clist, 0))
    ensures s.clist <= t.dirty && s.clist !! g.prot.Keys
    ensures DirtySet(s) == {} ==> s.clist == t.dirty
  {
  }

  lemma ZeroPostKeepsSafe(job: Job, w: World, w': World)
    requires w in Safe(job) && Shaped(job, w) && ZeroPostStep(job, w, w')
    requires w.procs[0].s.clist !! ProtectedSet(w.procs[0].s)
    ensures w' in Safe(job)
  {
    hide Safe, Core, GoodProcs, ProgAt, TallyAt, SyncAt, HistoryInv, CandidatesOk, DemandAt, Agrees, Pending, ProtectedIn, DirtyIn;
    var p := w.procs[0];
    SyncFacts(job, w, 0);
    var b, g, t := w.bases[p.epoch], ProgAt(job, p.pos), TallyAt(job, w.bases[p.epoch], p.pos);
    BroadcastKeepsAgreement(p.s, g, t);
    var list := Sorted(p.s.clist);
    var w1 := Decided(job, w, p, list);
    assert DecidedOk(job, b, list, w1.bases[|w.lists| + 1]);
    LeftIsGood(job, w1.lists, w1.bases, 0, Left(p, BroadcastClean(p.s)));
    forall a | a in list
      ensures a in w.disk && a in g.truth && w.disk[a] == g.truth[a]
    {
      PendingIsProtected(g);
      assert a in p.s.clist;
    }
    DecidingKeepsSafe(job, w, 0, list, Left(p, BroadcastClean(p.s)));
  }

  /** When all writes happen in sync points, nothing on the cleaned list is protected. */
  lemma PostedListIsUnprotected(job: Job, w: World)
    requires w in Safe(job) && Shaped(job, w) && w.procs[0].phase.Deciding?
    requires job.early ==> Heedful(job, w, ZeroPost)
    ensures w.procs[0].s.clist !! ProtectedSet(w.procs[0].s)
  {
    hide Safe, Core, GoodProcs, ProgAt, TallyAt, SyncAt, HistoryInv, CandidatesOk, DemandAt, Agrees, DirtyIn, ProtectedIn;
    SyncFacts(job, w, 0);
  }

  lemma PendingIsProtected(g: Prog)
    ensures Pending(g) <= g.prot.Keys
  {
  }

  lemma MarkingCleanKeepsAgreement(s: Rank, g: Prog, t: Tally, list: set<Addr>, s1: Rank)
    requires !s.zero && Agrees(s.(permitted := false), g, t)
    requires MarkEntriesAsClean(s, list) == Some(s1) && list !! g.prot.Keys
    ensures Agrees(s1.(bytes := 0, permitted := false), g, Tally(t.dirty - list, 0))
    ensures s1.cand == s.cand && s1.zero == s.zero && s1.clist == {}
  {
    assert DirtySet(s1) == DirtySet(s) - list;
  }

  /** Leaving a decided sync point: the rank is committed to the same dirty set as before. */
  lemma ReturnKeepsSafe(job: Job, w: World, r: nat, s: Rank)
    requires w in Safe(job) && Shaped(job, w) && r < job.n && !w.procs[r].phase.Running?
    requires w.procs[r].epoch + 1 == |w.lists|
    requires var p := w.procs[r]; var k := |w.lists|;
      && s.cand == {} && s.clist == {} && s.zero == p.s.zero
      && Agrees(s.(bytes := 0, permitted := false), ProgAt(job, p.pos), Tally(w.bases[k].dirty, 0))
      && (Dist(job, p.pos) && w.lists[k - 1] != [] ==> p.phase.Closing? && AllClosed(w, k - 1))
    ensures Put(w, r, Left(w.procs[r], s)) in Safe(job)
  {
    hide Safe, Core, GoodProcs, ProgAt, SyncAt, HistoryInv, DemandAt, Agrees, CandidatesOk, DecidedOk, AllClosed, Pending;
    var p, k := w.procs[r], |w.lists|;
    SyncFacts(job, w, r);
    LeftIsGood(job, w.lists, w.bases, r, Left(p, s));
    PutKeepsSafe(job, w, r, Left(p, s));
  }

  lemma ReceiveCleanKeepsSafe(job: Job, w: World, r: nat, w': World)
    requires w in Safe(job) && Shaped(job, w) && ReceiveCleanStep(w, r, w')
    ensures w' in Safe(job)
  {
    hide Safe, Core, GoodProcs, ProgAt, TallyAt, SyncAt, HistoryInv, DemandAt, Agrees, MarkEntriesAsClean, DirtyIn, ProtectedIn, Elements;
    var p := w.procs[r];
    SyncFacts(job, w, r);
    var g, t, list := ProgAt(job, p.pos), TallyAt(job, w.bases[p.epoch], p.pos), Elements(w.lists[p.epoch]);
    var s1 := MarkEntriesAsClean(p.s, list).value;
    MarkingCleanKeepsAgreement(p.s, g, t, list, s1);
    ReturnKeepsSafe(job, w, r, s1);
  }

  // ------------------------------------------------------- rank 0 writes out

  lemma FlushKeepsAgreement(s: Rank, g: Prog, t: Tally, a: Addr)
    requires s.zero && Agrees(s.(permitted := false), g, t)
    requires a in s.cache && s.cache[a].dirty && !s.cache[a].prot
    ensures Agrees(FlushEntry(s, a).(permitted := false), g, t)
    ensures FlushEntry(s, a).clist == s.clist + {a} && FlushEntry(s, a).cand == s.cand
    ensures FlushEntry(s, a).zero == s.zero && FlushEntry(s, a).permitted == s.permitted
    ensures ProtectedSet(FlushEntry(s, a)) == ProtectedSet(s) && a !in ProtectedSet(s)
    ensures a in t.dirty && a in g.truth && s.cache[a].obj == g.truth[a]
  {
    assert DirtySet(FlushEntry(s, a)) == DirtySet(s) - {a};
  }

  lemma ZeroFlushIsGood(job: Job, lists: seq<seq<Addr>>, bases: seq<Base>, p: Proc, a: Addr)
    requires ValidJob(job) && |bases| == |lists| + 1
    requires RankInv(job, lists, bases, 0, p) && !Dist(job, p.pos)
    requires (p.phase.Running? && job.early) || p.phase.Deciding?
    requires a in p.s.cache && p.s.cache[a].dirty && !p.s.cache[a].prot
    ensures p.(s := FlushEntry(p.s, a)) in GoodProcs(job, lists, bases, 0)
    ensures a in ProgAt(job, p.pos).truth && p.s.cache[a].obj == ProgAt(job, p.pos).truth[a]
  {
    hide ProgAt, TallyAt, SyncAt, DemandAt, FlushEntry, NoSyncBefore, DirtyIn, ProtectedIn, Coherent;
    assert p.phase.Running? ==> p.s.(permitted := false) == p.s;
    assert p.phase.Running? ==> FlushEntry(p.s, a).(permitted := false) == FlushEntry(p.s, a) by {
      FlushKeepsAgreement(p.s, ProgAt(job, p.pos), TallyAt(job, bases[p.epoch], p.pos), a);
    }
    FlushKeepsAgreement(p.s, ProgAt(job, p.pos), TallyAt(job, bases[p.epoch], p.pos), a);
  }

  /** A rank writes one object out: whoever may read it finds its own current content. */
  lemma WriteKeepsSafe(job: Job, w: World, r: nat, p': Proc, a: Addr, obj: Obj)
    requires w in Safe(job) && Shaped(job, w) && r < job.n
    requires Placed(job, w.bases, p') && p' in GoodProcs(job, w.lists, w.bases, r)
    requires MovesForward(job, w, w.procs[r], p')
    requires p'.pos == w.procs[r].pos && p'.epoch == w.procs[r].epoch
    requires forall x | x != a :: DoneWith(p', p'.epoch, x) ==> DoneWith(w.procs[r], p'.epoch, x)
    requires forall q | 0 <= q < job.n ::
               a in SettledFor(job, w.bases, w.procs[q]) ==> ProgAt(job, w.procs[q].pos).truth[a] == obj
    requires var p0 := Put(w, r, p').procs[0];
             !p0.phase.Writing? && !p0.phase.Closing? ==>
               CleanedOnDisk(job, w.disk[a := obj], p0.s.clist, p0.pos)
    ensures Put(w, r, p').(disk := w.disk[a := obj]) in Safe(job)
  {
    hide Safe, Core, GoodProcs, MovesForward, CleanedOnDisk, ProgAt, TallyAt, ValidJob, Settled, OwnsAddr;
    SafeFacts(job, w);
    PutKeepsCore(job, w, r, p');
    var w' := Put(w, r, p').(disk := w.disk[a := obj]);
    CoreIgnoresDisk(job, Put(w, r, p'), w'.disk);
    forall q | 0 <= q < job.n ensures DiskFor(job, w', w'.procs[q]) {
      assert DiskFor(job, w, w.procs[q]);
      forall x | x in SettledFor(job, w'.bases, w'.procs[q]) && !Unwritten(job, w', x)
        ensures x in w'.disk && w'.disk[x] == ProgAt(job, w'.procs[q].pos).truth[x]
      {
        assert x in SettledFor(job, w.bases, w.procs[q]);
        if x != a {
          OthersStayUnwritten(job, w, r, w', x);
        }
      }
    }
    MakeSafe(job, w');
  }

  lemma OthersStayUnwritten(job: Job, w: World, r: nat, w': World, x: Addr)
    requires Shaped(job, w) && Shaped(job, w') && r < job.n
    requires w'.lists == w.lists && w'.bases == w.bases && w'.procs == w.procs[r := w'.procs[r]]
    requires w'.procs[r].epoch == w.procs[r].epoch
    requires DoneWith(w'.procs[r], w.procs[r].epoch, x) ==> DoneWith(w.procs[r], w.procs[r].epoch, x)
    ensures Unwritten(job, w, x) ==> Unwritten(job, w', x)
  {
    hide ValidJob, Placed, OwnsAddr, Dist;
    if Unwritten(job, w, x) {
      var k := |w.lists|;
      var o :| 0 <= o < job.n && OwnsAddr(job.n, w.lists[k - 1], o, x) && !DoneWith(w.procs[o], k - 1, x);
      assert OwnsAddr(job.n, w'.lists[k - 1], o, x) && !DoneWith(w'.procs[o], k - 1, x);
    }
  }

  lemma CoreIgnoresDisk(job: Job, w: World, disk: map<Addr, Obj>)
    requires w in Core(job)
    ensures w.(disk := disk) in Core(job)
  {
    hide HistoryInv, GoodProcs, Dist, ValidJob, Placed;
  }

  lemma ZeroFlushFacts(job: Job, w: World, a: Addr)
    requires w in Safe(job) && Shaped(job, w) && !Dist(job, w.procs[0].pos)
    requires (w.procs[0].phase.Running? && job.early) || w.procs[0].phase.Deciding?
    requires a in w.procs[0].s.cache && w.procs[0].s.cache[a].dirty && !w.procs[0].s.cache[a].prot
    ensures var p := w.procs[0];
      && p.(s := FlushEntry(p.s, a)) in GoodProcs(job, w.lists, w.bases, 0)
      && CleanedOnDisk(job, w.disk[a := p.s.cache[a].obj], FlushEntry(p.s, a).clist, p.pos)
  {
    hide Safe, Core, GoodProcs, ProgAt, TallyAt, SyncAt, HistoryInv, DemandAt, RankInv, Pending;
    SafeFacts(job, w);
    CoreFacts(job, w);
    ProcFacts(job, w, 0);
    var p := w.procs[0];
    ZeroFlushIsGood(job, w.lists, w.bases, p, a);
    assert FlushEntry(p.s, a).clist <= p.s.clist + {a};
  }

  /** A write of rank 0 that no rank can observe: nobody may read the object from the file
      and expect something else. */
  lemma ZeroWriteKeepsSafe(job: Job, w: World, a: Addr, w': World)
    requires w in Safe(job) && Shaped(job, w)
    requires !Dist(job, w.procs[0].pos)
    requires (w.procs[0].phase.Running? && job.early) || w.procs[0].phase.Deciding?
    requires a in w.procs[0].s.cache && w.procs[0].s.cache[a].dirty && !w.procs[0].s.cache[a].prot
    requires HarmlessToReaders(job, w, a, w.procs[0].s.cache[a].obj)
    requires WriteOut(w, 0, a, w.procs[0].(s := FlushEntry(w.procs[0].s, a)), w')
    ensures w' in Safe(job)
  {
    hide Safe, Core, GoodProcs, ProgAt, TallyAt, SettledFor, Dist, FlushEntry, CleanedOnDisk;
    ZeroFlushFacts(job, w, a);
    WriteKeepsSafe(job, w, 0, w'.procs[0], a, w.procs[0].s.cache[a].obj);
  }

  lemma ZeroFlushKeepsSafe(job: Job, w: World, a: Addr, w': World)
    requires w in Safe(job) && Shaped(job, w) && ZeroFlushStep(w, a, w')
    ensures w' in Safe(job)
  {
    hide Safe, Core, GoodProcs, ProgAt, TallyAt, SyncAt, HistoryInv, DemandAt, DirtyIn, ProtectedIn, Coherent, DecidedOk, CleanedOnDisk, ValidJob;
    var p := w.procs[0];
    SyncFacts(job, w, 0);
    FlushKeepsAgreement(p.s, ProgAt(job, p.pos), TallyAt(job, w.bases[p.epoch], p.pos), a);
    forall q | 0 <= q < job.n ensures a !in SettledFor(job, w.bases, w.procs[q]) {
      EverybodyIsHere(job, w, 0, q);
    }
    ZeroWriteKeepsSafe(job, w, a, w');
  }

  /** What the file may be read for at place p, it could be read for at the last sync point b,
      with the same content. */
  lemma {:induction false} SettledSinceSync(job: Job, b: Base, p: nat, a: Addr)
    requires ValidJob(job) && b.pos <= p <= |job.script| && Live(ProgAt(job, b.pos), Tally(b.dirty, 0))
    requires a in Settled(ProgAt(job, p), TallyAt(job, b, p).dirty)
    ensures a in Settled(ProgAt(job, b.pos), b.dirty) && ProgAt(job, b.pos).truth[a] == ProgAt(job, p).truth[a]
    decreases p
  {
    hide Settled, Live, ProgAt, TallyStep, Dist, OpOk;
    if p > b.pos {
      LiveSinceSync(job, b, p - 1);
      ExecOnlyUnsettles(job, b, p - 1, a);
      SettledSinceSync(job, b, p - 1, a);
    }
  }

  lemma {:induction false} LiveSinceSync(job: Job, b: Base, p: nat)
    requires ValidJob(job) && b.pos <= p <= |job.script| && Live(ProgAt(job, b.pos), Tally(b.dirty, 0))
    ensures Live(ProgAt(job, p), TallyAt(job, b, p))
    decreases p
  {
    hide ProgStep, TallyOp, ProgDemand, OpOk, Dist;
    if p > b.pos {
      LiveSinceSync(job, b, p - 1);
      assert OpOk(ProgAt(job, p - 1), job.script[p - 1]);
      OpKeepsLive(ProgAt(job, p - 1), TallyAt(job, b, p - 1), job.script[p - 1]);
    }
  }

  lemma InitialProg(job: Job)
    ensures ProgAt(job, 0) == job.init
  {
  }

  lemma {:induction false} LiveAtSync(job: Job, lists: seq<seq<Addr>>, bases: seq<Base>, k: nat)
    requires ValidJob(job) && HistoryInv(job, lists, bases) && k < |bases|
    ensures bases[k].pos <= |job.script| && Live(ProgAt(job, bases[k].pos), Tally(bases[k].dirty, 0))
  {
    hide ProgAt, TallyAt, DemandAt, NoSyncBefore;
    if k == 0 {
      assert ProgAt(job, 0) == job.init by { InitialProg(job); }
    } else {
      LiveAtSync(job, lists, bases, k - 1);
      assert DecidedOk(job, bases[k - 1], lists[k - 1], bases[k]);
      LiveSinceSync(job, bases[k - 1], bases[k].pos);
    }
  }

  /** Wherever another rank is, it may read from the file only what rank 0 found settled at
      its last sync point: rank 0 need not know where the others are. */
  lemma FittingIsHarmless(job: Job, w: World, a: Addr, obj: Obj)
    requires w in Safe(job) && Shaped(job, w) && w.procs[0].phase.Running?
    requires FitsLastSync(job, w.bases[w.procs[0].epoch], a, obj)
    ensures w.procs[0].epoch == |w.lists| && HarmlessToReaders(job, w, a, obj)
  {
    hide Safe, Core, GoodProcs, ProgAt, TallyAt, SyncAt, NoSyncBefore, BarrierInv, HistoryInv, Agrees, CandidatesOk, MidWrite,
         Settled, DiskInv, ValidJob, Live;
    SafeFacts(job, w);
    assert job.n > 0 by { JobHasRanks(job); }
    ProcFacts(job, w, 0);
    var b := w.bases[|w.lists|];
    LiveAtSync(job, w.lists, w.bases, |w.lists|);
    forall q | 0 <= q < job.n && a in SettledFor(job, w.bases, w.procs[q])
      ensures ProgAt(job, w.procs[q].pos).truth[a] == obj
    {
      ProcFacts(job, w, q);
      if w.procs[q].epoch == |w.lists| {
        SettledSinceSync(job, b, w.procs[q].pos, a);
      }
    }
  }

  lemma EarlyFlushKeepsSafe(job: Job, w: World, a: Addr, w': World)
    requires w in Safe(job) && Shaped(job, w) && EarlyFlushStep(job, w, a, w') && Heedful(job, w, EarlyFlush(a))
    ensures w' in Safe(job)
  {
    hide Safe, Core, GoodProcs, ProgAt, TallyAt, Settled, FlushEntry, HarmlessToReaders, FitsLastSync;
    FittingIsHarmless(job, w, a, w.procs[0].s.cache[a].obj);
    EarlyIsZeroOnly(job, w);
    ZeroWriteKeepsSafe(job, w, a, w');
  }

  lemma JobHasRanks(job: Job)
    requires ValidJob(job)
    ensures job.n > 0
  {
  }

  lemma EarlyIsZeroOnly(job: Job, w: World)
    requires Shaped(job, w) && job.early
    ensures !Dist(job, w.procs[0].pos)
  {
  }

  // ----------------------------------------------------------- distributed

  /** A rank with a non-empty candidate list in hand is set to apply all of it. */
  lemma BeginWritingIsGood(job: Job, lists: seq<seq<Addr>>, bases: seq<Base>, r: nat, p: Proc, list: seq<Addr>)
    requires ValidJob(job) && |bases| == |lists| + 1 && |lists| > 0 && Dist(job, p.pos)
    requires Placed(job, bases, p) && p.epoch + 1 == |lists| && p.s.zero == (r == 0)
    requires SyncAt(job, bases[p.epoch], p.pos) && bases[|lists|].pos == p.pos
    requires Agrees(p.s.(permitted := false), ProgAt(job, p.pos), TallyAt(job, bases[p.epoch], p.pos)) && p.s.clist == {}
    requires list == lists[p.epoch] && list != []
    ensures Begin(p, list) in GoodProcs(job, lists, bases, r)
  {
    hide ProgAt, TallyAt, SyncAt, DemandAt, DirtyIn, CandidatesOk;
    NothingCleanedYet(p.s, ProgAt(job, p.pos), TallyAt(job, bases[p.epoch], p.pos));
  }

  lemma NothingCleanedYet(s: Rank, g: Prog, t: Tally)
    requires Agrees(s.(permitted := false), g, t) && s.clist == {}
    ensures DirtySet(s) == t.dirty && Agrees(s.(cand := {}, bytes := 0, permitted := false), g, Tally(t.dirty, 0))
    ensures t.dirty * ProtectedSet(s) == t.dirty * g.prot.Keys
    ensures forall d, cand | CandidatesOk(s, d, cand) :: cand <= t.dirty
  {
    if s.zero {
      forall a | a in t.dirty ensures a in DirtySet(s) {
        assert a !in t.dirty - DirtySet(s);
      }
    }
  }

  /** A rank takes up a list that is already decided. */
  lemma BeginKeepsSafe(job: Job, w: World, r: nat)
    requires w in Safe(job) && Shaped(job, w) && r < job.n && w.procs[r].phase.Deciding?
    requires w.procs[r].epoch + 1 == |w.lists| && Dist(job, w.procs[r].pos)
    ensures Put(w, r, Begin(w.procs[r], w.lists[w.procs[r].epoch])) in Safe(job)
  {
    hide Safe, Core, GoodProcs, ProgAt, TallyAt, SyncAt, HistoryInv, DemandAt, CandidatesOk, Coherent, DirtyIn, ProtectedIn, Live, OwnsAddr;
    var p := w.procs[r];
    var list := w.lists[p.epoch];
    SyncFacts(job, w, r);
    NothingCleanedYet(p.s, ProgAt(job, p.pos), TallyAt(job, w.bases[p.epoch], p.pos));
    if list == [] {
      assert w.bases[|w.lists|].dirty == TallyAt(job, w.bases[p.epoch], p.pos).dirty;
      ReturnKeepsSafe(job, w, r, p.s.(cand := {}));
    } else {
      BeginWritingIsGood(job, w.lists, w.bases, r, p, list);
      BeginClaimsNothing(job, w, r);
      PutKeepsSafe(job, w, r, Begin(p, list));
    }
  }

  lemma BeginClaimsNothing(job: Job, w: World, r: nat)
    requires Shaped(job, w) && r < job.n
    requires w.procs[r].epoch + 1 == |w.lists| && w.lists[w.procs[r].epoch] != []
    ensures ClaimsNothing(job, w, r, Begin(w.procs[r], w.lists[w.procs[r].epoch]))
  {
    hide ValidJob, Placed, Dist;
  }

  /** A flush finds nothing protected, and asks for the whole cache; nothing else does. */
  lemma FlushDemand(job: Job, b: Base, p: nat)
    requires ValidJob(job) && SyncAt(job, b, p)
    ensures DemandAt(job, b, p).extent.WholeCache? <==> job.script[p - 1].Flush?
    ensures job.script[p - 1].Flush? ==> ProgAt(job, p).prot == map[]
  {
    hide TallyAt, TallyOp, NoSyncBefore;
    assert OpOk(ProgAt(job, p - 1), job.script[p - 1]);
  }

  lemma CandidatesAreDirty(s: Rank, g: Prog, t: Tally, d: Demand)
    requires Agrees(s.(permitted := false), g, t) && s.clist == {} && s.cfg.strategy.Distributed?
    requires d.SyncPoint? && CandidatesOk(s, d, s.cand)
    requires if d.extent.WholeCache? then g.prot == map[] else s.zero
    ensures s.cand <= t.dirty && s.cand !! g.prot.Keys
    ensures d.extent.WholeCache? ==> s.cand == t.dirty
  {
    NothingCleanedYet(s, g, t);
  }

  /** Rank 0 for a partial clean, or the first rank of a distributed flush, settles the
      candidate list. */
  lemma DecideCandidatesKeepsSafe(job: Job, w: World, r: nat)
    requires w in Safe(job) && Shaped(job, w) && r < job.n && DecidingAt(w.procs[r], |w.lists|)
    requires Dist(job, w.procs[r].pos) && w.procs[r].pos > 0
    requires r == 0 || job.script[w.procs[r].pos - 1].Flush?
    ensures var p := w.procs[r]; var list := Sorted(p.s.cand);
            Put(Decided(job, w, p, list), r, Begin(p, list)) in Safe(job)
  {
    hide Safe, Core, GoodProcs, ProgAt, TallyAt, SyncAt, HistoryInv, DemandAt, CandidatesOk, Coherent, DirtyIn, ProtectedIn, Live, CleanedOnDisk;
    var p, k := w.procs[r], |w.lists|;
    SyncFacts(job, w, r);
    var b, g, t := w.bases[p.epoch], ProgAt(job, p.pos), TallyAt(job, w.bases[p.epoch], p.pos);
    SyncIsDemanded(job, b, p.pos);
    FlushDemand(job, b, p.pos);
    CandidatesAreDirty(p.s, g, t, DemandAt(job, b, p.pos));
    var list := Sorted(p.s.cand);
    var w1 := Decided(job, w, p, list);
    assert DecidedOk(job, b, list, w1.bases[k + 1]);
    assert w1.lists[p.epoch] == list && w1.bases[p.epoch] == b;
    if list == [] {
      NothingCleanedYet(p.s, g, t);
      assert w1.bases[k + 1].dirty == t.dirty;
      LeftIsGood(job, w1.lists, w1.bases, r, Begin(p, list));
    } else {
      BeginWritingIsGood(job, w1.lists, w1.bases, r, p, list);
    }
    DecidingKeepsSafe(job, w, r, list, Begin(p, list));
  }

  lemma SyncIsDemanded(job: Job, b: Base, p: nat)
    requires ValidJob(job) && SyncAt(job, b, p)
    ensures b.pos < p <= |job.script| && DemandAt(job, b, p).SyncPoint?
  {
  }

  lemma PostCandidatesKeepsSafe(job: Job, w: World, w': World)
    requires w in Safe(job) && Shaped(job, w) && PostCandidatesStep(job, w, w')
    ensures w' in Safe(job)
  {
    hide Safe, GoodProcs, ProgAt, TallyAt, SyncAt, HistoryInv, DemandAt, CandidatesOk, Agrees, DecidedOk, Begin, CleanedOnDisk;
    SyncFacts(job, w, 0);
    DecideCandidatesKeepsSafe(job, w, 0);
  }

  lemma ReceiveCandidatesKeepsSafe(job: Job, w: World, r: nat, w': World)
    requires w in Safe(job) && Shaped(job, w) && ReceiveCandidatesStep(job, w, r, w')
    ensures w' in Safe(job)
  {
    hide Safe, GoodProcs, ProgAt, TallyAt, SyncAt, HistoryInv, DemandAt, CandidatesOk, Agrees, DecidedOk, Begin, ValidJob, CleanedOnDisk;
    SyncFacts(job, w, r);
    BeginKeepsSafe(job, w, r);
  }

  /** In a distributed flush the list a rank builds alone is the one already settled. */
  lemma LocalListIsTheList(job: Job, w: World, r: nat)
    requires w in Safe(job) && Shaped(job, w) && r < job.n && w.procs[r].phase.Deciding?
    requires w.procs[r].epoch + 1 == |w.lists| && Dist(job, w.procs[r].pos)
    requires w.procs[r].pos > 0 && job.script[w.procs[r].pos - 1].Flush?
    ensures Sorted(w.procs[r].s.cand) == w.lists[w.procs[r].epoch]
  {
    hide Safe, Core, GoodProcs, ProgAt, TallyAt, SyncAt, HistoryInv, DemandAt, CandidatesOk, Coherent, DirtyIn, ProtectedIn, Live, CleanedOnDisk;
    var p := w.procs[r];
    SyncFacts(job, w, r);
    var b := w.bases[p.epoch];
    SyncIsDemanded(job, b, p.pos);
    FlushDemand(job, b, p.pos);
    CandidatesAreDirty(p.s, ProgAt(job, p.pos), TallyAt(job, b, p.pos), DemandAt(job, b, p.pos));
    IncreasingUnique(Sorted(p.s.cand), w.lists[p.epoch]);
  }

  lemma LocalCandidatesKeepsSafe(job: Job, w: World, r: nat, w': World)
    requires w in Safe(job) && Shaped(job, w) && LocalCandidatesStep(job, w, r, w')
    ensures w' in Safe(job)
  {
    hide Safe, GoodProcs, ProgAt, TallyAt, SyncAt, HistoryInv, DemandAt, CandidatesOk, Agrees, DecidedOk, Begin, ValidJob, CleanedOnDisk;
    SyncFacts(job, w, r);
    if w.procs[r].epoch == |w.lists| {
      DecideCandidatesKeepsSafe(job, w, r);
    } else {
      LocalListIsTheList(job, w, r);
      BeginKeepsSafe(job, w, r);
    }
  }

  // ---------------------------------------------------------- one candidate

  /** Writing a candidate out, or only marking it clean, takes it off the rank's dirty set. */
  lemma CandidateDone(s: Rank, g: Prog, t: Tally, list: seq<Addr>, todo: set<Addr>, a: Addr, s1: Rank)
    requires MidWrite(s, g, t, list, todo) && a in todo
    requires a in s.cache && s.cache[a].dirty && !s.cache[a].prot
    requires s1 == FlushEntry(s, a) || s1 == ClearEntry(s, a)
    ensures MidWrite(s1, g, t, list, todo - {a})
    ensures a in g.truth && s.cache[a].obj == g.truth[a]
    ensures s1.zero == s.zero && s1.permitted == s.permitted
  {
    hide Coherent;
    OneCleanedCoherent(s, g, a, s1);
    assert a in list;
    assert DirtySet(s1) == DirtySet(s) - {a};
    assert t.dirty - (Elements(list) - (todo - {a})) == t.dirty - (Elements(list) - todo) - {a};
  }

  lemma OneCleanedCoherent(s: Rank, g: Prog, a: Addr, s1: Rank)
    requires Coherent(s, g) && a in s.cache && s1.cache == s.cache[a := s.cache[a].(dirty := false)]
    ensures Coherent(s1, g) && a in g.truth && s.cache[a].obj == g.truth[a]
  {
  }

  lemma CandidateDoneIsGood(job: Job, lists: seq<seq<Addr>>, bases: seq<Base>, r: nat, p: Proc, a: Addr, s1: Rank)
    requires ValidJob(job) && |bases| == |lists| + 1
    requires RankInv(job, lists, bases, r, p) && p.phase.Writing? && a in p.phase.todo
    requires a in p.s.cache && p.s.cache[a].dirty && !p.s.cache[a].prot
    requires s1 == FlushEntry(p.s, a) || s1 == ClearEntry(p.s, a)
    ensures p.(s := s1, phase := p.phase.(todo := p.phase.todo - {a})) in GoodProcs(job, lists, bases, r)
    ensures a in ProgAt(job, p.pos).truth && p.s.cache[a].obj == ProgAt(job, p.pos).truth[a]
  {
    hide ProgAt, TallyAt, SyncAt, FlushEntry, ClearEntry, MidWrite;
    CandidateDone(p.s, ProgAt(job, p.pos), TallyAt(job, bases[p.epoch], p.pos), p.phase.list, p.phase.todo, a, s1);
  }

  /** While one rank is still writing, every rank is held in this sync point. */
  lemma NobodyHasLeft(job: Job, w: World, r: nat, q: nat)
    requires w in Safe(job) && Shaped(job, w) && r < job.n && q < job.n && w.procs[r].phase.Writing?
    ensures w.procs[q].epoch + 1 == |w.lists| && w.procs[q].pos == w.procs[r].pos && !w.procs[q].phase.Running?
  {
    hide Safe, GoodProcs, ProgAt, TallyAt, SyncAt, HistoryInv, DecidedOk, CandidatesOk, Agrees, DemandAt, MidWrite, CleanedOnDisk;
    SyncBarrier(job, w);
    SyncFacts(job, w, r);
    var k := |w.lists|;
    assert !Closed(w.procs[r], k - 1);
    assert Arrived(w.procs[q], k - 1);
    EpochBound(job, w, q);
    SyncFacts(job, w, q);
  }

  lemma EpochBound(job: Job, w: World, q: nat)
    requires w in Safe(job) && Shaped(job, w) && q < job.n
    ensures w.procs[q].epoch <= |w.lists|
  {
    hide ProgAt, TallyAt;
    ProcFacts(job, w, q);
  }

  lemma WriteOneKeepsSafe(job: Job, w: World, r: nat, a: Addr, w': World)
    requires w in Safe(job) && Shaped(job, w) && WriteOneStep(job, w, r, a, w')
    ensures w' in Safe(job)
  {
    hide Safe, Core, GoodProcs, ProgAt, TallyAt, SyncAt, HistoryInv, DecidedOk, CandidatesOk, Agrees, DemandAt,
         MidWrite, CleanedOnDisk, OwnsAddr, FlushEntry, ClearEntry, ValidJob;
    var p, p' := w.procs[r], w'.procs[r];
    SyncFacts(job, w, r);
    CandidateDoneIsGood(job, w.lists, w.bases, r, p, a, p'.s);
    forall q | 0 <= q < job.n ensures w.procs[q].pos == p.pos && w.procs[q].epoch == p.epoch {
      NobodyHasLeft(job, w, r, q);
    }
    if OwnsAddr(job.n, p.phase.list, r, a) {
      NobodyHasLeft(job, w, r, 0);
      SyncFacts(job, w, 0);
      NothingOnDiskNeeded(job, w'.disk, p.pos);
      WriteKeepsSafe(job, w, r, p', a, p.s.cache[a].obj);
    } else {
      PutKeepsSafe(job, w, r, p');
    }
  }

  lemma NothingOnDiskNeeded(job: Job, disk: map<Addr, Obj>, pos: nat)
    requires pos <= |job.script|
    ensures CleanedOnDisk(job, disk, {}, pos)
  {
  }

  lemma EndWritingKeepsSafe(job: Job, w: World, r: nat, w': World)
    requires w in Safe(job) && Shaped(job, w) && EndWritingStep(w, r, w')
    ensures w' in Safe(job)
  {
    hide Safe, Core, GoodProcs, ProgAt, TallyAt, SyncAt, HistoryInv, DecidedOk, CandidatesOk, Agrees, DemandAt,
         MidWrite, CleanedOnDisk, OwnsAddr, ValidJob;
    SyncFacts(job, w, r);
    EndWritingIsGood(job, w.lists, w.bases, r, w.procs[r]);
    PutKeepsSafe(job, w, r, w'.procs[r]);
  }

  lemma EndWritingIsGood(job: Job, lists: seq<seq<Addr>>, bases: seq<Base>, r: nat, p: Proc)
    requires ValidJob(job) && |bases| == |lists| + 1
    requires RankInv(job, lists, bases, r, p) && p.phase.Writing? && p.phase.todo == {}
    ensures p.(s := p.s.(permitted := false), phase := Closing(p.phase.list)) in GoodProcs(job, lists, bases, r)
  {
    hide ProgAt, TallyAt, SyncAt, Live, DirtyIn;
  }

  /** After the closing barrier rank 0 tidies its lists: agreement is back, with nothing
      listed as cleaned. */
  lemma TidyingRestoresAgreement(s: Rank, g: Prog, t: Tally, list: seq<Addr>, s1: Rank)
    requires MidWrite(s, g, t, list, {}) && s.cand == {} && !s.permitted
    requires s1 == if s.zero then TidyLists(s, Elements(list)) else s
    ensures Agrees(s1.(bytes := 0, permitted := false), g, Tally(t.dirty - Elements(list), 0))
    ensures s1.clist == {} && s1.cand == {} && s1.zero == s.zero
  {
    assert DirtySet(s1) == t.dirty - Elements(list);
  }

  lemma LeaveKeepsSafe(job: Job, w: World, r: nat, w': World)
    requires w in Safe(job) && Shaped(job, w) && LeaveStep(w, r, w')
    ensures w' in Safe(job)
  {
    hide Safe, Core, GoodProcs, ProgAt, TallyAt, SyncAt, HistoryInv, CandidatesOk, Agrees, DemandAt, MidWrite,
         CleanedOnDisk, OwnsAddr, ValidJob, TidyLists, Elements;
    var p := w.procs[r];
    SyncFacts(job, w, r);
    var s1 := if p.s.zero then TidyLists(p.s, Elements(p.phase.list)) else p.s;
    ClosingFacts(job, w.lists, w.bases, r, p);
    TidyingRestoresAgreement(p.s, ProgAt(job, p.pos), TallyAt(job, w.bases[p.epoch], p.pos), p.phase.list, s1);
    ReturnKeepsSafe(job, w, r, s1);
  }

  lemma ClosingFacts(job: Job, lists: seq<seq<Addr>>, bases: seq<Base>, r: nat, p: Proc)
    requires ValidJob(job) && |bases| == |lists| + 1
    requires RankInv(job, lists, bases, r, p) && p.phase.Closing?
    ensures MidWrite(p.s, ProgAt(job, p.pos), TallyAt(job, bases[p.epoch], p.pos), p.phase.list, {})
    ensures !p.s.permitted && p.s.cand == {} && p.epoch + 1 == |lists| && p.phase.list == lists[p.epoch]
  {
    hide ProgAt, TallyAt, SyncAt;
  }

  // ------------------------------------------------------------ every step

  /** Whatever step any rank takes, the run stays safe; but a rank 0 that may write between sync
      points has two things to heed. */
  lemma StepKeepsSafe(job: Job, w: World, step: Step, w': World)
    requires w in Safe(job) && Shaped(job, w) && StepTo(job, w, step, w')
    requires job.early ==> Heedful(job, w, step)
    ensures w' in Safe(job)
  {
    hide Safe, ExecStep, LoadStep, EvictStep, SetPinStep, EarlyFlushStep, PassOpeningStep, ZeroFlushStep, ZeroPostStep,
         ReceiveCleanStep, PostCandidatesStep, ReceiveCandidatesStep, LocalCandidatesStep, WriteOneStep, EndWritingStep,
         LeaveStep, Shaped, Heedful;
    match step
    case Exec(r, cand) => ExecKeepsSafe(job, w, r, cand, w');
    case Load(r, a) => LoadKeepsSafe(job, w, r, a, w');
    case Evict(r, a) => EvictKeepsSafe(job, w, r, a, w');
    case SetPin(r, a, pin) => SetPinKeepsSafe(job, w, r, a, pin, w');
    case EarlyFlush(a) =>
      OnlyEarlyJobsWriteEarly(job, w, a, w');
      EarlyFlushKeepsSafe(job, w, a, w');
    case PassOpening(r) => PassOpeningKeepsSafe(job, w, r, w');
    case ZeroFlush(a) => ZeroFlushKeepsSafe(job, w, a, w');
    case ZeroPost =>
      PosterDecides(job, w, w');
      PostedListIsUnprotected(job, w);
      ZeroPostKeepsSafe(job, w, w');
    case ReceiveClean(r) => ReceiveCleanKeepsSafe(job, w, r, w');
    case PostCandidates => PostCandidatesKeepsSafe(job, w, w');
    case ReceiveCandidates(r) => ReceiveCandidatesKeepsSafe(job, w, r, w');
    case LocalCandidates(r) => LocalCandidatesKeepsSafe(job, w, r, w');
    case WriteOne(r, a) => WriteOneKeepsSafe(job, w, r, a, w');
    case EndWriting(r) => EndWritingKeepsSafe(job, w, r, w');
    case Leave(r) => LeaveKeepsSafe(job, w, r, w');
  }

  lemma PosterDecides(job: Job, w: World, w': World)
    requires Shaped(job, w) && ZeroPostStep(job, w, w')
    ensures w.procs[0].phase.Deciding?
  {
  }

  lemma OnlyEarlyJobsWriteEarly(job: Job, w: World, a: Addr, w': World)
    requires Shaped(job, w) && EarlyFlushStep(job, w, a, w')
    ensures job.early
  {
  }

  lemma InitIsSafe(job: Job, w: World)
    requires ValidJob(job) && Init(job, w)
    ensures w in Safe(job) && Shaped(job, w)
  {
    hide OpOk;
    assert ProgAt(job, 0) == job.init;
    forall r | 0 <= r < job.n ensures Placed(job, w.bases, w.procs[r]) && w.procs[r] in GoodProcs(job, w.lists, w.bases, r) {
      assert TallyAt(job, w.bases[0], 0) == Tally({}, 0);
      assert DirtySet(w.procs[r].s) == {};
    }
    MakeCore(job, w);
    MakeSafe(job, w);
  }
}
