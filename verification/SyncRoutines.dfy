/** The sync point routines seen from all ranks at once: they leave the ranks in agreement,
    and every rank makes the same MPI calls, except in the failures named here. */
module SyncRoutines {
  import opened AddressLists
  import opened CacheState
  import opened Options
  import opened SyncEffects

  // ----------------------------------------------------------- agreement

  lemma CleanedOne(s: Rank, a: Addr, clear: bool)
    requires a in s.cache
    ensures var r := Cleaned(s, a, clear);
      && r.cache == s.cache[a := s.cache[a].(dirty := false)]
      && s.dlist - {a} <= r.dlist <= s.dlist
      && s.clist - {a} <= r.clist <= s.clist + {a}
      && (!s.zero ==> r.dlist == s.dlist && r.clist == s.clist)
  {
  }

  lemma {:induction false} CleaningEntries(s: Rank, list: seq<Addr>, lo: nat, hi: nat)
    requires forall a | a in list :: a in s.cache
    ensures var r := AllCleaned(s, list, lo, hi);
      forall a | a in s.cache :: r.cache[a] == if a in list then s.cache[a].(dirty := false) else s.cache[a]
  {
    hide Cleaned;
    if list != [] {
      var u := |list| - 1;
      CleaningEntries(s, list[..u], lo, hi);
      CleanedOne(AllCleaned(s, list[..u], lo, hi), list[u], !(lo <= u < hi));
      assert list[..u] + [list[u]] == list;
    }
  }

  /** Applying a list writes some of it and clears the rest; either way exactly the listed
      entries become clean, nothing else about any entry changes, and rank 0's dirtied list
      loses at most listed addresses. */
  lemma {:induction false} CleaningEffect(s: Rank, list: seq<Addr>, lo: nat, hi: nat)
    requires forall a | a in list :: a in s.cache
    ensures var r := AllCleaned(s, list, lo, hi);
      && (forall a | a in s.cache :: r.cache[a] == if a in list then s.cache[a].(dirty := false) else s.cache[a])
      && s.dlist - Elements(list) <= r.dlist <= s.dlist
      && s.clist - Elements(list) <= r.clist <= s.clist + Elements(list)
      && (!s.zero ==> r.dlist == s.dlist && r.clist == s.clist)
  {
    hide Cleaned, Elements;
    CleaningEntries(s, list, lo, hi);
    if list != [] {
      var u := |list| - 1;
      CleaningEffect(s, list[..u], lo, hi);
      CleanedOne(AllCleaned(s, list[..u], lo, hi), list[u], !(lo <= u < hi));
      OneMore(list, u);
      assert list[..u + 1] == list;
    }
  }

  lemma CleanedDirtySet(s: Rank, list: seq<Addr>, lo: nat, hi: nat)
    requires forall a | a in list :: a in s.cache
    ensures DirtySet(AllCleaned(s, list, lo, hi)) == DirtySet(s) - Elements(list)
  {
    CleaningEffect(s, list, lo, hi);
    assert forall a :: a in list <==> a in Elements(list);
  }

  lemma CleaningKeepsCoherence(s: Rank, g: Prog, list: seq<Addr>, lo: nat, hi: nat)
    requires Coherent(s, g) && forall a | a in list :: a in s.cache
    ensures Coherent(AllCleaned(s, list, lo, hi), g)
  {
    CleaningEffect(s, list, lo, hi);
  }

  /** Whatever share of the candidate list a rank writes, applying the list leaves it in
      agreement about the same smaller dirty set, with nothing listed as cleaned. */
  lemma ApplyingKeepsAgreement(s: Rank, g: Prog, t: Tally, list: seq<Addr>, n: nat, r: nat)
    requires Agrees(s, g, t) && s.clist == {} && CanApply(s, list) && r < n
    ensures var s1 := Applied(s, list, n, r);
      Agrees(s1.(bytes := 0), g, Tally(t.dirty - Elements(list), 0)) && s1.clist == {}
  {
    hide Coherent, Boundary;
    var lo, hi := Boundary(|list|, n, r), Boundary(|list|, n, r + 1);
    CleaningEffect(s, list, lo, hi);
    CleanedDirtySet(s, list, lo, hi);
    CleaningKeepsCoherence(s, g, list, lo, hi);
    var c := AllCleaned(s, list, lo, hi);
    var s1 := Applied(s, list, n, r);
    assert DirtySet(s1) == DirtySet(c);
    CoherentIgnoresLists(c, g, s1.(bytes := 0));
    if s.zero {
      assert s1.dlist == s.dlist - Elements(list);
    }
  }

  lemma CoherentIgnoresLists(s: Rank, g: Prog, s1: Rank)
    requires Coherent(s, g) && s1.cache == s.cache
    ensures Coherent(s1, g)
  {
  }

  /** Writing dirty entries out one by one moves them, on rank 0, onto the cleaned list. */
  lemma {:induction false} FlushingCollects(s: Rank, which: seq<Addr>, hi: nat)
    requires s.zero && Cleanable(s.cache, which) && |which| <= hi
    ensures var r := AllCleaned(s, which, 0, hi);
      r.dlist == s.dlist && r.clist == s.clist + Elements(which) * DirtySet(s)
  {
    if which != [] {
      var u := |which| - 1;
      FlushingCollects(s, which[..u], hi);
      CleaningEffect(s, which[..u], 0, hi);
      OneMore(which, u);
      assert which[..u + 1] == which;
    }
  }

  /** A process-0-only sync point: rank 0 writes entries of its choice and broadcasts, the
      other ranks mark what they hear of as clean.  If nothing on the list is protected, both
      end in agreement about what is still dirty. */
  lemma BroadcastingKeepsAgreement(z: Rank, s: Rank, g: Prog, t: Tally, which: seq<Addr>, list: set<Addr>)
    requires z.zero && !s.zero && Agrees(z, g, t) && Agrees(s, g, t) && Cleanable(z.cache, which)
    requires list == AllCleaned(z, which, 0, |which|).clist && list !! g.prot.Keys
    ensures MarkEntriesAsClean(s, list).Some?
    ensures Agrees(BroadcastClean(AllCleaned(z, which, 0, |which|)).(bytes := 0), g, Tally(t.dirty - list, 0))
    ensures Agrees(MarkEntriesAsClean(s, list).value.(bytes := 0), g, Tally(t.dirty - list, 0))
  {
    hide Coherent;
    CleaningEffect(z, which, 0, |which|);
    CleanedDirtySet(z, which, 0, |which|);
    CleaningKeepsCoherence(z, g, which, 0, |which|);
    FlushingCollects(z, which, |which|);
    var c := AllCleaned(z, which, 0, |which|);
    CoherentIgnoresLists(c, g, BroadcastClean(c).(bytes := 0));
    assert DirtySet(BroadcastClean(c).(bytes := 0)) == DirtySet(c);
    assert list <= DirtySet(s);
    MarkingKeepsCoherence(s, g, list);
    var s1 := MarkEntriesAsClean(s, list).value;
    CoherentIgnoresLists(s1, g, s1.(bytes := 0));
  }

  lemma MarkingKeepsCoherence(s: Rank, g: Prog, list: set<Addr>)
    requires Coherent(s, g) && MarkEntriesAsClean(s, list).Some? && list !! g.prot.Keys
    ensures Coherent(MarkEntriesAsClean(s, list).value, g)
    ensures DirtySet(MarkEntriesAsClean(s, list).value) == DirtySet(s) - list
  {
  }

  // ------------------------------------------------------ what routines do

  /** What rank 0 has done after a process-0-only routine: what it picked is clean, and it has
      sent off what it had cleaned before and what of its pick was dirty. */
  lemma ZeroOnlyEffect(s: Rank, extent: Extent, list: seq<Addr>, env: Env)
    requires s.cfg.strategy.ProcessZeroOnly? && !Skipped(s.cfg, extent) && s.zero && Cleanable(s.cache, env.which)
    requires env.r < env.n && list == SyncList(s, extent, env)
    ensures var s1 := SyncEffect(s, extent, list, env);
      && Increasing(list) && Elements(list) == s.clist + Elements(env.which) * DirtySet(s)
      && (forall a | a in s.cache :: a in s1.cache && s1.cache[a] == if a in env.which then s.cache[a].(dirty := false) else s.cache[a])
      && s1.cache.Keys == s.cache.Keys
      && s1.dlist == s.dlist - Elements(list) && s1.clist == {} && s1.cand == s.cand
  {
    hide Elements, Increasing;
    CleaningEffect(s, env.which, 0, |env.which|);
    FlushingCollects(s, env.which, |env.which|);
  }

  /** What a rank has done after applying a list, whatever its share of it. */
  lemma DistributedEffect(s: Rank, extent: Extent, list: seq<Addr>, env: Env)
    requires s.cfg.strategy.Distributed? && !Skipped(s.cfg, extent) && CanApply(s, list) && env.r < env.n
    ensures var s1 := SyncEffect(s, extent, list, env);
      && (forall a | a in s.cache :: a in s1.cache && s1.cache[a] == if a in list then s.cache[a].(dirty := false) else s.cache[a])
      && s1.cache.Keys == s.cache.Keys && s1.cand == s.cand
      && (if s.zero then s1.dlist == s.dlist - Elements(list) && s1.clist == s.clist - Elements(list)
          else s1.dlist == s.dlist && s1.clist == s.clist)
  {
    hide Elements, Boundary;
    EmptyList();
    var lo, hi := Boundary(|list|, env.n, env.r), Boundary(|list|, env.n, env.r + 1);
    CleaningEffect(s, list, lo, hi);
  }

  // ---------------------------------------------------------- the MPI calls

  /** Two ranks that work with the same list make the same sequence of MPI calls exactly when
      what they do locally between the calls fails on both or on neither.  A failing flush of
      rank 0, a failing choice of candidates for a partial clean and a failing application of
      the clean list are not among those failures. */
  lemma SameCallsIff(cfg: Config, extent: Extent, list: seq<Addr>, c1: bool, a1: bool, c2: bool, a2: bool)
    ensures SyncCalls(cfg, extent, list, c1, a1) == SyncCalls(cfg, extent, list, c2, a2)
            <==> (cfg.strategy.Distributed? && !Skipped(cfg, extent) && list != [] ==>
                    if extent.WholeCache? then c1 == c2 && (c1 ==> a1 == a2) else a1 == a2)
  {
    var x, y := SyncCalls(cfg, extent, list, c1, a1), SyncCalls(cfg, extent, list, c2, a2);
    if cfg.strategy.Distributed? && list != [] && !Skipped(cfg, extent) {
      assert a1 != a2 && (extent.WholeCache? ==> c1 && c2) ==> |x| != |y|;
    }
  }

  /** Ranks that agree can all apply a list of dirty unprotected entries, or none can: in
      agreement, no rank is left waiting at the closing barrier. */
  lemma AgreeingRanksApplyAlike(s1: Rank, s2: Rank, g: Prog, t: Tally, list: seq<Addr>)
    requires Agrees(s1, g, t) && Agrees(s2, g, t) && s1.clist == {} && s2.clist == {}
    ensures CanApply(s1, list) == CanApply(s2, list)
    ensures CanApply(s1, list) <==> Elements(list) <= t.dirty - g.prot.Keys
  {
    ApplicableIff(s1, g, t, list);
    ApplicableIff(s2, g, t, list);
  }

  lemma ApplicableIff(s: Rank, g: Prog, t: Tally, list: seq<Addr>)
    requires Agrees(s, g, t) && s.clist == {}
    ensures CanApply(s, list) <==> Elements(list) <= t.dirty - g.prot.Keys
  {
    assert DirtySet(s) == t.dirty by {
      if s.zero {
        forall a | a in t.dirty ensures a in DirtySet(s) {
          assert a !in t.dirty - DirtySet(s);
        }
      }
    }
    assert forall a | a in list :: a in Elements(list);
    assert forall a | a in Elements(list) :: a in t.dirty <==> a in DirtySet(s);
  }

  /** So every sync point that begins in agreement makes the same calls on all ranks, whatever
      becomes of rank 0's flush or of its choice of candidates; only a flush of the whole cache
      under the distributed strategy needs its list-building to succeed alike. */
  lemma AgreeingRanksMakeTheSameCalls(s1: Rank, s2: Rank, g: Prog, t: Tally, extent: Extent, list: seq<Addr>, c1: bool, c2: bool)
    requires Agrees(s1, g, t) && Agrees(s2, g, t) && s1.clist == {} && s2.clist == {}
    requires g.cfg.strategy.Distributed? && extent.WholeCache? ==> c1 == c2
    ensures SyncCalls(s1.cfg, extent, list, c1, CanApply(s1, list)) == SyncCalls(s2.cfg, extent, list, c2, CanApply(s2, list))
  {
    AgreeingRanksApplyAlike(s1, s2, g, t, list);
    SameCallsIff(g.cfg, extent, list, c1, CanApply(s1, list), c2, CanApply(s2, list));
  }

  /** What an operation adds to the byte count of a rank other than rank 0: the size of an
      entry it makes dirty. */
  function Cost(s: Rank, op: Op): nat {
    match op
    case Insert(_, obj, _) => obj.size
    case Move(a, _) => if a in s.cache && !s.cache[a].dirty then s.cache[a].obj.size else 0
    case Unprotect(a, dirtied, _, _) =>
      if a in s.cache && !s.cache[a].dirty && (dirtied || s.cache[a].dirtied) then s.cache[a].obj.size else 0
    case _ => 0
  }

  /** A routine that fails on rank 0 alone leaves its byte count z.bytes as it was, while
      another rank s starts again at zero.  The next operation that tests the threshold, be it
      an insertion, a move or a release, starts a sync point on rank 0 in any case; the ranks
      disagree about it exactly if what the operation costs does not by itself reach the
      threshold. */
  lemma FailedFlushDelaysOnlyTheOthers(z: Rank, s: Rank, op: Op, z1: Rank, s1: Rank)
    requires z.cfg == s.cfg && z.cfg.evictions && 0 < z.cfg.threshold <= z.bytes && s.bytes == 0 && !s.zero
    requires op.Insert? || op.Move? || op.Unprotect?
    requires RunOp(z, op) == Some(z1) && RunOp(s, op) == Some(s1)
    ensures RankDemand(z1, op) == SyncPoint(ToMinClean)
    ensures RankDemand(s1, op) == RankDemand(z1, op) <==> Cost(s, op) >= z.cfg.threshold
  {
  }
}
