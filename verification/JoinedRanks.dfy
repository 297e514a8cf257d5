/** Two ranks that agree run one sync point, each with its own routine: they agree again. */
module JoinedRanks {
  import opened AddressLists
  import opened CacheState
  import opened Options
  import opened SyncEffects
  import opened SyncRoutines
  import opened RankCaches

  /** Two ranks in agreement between sync points; rank 0 has written nothing since the last. */
  ghost predicate InStep(z: RankCache, s: RankCache, g: Prog, t: Tally)
    reads z, s
  {
    && z != s && z.zero && !s.zero && z.Valid() && s.Valid()
    && Agrees(z.Abs(), g, t) && Agrees(s.Abs(), g, t)
    && z.clist == [] && z.cand == [] && s.cand == []
  }

  lemma StepFacts(z: RankCache, s: RankCache, g: Prog, t: Tally)
    requires InStep(z, s, g, t)
    ensures z.bytes == s.bytes == t.bytes && z.cfg == s.cfg == g.cfg && !z.permitted && !s.permitted && NoStrayFlags(s.cache)
    ensures DirtyIn(z.cache) == DirtyIn(s.cache) == t.dirty && Elements(z.clist) == {}
    ensures forall a | a in z.cache && z.cache[a].prot :: a in g.prot
    ensures forall a | a in g.prot :: a in z.cache && z.cache[a].prot
  {
    EmptyList();
    assert DirtySet(z.Abs()) == t.dirty by {
      forall a | a in t.dirty ensures a in DirtySet(z.Abs()) {
        assert a !in t.dirty - DirtySet(z.Abs());
      }
    }
  }

  /** Process-0-only: rank 0 writes entries of its choice, none of them protected, and sends the
      list; the other rank takes it in.  Both end up with the same entries dirty, which are also
      what rank 0's dirtied list says, and have made the same MPI calls; a flush that fails
      leaves rank 0 with its byte count. */
  method ZeroOnly(z: RankCache, s: RankCache, extent: Extent, which: seq<Addr>, flushOk: bool, ghost g: Prog, ghost t: Tally)
      returns (ok: bool, list: seq<Addr>)
    requires InStep(z, s, g, t) && z.cfg.strategy.ProcessZeroOnly? && (extent.WholeCache? || z.cfg.evictions)
    requires forall a | a in which :: a in z.cache && !z.cache[a].prot
    modifies z, s
    ensures ok == flushOk && Elements(list) == Elements(which) * t.dirty
    ensures DirtyIn(z.cache) == DirtyIn(s.cache) == Elements(z.dlist) == t.dirty - Elements(list)
    ensures Agrees(z.Abs().(bytes := 0), g, Tally(t.dirty - Elements(list), 0)) && Agrees(s.Abs(), g, Tally(t.dirty - Elements(list), 0))
    ensures s.bytes == 0 && z.bytes == if flushOk then 0 else t.bytes
    ensures z.calls == old(z.calls) + [Barrier, BcastCount(|list|)] + if list == [] then [] else [BcastList(list)]
    ensures s.calls == old(s.calls) + z.calls[|old(z.calls)|..]
  {
    hide Sorted, Increasing, AllCleaned, Agrees, SyncCalls, MarkEntriesAsClean, Elements, DirtyIn;
    StepFacts(z, s, g, t);
    ghost var z0, s0 := z.Abs(), s.Abs();
    var env := Env(2, 0, which, [], flushOk, true);
    ok, list := z.RunSyncPoint(extent, env);
    ZeroOnlyEffect(z0, extent, list, env);
    PickIsUnprotected(z0, g, t, which);
    BroadcastingKeepsAgreement(z0, s0, g, t, which, Elements(list));
    ZeroOnlyCalls(z0.cfg, extent, list, CanApply(z0, list));
    ZeroOnlyCalls(s0.cfg, extent, list, CanApply(s0, list));
    var took, same := s.RunSyncPoint(extent, Env(2, 1, [], list, true, true));
    Agreeing(z.Abs().(bytes := 0), s.Abs(), g, t.dirty - Elements(list));
  }

  /** Distributed: each rank writes its share of the list and clears the rest.  For a flush each
      builds the list by itself, otherwise rank 0 chooses it and sends it. */
  method Spread(z: RankCache, s: RankCache, extent: Extent, which: seq<Addr>, ghost g: Prog, ghost t: Tally)
      returns (ok: bool, list: seq<Addr>)
    requires InStep(z, s, g, t) && z.cfg.strategy.Distributed? && (extent.WholeCache? || z.cfg.evictions)
    requires if extent.WholeCache? then g.prot == map[] else Elements(which) <= t.dirty - g.prot.Keys
    modifies z, s
    ensures ok && Increasing(list) && Elements(list) == if extent.WholeCache? then t.dirty else Elements(which)
    ensures DirtyIn(z.cache) == DirtyIn(s.cache) == Elements(z.dlist) == t.dirty - Elements(list)
    ensures Agrees(z.Abs(), g, Tally(t.dirty - Elements(list), 0)) && Agrees(s.Abs(), g, Tally(t.dirty - Elements(list), 0))
    ensures extent.ToMinClean? ==>
      z.calls == old(z.calls) + [Barrier, BcastCount(|list|)] + if list == [] then [] else [BcastList(list), Barrier]
    ensures extent.WholeCache? ==> z.calls == old(z.calls) + if list == [] then [] else [Barrier, Barrier]
    ensures s.calls == old(s.calls) + z.calls[|old(z.calls)|..]
  {
    hide Sorted, Increasing, AllCleaned, Agrees, SyncCalls, CanApply, Elements, DirtyIn, Applied;
    StepFacts(z, s, g, t);
    ghost var z0, s0 := z.Abs(), s.Abs();
    var env := Env(2, 0, which, [], true, true);
    ghost var planned := SyncList(z0, extent, env);
    ApplicableIff(z0, g, t, planned);
    ApplicableIff(s0, g, t, planned);
    ok, list := z.RunSyncPoint(extent, env);
    Applying(z0, g, t, extent, list, env);
    SpreadCalls(z0.cfg, extent, list);
    var took, same := s.RunSyncPoint(extent, Env(2, 1, [], list, true, true));
    Applying(s0, g, t, extent, list, Env(2, 1, [], list, true, true));
    Agreeing(z.Abs(), s.Abs(), g, t.dirty - Elements(list));
  }

  lemma Applying(s: Rank, g: Prog, t: Tally, extent: Extent, list: seq<Addr>, env: Env)
    requires Agrees(s, g, t) && s.clist == {} && CanApply(s, list) && env.r < env.n
    requires s.cfg.strategy.Distributed? && (extent.WholeCache? || s.cfg.evictions)
    ensures var s1 := SyncEffect(s, extent, list, env).(bytes := 0);
      Agrees(s1, g, Tally(t.dirty - Elements(list), 0)) && s1.clist == {}
  {
    hide Agrees, CanApply, Applied, DirtyIn;
    if list == [] {
      EmptyList();
      assert t.dirty - {} == t.dirty;
      NothingDone(s, g, t);
    } else {
      ApplyingKeepsAgreement(s, g, t, list, env.n, env.r);
    }
  }

  lemma NothingDone(s: Rank, g: Prog, t: Tally)
    requires Agrees(s, g, t)
    ensures Agrees(s.(bytes := 0), g, Tally(t.dirty, 0))
  {
  }

  lemma SpreadCalls(cfg: Config, extent: Extent, list: seq<Addr>)
    requires cfg.strategy.Distributed? && (extent.WholeCache? || cfg.evictions)
    ensures extent.ToMinClean? ==>
      SyncCalls(cfg, extent, list, true, true) == [Barrier, BcastCount(|list|)] + if list == [] then [] else [BcastList(list), Barrier]
    ensures extent.WholeCache? ==> SyncCalls(cfg, extent, list, true, true) == if list == [] then [] else [Barrier, Barrier]
  {
  }

  lemma PickIsUnprotected(z: Rank, g: Prog, t: Tally, which: seq<Addr>)
    requires Agrees(z, g, t) && Cleanable(z.cache, which)
    ensures Elements(which) !! g.prot.Keys && (z.clist == {} ==> DirtySet(z) == t.dirty || !z.zero)
  {
    if z.zero && z.clist == {} {
      forall a | a in t.dirty ensures a in DirtySet(z) {
        assert a !in t.dirty - DirtySet(z);
      }
    }
  }

  lemma ZeroOnlyCalls(cfg: Config, extent: Extent, list: seq<Addr>, applied: bool)
    requires cfg.strategy.ProcessZeroOnly? && (extent.WholeCache? || cfg.evictions)
    ensures SyncCalls(cfg, extent, list, true, applied) == [Barrier, BcastCount(|list|)] + if list == [] then [] else [BcastList(list)]
  {
  }

  lemma Agreeing(z: Rank, s: Rank, g: Prog, dirty: set<Addr>)
    requires Agrees(z, g, Tally(dirty, 0)) && Agrees(s, g, Tally(dirty, 0)) && z.zero && !s.zero && z.clist == {}
    ensures DirtySet(z) == DirtySet(s) == z.dlist == dirty && s.bytes == 0
  {
    forall a | a in dirty ensures a in DirtySet(z) {
      assert a !in dirty - DirtySet(z);
    }
  }
}
