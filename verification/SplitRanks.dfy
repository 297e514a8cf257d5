/** Failures on one rank alone, concretely: the ranks end up making different MPI calls. */
module SplitRanks {
  import opened AddressLists
  import opened CacheState
  import opened Options
  import opened SyncEffects
  import opened RankCaches

  lemma NothingSorted()
    ensures Sorted({}) == [] && Elements([]) == {}
  {
  }

  lemma NoElements(list: seq<Addr>)
    ensures list != [] ==> Elements(list) != {}
  {
    if list != [] {
      assert list[0] in Elements(list);
    }
  }

  /** A rank that has written nothing is due for a sync point, in which nothing is written. */
  method SyncNothing(s: RankCache, flushOk: bool) returns (ok: bool)
    requires s.Valid() && !s.permitted && s.cand == [] && s.cfg == Config(15, ProcessZeroOnly, true) && s.bytes >= 15
    requires s.clist == [] && NoStrayFlags(s.cache)
    modifies s
    ensures s.Valid() && !s.permitted && s.cand == [] && s.cfg == old(s.cfg) && s.clist == [] && s.cache == old(s.cache)
    ensures ok == (flushOk || !s.zero) && s.bytes == (if ok then 0 else old(s.bytes))
    ensures s.Abs() == old(s.Abs()).(bytes := s.bytes)
    ensures s.calls == old(s.calls) + [Barrier, BcastCount(0)]
  {
    hide Sorted, Elements, Increasing;
    NothingSorted();
    MarkNothing(s.Abs());
    var list: seq<Addr>;
    ok, list := s.SyncIfDue(Env(2, if s.zero then 0 else 1, [], [], flushOk, true));
    assert list == [];
    NoElements(s.cand);
    NoElements(s.clist);
  }

  /** A rank inserts an entry of 20 bytes, with a threshold of 15, and runs its sync point, in
      which nothing is written; then it inserts one of 10 bytes. */
  method TwoInsertions(zero: bool, flushOk: bool) returns (s: RankCache)
    ensures s.zero == zero && s.bytes == (if zero && !flushOk then 30 else 10)
    ensures s.calls == if zero && !flushOk then [Barrier, BcastCount(0), Barrier, BcastCount(0)] else [Barrier, BcastCount(0)]
  {
    hide Sorted, Elements, Increasing;
    s := new RankCache(zero, Config(15, ProcessZeroOnly, true));
    NoElements(s.cand);
    NoElements(s.clist);
    var ok := s.InsertEntry(0, Obj(20, 1), false);
    assert ok && s.bytes == 20;
    ok := SyncNothing(s, flushOk);
    ok := s.InsertEntry(1, Obj(10, 2), false);
    assert ok && s.bytes == (if zero && !flushOk then 30 else 10);
    if s.bytes >= 15 {
      ok := SyncNothing(s, flushOk);
    }
  }

  /** Rank 0's flush fails: it starts a second sync point that the other rank does not join. */
  method FailedFlush() returns (z: RankCache, s: RankCache)
    ensures z.zero && !s.zero && z.bytes == 30 && s.bytes == 10
    ensures z.calls == s.calls + [Barrier, BcastCount(0)]
  {
    z := TwoInsertions(true, false);
    s := TwoInsertions(false, true);
  }

  /** A rank holds one dirty entry and is to flush its whole cache, distributed among two. */
  method FlushOne(r: nat, constructOk: bool) returns (s: RankCache)
    requires r < 2
    ensures s.zero == (r == 0)
    ensures s.calls == if constructOk then [Barrier, Barrier] else []
  {
    hide Sorted, Increasing;
    s := new RankCache(r == 0, Config(15, Distributed, true));
    NoElements(s.cand);
    var ok := s.InsertEntry(5, Obj(10, 1), false);
    assert ok && DirtySet(s.Abs()) == {5};
    var list;
    ok, list := s.RunSyncPoint(WholeCache, Env(2, r, [], [], true, constructOk));
  }

  /** Building the list fails on one rank: the other is left alone at both barriers. */
  method FailedList() returns (s: RankCache, t: RankCache)
    ensures s.calls == [Barrier, Barrier] && t.calls == []
  {
    s := FlushOne(0, true);
    t := FlushOne(1, false);
  }
}
