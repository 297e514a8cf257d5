/** One rank's cache and auxiliary structure as they are: fields that the H5AC calls update in
    place, step by step.  Every method is proved against the value-level operation of
    CacheState, which is what the theorems about runs of many ranks are stated over. */
module RankCaches {
  import opened AddressLists
  import opened CacheState
  import opened Options
  import opened SyncEffects
  import opened SyncRoutines

  class RankCache {
    const zero: bool
    var cache: map<Addr, Entry>
    var dlist: seq<Addr>
    var clist: seq<Addr>
    var cand: seq<Addr>
    var bytes: nat
    var permitted: bool
    var cfg: Config
    var calls: seq<Call>            // the MPI calls made so far

    /** The skip lists are in order; the two reporting lists exist on rank 0 only. */
    ghost predicate Valid()
      reads this
    {
      && Increasing(dlist) && Increasing(clist) && Increasing(cand)
      && (!zero ==> dlist == [] && clist == [])
    }

    ghost function Abs(): Rank
      reads this
    {
      Rank(zero, cache, Elements(dlist), Elements(clist), Elements(cand), bytes, permitted, cfg)
    }

    constructor (zero: bool, cfg: Config)
      ensures Valid() && Abs() == Rank(zero, map[], {}, {}, {}, 0, false, cfg) && calls == []
    {
      this.zero := zero;
      this.cfg := cfg;
      cache, dlist, clist, cand, bytes, permitted, calls := map[], [], [], [], 0, false, [];
    }

    // -------------------------------------------------------------- logging

    method LogDirtied(a: Addr)
      requires Valid() && a in cache && !cache[a].dirty
      modifies `dlist, `clist, `bytes
      ensures Valid() && Abs() == CacheState.LogDirtied(old(Abs()), a)
    {
      if zero {
        if a !in dlist {
          dlist := Inserted(dlist, a);
          bytes := bytes + cache[a].obj.size;
        }
        clist := Removed(clist, a);
      } else {
        bytes := bytes + cache[a].obj.size;
      }
    }

    /** When the address is already listed the call fails; if it was only on the cleaned list
        the dirtied list has been changed by then. */
    method LogInserted(a: Addr) returns (ok: bool)
      requires Valid() && a in cache
      modifies `dlist, `bytes
      ensures Valid() && ok == CacheState.LogInserted(old(Abs()), a).Some?
      ensures ok ==> Abs() == CacheState.LogInserted(old(Abs()), a).value
      ensures !ok ==> Abs() == old(Abs()).(dlist := old(Abs()).dlist + {a})
    {
      if zero {
        if a in dlist {
          return false;
        }
        dlist := Inserted(dlist, a);
        if a in clist {
          return false;
        }
      }
      bytes := bytes + cache[a].obj.size;
      ok := true;
    }

    method LogMoved(a: Addr, b: Addr) returns (ok: bool)
      requires Valid()
      modifies `dlist, `clist, `bytes
      ensures Valid() && ok == CacheState.LogMoved(old(Abs()), a, b).Some?
      ensures ok ==> Abs() == CacheState.LogMoved(old(Abs()), a, b).value
      ensures a !in cache ==> Abs() == old(Abs())
      ensures !ok && a in cache ==>
        var s := old(Abs());
        Abs() == s.(dlist := s.dlist - {a}, clist := s.clist - {a},
                    bytes := if a in s.dlist then s.bytes else s.bytes + s.cache[a].obj.size)
    {
      if a !in cache {
        return false;
      }
      if zero {
        clist := Removed(clist, a);
        if a in dlist {
          dlist := Removed(dlist, a);
        } else {
          bytes := bytes + cache[a].obj.size;
        }
        if b in dlist {
          return false;
        }
        dlist := Inserted(dlist, b);
      } else if !cache[a].dirty {
        bytes := bytes + cache[a].obj.size;
      }
      ok := true;
    }

    method LogDeleted(a: Addr)
      requires Valid() && zero
      modifies `dlist, `clist
      ensures Valid() && Abs() == CacheState.LogDeleted(old(Abs()), a)
    {
      dlist := Removed(dlist, a);
      clist := Removed(clist, a);
    }

    method LogFlushed(a: Addr, wasDirty: bool, cleared: bool)
      requires Valid() && zero
      modifies `dlist, `clist
      ensures Valid() && Abs() == CacheState.LogFlushed(old(Abs()), a, wasDirty, cleared)
      ensures cleared ==> Elements(dlist) == Elements(old(dlist)) - {a} && Elements(clist) == Elements(old(clist)) - {a}
      ensures !cleared ==> dlist == old(dlist) && Elements(clist) == Elements(old(clist)) + if wasDirty then {a} else {}
    {
      if cleared {
        clist := Removed(clist, a);
        dlist := Removed(dlist, a);
      } else if wasDirty {
        if a !in clist {
          clist := Inserted(clist, a);
        }
      }
    }

    // ----------------------------------------------------------- operations

    /** The entry is in the cache before it is logged, and stays when logging fails. */
    method InsertEntry(a: Addr, obj: Obj, pin: bool) returns (ok: bool)
      requires Valid()
      modifies `cache, `dlist, `bytes
      ensures Valid() && ok == CacheState.InsertEntry(old(Abs()), a, obj, pin).Some?
      ensures ok ==> Abs() == CacheState.InsertEntry(old(Abs()), a, obj, pin).value
      ensures ok <==> a !in old(cache) && !(zero && (a in old(dlist) || a in old(clist)))
      ensures a in old(cache) ==> Abs() == old(Abs())
      ensures a !in old(cache) ==> cache == old(cache)[a := Entry(obj, true, pin, false, false, false)]
    {
      if a in cache {
        return false;
      }
      cache := cache[a := Entry(obj, true, pin, false, false, false)];
      ok := LogInserted(a);
    }

    method MarkEntryDirty(a: Addr, data: int) returns (ok: bool)
      requires Valid()
      modifies `cache, `dlist, `clist, `bytes
      ensures Valid() && ok == CacheState.MarkEntryDirty(old(Abs()), a, data).Some?
      ensures Abs() == if ok then CacheState.MarkEntryDirty(old(Abs()), a, data).value else old(Abs())
      ensures ok <==> a in old(cache) && (old(cache)[a].pinned || old(cache)[a].prot)
    {
      if a !in cache {
        return false;
      }
      var e := cache[a];
      if !e.dirty && !e.prot && e.pinned {
        LogDirtied(a);
      }
      if e.prot {
        cache := cache[a := e.(obj := e.obj.(data := data), dirtied := true)];
      } else if e.pinned {
        cache := cache[a := e.(obj := e.obj.(data := data), dirty := true)];
      } else {
        return false;
      }
      ok := true;
    }

    /** The initial size is logged, and it is logged even if the resize is then refused. */
    method ResizeEntry(a: Addr, size: nat) returns (ok: bool)
      requires Valid() && a in cache
      modifies `cache, `dlist, `clist, `bytes
      ensures Valid() && ok == CacheState.ResizeEntry(old(Abs()), a, size).Some?
      ensures ok ==> Abs() == CacheState.ResizeEntry(old(Abs()), a, size).value
      ensures ok <==> size > 0 && (old(cache)[a].pinned || old(cache)[a].prot)
      ensures !ok ==> Abs() == if !old(cache)[a].dirty && old(cache)[a].obj.size != size
                               then CacheState.LogDirtied(old(Abs()), a) else old(Abs())
    {
      var e := cache[a];
      if !e.dirty && e.obj.size != size {
        LogDirtied(a);
      }
      if size == 0 || !(e.pinned || e.prot) {
        return false;
      }
      if e.obj.size != size {
        cache := cache[a := e.(obj := e.obj.(size := size), dirty := true)];
      }
      ok := true;
    }

    method MoveEntry(a: Addr, b: Addr) returns (ok: bool)
      requires Valid() && a != b
      modifies `cache, `dlist, `clist, `bytes
      ensures Valid() && ok == CacheState.MoveEntry(old(Abs()), a, b).Some?
      ensures ok ==> Abs() == CacheState.MoveEntry(old(Abs()), a, b).value
      ensures ok <==> a in old(cache) && b !in old(cache) && !(zero && b in old(dlist))
      ensures cache == if ok then (old(cache) - {a})[b := old(cache)[a].(dirty := true)] else old(cache)
    {
      ok := LogMoved(a, b);
      if !ok {
        return;
      }
      if b in cache {
        return false;
      }
      cache := (cache - {a})[b := cache[a].(dirty := true)];
    }

    method ProtectEntry(a: Addr) returns (ok: bool)
      requires Valid()
      modifies `cache
      ensures Valid() && ok == CacheState.ProtectEntry(old(Abs()), a).Some?
      ensures Abs() == if ok then CacheState.ProtectEntry(old(Abs()), a).value else old(Abs())
      ensures ok <==> a in old(cache) && !old(cache)[a].prot
    {
      if a !in cache || cache[a].prot {
        return false;
      }
      cache := cache[a := cache[a].(prot := true, dirtied := false)];
      ok := true;
    }

    method UnprotectEntry(a: Addr, dirtied: bool, deleted: bool, data: int) returns (ok: bool)
      requires Valid()
      modifies `cache, `dlist, `clist, `bytes
      ensures Valid() && ok == CacheState.UnprotectEntry(old(Abs()), a, dirtied, deleted, data).Some?
      ensures ok ==> Abs() == CacheState.UnprotectEntry(old(Abs()), a, dirtied, deleted, data).value
      ensures ok <==> a in old(cache) && old(cache)[a].prot && !(deleted && old(cache)[a].pinned)
      ensures !ok ==> cache == old(cache)
    {
      if a !in cache || !cache[a].prot {
        return false;
      }
      var e := cache[a];
      var d := dirtied || e.dirtied;
      if d && !e.dirty {
        LogDirtied(a);
      }
      if deleted && zero {
        LogDeleted(a);
      }
      if deleted {
        if e.pinned {
          return false;
        }
        cache := cache - {a};
      } else {
        var clearEntry := e.clear && !d;
        e := e.(clear := false, dirty := e.dirty || d);
        if dirtied {
          e := e.(obj := e.obj.(data := data));
        }
        e := e.(prot := false);
        if clearEntry {
          e := e.(dirty := false);
        }
        cache := cache[a := e];
      }
      ok := true;
    }

    // ------------------------------------------------- inside a sync point

    /** Write one entry out, or only clear it; rank 0 logs the change. */
    method CleanOne(a: Addr, clear: bool)
      requires Valid() && a in cache && !cache[a].prot
      modifies `cache, `dlist, `clist
      ensures Valid() && Abs() == Cleaned(old(Abs()), a, clear)
      ensures cache == old(cache)[a := old(cache)[a].(dirty := false)]
      ensures zero && clear ==> a !in Elements(dlist) && a !in Elements(clist)
      ensures zero && !clear && old(cache)[a].dirty ==> a in Elements(clist)
    {
      var wasDirty := cache[a].dirty;
      cache := cache[a := cache[a].(dirty := false)];
      if zero {
        LogFlushed(a, wasDirty, clear);
      }
    }

    /** Entries list[first..next] are written out; the others on the list are only cleared. */
    method CleanListed(list: seq<Addr>, first: nat, next: nat) returns (written: seq<Addr>)
      requires Valid() && first <= next <= |list| && forall a | a in list :: a in cache && !cache[a].prot
      modifies `cache, `dlist, `clist
      ensures Valid() && cache.Keys == old(cache).Keys
      ensures Abs() == AllCleaned(old(Abs()), list, first, next)
      ensures written == list[first..next]
    {
      hide Increasing, Elements, Cleaned, AllCleaned;
      NothingCleaned(Abs(), list, first, next);
      written := [];
      var u := 0;
      while u < |list|
        invariant 0 <= u <= |list| && Valid() && cache.Keys == old(cache).Keys
        invariant forall a | a in list :: !cache[a].prot
        invariant Abs() == AllCleaned(old(Abs()), list[..u], first, next)
        invariant written == list[Min(first, u)..Min(next, u)]
      {
        CleanOne(list[u], !(first <= u < next));
        if first <= u < next {
          assert list[first..u + 1] == list[first..u] + [list[u]];
          written := written + [list[u]];
        }
        CleanOneMore(old(Abs()), list, first, next, u);
        u := u + 1;
      }
      assert list[..u] == list;
    }

    method TidyLists(list: seq<Addr>)
      requires Valid() && zero
      modifies `dlist, `clist
      ensures Valid() && Abs() == CacheState.TidyLists(old(Abs()), Elements(list))
    {
      var u := 0;
      while u < |list|
        invariant 0 <= u <= |list| && Valid()
        invariant Abs() == CacheState.TidyLists(old(Abs()), Elements(list[..u]))
      {
        dlist := Removed(dlist, list[u]);
        clist := Removed(clist, list[u]);
        assert list[..u + 1] == list[..u] + [list[u]];
        u := u + 1;
      }
      assert list[..u] == list;
    }

    /** The candidate list is emptied into a buffer, address by address. */
    method CopyCandidateList() returns (buffer: seq<Addr>)
      requires Valid()
      modifies `cand
      ensures Valid() && buffer == Sorted(old(Abs()).cand) && cand == []
      ensures Abs() == old(Abs()).(cand := {})
    {
      hide Increasing, Elements;
      EmptyList();
      buffer := [];
      while |buffer| < |cand|
        invariant |buffer| <= |cand| && buffer == cand[..|buffer|]
      {
        buffer := buffer + [cand[|buffer|]];
      }
      SortedIs(cand);
      cand := [];
    }

    method BroadcastCleanList() returns (sent: seq<Addr>)
      requires Valid() && zero
      modifies `dlist, `clist, `calls
      ensures Valid() && sent == Sorted(old(Abs()).clist)
      ensures Abs() == CacheState.BroadcastClean(old(Abs()))
      ensures calls == old(calls) + ListCalls(sent)
    {
      hide Increasing, Elements;
      EmptyList();
      calls := calls + [BcastCount(|clist|)];
      sent := [];
      while |sent| < |clist|
        invariant clist == old(clist) && calls == old(calls) + [BcastCount(|clist|)]
        invariant |sent| <= |clist| && sent == clist[..|sent|]
        invariant Increasing(dlist) && Elements(dlist) == Elements(old(dlist)) - Elements(clist[..|sent|])
      {
        OneMore(clist, |sent|);
        dlist := Removed(dlist, clist[|sent|]);
        sent := sent + [clist[|sent|]];
      }
      SortedIs(clist);
      clist := [];
      if sent != [] {
        calls := calls + [BcastList(sent)];
      }
    }

    method FlagListed(list: seq<Addr>) returns (ok: bool)
      requires Valid()
      modifies `cache
      ensures Valid() && ok == forall a | a in list :: a in old(cache) && old(cache)[a].dirty
      ensures ok ==> cache == Flagged(old(cache), Elements(list))
      ensures DirtyIn(cache) == DirtyIn(old(cache))
    {
      var u := 0;
      while u < |list|
        invariant 0 <= u <= |list|
        invariant cache == Flagged(old(cache), Elements(list[..u]))
        invariant forall k | 0 <= k < u :: list[k] in old(cache) && old(cache)[list[k]].dirty
      {
        var a := list[u];
        if a !in cache || !cache[a].dirty {
          return false;
        }
        cache := cache[a := cache[a].(clear := true)];
        FlagOne(old(cache), list, u);
        u := u + 1;
      }
      assert list[..u] == list;
      ok := true;
    }

    method ClearFlagged(list: seq<Addr>, ghost c: map<Addr, Entry>)
      requires Valid() && cache == Flagged(c, Elements(list)) && forall a | a in list :: a in c
      modifies `cache
      ensures Valid() && cache == ClearedSome(c, Elements(list), Elements(list))
    {
      hide Increasing;
      NothingCleared(c, Elements(list));
      var u := 0;
      while u < |list|
        invariant 0 <= u <= |list|
        invariant cache == ClearedSome(c, Elements(list), Elements(list[..u]))
      {
        var a := list[u];
        OneMore(list, u);
        ClearNext(c, list, u);
        if cache[a].clear && !cache[a].prot {
          cache := cache[a := cache[a].(clear := false, dirty := false)];
        }
        u := u + 1;
      }
      assert list[..u] == list;
    }

    /** A clean list has been taken in by what was s: listed entries are clean, or flagged if they
        are protected, and nothing else has changed. */
    ghost predicate Marks(s: Rank, list: seq<Addr>)
      reads this
    {
      && cache.Keys == s.cache.Keys
      && (forall a | a in s.cache && a !in list :: cache[a] == s.cache[a])
      && (forall a | a in s.cache && a in list && s.cache[a].prot :: cache[a] == s.cache[a].(clear := true))
      && (forall a | a in s.cache && a in list && !s.cache[a].prot :: cache[a] == s.cache[a].(dirty := false))
      && Elements(dlist) == s.dlist && Elements(clist) == s.clist
    }

    /** Two passes: flag every listed entry, then clear those that are not protected. */
    method MarkEntriesAsClean(list: seq<Addr>) returns (ok: bool)
      requires Valid() && NoStrayFlags(cache)
      modifies `cache
      ensures ok == CacheState.MarkEntriesAsClean(old(Abs()), Elements(list)).Some?
      ensures ok ==> Abs() == CacheState.MarkEntriesAsClean(old(Abs()), Elements(list)).value
      ensures ok <==> forall a | a in list :: a in old(cache) && old(cache)[a].dirty
      ensures ok ==> Marks(old(Abs()), list)
      ensures Valid() && (!ok ==> DirtyIn(cache) == DirtyIn(old(cache)))
    {
      hide Increasing, DirtyIn, Flagged, ClearedSome;
      ok := FlagListed(list);
      assert forall a :: a in list <==> a in Elements(list);
      if ok {
        ClearFlagged(list, old(cache));
        AllClearedIsMarked(old(Abs()), Elements(list));
      }
    }

    method CheckCandidates(list: seq<Addr>) returns (ok: bool)
      requires Valid()
      ensures ok == CanApply(Abs(), list)
    {
      var u := 0;
      while u < |list|
        invariant 0 <= u <= |list|
        invariant forall k | 0 <= k < u :: list[k] in cache && cache[list[k]].dirty && !cache[list[k]].prot
      {
        var a := list[u];
        if a !in cache || !cache[a].dirty || cache[a].prot {
          return false;
        }
        u := u + 1;
      }
      ok := true;
    }

    /** This rank's part in applying a candidate list: it writes its own share and clears the
        rest.  An entry that is missing, clean or protected stops it before anything is done. */
    method ApplyCandidateList(list: seq<Addr>, n: nat, r: nat) returns (ok: bool, written: seq<Addr>)
      requires Valid() && list != [] && r < n
      modifies `cache, `dlist, `clist
      ensures Valid() && ok == CanApply(old(Abs()), list)
      ensures ok ==> Abs() == AllCleaned(old(Abs()), list, Boundary(|list|, n, r), Boundary(|list|, n, r + 1))
      ensures ok ==> written == Share(list, n, r)
      ensures !ok ==> Abs() == old(Abs()) && written == []
    {
      hide Increasing, Elements, AllCleaned, Boundary;
      written := [];
      var table := new nat[n + 1];
      FillAssignmentTable(|list|, n, table);
      ShareIsWithin(|list|, n, r);
      ok := CheckCandidates(list);
      if ok {
        written := CleanListed(list, table[r], table[r + 1]);
      }
    }

    // ------------------------------------------------ sync point routines

    /** A list has been applied to what was s: its entries are clean and on none of rank 0's
        reporting lists, and nothing else has changed. */
    ghost predicate Applies(s: Rank, list: seq<Addr>)
      reads this
    {
      && cache.Keys == s.cache.Keys
      && (forall a | a in s.cache :: cache[a] == if a in list then s.cache[a].(dirty := false) else s.cache[a])
      && Elements(dlist) == (if zero then s.dlist - Elements(list) else s.dlist)
      && Elements(clist) == (if zero then s.clist - Elements(list) else s.clist)
    }

    /** Process-0-only.  Rank 0 writes `env.which` and its flush ends as `env.flushOk` says; the
        others hear of `env.received`.  A failing flush does not keep rank 0 from taking part
        in what follows. */
    method RspZeroOnly(extent: Extent, env: Env) returns (ok: bool, list: seq<Addr>)
      requires Valid() && cfg.strategy.ProcessZeroOnly? && !permitted && env.r < env.n
      requires if zero then Cleanable(cache, env.which) else NoStrayFlags(cache)
      modifies this
      ensures Valid() && calls == old(calls) + SyncCalls(old(cfg), extent, list, env.constructOk, CanApply(old(Abs()), list))
      ensures list == SyncList(old(Abs()), extent, env)
      ensures ok == SyncOk(old(Abs()), extent, list, env)
      ensures ok || zero ==> Abs() == SyncEffect(old(Abs()), extent, list, env)
      ensures !ok && !zero ==> Abs() == old(Abs()).(cache := cache) && DirtyIn(cache) == DirtyIn(old(cache))
      ensures extent.ToMinClean? && !old(cfg).evictions ==> ok && list == [] && Abs() == old(Abs()) && calls == old(calls)
      ensures extent.WholeCache? || old(cfg).evictions ==>
        calls == old(calls) + [Barrier, BcastCount(|list|)] + if list == [] then [] else [BcastList(list)]
      ensures (extent.WholeCache? || old(cfg).evictions) && zero ==>
        && ok == env.flushOk && Increasing(list)
        && Elements(list) == Elements(old(clist)) + Elements(env.which) * DirtyIn(old(cache))
        && (forall a | a in old(cache) :: a in cache && cache[a] == if a in env.which then old(cache)[a].(dirty := false) else old(cache)[a])
        && Elements(dlist) == Elements(old(dlist)) - Elements(list) && Elements(clist) == {}
      ensures (extent.WholeCache? || old(cfg).evictions) && !zero ==>
        && list == env.received
        && ok == (forall a | a in list :: a in old(cache) && old(cache)[a].dirty)
        && (ok ==> Marks(old(Abs()), list))
    {
      hide Increasing, Elements, AllCleaned, Sorted, DirtyIn;
      ok, list := true, [];
      if extent.ToMinClean? && !cfg.evictions {
        return;
      }
      calls := calls + [Barrier];
      if zero {
        permitted := true;
        var written := CleanListed(env.which, 0, |env.which|);
        permitted := false;
        PermissionDoesNotMatter(old(Abs()), env.which, 0, |env.which|);
        ok := env.flushOk;
        list := BroadcastCleanList();
        ZeroOnlyEffect(old(Abs()), extent, list, env);
      } else {
        list := env.received;
        calls := calls + ListCalls(list);
        MarkNothing(old(Abs()));
        EmptyList();
        if list != [] {
          ok := MarkEntriesAsClean(list);
        }
      }
    }

    /** Writes are enabled while the list is applied; a failure skips the closing barrier. */
    method ApplyAndClose(list: seq<Addr>, n: nat, r: nat) returns (ok: bool)
      requires Valid() && list != [] && r < n && !permitted
      modifies `cache, `dlist, `clist, `permitted, `calls
      ensures Valid() && ok == CanApply(old(Abs()), list)
      ensures calls == old(calls) + if ok then [Barrier] else []
      ensures Abs() == if ok then Applied(old(Abs()), list, n, r) else old(Abs())
    {
      hide Increasing, Elements, AllCleaned, Boundary;
      permitted := true;
      var written: seq<Addr>;
      ok, written := ApplyCandidateList(list, n, r);
      permitted := false;
      if !ok {
        return;
      }
      ShareIsWithin(|list|, n, r);
      PermissionDoesNotMatter(old(Abs()), list, Boundary(|list|, n, r), Boundary(|list|, n, r + 1));
      calls := calls + [Barrier];
      if zero {
        TidyLists(list);
      }
    }

    method AddCandidates(which: seq<Addr>)
      requires Valid() && cand == []
      modifies `cand
      ensures Valid() && Elements(cand) == Elements(which)
    {
      hide Increasing, Elements;
      var u := 0;
      EmptyList();
      assert which[..0] == [];
      while u < |which|
        invariant 0 <= u <= |which| && Increasing(cand) && Elements(cand) == Elements(which[..u])
      {
        OneMore(which, u);
        cand := Inserted(cand, which[u]);
        u := u + 1;
      }
      assert which[..u] == which;
    }

    /** Every dirty entry becomes a candidate. */
    method AddDirtyCandidates()
      requires Valid() && cand == []
      modifies `cand
      ensures Valid() && Elements(cand) == DirtyIn(cache)
    {
      hide Increasing, Elements;
      EmptyList();
      var rest := DirtyIn(cache);
      while rest != {}
        invariant rest <= DirtyIn(cache) && Increasing(cand) && Elements(cand) == DirtyIn(cache) - rest
      {
        var a :| a in rest;
        cand := Inserted(cand, a);
        rest := rest - {a};
      }
    }

    /** The opening barrier, and one list for everybody. */
    method ExchangeCandidates(env: Env) returns (ok: bool, list: seq<Addr>)
      requires Valid() && cand == []
      modifies `cand, `calls
      ensures Valid() && cand == [] && ok == (zero ==> env.constructOk)
      ensures list == if zero then Sorted(Elements(env.which)) else env.received
      ensures calls == old(calls) + [Barrier, BcastCount(|list|)] + if list == [] then [] else [BcastList(list)]
    {
      hide Increasing, Elements, Sorted;
      EmptyList();
      ok, list := true, [];
      if zero {
        AddCandidates(env.which);
        ok := env.constructOk;
      }
      calls := calls + [Barrier];
      if zero {
        SortedIs(cand);
        calls := calls + [BcastCount(|cand|)];
        if |cand| > 0 {
          list := CopyCandidateList();
          calls := calls + [BcastList(list)];
        }
      } else {
        list := env.received;
        calls := calls + ListCalls(list);
      }
    }

    /** Distributed, partial clean.  Rank 0 chooses `env.which` and broadcasts it, even if
        choosing ended in an error; every rank applies the list. */
    method RspDistributedMinClean(env: Env) returns (ok: bool, list: seq<Addr>)
      requires Valid() && cfg.strategy.Distributed? && !permitted && cand == []
      requires env.r < env.n
      modifies this
      ensures Valid() && calls == old(calls) + SyncCalls(old(cfg), ToMinClean, list, env.constructOk, CanApply(old(Abs()), list))
      ensures list == SyncList(old(Abs()), ToMinClean, env)
      ensures ok == SyncOk(old(Abs()), ToMinClean, list, env)
      ensures Abs() == if CanApply(old(Abs()), list) then SyncEffect(old(Abs()), ToMinClean, list, env) else old(Abs())
      ensures !old(cfg).evictions ==> ok && list == [] && Abs() == old(Abs()) && calls == old(calls)
      ensures old(cfg).evictions ==>
        var applied := forall a | a in list :: a in old(cache) && old(cache)[a].dirty && !old(cache)[a].prot;
        && calls == old(calls) + [Barrier, BcastCount(|list|)] + (if list == [] then [] else [BcastList(list)])
                    + (if list != [] && applied then [Barrier] else [])
        && (if zero then Increasing(list) && Elements(list) == Elements(env.which) else list == env.received)
        && ok == (applied && (zero ==> env.constructOk))
        && (applied ==> Applies(old(Abs()), list))
    {
      hide Increasing, Elements, Boundary, AllCleaned, DirtyIn, Sorted;
      EmptyList();
      ok, list := true, [];
      if !cfg.evictions {
        return;
      }
      ok, list := ExchangeCandidates(env);
      if CanApply(old(Abs()), list) {
        DistributedEffect(old(Abs()), ToMinClean, list, env);
      }
      if list != [] {
        var applied := ApplyAndClose(list, env.n, env.r);
        if !applied {
          return false, list;
        }
      }
    }

    /** Distributed, whole cache.  No list is communicated: every rank builds its own. */
    method RspDistributedFlush(env: Env) returns (ok: bool, list: seq<Addr>)
      requires Valid() && cfg.strategy.Distributed? && !permitted && cand == []
      requires env.r < env.n
      modifies this
      ensures Valid() && calls == old(calls) + SyncCalls(old(cfg), WholeCache, list, env.constructOk, CanApply(old(Abs()), list))
      ensures list == SyncList(old(Abs()), WholeCache, env)
      ensures ok == SyncOk(old(Abs()), WholeCache, list, env)
      ensures env.constructOk ==>
        Abs() == if CanApply(old(Abs()), list) then SyncEffect(old(Abs()), WholeCache, list, env) else old(Abs())
      ensures !env.constructOk ==> Abs() == old(Abs()).(cand := DirtySet(old(Abs())))
      ensures !env.constructOk ==> !ok && calls == old(calls)
      ensures env.constructOk ==>
        var applied := forall a | a in list :: a in old(cache) && old(cache)[a].dirty && !old(cache)[a].prot;
        && calls == old(calls) + (if list == [] then [] else if applied then [Barrier, Barrier] else [Barrier])
        && Increasing(list) && Elements(list) == DirtyIn(old(cache))
        && ok == applied && (applied ==> Applies(old(Abs()), list))
    {
      hide Increasing, Elements, Boundary, AllCleaned, DirtyIn;
      EmptyList();
      ok, list := true, [];
      AddDirtyCandidates();
      if !env.constructOk {
        return false, [];
      }
      SortedIs(cand);
      if CanApply(old(Abs()), cand) {
        DistributedEffect(old(Abs()), WholeCache, cand, env);
      }
      if |cand| > 0 {
        list := CopyCandidateList();
        calls := calls + [Barrier];
        ok := ApplyAndClose(list, env.n, env.r);
      }
    }

    /** The byte count starts again only if the routine succeeded on this rank. */
    method RunSyncPoint(extent: Extent, env: Env) returns (ok: bool, list: seq<Addr>)
      requires Valid() && !permitted && cand == [] && env.r < env.n
      requires cfg.strategy.ProcessZeroOnly? ==>
                 if zero then Cleanable(cache, env.which) else NoStrayFlags(cache)
      modifies this
      ensures Valid() && !permitted && list == SyncList(old(Abs()), extent, env)
      ensures calls == old(calls) + SyncCalls(old(cfg), extent, list, env.constructOk, CanApply(old(Abs()), list))
      ensures ok == SyncOk(old(Abs()), extent, list, env)
      ensures ok ==> Abs() == SyncEffect(old(Abs()), extent, list, env).(bytes := 0)
      ensures !ok ==> bytes == old(bytes)
      ensures !ok && zero && old(cfg).strategy.ProcessZeroOnly? ==> Abs() == SyncEffect(old(Abs()), extent, list, env)
    {
      hide Increasing, Elements, Boundary, AllCleaned, DirtyIn, SyncCalls, Sorted;
      if cfg.strategy.ProcessZeroOnly? {
        ok, list := RspZeroOnly(extent, env);
      } else if extent.ToMinClean? {
        ok, list := RspDistributedMinClean(env);
      } else {
        ok, list := RspDistributedFlush(env);
      }
      if ok {
        bytes := 0;
      }
    }

    /** How an insert, a move and an unprotect end: at the threshold, with a sync point. */
    method SyncIfDue(env: Env) returns (ok: bool, list: seq<Addr>)
      requires Valid() && !permitted && cand == [] && env.r < env.n && cfg.threshold > 0
      requires cfg.strategy.ProcessZeroOnly? ==>
                 if zero then Cleanable(cache, env.which) else NoStrayFlags(cache)
      modifies this
      ensures Valid() && !permitted
      ensures old(bytes) < old(cfg).threshold ==> ok && Abs() == old(Abs()) && calls == old(calls)
      ensures old(bytes) >= old(cfg).threshold ==>
        && list == SyncList(old(Abs()), ToMinClean, env)
        && ok == SyncOk(old(Abs()), ToMinClean, list, env)
        && calls == old(calls) + SyncCalls(old(cfg), ToMinClean, list, env.constructOk, CanApply(old(Abs()), list))
        && (ok ==> Abs() == SyncEffect(old(Abs()), ToMinClean, list, env).(bytes := 0))
        && (!ok && zero && old(cfg).strategy.ProcessZeroOnly? ==> Abs() == SyncEffect(old(Abs()), ToMinClean, list, env))
      ensures ok ==> bytes < old(cfg).threshold
    {
      hide Increasing, Elements, Boundary, AllCleaned, DirtyIn, SyncCalls, Sorted;
      ok, list := true, [];
      if bytes >= cfg.threshold {
        ok, list := RunSyncPoint(ToMinClean, env);
      }
    }
  }
}
