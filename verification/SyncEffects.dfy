/** What the routines of a sync point do on one rank, as functions: the entries cleaned, and
    the MPI calls made. */
module SyncEffects {
  import opened AddressLists
  import opened CacheState
  import opened Options

  datatype Call = Barrier | BcastCount(count: nat) | BcastList(list: seq<Addr>)

  ghost predicate NoStrayFlags(cache: map<Addr, Entry>) {
    forall a | a in cache :: cache[a].clear ==> cache[a].prot
  }

  function Cleaned(s: Rank, a: Addr, clear: bool): Rank
    requires a in s.cache
  {
    if clear then ClearEntry(s, a) else FlushEntry(s, a)
  }

  /** Entries list[lo..hi] are written out, the others on the list are only cleared. */
  function AllCleaned(s: Rank, list: seq<Addr>, lo: nat, hi: nat): (r: Rank)
    requires forall a | a in list :: a in s.cache
    ensures r.cache.Keys == s.cache.Keys && r == s.(cache := r.cache, dlist := r.dlist, clist := r.clist)
  {
    if list == [] then s
    else
      var u := |list| - 1;
      var s1 := AllCleaned(s, list[..u], lo, hi);
      Cleaned(s1, list[u], !(lo <= u < hi))
  }

  lemma NothingCleaned(s: Rank, list: seq<Addr>, lo: nat, hi: nat)
    ensures AllCleaned(s, list[..0], lo, hi) == s
  {
  }

  lemma CleanOneMore(s: Rank, list: seq<Addr>, lo: nat, hi: nat, u: nat)
    requires u < |list| && forall a | a in list :: a in s.cache
    ensures AllCleaned(s, list[..u + 1], lo, hi) == Cleaned(AllCleaned(s, list[..u], lo, hi), list[u], !(lo <= u < hi))
    ensures forall a | a in list :: AllCleaned(s, list[..u + 1], lo, hi).cache[a].prot == AllCleaned(s, list[..u], lo, hi).cache[a].prot
  {
    assert list[..u + 1][..u] == list[..u];
  }

  /** How a list of addresses is broadcast: its length, then the list unless it is empty. */
  function ListCalls(list: seq<Addr>): seq<Call> {
    [BcastCount(|list|)] + if list == [] then [] else [BcastList(list)]
  }

  predicate CanApply(s: Rank, list: seq<Addr>) {
    forall a | a in list :: a in s.cache && s.cache[a].dirty && !s.cache[a].prot
  }

  lemma ShareIsWithin(num: nat, n: nat, r: nat)
    requires r < n
    ensures Boundary(num, n, r) <= Boundary(num, n, r + 1) <= num
  {
    BoundaryMonotone(num, n, r, r + 1);
    BoundaryMonotone(num, n, r + 1, n);
    BoundaryEnds(num, n);
  }

  /** What rank r of n writes of a candidate list. */
  function Share(list: seq<Addr>, n: nat, r: nat): seq<Addr>
    requires r < n
  {
    ShareIsWithin(|list|, n, r);
    list[Boundary(|list|, n, r)..Boundary(|list|, n, r + 1)]
  }

  function Shares(list: seq<Addr>, n: nat, k: nat): seq<Addr>
    requires k <= n
  {
    if k == 0 then [] else Shares(list, n, k - 1) + Share(list, n, k - 1)
  }

  lemma {:induction false} SharesSoFar(list: seq<Addr>, n: nat, k: nat)
    requires k <= n && n > 0
    ensures Boundary(|list|, n, k) <= |list| && Shares(list, n, k) == list[..Boundary(|list|, n, k)]
  {
    BoundaryEnds(|list|, n);
    if k > 0 {
      ShareIsWithin(|list|, n, k - 1);
      SharesSoFar(list, n, k - 1);
    }
  }

  /** The shares of the ranks, one after the other, are the list: nothing is written twice
      and nothing is left out. */
  lemma SharesMakeTheList(list: seq<Addr>, n: nat)
    requires n > 0
    ensures Shares(list, n, n) == list
  {
    SharesSoFar(list, n, n);
    BoundaryEnds(|list|, n);
  }

  // ------------------------------------------------- flags on the receivers

  function Flagged(c: map<Addr, Entry>, list: set<Addr>): map<Addr, Entry> {
    map a | a in c :: if a in list then c[a].(clear := true) else c[a]
  }

  lemma FlagOne(c: map<Addr, Entry>, list: seq<Addr>, u: nat)
    requires u < |list| && list[u] in c
    ensures var f := Flagged(c, Elements(list[..u]));
            f[list[u] := f[list[u]].(clear := true)] == Flagged(c, Elements(list[..u + 1]))
  {
    assert list[..u + 1] == list[..u] + [list[u]];
  }

  /** All of `list` flagged; of those, the unprotected ones in `done` cleared again. */
  function ClearedSome(c: map<Addr, Entry>, list: set<Addr>, done: set<Addr>): map<Addr, Entry> {
    map a | a in c :: if a in done && !c[a].prot then c[a].(clear := false, dirty := false)
                      else if a in list then c[a].(clear := true) else c[a]
  }

  lemma ClearNext(c: map<Addr, Entry>, list: seq<Addr>, u: nat)
    requires u < |list| && forall a | a in list :: a in c
    ensures var a, f := list[u], ClearedSome(c, Elements(list), Elements(list[..u]));
            (if f[a].clear && !f[a].prot then f[a := f[a].(clear := false, dirty := false)] else f)
            == ClearedSome(c, Elements(list), Elements(list[..u + 1]))
  {
    assert list[..u + 1] == list[..u] + [list[u]];
  }

  lemma NothingCleared(c: map<Addr, Entry>, list: set<Addr>)
    ensures ClearedSome(c, list, {}) == Flagged(c, list)
  {
  }

  lemma AllClearedIsMarked(s: Rank, list: set<Addr>)
    requires NoStrayFlags(s.cache) && MarkEntriesAsClean(s, list).Some?
    ensures s.(cache := ClearedSome(s.cache, list, list)) == MarkEntriesAsClean(s, list).value
  {
  }

  lemma MarkNothing(s: Rank)
    ensures MarkEntriesAsClean(s, {}) == Some(s)
  {
    assert MarkEntriesAsClean(s, {}).value.cache == s.cache;
  }

  lemma {:induction false} PermissionDoesNotMatter(s: Rank, list: seq<Addr>, lo: nat, hi: nat)
    requires forall a | a in list :: a in s.cache
    ensures AllCleaned(s.(permitted := true), list, lo, hi).(permitted := s.permitted) == AllCleaned(s, list, lo, hi)
  {
    if list != [] {
      PermissionDoesNotMatter(s, list[..|list| - 1], lo, hi);
    }
  }

  // ------------------------------------------------------- whole routines

  /** What a rank meets in a sync point: its place among the ranks, the entries rank 0 picks,
      the list the others receive, and whether local steps fail. */
  datatype Env = Env(n: nat, r: nat, which: seq<Addr>, received: seq<Addr>, flushOk: bool, constructOk: bool)

  predicate Cleanable(cache: map<Addr, Entry>, which: seq<Addr>) {
    forall a | a in which :: a in cache && !cache[a].prot
  }

  /** With evictions disabled a partial clean does nothing at all. */
  predicate Skipped(cfg: Config, extent: Extent) {
    extent.ToMinClean? && !cfg.evictions
  }

  /** The list a rank works with: what rank 0 has written or chosen, what a rank has received,
      or what it has built by itself. */
  ghost function SyncList(s: Rank, extent: Extent, env: Env): seq<Addr>
    requires s.cfg.strategy.ProcessZeroOnly? && s.zero ==> Cleanable(s.cache, env.which)
  {
    if Skipped(s.cfg, extent) then []
    else if s.cfg.strategy.ProcessZeroOnly? then
      if s.zero then Sorted(AllCleaned(s, env.which, 0, |env.which|).clist) else env.received
    else if extent.ToMinClean? then
      if s.zero then Sorted(Elements(env.which)) else env.received
    else if env.constructOk then Sorted(DirtySet(s)) else []
  }

  /** The MPI calls of one rank, given the list it works with. */
  function SyncCalls(cfg: Config, extent: Extent, list: seq<Addr>, constructOk: bool, applied: bool): seq<Call> {
    if Skipped(cfg, extent) then []
    else if cfg.strategy.ProcessZeroOnly? then [Barrier] + ListCalls(list)
    else
      var closing := if list != [] && applied then [Barrier] else [];
      if extent.ToMinClean? then [Barrier] + ListCalls(list) + closing
      else if !constructOk || list == [] then []
      else [Barrier] + closing
  }

  predicate SyncOk(s: Rank, extent: Extent, list: seq<Addr>, env: Env) {
    || Skipped(s.cfg, extent)
    || (if s.cfg.strategy.ProcessZeroOnly? then
          if s.zero then env.flushOk else MarkEntriesAsClean(s, Elements(list)).Some?
        else
          CanApply(s, list) && (s.zero || extent.WholeCache? ==> env.constructOk))
  }

  function Applied(s: Rank, list: seq<Addr>, n: nat, r: nat): Rank
    requires r < n && CanApply(s, list)
  {
    var s1 := AllCleaned(s, list, Boundary(|list|, n, r), Boundary(|list|, n, r + 1));
    if s.zero then TidyLists(s1, Elements(list)) else s1
  }

  /** The state a routine leaves behind, apart from the byte count. */
  function SyncEffect(s: Rank, extent: Extent, list: seq<Addr>, env: Env): Rank
    requires env.r < env.n
    requires s.cfg.strategy.Distributed? ==> Skipped(s.cfg, extent) || CanApply(s, list)
    requires s.cfg.strategy.ProcessZeroOnly? ==>
               if s.zero then Cleanable(s.cache, env.which)
               else Skipped(s.cfg, extent) || MarkEntriesAsClean(s, Elements(list)).Some?
  {
    if Skipped(s.cfg, extent) then s
    else if s.cfg.strategy.ProcessZeroOnly? then
      if s.zero then BroadcastClean(AllCleaned(s, env.which, 0, |env.which|))
      else MarkEntriesAsClean(s, Elements(list)).value
    else if list == [] then s
    else Applied(s, list, env.n, env.r)
  }
}
