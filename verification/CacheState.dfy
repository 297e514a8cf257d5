/** One rank's metadata cache and its parallel bookkeeping, as a value, together with what
    each H5AC operation does to it.  The class in RankCache.dfy updates the same fields in
    place; ParallelRun.dfy lets any number of ranks take these steps asynchronously. */
module CacheState {
  import opened AddressLists
  import opened Options

  /** A metadata object: its size and a token standing for everything else in it. */
  datatype Obj = Obj(size: nat, data: int)

  /** A cache entry.  `clear` is the clear_on_unprotect flag. */
  datatype Entry = Entry(obj: Obj, dirty: bool, pinned: bool, prot: bool, dirtied: bool, clear: bool)

  datatype Strategy = ProcessZeroOnly | Distributed

  datatype Config = Config(threshold: nat, strategy: Strategy, evictions: bool)

  /** The auxiliary structure and the entries of one rank.  The three lists are keyed by
      address; `dlist` and `clist` exist on rank 0 only and stay empty elsewhere. */
  datatype Rank = Rank(
    zero: bool,
    cache: map<Addr, Entry>,
    dlist: set<Addr>,
    clist: set<Addr>,
    cand: set<Addr>,
    bytes: nat,
    permitted: bool,
    cfg: Config)

  function DirtyIn(cache: map<Addr, Entry>): set<Addr> {
    set a | a in cache && cache[a].dirty
  }

  function ProtectedIn(cache: map<Addr, Entry>): set<Addr> {
    set a | a in cache && cache[a].prot
  }

  function DirtySet(s: Rank): set<Addr> { DirtyIn(s.cache) }

  function ProtectedSet(s: Rank): set<Addr> { ProtectedIn(s.cache) }

  /** The collective operations of the program, one per H5AC call. */
  datatype Op =
    | Insert(addr: Addr, obj: Obj, pin: bool)
    | Protect(addr: Addr)
    | MarkDirty(addr: Addr, data: int)
    | Resize(addr: Addr, size: nat)
    | Move(addr: Addr, to: Addr)
    | Unprotect(addr: Addr, dirtied: bool, deleted: bool, data: int)
    | Flush
    | Configure(cfg: Config)

  // ---------------------------------------------------------------- logging

  function LogDirtied(s: Rank, a: Addr): Rank
    requires a in s.cache
  {
    if s.zero then
      s.(dlist := s.dlist + {a},
         clist := s.clist - {a},
         bytes := if a in s.dlist then s.bytes else s.bytes + s.cache[a].obj.size)
    else
      s.(bytes := s.bytes + s.cache[a].obj.size)
  }

  function LogInserted(s: Rank, a: Addr): Option<Rank>
    requires a in s.cache
  {
    if s.zero then
      if a in s.dlist || a in s.clist then None
      else Some(s.(dlist := s.dlist + {a}, bytes := s.bytes + s.cache[a].obj.size))
    else
      Some(s.(bytes := s.bytes + s.cache[a].obj.size))
  }

  function LogMoved(s: Rank, a: Addr, b: Addr): Option<Rank> {
    if a !in s.cache then None
    else if s.zero then
      if b in s.dlist - {a} then None
      else Some(s.(dlist := s.dlist - {a} + {b},
                   clist := s.clist - {a},
                   bytes := if a in s.dlist then s.bytes else s.bytes + s.cache[a].obj.size))
    else if s.cache[a].dirty then Some(s)
    else Some(s.(bytes := s.bytes + s.cache[a].obj.size))
  }

  function LogDeleted(s: Rank, a: Addr): Rank {
    s.(dlist := s.dlist - {a}, clist := s.clist - {a})
  }

  function LogFlushed(s: Rank, a: Addr, wasDirty: bool, cleared: bool): Rank {
    if cleared then s.(dlist := s.dlist - {a}, clist := s.clist - {a})
    else if wasDirty then s.(clist := s.clist + {a})
    else s
  }

  // ------------------------------------------------------------- operations

  function InsertEntry(s: Rank, a: Addr, obj: Obj, pin: bool): Option<Rank> {
    if a in s.cache then None
    else LogInserted(s.(cache := s.cache[a := Entry(obj, true, pin, false, false, false)]), a)
  }

  function ProtectEntry(s: Rank, a: Addr): Option<Rank> {
    if a !in s.cache || s.cache[a].prot then None
    else Some(s.(cache := s.cache[a := s.cache[a].(prot := true, dirtied := false)]))
  }

  function MarkEntryDirty(s: Rank, a: Addr, data: int): Option<Rank> {
    if a !in s.cache then None
    else
      var e := s.cache[a];
      var s1 := if !e.dirty && !e.prot && e.pinned then LogDirtied(s, a) else s;
      var e1 := e.(obj := e.obj.(data := data));
      if e.prot then Some(s1.(cache := s1.cache[a := e1.(dirtied := true)]))
      else if e.pinned then Some(s1.(cache := s1.cache[a := e1.(dirty := true)]))
      else None
  }

  function ResizeEntry(s: Rank, a: Addr, size: nat): Option<Rank> {
    if a !in s.cache then None
    else
      var e := s.cache[a];
      if size == 0 || !(e.pinned || e.prot) then None
      else if e.obj.size == size then Some(s)
      else
        var s1 := if !e.dirty then LogDirtied(s, a) else s;
        Some(s1.(cache := s1.cache[a := e.(obj := e.obj.(size := size), dirty := true)]))
  }

  function MoveEntry(s: Rank, a: Addr, b: Addr): Option<Rank> {
    match LogMoved(s, a, b)
    case None => None
    case Some(s1) =>
      if b in s.cache then None
      else Some(s1.(cache := (s.cache - {a})[b := s.cache[a].(dirty := true)]))
  }

  /** Releasing a protected entry: log, then hand it back to the cache (or drop it). */
  function UnprotectEntry(s: Rank, a: Addr, dirtied: bool, deleted: bool, data: int): Option<Rank> {
    if a !in s.cache || !s.cache[a].prot then None
    else
      var e := s.cache[a];
      var d := dirtied || e.dirtied;
      var s1 := if d && !e.dirty then LogDirtied(s, a) else s;
      if deleted then
        if e.pinned then None
        else
          var s2 := if s.zero then LogDeleted(s1, a) else s1;
          Some(s2.(cache := s2.cache - {a}))
      else
        var e1 := e.(prot := false, clear := false,
                     dirty := if e.clear && !d then false else e.dirty || d,
                     obj := if dirtied then e.obj.(data := data) else e.obj);
        Some(s1.(cache := s1.cache[a := e1]))
  }

  function RunOp(s: Rank, op: Op): Option<Rank> {
    match op
    case Insert(a, obj, pin) => InsertEntry(s, a, obj, pin)
    case Protect(a) => ProtectEntry(s, a)
    case MarkDirty(a, data) => MarkEntryDirty(s, a, data)
    case Resize(a, size) => ResizeEntry(s, a, size)
    case Move(a, b) => MoveEntry(s, a, b)
    case Unprotect(a, dirtied, deleted, data) => UnprotectEntry(s, a, dirtied, deleted, data)
    case Flush => Some(s)
    case Configure(cfg) => Some(s.(cfg := cfg))
  }

  /** How much of the cache a sync point is asked to clean. */
  datatype Extent = ToMinClean | WholeCache

  datatype Demand = Nothing | ResetOnly | SyncPoint(extent: Extent)

  /** Whether the end of an operation starts a sync point.  With evictions disabled, and for
      a distributed flush with nothing to write, the routine returns without any MPI call
      and only the byte count is reset. */
  function DemandOf(op: Op, bytes: nat, cfg: Config, nothingDirty: bool): Demand {
    match op
    case Insert(_, _, _) => AtThreshold(bytes, cfg)
    case Move(_, _) => AtThreshold(bytes, cfg)
    case Unprotect(_, _, _, _) => AtThreshold(bytes, cfg)
    case Flush =>
      if cfg.strategy.Distributed? && nothingDirty then ResetOnly else SyncPoint(WholeCache)
    case _ => Nothing
  }

  function AtThreshold(bytes: nat, cfg: Config): Demand {
    if bytes < cfg.threshold then Nothing
    else if cfg.evictions then SyncPoint(ToMinClean)
    else ResetOnly
  }

  function RankDemand(s: Rank, op: Op): Demand {
    DemandOf(op, s.bytes, s.cfg, DirtySet(s) == {})
  }

  // ------------------------------------------------- what a sync point does

  function WritePermitted(s: Rank): bool {
    if s.zero || s.cfg.strategy.Distributed? then s.permitted else false
  }

  /** Write a dirty entry out and mark it clean. */
  function FlushEntry(s: Rank, a: Addr): Rank
    requires a in s.cache
  {
    var s1 := s.(cache := s.cache[a := s.cache[a].(dirty := false)]);
    if s.zero then LogFlushed(s1, a, s.cache[a].dirty, false) else s1
  }

  /** Mark a dirty entry clean without writing it. */
  function ClearEntry(s: Rank, a: Addr): Rank
    requires a in s.cache
  {
    var s1 := s.(cache := s.cache[a := s.cache[a].(dirty := false)]);
    if s.zero then LogFlushed(s1, a, s.cache[a].dirty, true) else s1
  }

  /** A receiver applies the clean list.  A protected entry is only flagged for clearing. */
  function MarkEntriesAsClean(s: Rank, list: set<Addr>): Option<Rank> {
    if forall a | a in list :: a in s.cache && s.cache[a].dirty then
      Some(s.(cache := map a | a in s.cache ::
                if a !in list then s.cache[a]
                else if s.cache[a].prot then s.cache[a].(clear := true)
                else s.cache[a].(dirty := false)))
    else None
  }

  /** Rank 0 empties the cleaned list into the broadcast buffer. */
  function BroadcastClean(s: Rank): Rank {
    s.(dlist := s.dlist - s.clist, clist := {})
  }

  function TidyLists(s: Rank, list: set<Addr>): Rank {
    s.(dlist := s.dlist - list, clist := s.clist - list)
  }

  // -------------------------------------------------- the reference program

  /** What the program means when run by one process: the content of every metadata object,
      the entries held for modification (true once modified) and the configuration. */
  datatype Prog = Prog(truth: map<Addr, Obj>, prot: map<Addr, bool>, cfg: Config)

  /** What a rank that only ever hears of cleaning at sync points would count. */
  datatype Tally = Tally(dirty: set<Addr>, bytes: nat)

  /** The caller's obligations: fresh addresses, live entries, paired protects. */
  predicate OpOk(g: Prog, op: Op) {
    match op
    case Insert(a, _, _) => a !in g.truth
    case Protect(a) => a in g.truth && a !in g.prot
    case MarkDirty(a, _) => a in g.truth
    case Resize(a, size) => a in g.truth && size > 0
    case Move(a, b) => a in g.truth && b !in g.truth
    case Unprotect(a, _, _, _) => a in g.truth && a in g.prot
    case Flush => g.prot == map[]
    case Configure(cfg) => cfg.threshold > 0
  }

  function ProgStep(g: Prog, op: Op): Prog
    requires OpOk(g, op)
  {
    match op
    case Insert(a, obj, _) => g.(truth := g.truth[a := obj])
    case Protect(a) => g.(prot := g.prot[a := false])
    case MarkDirty(a, data) =>
      g.(truth := g.truth[a := g.truth[a].(data := data)],
         prot := if a in g.prot then g.prot[a := true] else g.prot)
    case Resize(a, size) => g.(truth := g.truth[a := g.truth[a].(size := size)])
    case Move(a, b) =>
      g.(truth := (g.truth - {a})[b := g.truth[a]],
         prot := if a in g.prot then (g.prot - {a})[b := g.prot[a]] else g.prot)
    case Unprotect(a, dirtied, deleted, data) =>
      g.(truth := if deleted then g.truth - {a}
                  else if dirtied then g.truth[a := g.truth[a].(data := data)]
                  else g.truth,
         prot := g.prot - {a})
    case Flush => g
    case Configure(cfg) => g.(cfg := cfg)
  }

  function CountOnce(t: Tally, a: Addr, size: nat): Tally {
    if a in t.dirty then t else Tally(t.dirty + {a}, t.bytes + size)
  }

  function TallyOp(g: Prog, t: Tally, op: Op): Tally
    requires OpOk(g, op)
  {
    match op
    case Insert(a, obj, _) => CountOnce(t, a, obj.size)
    case MarkDirty(a, _) => if a in g.prot then t else CountOnce(t, a, g.truth[a].size)
    case Resize(a, size) => if g.truth[a].size == size then t else CountOnce(t, a, g.truth[a].size)
    case Move(a, b) => var t1 := CountOnce(t, a, g.truth[a].size); t1.(dirty := t1.dirty - {a} + {b})
    case Unprotect(a, dirtied, deleted, _) =>
      var t1 := if dirtied || g.prot[a] then CountOnce(t, a, g.truth[a].size) else t;
      if deleted then t1.(dirty := t1.dirty - {a}) else t1
    case _ => t
  }

  /** The demand the program itself makes at the end of an operation. */
  function ProgDemand(g: Prog, t: Tally, op: Op): Demand
    requires OpOk(g, op)
  {
    var t1 := TallyOp(g, t, op);
    DemandOf(op, t1.bytes, ProgStep(g, op).cfg, t1.dirty == {})
  }

  function TallyStep(g: Prog, t: Tally, op: Op): Tally
    requires OpOk(g, op)
  {
    var t1 := TallyOp(g, t, op);
    if ProgDemand(g, t, op).ResetOnly? then t1.(bytes := 0) else t1
  }

  predicate Live(g: Prog, t: Tally) {
    && t.dirty <= g.truth.Keys
    && g.prot.Keys <= g.truth.Keys
  }

  /** Modified in memory while protected, not yet reported dirty. */
  function Pending(g: Prog): set<Addr> {
    set a | a in g.prot && g.prot[a]
  }

  /** Objects whose latest content is what the file holds. */
  function Settled(g: Prog, dirty: set<Addr>): (r: set<Addr>)
    ensures r <= g.truth.Keys
  {
    g.truth.Keys - dirty - Pending(g)
  }

  // ------------------------------------------------ rank and program agree

  /** Every cached entry holds the program's content and protection state. */
  predicate Coherent(s: Rank, g: Prog) {
    && (forall a | a in s.cache ::
          && a in g.truth
          && s.cache[a].obj == g.truth[a]
          && (s.cache[a].prot <==> a in g.prot)
          && (a in g.prot ==> s.cache[a].dirtied == g.prot[a])
          && !s.cache[a].clear)
    && g.prot.Keys <= s.cache.Keys
  }

  /** The agreement the protocol lives by: rank 0's dirtied list, or any other rank's dirty
      entries, is the program's dirty set; rank 0's cleaned list is the part of it that
      rank 0 has already written. */
  predicate Agrees(s: Rank, g: Prog, t: Tally) {
    && Live(g, t)
    && Coherent(s, g)
    && s.bytes == t.bytes
    && s.cfg == g.cfg
    && !s.permitted
    && if s.zero
       then DirtySet(s) <= t.dirty && s.dlist == t.dirty && s.clist == t.dirty - DirtySet(s)
       else DirtySet(s) == t.dirty && s.dlist == {} && s.clist == {}
  }
}
