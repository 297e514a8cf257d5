/** When each collective operation succeeds on a rank, and what it leaves of the entry, of rank
    0's lists and of the byte count, in terms of the fields themselves. */
module OperationResults {
  import opened CacheState
  import opened AddressLists
  import opened Options
  import opened Agreement

  /** Exactly when an operation is accepted.  A rank with a cached entry protects, moves or
      releases it whatever its state, marks or resizes it if it is pinned or protected, and
      deletes it unless it is pinned. */
  lemma AcceptedIff(s: Rank, op: Op)
    ensures RunOp(s, op).Some? <==>
      match op
      case Insert(a, _, _) => a !in s.cache && !(s.zero && (a in s.dlist || a in s.clist))
      case Protect(a) => a in s.cache && !s.cache[a].prot
      case MarkDirty(a, _) => a in s.cache && (s.cache[a].pinned || s.cache[a].prot)
      case Resize(a, size) => a in s.cache && size > 0 && (s.cache[a].pinned || s.cache[a].prot)
      case Move(a, b) => a in s.cache && b !in s.cache && !(s.zero && a != b && b in s.dlist)
      case Unprotect(a, _, deleted, _) => a in s.cache && s.cache[a].prot && !(deleted && s.cache[a].pinned)
      case Flush => true
      case Configure(_) => true
  {
  }

  /** In agreement, what the caller may do succeeds wherever the entry is cached: an insertion
      always, a protect or a move of a cached entry, clean or dirty, a mark or a resize of a
      cached entry that is pinned or protected, and a release unless it deletes a pinned entry. */
  lemma SucceedsIff(s: Rank, g: Prog, t: Tally, op: Op)
    requires Agrees(s, g, t) && OpOk(g, op)
    ensures op.Insert? || op.Flush? || op.Configure? ==> RunOp(s, op).Some?
    ensures op.Protect? || op.Move? ==> (RunOp(s, op).Some? <==> op.addr in s.cache)
    ensures op.MarkDirty? || op.Resize? ==>
      (RunOp(s, op).Some? <==> op.addr in s.cache && (s.cache[op.addr].pinned || s.cache[op.addr].prot))
    ensures op.Unprotect? ==>
      op.addr in s.cache && (RunOp(s, op).Some? <==> !(op.deleted && s.cache[op.addr].pinned))
  {
    AcceptedIff(s, op);
  }

  /** No entry but the one named changes, and no field of that one but these. */
  lemma EntryAfter(s: Rank, op: Op, s1: Rank)
    requires RunOp(s, op) == Some(s1)
    ensures match op
      case Insert(a, obj, pin) =>
        && s1.cache.Keys == s.cache.Keys + {a} && s1.cache - {a} == s.cache - {a}
        && var e := s1.cache[a]; e.obj == obj && e.dirty && e.pinned == pin && !e.prot && !e.dirtied && !e.clear
      case Protect(a) =>
        && a in s.cache && s1.cache.Keys == s.cache.Keys && s1.cache - {a} == s.cache - {a}
        && s1.cache[a] == s.cache[a].(prot := true, dirtied := false)
      case MarkDirty(a, data) =>
        && a in s.cache && s1.cache.Keys == s.cache.Keys && s1.cache - {a} == s.cache - {a}
        && var e, e1 := s.cache[a], s1.cache[a];
        && e1.obj == Obj(e.obj.size, data) && e1.pinned == e.pinned && e1.prot == e.prot && e1.clear == e.clear
        && if e.prot then e1.dirtied && e1.dirty == e.dirty else e1.dirty && e1.dirtied == e.dirtied
      case Resize(a, size) =>
        && a in s.cache && s1.cache.Keys == s.cache.Keys && s1.cache - {a} == s.cache - {a}
        && var e, e1 := s.cache[a], s1.cache[a];
        && e1.obj == Obj(size, e.obj.data) && e1.pinned == e.pinned && e1.prot == e.prot
        && e1.clear == e.clear && e1.dirtied == e.dirtied && (e1.dirty <==> e.dirty || size != e.obj.size)
      case Move(a, b) =>
        && a in s.cache && s1.cache.Keys == s.cache.Keys - {a} + {b} && s1.cache - {b} == s.cache - {a}
        && var e, e1 := s.cache[a], s1.cache[b];
        && e1.obj == e.obj && e1.dirty && e1.pinned == e.pinned && e1.prot == e.prot
        && e1.dirtied == e.dirtied && e1.clear == e.clear
      case Unprotect(a, dirtied, deleted, data) =>
        && a in s.cache && s1.cache - {a} == s.cache - {a}
        && if deleted then s1.cache.Keys == s.cache.Keys - {a}
           else
             && s1.cache.Keys == s.cache.Keys
             && var e, e1 := s.cache[a], s1.cache[a];
             && !e1.prot && !e1.clear && e1.pinned == e.pinned
             && e1.obj == (if dirtied then Obj(e.obj.size, data) else e.obj)
             && (e1.dirty <==> dirtied || e.dirtied || (e.dirty && !e.clear))
      case Flush => s1 == s
      case Configure(cfg) => s1 == s.(cfg := cfg)
  {
  }

  /** The operation modifies an entry that was clean. */
  predicate Dirties(s: Rank, op: Op) {
    match op
    case Insert(_, _, _) => true
    case MarkDirty(a, _) => a in s.cache && !s.cache[a].dirty && !s.cache[a].prot
    case Resize(a, size) => a in s.cache && !s.cache[a].dirty && s.cache[a].obj.size != size
    case Move(a, _) => a in s.cache && !s.cache[a].dirty
    case Unprotect(a, dirtied, _, _) => a in s.cache && !s.cache[a].dirty && (dirtied || s.cache[a].dirtied)
    case _ => false
  }

  /** The bytes of the entry before the operation. */
  function SizeBefore(s: Rank, op: Op): nat {
    match op
    case Insert(_, obj, _) => obj.size
    case Flush => 0
    case Configure(_) => 0
    case _ => if op.addr in s.cache then s.cache[op.addr].obj.size else 0
  }

  /** A rank other than rank 0 counts the bytes of every clean entry that is modified; rank 0
      counts those of a modified or moved entry that is not on its dirtied list. */
  lemma CountAfter(s: Rank, op: Op, s1: Rank)
    requires RunOp(s, op) == Some(s1)
    ensures !s.zero ==> s1.bytes == s.bytes + if Dirties(s, op) then SizeBefore(s, op) else 0
    ensures s.zero && (Dirties(s, op) || op.Move?) ==>
      s1.bytes == s.bytes + if op.Insert? || op.addr !in s.dlist then SizeBefore(s, op) else 0
    ensures s.zero && !Dirties(s, op) && !op.Move? ==> s1.bytes == s.bytes
  {
  }

  /** Rank 0's lists: a modified entry is on the dirtied list and off the cleaned list, under its
      new address if it has moved; a deleted one is on neither; no other entry comes or goes. */
  lemma ListsAfter(s: Rank, op: Op, s1: Rank)
    requires RunOp(s, op) == Some(s1) && s.zero
    ensures match op
      case Move(a, b) => s1.dlist == s.dlist - {a} + {b} && s1.clist == s.clist - {a}
      case Unprotect(a, _, true, _) => s1.dlist == s.dlist - {a} && s1.clist == s.clist - {a}
      case Flush => s1.dlist == s.dlist && s1.clist == s.clist
      case Configure(_) => s1.dlist == s.dlist && s1.clist == s.clist
      case _ => if Dirties(s, op) then s1.dlist == s.dlist + {op.addr} && s1.clist == s.clist - {op.addr}
                else s1.dlist == s.dlist && s1.clist == s.clist
  {
  }

  /** No other rank has anything on these lists. */
  lemma OnlyRankZeroLists(s: Rank, op: Op, s1: Rank)
    requires RunOp(s, op) == Some(s1) && !s.zero
    ensures s1.dlist == s.dlist && s1.clist == s.clist
  {
  }
}
