/** One collective operation on one rank, against the reference program. */
module Agreement {
  import opened AddressLists
  import opened CacheState
  import opened Options

  function SettleBytes(s: Rank, op: Op): Rank {
    if RankDemand(s, op).ResetOnly? then s.(bytes := 0) else s
  }

  /** Every operation that succeeds on a rank keeps that rank in agreement with the program,
      and the rank asks for a sync point exactly when the program does. */
  lemma OpKeepsAgreement(s: Rank, g: Prog, t: Tally, op: Op, s1: Rank)
    requires Agrees(s, g, t) && OpOk(g, op) && RunOp(s, op) == Some(s1)
    requires g.cfg.strategy.Distributed? ==> s.clist == {}
    ensures RankDemand(s1, op) == ProgDemand(g, t, op)
    ensures Agrees(SettleBytes(s1, op), ProgStep(g, op), TallyStep(g, t, op))
  {
    hide RunOp, ProgStep, TallyOp, OpOk, DirtyIn;
    var g1, t1 := ProgStep(g, op), TallyOp(g, t, op);
    OpKeepsLive(g, t, op);
    OpKeepsFields(s, g, t, op, s1);
    OpKeepsLists(s, g, t, op, s1);
    OpKeepsCoherence(s, g, t, op, s1);
    assert op.Flush? && g1.cfg.strategy.Distributed? ==> (DirtySet(s1) == {} <==> t1.dirty == {});
    assert DirtySet(SettleBytes(s1, op)) == DirtySet(s1);
  }

  lemma OpKeepsLive(g: Prog, t: Tally, op: Op)
    requires Live(g, t) && OpOk(g, op)
    ensures Live(ProgStep(g, op), TallyOp(g, t, op))
  {
  }

  lemma OpKeepsCoherence(s: Rank, g: Prog, t: Tally, op: Op, s1: Rank)
    requires Agrees(s, g, t) && OpOk(g, op) && RunOp(s, op) == Some(s1)
    ensures Coherent(s1, ProgStep(g, op))
  {
    hide DirtyIn, InsertEntry, ProtectEntry, MarkEntryDirty, ResizeEntry, MoveEntry, UnprotectEntry;
    match op
    case Insert(a, _, _) => UpdateKeepsCoherence(s, g, op, s1, a);
    case Protect(a) => UpdateKeepsCoherence(s, g, op, s1, a);
    case MarkDirty(a, _) => UpdateKeepsCoherence(s, g, op, s1, a);
    case Resize(a, _) => UpdateKeepsCoherence(s, g, op, s1, a);
    case Move(_, _) => MoveKeepsCoherence(s, g, op, s1);
    case Unprotect(_, _, _, _) => UnprotectKeepsCoherence(s, g, op, s1);
    case _ =>
  }

  /** One entry changes, and the program's content of that address with it. */
  lemma OneEntryKeepsCoherence(s: Rank, g: Prog, s1: Rank, g1: Prog, a: Addr, e: Entry)
    requires Coherent(s, g) && s1.cache == s.cache[a := e] && g1.truth == g.truth[a := e.obj]
    requires g1.prot == g.prot || g1.prot == g.prot[a := e.dirtied]
    requires !e.clear && (e.prot <==> a in g1.prot) && (a in g1.prot ==> e.dirtied == g1.prot[a])
    ensures Coherent(s1, g1)
  {
  }

  lemma EntryIsCurrent(s: Rank, g: Prog, a: Addr)
    requires Coherent(s, g) && a in s.cache
    ensures var e := s.cache[a];
      && a in g.truth && e.obj == g.truth[a] && !e.clear
      && (e.prot <==> a in g.prot) && (a in g.prot ==> e.dirtied == g.prot[a])
  {
  }

  lemma UpdateKeepsCoherence(s: Rank, g: Prog, op: Op, s1: Rank, a: Addr)
    requires Coherent(s, g) && (op.Insert? || op.Protect? || op.MarkDirty? || op.Resize?) && a == op.addr
    requires OpOk(g, op) && RunOp(s, op) == Some(s1)
    requires g.prot.Keys <= g.truth.Keys
    ensures Coherent(s1, ProgStep(g, op))
  {
    hide LogDirtied, Coherent;
    var g1 := ProgStep(g, op);
    if op.Insert? {
    } else {
      LoggingKeepsCache(s, a);
      EntryIsCurrent(s, g, a);
    }
    var e := s1.cache[a];
    assert s1.cache == s.cache[a := e];
    assert g1.truth == g.truth[a := e.obj];
    OneEntryKeepsCoherence(s, g, s1, g1, a, e);
  }

  lemma LoggingKeepsCache(s: Rank, a: Addr)
    requires a in s.cache
    ensures LogDirtied(s, a).cache == s.cache
  {
  }

  lemma MoveKeepsCoherence(s: Rank, g: Prog, op: Op, s1: Rank)
    requires Coherent(s, g) && op.Move? && OpOk(g, op) && RunOp(s, op) == Some(s1)
    ensures Coherent(s1, ProgStep(g, op))
  {
    assert s1.cache == (s.cache - {op.addr})[op.to := s.cache[op.addr].(dirty := true)];
  }

  lemma UnprotectKeepsCoherence(s: Rank, g: Prog, op: Op, s1: Rank)
    requires Coherent(s, g) && op.Unprotect? && OpOk(g, op) && RunOp(s, op) == Some(s1)
    ensures Coherent(s1, ProgStep(g, op))
  {
  }

  /** The list half of Agrees, for the tally before any reset. */
  predicate ListsAgree(s: Rank, t: Tally) {
    && s.bytes == t.bytes
    && if s.zero
       then DirtySet(s) <= t.dirty && s.dlist == t.dirty && s.clist == t.dirty - DirtySet(s)
       else DirtySet(s) == t.dirty && s.dlist == {} && s.clist == {}
  }

  /** Logging a clean entry and then setting its dirty flag counts it exactly once, by rank
      0's rule as by the others'. */
  lemma DirtyingCountsOnce(s: Rank, t: Tally, a: Addr, s1: Rank)
    requires ListsAgree(s, t) && a in s.cache
    requires s1.zero == s.zero && DirtySet(s1) == DirtySet(s) + {a}
    requires var l := if s.cache[a].dirty then s else LogDirtied(s, a);
             s1.bytes == l.bytes && s1.dlist == l.dlist && s1.clist == l.clist
    ensures ListsAgree(s1, CountOnce(t, a, s.cache[a].obj.size))
  {
    assert a in DirtySet(s) <==> s.cache[a].dirty;
  }

  lemma MoveKeepsLists(s: Rank, t: Tally, a: Addr, b: Addr, s1: Rank)
    requires ListsAgree(s, t) && MoveEntry(s, a, b) == Some(s1)
    requires b !in t.dirty
    ensures var t1 := CountOnce(t, a, s.cache[a].obj.size);
            ListsAgree(s1, t1.(dirty := t1.dirty - {a} + {b}))
  {
    assert a in DirtySet(s) <==> s.cache[a].dirty;
    assert DirtySet(s1) == DirtySet(s) - {a} + {b};
  }

  lemma UnprotectKeepsLists(s: Rank, t: Tally, op: Op, s1: Rank)
    requires op.Unprotect? && ListsAgree(s, t)
    requires RunOp(s, op) == Some(s1) && !s.cache[op.addr].clear
    ensures var t1 := if op.dirtied || s.cache[op.addr].dirtied
                      then CountOnce(t, op.addr, s.cache[op.addr].obj.size) else t;
            ListsAgree(s1, if op.deleted then t1.(dirty := t1.dirty - {op.addr}) else t1)
  {
    var a := op.addr;
    var d := op.dirtied || s.cache[a].dirtied;
    assert a in DirtySet(s) <==> s.cache[a].dirty;
    assert DirtySet(s1) == if op.deleted then DirtySet(s) - {a}
                           else if d then DirtySet(s) + {a} else DirtySet(s);
  }

  lemma OpKeepsFields(s: Rank, g: Prog, t: Tally, op: Op, s1: Rank)
    requires Agrees(s, g, t) && OpOk(g, op) && RunOp(s, op) == Some(s1)
    ensures s1.zero == s.zero && s1.cand == s.cand && s1.permitted == s.permitted
    ensures s1.cfg == ProgStep(g, op).cfg
    ensures op.Flush? ==> s1 == s && TallyOp(g, t, op) == t
  {
    hide Live, Coherent, DirtyIn;
  }

  lemma InsertKeepsLists(s: Rank, t: Tally, op: Op, s1: Rank)
    requires op.Insert? && ListsAgree(s, t) && RunOp(s, op) == Some(s1)
    requires op.addr !in t.dirty
    ensures ListsAgree(s1, CountOnce(t, op.addr, op.obj.size))
  {
    assert DirtySet(s1) == DirtySet(s) + {op.addr};
  }

  lemma MarkDirtyKeepsLists(s: Rank, t: Tally, op: Op, s1: Rank)
    requires op.MarkDirty? && ListsAgree(s, t) && RunOp(s, op) == Some(s1)
    ensures ListsAgree(s1, if s.cache[op.addr].prot then t else CountOnce(t, op.addr, s.cache[op.addr].obj.size))
  {
    if s.cache[op.addr].prot {
      assert DirtySet(s1) == DirtySet(s);
    } else {
      assert DirtySet(s1) == DirtySet(s) + {op.addr};
      DirtyingCountsOnce(s, t, op.addr, s1);
    }
  }

  lemma ResizeKeepsLists(s: Rank, t: Tally, op: Op, s1: Rank)
    requires op.Resize? && ListsAgree(s, t) && RunOp(s, op) == Some(s1)
    ensures var e := s.cache[op.addr];
            ListsAgree(s1, if e.obj.size == op.size then t else CountOnce(t, op.addr, e.obj.size))
  {
    if s.cache[op.addr].obj.size != op.size {
      assert DirtySet(s1) == DirtySet(s) + {op.addr};
      DirtyingCountsOnce(s, t, op.addr, s1);
    }
  }

  lemma OpKeepsLists(s: Rank, g: Prog, t: Tally, op: Op, s1: Rank)
    requires Agrees(s, g, t) && OpOk(g, op) && RunOp(s, op) == Some(s1)
    ensures ListsAgree(s1, TallyOp(g, t, op))
  {
    match op {
      case Insert(a, obj, pin) => InsertKeepsLists(s, t, op, s1);
      case Protect(a) => assert DirtySet(s1) == DirtySet(s);
      case MarkDirty(a, data) => MarkDirtyKeepsLists(s, t, op, s1);
      case Resize(a, size) => ResizeKeepsLists(s, t, op, s1);
      case Move(a, b) => MoveKeepsLists(s, t, a, b, s1);
      case Unprotect(a, _, _, _) => UnprotectKeepsLists(s, t, op, s1);
      case _ => assert DirtySet(s1) == DirtySet(s);
    }
  }

  /** An operation never makes an object settled: whatever the file may be read for after
      the operation, it could be read for before, with the same content. */
  lemma OpOnlyUnsettles(g: Prog, t: Tally, op: Op, a: Addr)
    requires Live(g, t) && OpOk(g, op)
    requires a in Settled(ProgStep(g, op), TallyStep(g, t, op).dirty)
    ensures a in Settled(g, t.dirty)
    ensures ProgStep(g, op).truth[a] == g.truth[a]
  {
  }

  /** What rank 0 has written and still lists as clean is not changed by the operation. */
  lemma OpKeepsCleanedList(s: Rank, g: Prog, t: Tally, op: Op, s1: Rank, a: Addr)
    requires Agrees(s, g, t) && OpOk(g, op) && RunOp(s, op) == Some(s1)
    requires a in s1.clist && a !in Pending(ProgStep(g, op))
    ensures a in s.clist && a !in Pending(g)
    ensures a in g.truth && a in ProgStep(g, op).truth && ProgStep(g, op).truth[a] == g.truth[a]
  {
  }
}
