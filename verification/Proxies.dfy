/** A metadata cache with flush dependencies and proxy entries, updated in place: marking one
    entry notifies its parents, and proxies among them pass the change on. */
module Proxies {
  import opened AddressLists
  import opened FlushDeps
  import opened DependencyEdges
  import opened ProxyLife

  class FlushDepCache {
    var objs: Graph
    ghost var rk: map<Id, nat>

    // ------------------------------------------------- becoming unserialized

    /** The parent is told that c became unserialized, or is a new unserialized child. */
    method ChildUnserialized(p: Id, ghost c: Id, ghost d: set<(Id, Id)>, ghost u: set<(Id, Id)>)
      requires p in objs && c in objs && Mid(objs, rk, d, u + {(c, p)}, {}, {}) && (c, p) !in u
      requires p in objs[c].deps && !objs[c].current
      requires objs[p].proxy ==> Pinned(objs[p])
      requires p in rk && Below(rk, d, p) && Below(rk, u, p)
      modifies `objs
      ensures Mid(objs, rk, d, u, {}, {}) && SameDirtyEdges(old(objs), objs)
      ensures Up(old(objs), u + {(c, p)}, objs, u, rk, rk[p], {})
      decreases rk[p], 2
    {
      hide Mid, Below, Up, Exact, SameDirtyEdges;
      UnserUpMid(objs, rk, d, u, c, p);
      objs := UnserUp(objs, p);
      if objs[p].proxy && objs[p].punser == 1 {
        ghost var before := objs;
        BelowFacts(rk, d, p, []);
        assert Pinned(objs[p]);
        MarkUnserialized(p, d, u);
        UpFacts(before, u, objs, u, rk, rk[p], {p}, c);
        UpFacts(before, u, objs, u, rk, rk[p], {p}, p);
        ExactByKid(objs, u, c, p);
        SameEdgesTrans(old(objs), before, objs);
        UpTrans(old(objs), u + {(c, p)}, before, u, objs, u, rk, rk[p], rk[p], {}, {p});
      }
    }

    method MarkUnserialized(e: Id, ghost d: set<(Id, Id)>, ghost u: set<(Id, Id)>)
      requires e in objs && Mid(objs, rk, d, u, {}, {e})
      requires e in rk && AtOrBelow(rk, d, e) && Below(rk, u, e)
      modifies `objs
      ensures Mid(objs, rk, d, u, {}, {}) && SameDirtyEdges(old(objs), objs)
      ensures Up(old(objs), u, objs, u, rk, rk[e], {e})
      ensures e in objs && !objs[e].current
      decreases rk[e], 1
    {
      hide Mid, Below, AtOrBelow, Up, Owed, SameDirtyEdges;
      NoMove(objs, u, rk, rk[e], {e});
      if !objs[e].current {
        AlreadyUnserialized(objs, rk, d, u, e);
      } else {
        UnserializeMid(objs, rk, d, u, e);
        objs := objs[e := objs[e].(current := false)];
        ghost var before, u1 := objs, u + Owed(e, objs[e].deps);
        MarkFlushDepUnserialized(e, d, u);
        UpFacts(before, u1, objs, u, rk, rk[e], {}, e);
        SameEdgesTrans(old(objs), before, objs);
        UpTrans(old(objs), u, before, u1, objs, u, rk, rk[e], rk[e], {e}, {});
      }
    }

    method MarkFlushDepUnserialized(e: Id, ghost d: set<(Id, Id)>, ghost u: set<(Id, Id)>)
      requires e in objs && Mid(objs, rk, d, u + Owed(e, objs[e].deps), {}, {}) && !objs[e].current
      requires e in rk && AtOrBelow(rk, d, e) && Below(rk, u, e)
      modifies `objs
      ensures Mid(objs, rk, d, u, {}, {}) && SameDirtyEdges(old(objs), objs)
      ensures e in old(objs) && Up(old(objs), u + Owed(e, old(objs)[e].deps), objs, u, rk, rk[e], {})
      decreases rk[e], 0
    {
      hide Mid, Below, AtOrBelow, Up, Owed, Linked, SameDirtyEdges;
      ghost var start, u0 := objs, u + Owed(e, objs[e].deps);
      NoMove(objs, u0, rk, rk[e], {});
      NothingOwed(e, objs[e].deps, u);
      var i := 0;
      while i < |objs[e].deps|
        invariant e in objs && 0 <= i <= |objs[e].deps| && !objs[e].current && objs[e].deps == start[e].deps
        invariant Mid(objs, rk, d, u + Owed(e, objs[e].deps[i..]), {}, {}) && SameDirtyEdges(start, objs)
        invariant Up(start, u0, objs, u + Owed(e, objs[e].deps[i..]), rk, rk[e], {})
      {
        ghost var before, p := objs, objs[e].deps[i];
        ghost var ui, un := u + Owed(e, objs[e].deps[i..]), u + Owed(e, objs[e].deps[i + 1..]);
        MidLinked(objs, rk, d, ui, {}, {});
        NextParent(objs, rk, u, e, i);
        BelowParent(objs, rk, d, e, p);
        ChildUnserialized(objs[e].deps[i], e, d, un);
        UpFacts(before, ui, objs, un, rk, rk[p], {}, e);
        SameEdgesTrans(start, before, objs);
        UpTrans(start, u0, before, ui, objs, un, rk, rk[e], rk[p], {}, {});
        i := i + 1;
      }
      NothingOwed(e, objs[e].deps, u);
    }

    // -------------------------------------------------------- becoming dirty

    method ChildDirtied(p: Id, ghost c: Id, ghost d: set<(Id, Id)>, ghost u: set<(Id, Id)>)
      requires p in objs && c in objs && Mid(objs, rk, d + {(c, p)}, u, {}, {}) && (c, p) !in d
      requires p in objs[c].deps && objs[c].dirty
      requires objs[p].proxy ==> Pinned(objs[p])
      requires p in rk && Below(rk, d, p) && Below(rk, u, p)
      modifies `objs
      ensures Mid(objs, rk, d, u, {}, {})
      ensures Up(old(objs), u, objs, u, rk, rk[p], if old(objs)[p].proxy && old(objs)[c].current then {p} else {})
      ensures p in objs
      ensures if old(objs)[p].proxy && old(objs)[p].pdirty == 0 then !objs[p].current else objs == DirtyUp(old(objs), p)
      decreases rk[p], 2
    {
      hide Mid, Below, Up, Exact;
      DirtyUpMid(objs, rk, d, u, c, p);
      objs := DirtyUp(objs, p);
      if objs[p].proxy && objs[p].pdirty == 1 {
        ghost var before := objs;
        assert Pinned(objs[p]);
        SetDirty(p, d, u);
        UpFacts(before, u, objs, u, rk, rk[p], {p}, c);
        UpFacts(before, u, objs, u, rk, rk[p], {p}, p);
        if old(objs)[c].current {
          UpTrans(old(objs), u, before, u, objs, u, rk, rk[p], rk[p], {p}, {p});
        } else {
          ExactByKid(objs, u, c, p);
          UpTrans(old(objs), u, before, u, objs, u, rk, rk[p], rk[p], {}, {p});
        }
      } else {
        NoMove(objs, u, rk, rk[p], {p});
        UpTrans(old(objs), u, objs, u, objs, u, rk, rk[p], rk[p], {p}, {p});
      }
    }

    /** A clean pinned entry is marked dirty, which also makes it unserialized. */
    method SetDirty(e: Id, ghost d: set<(Id, Id)>, ghost u: set<(Id, Id)>)
      requires e in objs && Mid(objs, rk, d, u, {e}, {}) && !objs[e].dirty && (objs[e].proxy ==> objs[e].ndirty > 0)
      requires e in rk && Below(rk, d, e) && Below(rk, u, e)
      modifies `objs
      ensures Mid(objs, rk, d, u, {}, {}) && Up(old(objs), u, objs, u, rk, rk[e], {e})
      ensures e in objs && objs[e].dirty && !objs[e].current
      decreases rk[e], 1
    {
      hide Mid, Below, AtOrBelow, Up, Owed;
      ghost var d1, u1 := d + Owed(e, objs[e].deps), u + Owed(e, objs[e].deps);
      BelowFacts(rk, u, e, objs[e].deps);
      BelowFacts(rk, d, e, []);
      var wasCurrent := objs[e].current;
      DirtyMid(objs, rk, d, u, e);
      objs := objs[e := objs[e].(dirty := true)];
      ghost var m1 := objs;
      if wasCurrent {
        MidWeaker(objs, rk, d1, u, e);
        UnserializeMid(objs, rk, d1, u, e);
        objs := objs[e := objs[e].(current := false)];
        UpTrans(old(objs), u, m1, u, objs, u1, rk, rk[e], rk[e], {e}, {e});
        ghost var m2 := objs;
        MarkFlushDepDirty(e, d, u1);
        UpFacts(m2, u1, objs, u1, rk, rk[e], {}, e);
        UpTrans(old(objs), u, m2, u1, objs, u1, rk, rk[e], rk[e], {e}, {});
        ghost var m3 := objs;
        MarkFlushDepUnserialized(e, d, u);
        UpFacts(m3, u1, objs, u, rk, rk[e], {}, e);
        UpTrans(old(objs), u, m3, u1, objs, u, rk, rk[e], rk[e], {e}, {});
      } else {
        MarkFlushDepDirty(e, d, u);
        UpFacts(m1, u, objs, u, rk, rk[e], {}, e);
        UpTrans(old(objs), u, m1, u, objs, u, rk, rk[e], rk[e], {e}, {});
      }
    }

    method MarkFlushDepDirty(e: Id, ghost d: set<(Id, Id)>, ghost u: set<(Id, Id)>)
      requires e in objs && Mid(objs, rk, d + Owed(e, objs[e].deps), u, {}, {}) && objs[e].dirty && !objs[e].current
      requires e in rk && Below(rk, d, e) && AtOrBelow(rk, u, e)
      modifies `objs
      ensures Mid(objs, rk, d, u, {}, {}) && Up(old(objs), u, objs, u, rk, rk[e], {})
      decreases rk[e], 0
    {
      hide Mid, Below, AtOrBelow, Up, Owed, Linked;
      ghost var start := objs;
      NoMove(objs, u, rk, rk[e], {});
      NothingOwed(e, objs[e].deps, d);
      var i := 0;
      while i < |objs[e].deps|
        invariant e in objs && 0 <= i <= |objs[e].deps| && objs[e].dirty && !objs[e].current && objs[e].deps == start[e].deps
        invariant Mid(objs, rk, d + Owed(e, objs[e].deps[i..]), u, {}, {})
        invariant Up(start, u, objs, u, rk, rk[e], {})
      {
        ghost var before, p := objs, objs[e].deps[i];
        MidLinked(objs, rk, d + Owed(e, objs[e].deps[i..]), u, {}, {});
        NextParent(objs, rk, d, e, i);
        BelowParent(objs, rk, u, e, p);
        ChildDirtied(objs[e].deps[i], e, d + Owed(e, objs[e].deps[i + 1..]), u);
        UpFacts(before, u, objs, u, rk, rk[p], {}, e);
        UpTrans(start, u, before, u, objs, u, rk, rk[e], rk[p], {}, {});
        i := i + 1;
      }
      NothingOwed(e, objs[e].deps, d);
    }

    // -------------------------------------------------------- becoming clean

    /** The parent is told that c became clean, or that a dirty child has left it. */
    method ChildCleaned(p: Id, ghost c: Id, ghost d: set<(Id, Id)>, ghost u: set<(Id, Id)>)
      requires p in objs && c in objs && Mid(objs, rk, d + {(c, p)}, u, {}, {}) && (c, p) !in d
      requires !(p in objs[c].deps && objs[c].dirty)
      requires objs[p].proxy ==> Pinned(objs[p])
      requires p in rk && Below(rk, d, p) && Below(rk, u, p)
      modifies `objs
      ensures Mid(objs, rk, d, u, {}, {}) && SameUnserEdges(old(objs), objs)
      ensures Down(old(objs), u, objs, u, rk, rk[p], {})
      decreases rk[p], 2
    {
      hide Mid, Below, Down, Exact, SameUnserEdges;
      DirtyDownMid(objs, rk, d, u, c, p);
      objs := DirtyDown(objs, p);
      if objs[p].proxy && objs[p].pdirty == 0 {
        ghost var before := objs;
        assert Pinned(objs[p]);
        SetClean(p, d, u);
        SameUnserExact(before, objs, u, p);
        SameEdgesTrans(old(objs), before, objs);
        DownTrans(old(objs), u, before, u, objs, u, rk, rk[p], rk[p], {}, {p});
      }
    }

    method SetClean(e: Id, ghost d: set<(Id, Id)>, ghost u: set<(Id, Id)>)
      requires e in objs && Mid(objs, rk, d, u, {e}, {}) && objs[e].dirty && (objs[e].proxy ==> objs[e].ndirty == 0)
      requires e in rk && Below(rk, d, e) && Below(rk, u, e)
      modifies `objs
      ensures Mid(objs, rk, d, u, {}, {}) && SameUnserEdges(old(objs), objs)
      ensures Down(old(objs), u, objs, u, rk, rk[e], {e})
      ensures e in objs && !objs[e].dirty
      ensures old(objs)[e].deps == [] ==> objs == old(objs)[e := objs[e]]
      decreases rk[e], 1
    {
      hide Mid, Below, Down, Owed, SameUnserEdges;
      CleanMid(objs, rk, d, u, e);
      objs := objs[e := objs[e].(dirty := false)];
      ghost var m1 := objs;
      MarkFlushDepClean(e, d, u);
      DownFacts(m1, u, objs, u, rk, rk[e], {}, e);
      SameEdgesTrans(old(objs), m1, objs);
      DownTrans(old(objs), u, m1, u, objs, u, rk, rk[e], rk[e], {e}, {});
    }

    /** In reverse order, in case a callback removes a dependency. */
    method MarkFlushDepClean(e: Id, ghost d: set<(Id, Id)>, ghost u: set<(Id, Id)>)
      requires e in objs && Mid(objs, rk, d + Owed(e, objs[e].deps), u, {}, {}) && !objs[e].dirty
      requires e in rk && Below(rk, d, e) && Below(rk, u, e)
      modifies `objs
      ensures Mid(objs, rk, d, u, {}, {}) && SameUnserEdges(old(objs), objs)
      ensures Down(old(objs), u, objs, u, rk, rk[e], {})
      ensures old(objs)[e].deps == [] ==> objs == old(objs)
      decreases rk[e], 0
    {
      hide Mid, Below, Down, Owed, Linked, SameUnserEdges;
      ghost var start := objs;
      NoMove(objs, u, rk, rk[e], {});
      NothingOwed(e, objs[e].deps, d);
      var i := |objs[e].deps|;
      while i > 0
        invariant e in objs && 0 <= i <= |objs[e].deps| && !objs[e].dirty && objs[e].deps == start[e].deps
        invariant Mid(objs, rk, d + Owed(e, objs[e].deps[..i]), u, {}, {}) && SameUnserEdges(start, objs)
        invariant Down(start, u, objs, u, rk, rk[e], {}) && (start[e].deps == [] ==> objs == start)
      {
        i := i - 1;
        ghost var before, p := objs, objs[e].deps[i];
        MidLinked(objs, rk, d + Owed(e, objs[e].deps[..i + 1]), u, {}, {});
        LastParent(objs, rk, u, e, i);
        LastParent(objs, rk, d, e, i);
        ChildCleaned(objs[e].deps[i], e, d + Owed(e, objs[e].deps[..i]), u);
        DownFacts(before, u, objs, u, rk, rk[p], {}, e);
        SameEdgesTrans(start, before, objs);
        DownTrans(start, u, before, u, objs, u, rk, rk[e], rk[p], {}, {});
      }
      NothingOwed(e, objs[e].deps, d);
    }

    // --------------------------------------------------- becoming serialized

    method ChildSerialized(p: Id, ghost c: Id, ghost d: set<(Id, Id)>, ghost u: set<(Id, Id)>)
      requires p in objs && c in objs && Mid(objs, rk, d, u + {(c, p)}, {}, {}) && (c, p) !in u
      requires !(p in objs[c].deps && !objs[c].current)
      requires objs[p].proxy ==> Pinned(objs[p])
      requires p in rk && Below(rk, d, p) && Below(rk, u, p)
      modifies `objs
      ensures Mid(objs, rk, d, u, {}, {}) && SameDirtyEdges(old(objs), objs)
      ensures Down(old(objs), u + {(c, p)}, objs, u, rk, rk[p], {})
      decreases rk[p], 2
    {
      hide Mid, Below, Down, Exact, SameDirtyEdges;
      UnserDownMid(objs, rk, d, u, c, p);
      ghost var u1 := u + {(c, p)};
      objs := UnserDown(objs, p);
      if objs[p].proxy {
        ghost var before := objs;
        if objs[p].punser == 0 {
          assert Pinned(objs[p]);
          MarkSerialized(p, d, u);
          ExactIfCurrent(objs, u, p);
          SameEdgesTrans(old(objs), before, objs);
          DownTrans(old(objs), u1, before, u, objs, u, rk, rk[p], rk[p], {p}, {p});
          DownFacts(old(objs), u1, objs, u, rk, rk[p], {p}, p);
        }
        DownDrop(old(objs), u1, objs, u, rk, rk[p], p);
      }
    }

    method MarkSerialized(e: Id, ghost d: set<(Id, Id)>, ghost u: set<(Id, Id)>)
      requires e in objs && Mid(objs, rk, d, u, {}, {}) && (objs[e].proxy ==> objs[e].nunser == 0)
      requires e in rk && Below(rk, d, e) && Below(rk, u, e)
      modifies `objs
      ensures Mid(objs, rk, d, u, {}, {}) && SameDirtyEdges(old(objs), objs)
      ensures Down(old(objs), u, objs, u, rk, rk[e], {e})
      ensures e in objs && objs[e].current
      ensures old(objs)[e].deps == [] ==> objs == old(objs)[e := objs[e]]
      decreases rk[e], 1
    {
      hide Mid, Below, Down, Owed, SameDirtyEdges;
      NoMove(objs, u, rk, rk[e], {e});
      if !objs[e].current {
        SerializeMid(objs, rk, d, u, e);
        objs := objs[e := objs[e].(current := true)];
        ghost var before, u1 := objs, u + Owed(e, objs[e].deps);
        MarkFlushDepSerialized(e, d, u);
        DownFacts(before, u1, objs, u, rk, rk[e], {}, e);
        SameEdgesTrans(old(objs), before, objs);
        DownTrans(old(objs), u, before, u1, objs, u, rk, rk[e], rk[e], {e}, {});
      }
    }

    method MarkFlushDepSerialized(e: Id, ghost d: set<(Id, Id)>, ghost u: set<(Id, Id)>)
      requires e in objs && Mid(objs, rk, d, u + Owed(e, objs[e].deps), {}, {}) && objs[e].current
      requires e in rk && Below(rk, d, e) && Below(rk, u, e)
      modifies `objs
      ensures Mid(objs, rk, d, u, {}, {}) && SameDirtyEdges(old(objs), objs)
      ensures e in old(objs) && Down(old(objs), u + Owed(e, old(objs)[e].deps), objs, u, rk, rk[e], {})
      ensures old(objs)[e].deps == [] ==> objs == old(objs)
      decreases rk[e], 0
    {
      hide Mid, Below, Down, Owed, Linked, SameDirtyEdges;
      ghost var start, u0 := objs, u + Owed(e, objs[e].deps);
      NoMove(objs, u0, rk, rk[e], {});
      NothingOwed(e, objs[e].deps, u);
      var i := |objs[e].deps|;
      while i > 0
        invariant e in objs && 0 <= i <= |objs[e].deps| && objs[e].current && objs[e].deps == start[e].deps
        invariant Mid(objs, rk, d, u + Owed(e, objs[e].deps[..i]), {}, {}) && SameDirtyEdges(start, objs)
        invariant Down(start, u0, objs, u + Owed(e, objs[e].deps[..i]), rk, rk[e], {})
        invariant start[e].deps == [] ==> objs == start
      {
        i := i - 1;
        ghost var before, p := objs, objs[e].deps[i];
        ghost var ui, un := u + Owed(e, objs[e].deps[..i + 1]), u + Owed(e, objs[e].deps[..i]);
        MidLinked(objs, rk, d, ui, {}, {});
        LastParent(objs, rk, u, e, i);
        LastParent(objs, rk, d, e, i);
        ChildSerialized(objs[e].deps[i], e, d, un);
        DownFacts(before, ui, objs, un, rk, rk[p], {}, e);
        SameEdgesTrans(start, before, objs);
        DownTrans(start, u0, before, ui, objs, un, rk, rk[e], rk[p], {}, {});
      }
      NothingOwed(e, objs[e].deps, u);
    }

    // ---------------------------------------------------------- dependencies

    ghost predicate Valid()
      reads this
    {
      ValidGraph(objs, rk)
    }

    /** `rk1` is a ranking of the graph with the new edge: the new edge closes no cycle. */
    method CreateDependency(parent: Id, child: Id, ghost rk1: map<Id, nat>) returns (ok: bool)
      requires Mid(objs, rk, {}, {}, {}, {}) && parent in objs && child in objs && parent !in objs[child].deps
      requires objs[parent].cached && objs[child].cached
      requires parent != child ==> Ranks(objs, rk1) && rk1[parent] < rk1[child]
      modifies this
      ensures ok == (parent != child && (old(objs)[parent].prot || Pinned(old(objs)[parent])))
      ensures !ok ==> objs == old(objs) && rk == old(rk)
      ensures ok ==> rk == rk1 && Mid(objs, rk, {}, {}, {}, {}) && Attached(old(objs), objs, parent, child)
    {
      hide Mid, Told, Attached, OneIf, Ranks, WithEdge;
      if child == parent || !(objs[parent].prot || Pinned(objs[parent])) {
        return false;
      }
      WithEdgeMid(objs, rk, parent, child, rk1);
      RanksKeys(objs, rk1);
      WithEdgeFacts(objs, parent, child);
      objs := WithEdge(objs, parent, child);
      rk := rk1;
      TellNewParent(parent, child);
      ToldIsAttached(old(objs), objs, rk, parent, child);
      ok := true;
    }

    method TellNewParent(parent: Id, child: Id)
      requires parent in objs && child in objs && parent in objs[child].deps && Pinned(objs[parent])
      requires parent in rk && child in rk && rk[parent] < rk[child]
      requires Mid(objs, rk, OneIf(objs[child].dirty, child, parent), OneIf(!objs[child].current, child, parent), {}, {})
      modifies `objs
      ensures Mid(objs, rk, {}, {}, {}, {}) && Told(old(objs), objs, rk, parent, child)
    {
      hide Mid, Up, OneIf, Below, Linked, Exact, DirtyUp, WithEdge;
      OneStale(rk, child, parent);
      ghost var m1, u := objs, OneIf(!objs[child].current, child, parent);
      NoMove(objs, u, rk, rk[parent], {});
      if objs[child].dirty {
        ChildDirtied(parent, child, {}, u);
        UpFacts(m1, u, objs, u, rk, rk[parent], if m1[parent].proxy && m1[child].current then {parent} else {}, child);
        UpFacts(m1, u, objs, u, rk, rk[parent], if m1[parent].proxy && m1[child].current then {parent} else {}, parent);
      }
      if !objs[child].current {
        ghost var m2 := objs;
        ChildUnserialized(parent, child, {}, {});
        UpTrans(m1, u, m2, u, objs, {}, rk, rk[parent], rk[parent], {}, {});
        UpFacts(m1, u, objs, {}, rk, rk[parent], {}, parent);
      }
    }

    method DestroyDependency(parent: Id, child: Id) returns (ok: bool)
      requires Mid(objs, rk, {}, {}, {}, {}) && KidsOk(objs) && parent in objs && child in objs
      requires parent in objs[child].deps && objs[parent].proxy ==> objs[parent].pinClient
      modifies this`objs
      ensures ok == (parent in old(objs)[child].deps)
      ensures !ok ==> objs == old(objs)
      ensures ok ==> Mid(objs, rk, {}, {}, {}, {}) && Detached(old(objs), objs, parent, child)
    {
      hide Mid, Detached, OneIf, KidsOk, Distinct, Without, Down, Below;
      if parent in objs[child].deps {
        ParentIsHigher(objs, rk, parent, child);
      }
      if !Pinned(objs[parent]) || objs[child].deps == [] || objs[parent].nkids == 0 || parent !in objs[child].deps {
        return false;
      }
      WithoutEdgeMid(objs, rk, parent, child);
      WithoutEdgeDrops(objs, parent, child);
      objs := WithoutEdge(objs, parent, child);
      TellOldParent(parent, child);
      DetachedBy(old(objs), objs, rk, parent, child);
      ok := true;
    }

    method TellOldParent(parent: Id, child: Id)
      requires parent in objs && child in objs && parent !in objs[child].deps
      requires objs[parent].proxy ==> Pinned(objs[parent])
      requires parent in rk && child in rk && rk[parent] < rk[child]
      requires Mid(objs, rk, OneIf(objs[child].dirty, child, parent), OneIf(!objs[child].current, child, parent), {}, {})
      modifies `objs
      ensures Mid(objs, rk, {}, {}, {}, {})
      ensures Down(old(objs), OneIf(!old(objs)[child].current, child, parent), objs, {}, rk, rk[parent], {})
    {
      hide Mid, Down, OneIf, Below;
      OneStale(rk, child, parent);
      ghost var m1, u := objs, OneIf(!objs[child].current, child, parent);
      NoMove(objs, u, rk, rk[parent], {});
      if objs[child].dirty {
        ChildCleaned(parent, child, {}, u);
        DownFacts(m1, u, objs, u, rk, rk[parent], {}, parent);
        DownFacts(m1, u, objs, u, rk, rk[parent], {}, child);
      }
      if !objs[child].current {
        ghost var m2 := objs;
        ChildSerialized(parent, child, {}, {});
        DownTrans(m1, u, m2, u, objs, {}, rk, rk[parent], rk[parent], {}, {});
      }
    }

    // ------------------------------------------------------------ proxies

    /** First child: the proxy enters the cache pinned, is marked clean and serialized at once,
        and gets a dependency on every parent it has been told of. */
    method EnterCache(p: Id, ghost rk1: map<Id, nat>) returns (ok: bool)
      requires Valid() && p in objs && objs[p].proxy && !objs[p].cached
      requires Ranks(objs, rk1) && forall l | l in objs[p].listed :: l in objs && objs[l].cached && rk1[l] < rk1[p]
      modifies this
      ensures ok == forall l | l in old(objs)[p].listed :: old(objs)[l].prot || Pinned(old(objs)[l])
      ensures !ok ==> StuckEntering(old(objs), objs, rk, rk1, p)
      ensures ok ==>
        && Mid(objs, rk, {}, {}, {}, {}) && KidsOk(objs) && ProxiesOk(objs, {p}) && Ranks(objs, rk1)
        && OthersStay(old(objs), objs, p) && InPlace(objs, p) && objs[p].deps == objs[p].listed == old(objs)[p].listed
        && objs[p].pkids == 0 && !objs[p].dirty && objs[p].current
        && KeepsExact(old(objs), {}, objs, {}, {})
    {
      hide Mid, KidsOk, ProxiesOk, Attached, Exact, Increasing, Ranks, KeepsExact, Falls, Entering, InPlace, OwnKids, OthersStay;
      RanksKeys(objs, rk1);
      ListedIncreasing(objs, p);
      InsertProxyMid(objs, rk, p);
      objs := objs[p := NewlyCached(objs[p])];
      ghost var m1 := objs;
      MarkNewProxy(p);
      NewProxyStays(old(objs), m1, objs, p);
      StartEntering(old(objs), objs, rk, rk1, p);
      var i := 0;
      while i < |objs[p].listed|
        invariant p in objs && objs[p].listed == old(objs)[p].listed && 0 <= i <= |objs[p].listed|
        invariant Entering(old(objs), objs, rk, rk1, p, i)
        invariant forall j | 0 <= j < i :: old(objs)[objs[p].listed[j]].prot || Pinned(old(objs)[objs[p].listed[j]])
      {
        ghost var before, rk0 := objs, rk;
        EnteringFacts(old(objs), objs, rk, rk1, p, i);
        ok := CreateDependency(objs[p].listed[i], p, rk1);
        if !ok {
          return;
        }
        EnteringStep(old(objs), before, objs, rk0, rk1, p, i);
        EnteringFacts(old(objs), objs, rk, rk1, p, i + 1);
        i := i + 1;
      }
      EnteringFacts(old(objs), objs, rk, rk1, p, i);
      ok := true;
    }

    method MarkNewProxy(p: Id)
      requires p in objs && Mid(objs, rk, {}, {}, {p}, {}) && objs[p].dirty && objs[p].ndirty == 0 && objs[p].nunser == 0
      requires objs[p].deps == []
      modifies `objs
      ensures Mid(objs, rk, {}, {}, {}, {}) && Falls(old(objs), objs, {p}) && KeepsExact(old(objs), {}, objs, {}, {p})
      ensures p in objs && !objs[p].dirty && objs[p].current && objs == old(objs)[p := objs[p]]
    {
      hide Mid, Falls, KeepsExact, SameUnserEdges;
      MidFacts(objs, rk, {}, {}, {p}, {}, p);
      SetClean(p, {}, {});
      ghost var m1 := objs;
      DownFacts(old(objs), {}, m1, {}, rk, rk[p], {p}, p);
      SameUnserCount(old(objs), objs, rk, p);
      MarkSerialized(p, {}, {});
      DownFacts(m1, {}, objs, {}, rk, rk[p], {p}, p);
      DownTrans(old(objs), {}, m1, {}, objs, {}, rk, rk[p], rk[p], {p}, {p});
    }

    /** `rk1` ranks the graph with the new edges.  The only way to fail is a listed parent that
        is neither pinned nor protected when the first child arrives. */
    method AddChild(p: Id, c: Id, ghost rk1: map<Id, nat>) returns (ok: bool)
      requires Valid() && p in objs && objs[p].proxy && c in objs && objs[c].cached && c != p
      requires p !in objs[c].deps && !(objs[c].proxy && p in objs[c].listed)
      requires Ranks(objs, rk1) && rk1[p] < rk1[c]
      requires objs[p].pkids == 0 ==> forall l | l in objs[p].listed :: l in objs && objs[l].cached && rk1[l] < rk1[p]
      modifies this
      ensures ok == (old(objs)[p].pkids > 0 || forall l | l in old(objs)[p].listed :: old(objs)[l].prot || Pinned(old(objs)[l]))
      ensures !ok ==> StuckEntering(old(objs), objs, rk, rk1, p)
      ensures ok ==> Valid() && ChildGiven(old(objs), objs, p, c)
      ensures ok && (old(objs)[p].pkids > 0 ==> Exact(old(objs), {}, p))
              ==> (Exact(objs, {}, p) <==> !Strands(old(objs), p, c))
    {
      hide Mid, KidsOk, ProxiesOk, Attached, Exact, Increasing, Ranks, KeepsExact, InPlace, OwnKids, ChildGiven;
      RanksKeys(objs, rk1);
      ListedIncreasing(objs, p);
      QuietProxy(objs, rk, p);
      if objs[p].pkids == 0 {
        ok := EnterCache(p, rk1);
        if !ok {
          return;
        }
        ExactIfCurrent(objs, {}, p);
      } else {
        SettledIsInPlace(objs, p);
        NoMove(objs, {}, rk, 0, {});
      }
      ghost var m, r := objs, rk;
      InPlaceFacts(objs, p);
      QuietProxy(objs, rk, p);
      ok := CreateDependency(p, c, rk1);
      AttachedExact(m, objs, p, c);
      AttachedChild(m, objs, rk, p, c);
      ChildGivenBy(old(objs), m, objs, p, c);
      PkidsExact(objs, p, objs[p].pkids + 1);
      SameExact(objs, p, objs[p].pkids + 1);
      objs := objs[p := objs[p].(pkids := objs[p].pkids + 1)];
    }

    /** When the last own child goes, the proxy leaves the cache with it, unless it has
        dependencies it was not told of or dependents it was not given. */
    method RemoveChild(p: Id, c: Id) returns (ok: bool)
      requires Valid() && p in objs && objs[p].proxy && c in objs && !(objs[c].proxy && p in objs[c].listed)
      modifies this`objs
      ensures ok == (p in old(objs)[c].deps
                     && (old(objs)[p].pkids > 1 || (old(objs)[p].nkids == 1
                                                    && forall q | q in old(objs)[p].deps :: q in old(objs)[p].listed)))
      ensures ok ==> Valid() && ChildTaken(old(objs), objs, p, c)
      ensures ok && !objs[p].cached ==> objs[p].deps == [] && !objs[p].dirty && objs[p].pdirty == 0 && objs[p].punser == 0
      ensures ok && !objs[p].cached && Exact(old(objs), {}, p) ==> objs[p].current
    {
      hide Mid, KidsOk, ProxiesOk, Detached, Exact, Increasing, KeepsExact, OwnKids, ChildTaken, Leaving, SamePlaces, Distinct;
      if p in objs[c].deps {
        ParentIsHigher(objs, rk, p, c);
        ListedIncreasing(objs, p);
      }
      ok := DestroyDependency(p, c);
      if !ok {
        return;
      }
      DetachedPlaces(old(objs), objs, p, c);
      PlacesKeys(old(objs), objs, {c});
      KeepsExactAt(old(objs), objs, p);
      ghost var m1, k := objs, objs[p].pkids - 1;
      SameExact(objs, p, k);
      objs := objs[p := objs[p].(pkids := objs[p].pkids - 1)];
      ghost var m2 := objs;
      NoMoves(objs, p);
      if objs[p].pkids == 0 {
        StartLeaving(old(objs), m1, rk, p, c);
        ok := LeaveCache(p);
      } else {
        ChildRemaining(old(objs), m1, rk, p, c);
      }
      if ok {
        TakenBy(old(objs), m1, objs, p, c, k);
      }
    }

    method LeaveCache(p: Id) returns (ok: bool)
      requires p in objs && Leaving(objs, objs, rk, p, 0)
      modifies this`objs
      ensures ok == (old(objs)[p].nkids == 0 && forall q | q in old(objs)[p].deps :: q in old(objs)[p].listed)
      ensures ok ==> Valid() && SamePlaces(old(objs), objs, {p}) && KeepsExact(old(objs), {}, objs, {}, {})
      ensures ok ==> p in objs && !objs[p].cached && objs[p].pkids == 0 && objs[p].listed == old(objs)[p].listed
      ensures ok ==> objs[p].deps == [] && !objs[p].dirty && objs[p].pdirty == 0 && objs[p].punser == 0
      ensures ok && Exact(old(objs), {}, p) ==> objs[p].current
    {
      hide Mid, KidsOk, ProxiesOk, Detached, Exact, Increasing, KeepsExact, OwnKids, Leaving, SamePlaces, LeavingDeps;
      var i := 0;
      while i < |objs[p].listed|
        invariant p in objs && objs[p].listed == old(objs)[p].listed && 0 <= i <= |objs[p].listed|
        invariant Leaving(old(objs), objs, rk, p, i)
      {
        ghost var before := objs;
        LeavingFacts(old(objs), objs, rk, p, i);
        LeavingPlaces(old(objs), objs, rk, p, i);
        ParentPinned(objs, rk, objs[p].listed[i], p);
        ok := DestroyDependency(objs[p].listed[i], p);
        assert ok;
        LeavingStep(old(objs), before, objs, rk, p, i);
        LeavingFacts(old(objs), objs, rk, p, i + 1);
        i := i + 1;
      }
      LeavingDone(old(objs), objs, rk, p);
      LeavingPlaces(old(objs), objs, rk, p, i);
      LeavingFacts(old(objs), objs, rk, p, i);
      if objs[p].pinCache || objs[p].dirty || objs[p].deps != [] || objs[p].nkids > 0 {
        return false;
      }
      assert objs[p].pdirty == 0 && objs[p].punser == 0;
      TakenOut(objs, rk, p);
      RemovedPlaces(objs, p);
      PlacesTrans(old(objs), objs, objs[p := objs[p].(pinClient := false, cached := false)], {p}, {p}, {p});
      PlacesProxies(old(objs), objs, {p});
      ExactChain(old(objs), objs, objs[p := objs[p].(pinClient := false, cached := false)]);
      KeepsExactAt(old(objs), objs, p);
      objs := objs[p := objs[p].(pinClient := false, cached := false)];
      ok := true;
    }

    /** The proxy is told of parent l; if it is in the cache it gets a dependency on l. */
    method AddParent(p: Id, l: Id, ghost rk1: map<Id, nat>) returns (ok: bool)
      requires Valid() && p in objs && objs[p].proxy && l in objs && l != p && objs[l].cached
      requires objs[p].cached ==> l !in objs[p].deps && Ranks(objs, rk1) && rk1[l] < rk1[p]
      modifies this
      ensures ok == (l !in old(objs)[p].listed && (old(objs)[p].cached ==> old(objs)[l].prot || Pinned(old(objs)[l])))
      ensures !ok ==> objs == if l in old(objs)[p].listed then old(objs)
                              else Listing(old(objs), p, Inserted(old(objs)[p].listed, l))
      ensures ok ==> Valid() && ParentsChanged(old(objs), objs, p, Inserted(old(objs)[p].listed, l), {l})
      ensures ok && objs[p].cached ==> l in objs[p].deps
      ensures ok && objs[p].cached && old(objs)[l].proxy && Exact(old(objs), {}, l)
              ==> (Exact(objs, {}, l) <==> !Strands(old(objs), l, p))
    {
      hide Mid, KidsOk, ProxiesOk, Attached, Exact, Increasing, KeepsExact, OwnKids, SamePlaces, Ranks, Inserted;
      ListedIncreasing(objs, p);
      if l in objs[p].listed {
        return false;
      }
      ghost var m0, list := objs, Inserted(objs[p].listed, l);
      ListMembers(objs[p].listed, l);
      objs := Listing(objs, p, Inserted(objs[p].listed, l));
      ghost var m1 := objs;
      ListingMid(m0, rk, p, list);
      ProxiesMinus(m0, p);
      if !m0[p].cached {
        UncachedIsAlone(m0, rk, p);
      }
      ListingProxies(m0, p, list);
      NoMoves(m1, p);
      if objs[p].pkids > 0 {
        ListingRanks(m0, p, list, rk1);
        ok := CreateDependency(l, p, rk1);
        if !ok {
          return;
        }
        ParentAdded(m1, objs, rk, p, l);
        AttachedPlaces(m1, objs, l, p);
        AttachedExact(m1, objs, l, p);
        ListingSameExact(m0, p, list, l);
        ParentsChangedBy(m0, m1, objs, p, list, {l});
      } else {
        SettledAgain(objs, rk, p);
        ExactMore(m1, {}, m1, {}, l);
        ParentsChangedBy(m0, m1, objs, p, list, {l});
      }
      ok := true;
    }

    /** Parent l is given up; the last parent only by a proxy without children. */
    method RemoveParent(p: Id, l: Id) returns (ok: bool)
      requires Valid() && p in objs && objs[p].proxy && l in objs
      requires objs[p].listed == [l] ==> objs[p].pkids == 0
      modifies this`objs
      ensures ok == (l in old(objs)[p].listed)
      ensures !ok ==> objs == old(objs)
      ensures ok ==> Valid() && ParentsChanged(old(objs), objs, p, AddressLists.Removed(old(objs)[p].listed, l), {})
      ensures ok && objs[p].cached ==> l !in objs[p].deps
    {
      hide Mid, KidsOk, ProxiesOk, Detached, Exact, Increasing, KeepsExact, OwnKids, SamePlaces, AddressLists.Removed;
      ListedIncreasing(objs, p);
      if l !in objs[p].listed {
        return false;
      }
      ghost var m0, list := objs, AddressLists.Removed(objs[p].listed, l);
      ListMembers(objs[p].listed, l);
      objs := Listing(objs, p, AddressLists.Removed(objs[p].listed, l));
      ghost var m1 := objs;
      ListingMid(m0, rk, p, list);
      NoMoves(m1, p);
      ProxiesMinus(m0, p);
      ok := true;
      if objs[p].pkids > 0 {
        ParentPinned(m0, rk, l, p);
        ok := DestroyDependency(l, p);
        ParentRemoved(m0, objs, rk, p, l, list);
        DetachedPlaces(m1, objs, l, p);
      } else {
        UncachedIsAlone(m0, rk, p);
        ProxiesMinus(m0, p);
        ListingProxies(m0, p, list);
        SettledAgain(objs, rk, p);
      }
      ParentsChangedBy(m0, m1, objs, p, list, {});
    }

    // --------------------------------------------- operations on plain entries

    constructor ()
      ensures Valid() && objs == map[]
    {
      objs := map[];
      rk := map[];
    }

    /** A client's entry comes into the cache dirty and without an image; a proxy is created
        outside the cache. */
    method Create(e: Id, proxy: bool, pin: bool)
      requires Valid() && e !in objs
      modifies this
      ensures Valid() && objs == old(objs)[e := Newcomer(proxy, pin && !proxy)]
      ensures var n := objs[e]; n.proxy == proxy && n.cached == !proxy && n.dirty == !proxy && !n.current && !n.prot
                                && n.pinClient == (pin && !proxy) && !n.pinCache && n.deps == n.listed == []
                                && n.nkids == n.ndirty == n.nunser == n.pkids == n.pdirty == n.punser == 0
    {
      NewcomerIsValid(objs, rk, e, Newcomer(proxy, pin && !proxy), 0);
      objs := objs[e := Newcomer(proxy, pin && !proxy)];
      rk := rk[e := 0];
    }

    /** A client makes an entry of its own depend on another one, or a proxy on it. */
    method CreateFlushDependency(parent: Id, child: Id, ghost rk1: map<Id, nat>) returns (ok: bool)
      requires Valid() && parent in objs && !objs[parent].proxy && child in objs && objs[child].cached
      requires parent !in objs[child].deps && (parent != child ==> Ranks(objs, rk1) && rk1[parent] < rk1[child])
      modifies this
      ensures Valid() && ok == (parent != child && (old(objs)[parent].prot || Pinned(old(objs)[parent])))
      ensures !ok ==> objs == old(objs)
      ensures ok ==> Attached(old(objs), objs, parent, child)
      ensures ok ==> objs.Keys == old(objs).Keys && objs[child].deps == old(objs)[child].deps + [parent]
    {
      hide Mid, Attached, KidsOk, ProxyOk, Ranks;
      ok := CreateDependency(parent, child, rk1);
      if ok {
        AttachedPlaces(old(objs), objs, parent, child);
        PlainEdgeIsValid(old(objs), objs, rk, parent, child);
      }
    }

    method DestroyFlushDependency(parent: Id, child: Id) returns (ok: bool)
      requires Valid() && parent in objs && !objs[parent].proxy && child in objs
      requires !(objs[child].proxy && parent in objs[child].listed)
      modifies this`objs
      ensures Valid() && ok == (parent in old(objs)[child].deps)
      ensures !ok ==> objs == old(objs)
      ensures ok ==> Detached(old(objs), objs, parent, child) && child in objs && parent !in objs[child].deps
    {
      hide Mid, Detached, KidsOk, ProxyOk, Distinct, KeepsExact, SamePlaces, Without;
      if parent in objs[child].deps {
        ParentIsHigher(objs, rk, parent, child);
      }
      ok := DestroyDependency(parent, child);
      if ok {
        DetachedPlaces(old(objs), objs, parent, child);
        WithoutMembers(old(objs)[child].deps, parent);
        PlainEdgeIsValid(old(objs), objs, rk, parent, child);
      }
    }

    method MarkEntryDirty(e: Id) returns (ok: bool)
      requires Valid() && e in objs && !objs[e].proxy
      modifies this`objs
      ensures Valid() && ok == (old(objs)[e].prot || Pinned(old(objs)[e]))
      ensures !ok ==> objs == old(objs)
      ensures ok ==> Rises(Noted(old(objs), e), objs, {e}) && KeepsExact(old(objs), {}, objs, {}, {})
      ensures ok ==> !objs[e].current && (objs[e].dirty <==> old(objs)[e].dirty || !old(objs)[e].prot)
      ensures objs.Keys == old(objs).Keys && objs[e].marked == (old(objs)[e].marked || old(objs)[e].prot)
      ensures objs[e].prot == old(objs)[e].prot && objs[e].deps == old(objs)[e].deps && !objs[e].proxy
      ensures forall x | x in objs && x != e :: objs[x].marked == old(objs)[x].marked
    {
      hide Mid, Exact, KeepsExact, KidsOk, ProxiesOk, SameDirtyEdges;
      if !objs[e].prot && !Pinned(objs[e]) {
        return false;
      }
      NotedIsValid(objs, rk, e);
      if objs[e].prot {
        objs := objs[e := objs[e].(marked := true)];
      }
      ghost var m := objs;
      MidFacts(objs, rk, {}, {}, {}, {}, e);
      MidWeaker(objs, rk, {}, {}, e);
      if !objs[e].prot && !objs[e].dirty {
        SetDirty(e, {}, {});
      } else {
        MarkUnserialized(e, {}, {});
        SameDirtyAt(m, objs, e);
      }
      CascadeIsValid(m, objs, rk, rk[e], e);
      ExactChain(old(objs), m, objs);
      ok := true;
    }

    method Protect(e: Id) returns (ok: bool)
      requires Valid() && e in objs && !objs[e].proxy
      modifies this`objs
      ensures Valid() && ok == !old(objs)[e].prot
      ensures objs == if ok then old(objs)[e := old(objs)[e].(prot := true, marked := false)] else old(objs)
    {
      hide ValidGraph, KeepsExact;
      if objs[e].prot {
        return false;
      }
      ProtOnly(objs, rk, e, true, false);
      objs := objs[e := objs[e].(prot := true, marked := false)];
      ok := true;
    }

    /** Releasing a protected entry; it was modified if the caller says so, or was marked dirty
        in the meantime. */
    method Unprotect(e: Id, dirtied: bool)
      requires Valid() && e in objs && !objs[e].proxy && objs[e].prot
      modifies this`objs
      ensures Valid() && RisesReleased(old(objs), objs, e) && KeepsExact(old(objs), {}, objs, {}, {})
      ensures e in objs && !objs[e].prot
      ensures objs.Keys == old(objs).Keys && objs[e].deps == old(objs)[e].deps
      ensures var d := dirtied || old(objs)[e].marked;
              objs[e].dirty == (old(objs)[e].dirty || d) && objs[e].current == (old(objs)[e].current && !d)
    {
      hide ValidGraph, RisesReleased, KeepsExact, Rises, Mid;
      if dirtied || objs[e].marked {
        SetModified(e);
      } else {
        RisesItself(objs, {e});
      }
      ghost var m := objs;
      RisesSame(old(objs), m, e);
      ProtOnly(objs, rk, e, false, objs[e].marked);
      Releasing(old(objs), m, e);
      objs := objs[e := objs[e].(prot := false)];
    }

    /** A clean entry is protected, marked dirty while it is, and released by a caller who does
        not say that it was modified: it is dirty all the same, and its parents count it. */
    method ModifyUnderProtection(e: Id)
      requires Valid() && e in objs && !objs[e].proxy && !objs[e].prot
      modifies this`objs
      ensures Valid() && objs.Keys == old(objs).Keys && !objs[e].prot && objs[e].dirty && !objs[e].current
      ensures objs[e].deps == old(objs)[e].deps
      ensures forall p | p in objs[e].deps ::
        p in objs && objs[p].ndirty == |DirtyKids(objs, {}, p)| && e in DirtyKids(objs, {}, p)
    {
      hide ValidGraph, RisesReleased, KeepsExact, Rises, Noted;
      var ok := Protect(e);
      ok := MarkEntryDirty(e);
      Unprotect(e, false);
      CountedByParents(objs, rk, e);
    }

    /** An entry that is only read while protected stays as clean, or dirty, as it was, whatever
        became of it under earlier protections. */
    method ReadUnderProtection(e: Id)
      requires Valid() && e in objs && !objs[e].proxy && !objs[e].prot
      modifies this`objs
      ensures Valid() && objs.Keys == old(objs).Keys && !objs[e].prot
      ensures objs[e].dirty == old(objs)[e].dirty && objs[e].current == old(objs)[e].current
    {
      hide ValidGraph, RisesReleased, KeepsExact, Rises;
      var ok := Protect(e);
      Unprotect(e, false);
    }

    /** Parents hear that the entry is unserialized before they hear that it is dirty. */
    method SetModified(e: Id)
      requires Valid() && e in objs && !objs[e].proxy
      modifies this`objs
      ensures Valid() && Rises(old(objs), objs, {e}) && KeepsExact(old(objs), {}, objs, {}, {})
      ensures e in objs && objs[e].dirty && !objs[e].current && !objs[e].proxy && objs[e].prot == old(objs)[e].prot
    {
      hide Mid, Exact, KeepsExact, KidsOk, ProxiesOk, SameDirtyEdges, Up, Rises, Owed, Below, AtOrBelow;
      MidFacts(objs, rk, {}, {}, {}, {}, e);
      NothingBelow(rk, e, objs[e].deps);
      MidWeaker(objs, rk, {}, {}, e);
      if !objs[e].dirty {
        ghost var owed := {} + Owed(e, objs[e].deps);
        DirtyMid(objs, rk, {}, {}, e);
        objs := objs[e := objs[e].(dirty := true)];
        ghost var m1 := objs;
        MidWeaker(objs, rk, owed, {}, e);
        MarkUnserialized(e, owed, {});
        UpFacts(m1, {}, objs, {}, rk, rk[e], {e}, e);
        UpTrans(old(objs), {}, m1, {}, objs, {}, rk, rk[e], rk[e], {e}, {e});
        ghost var m2 := objs;
        MarkFlushDepDirty(e, {}, {});
        UpFacts(m2, {}, objs, {}, rk, rk[e], {}, e);
        UpTrans(old(objs), {}, m2, {}, objs, {}, rk, rk[e], rk[e], {e}, {});
      } else {
        MarkUnserialized(e, {}, {});
        SameDirtyAt(old(objs), objs, e);
      }
      UpFacts(old(objs), {}, objs, {}, rk, rk[e], {e}, e);
      UpIsRise(old(objs), objs, rk, rk[e], {e});
      CascadeIsValid(old(objs), objs, rk, rk[e], e);
    }

    method MarkEntryClean(e: Id) returns (ok: bool)
      requires Valid() && e in objs && !objs[e].proxy
      modifies this`objs
      ensures Valid() && ok == (!old(objs)[e].prot && Pinned(old(objs)[e]))
      ensures !ok ==> objs == old(objs)
      ensures ok ==> Falls(old(objs), objs, {e}) && KeepsExact(old(objs), {}, objs, {}, {}) && SameUnserEdges(old(objs), objs)
      ensures ok ==> !objs[e].dirty
    {
      hide Mid, Exact, KeepsExact, KidsOk, ProxiesOk;
      if objs[e].prot || !Pinned(objs[e]) {
        return false;
      }
      MidFacts(objs, rk, {}, {}, {}, {}, e);
      MidWeaker(objs, rk, {}, {}, e);
      NoMove(objs, {}, rk, rk[e], {e});
      if objs[e].dirty {
        SetClean(e, {}, {});
      }
      CascadeIsValid(old(objs), objs, rk, rk[e], e);
      ok := true;
    }

    method MarkEntrySerialized(e: Id) returns (ok: bool)
      requires Valid() && e in objs && !objs[e].proxy
      modifies this`objs
      ensures Valid() && ok == (!old(objs)[e].prot && Pinned(old(objs)[e]))
      ensures !ok ==> objs == old(objs)
      ensures ok ==> Falls(old(objs), objs, {e}) && KeepsExact(old(objs), {}, objs, {}, {}) && SameDirtyEdges(old(objs), objs)
      ensures ok ==> objs[e].current
    {
      hide Mid, Exact, KeepsExact, KidsOk, ProxiesOk;
      if objs[e].prot || !Pinned(objs[e]) {
        return false;
      }
      MidFacts(objs, rk, {}, {}, {}, {}, e);
      MarkSerialized(e, {}, {});
      CascadeIsValid(old(objs), objs, rk, rk[e], e);
      ok := true;
    }
  }
}
