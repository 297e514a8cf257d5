/** Proxies over their life: in and out of the cache, gaining and losing parents and children. */
module ProxyLife {
  import opened AddressLists
  import opened FlushDeps
  import opened DependencyEdges

  // ------------------------------------------------------------- proxies

  /** The children a proxy was given, as opposed to proxies that list it as a parent. */
  ghost function OwnKids(m: Graph, p: Id): set<Id> {
    set c | c in m && p in m[c].deps && !(m[c].proxy && p in m[c].listed)
  }

  /** A proxy is in the cache, and pinned, exactly while it has children of its own, and then
      every parent it is told of has a flush dependency on it. */
  ghost predicate ProxyOk(m: Graph, p: Id)
    requires p in m
  {
    && m[p].pinClient == m[p].cached && !m[p].prot
    && m[p].pkids == |OwnKids(m, p)| && (m[p].cached <==> m[p].pkids > 0)
    && Increasing(m[p].listed)
    && (m[p].cached ==> forall l | l in m[p].listed :: l in m[p].deps)
  }

  /** All proxies but the `busy` ones are settled. */
  ghost predicate ProxiesOk(m: Graph, busy: set<Id>) {
    && (forall p | p in m && !m[p].proxy :: m[p].cached && m[p].listed == [])
    && (forall p | p in m && m[p].proxy && p !in busy :: ProxyOk(m, p))
  }

  /** The state between operations. */
  ghost predicate ValidGraph(m: Graph, rk: map<Id, nat>) {
    Mid(m, rk, {}, {}, {}, {}) && KidsOk(m) && ProxiesOk(m, {})
  }

  lemma SameShapesProxy(m: Graph, m': Graph, p: Id)
    requires SameShapes(m, m') && p in m
    ensures Kids(m', p) == Kids(m, p)
    ensures ProxyOk(m, p) ==> ProxyOk(m', p)
  {
    hide Increasing;
    assert OwnKids(m', p) == OwnKids(m, p);
  }

  lemma SameShapesKeep(m: Graph, m': Graph, busy: set<Id>)
    requires SameShapes(m, m')
    ensures KidsOk(m) ==> KidsOk(m')
    ensures ProxiesOk(m, busy) ==> ProxiesOk(m', busy)
  {
    forall p | p in m
      ensures Kids(m', p) == Kids(m, p)
      ensures ProxyOk(m, p) ==> ProxyOk(m', p)
    {
      SameShapesProxy(m, m', p);
    }
  }

  lemma EdgeOwnKids(m: Graph, m': Graph, parent: Id, child: Id, q: Id)
    requires EdgeAdded(m, m', parent, child) && forall x | x in m :: m'[x].proxy == m[x].proxy && m'[x].listed == m[x].listed
    ensures q != parent || (m[child].proxy && parent in m[child].listed) ==> OwnKids(m', q) == OwnKids(m, q)
    ensures q == parent && !(m[child].proxy && parent in m[child].listed) ==>
              OwnKids(m', q) == OwnKids(m, q) + {child} && child !in OwnKids(m, q)
  {
  }

  /** Edges that do not concern the own children of a settled proxy leave the proxies alone. */
  lemma WithEdgeProxies(m: Graph, parent: Id, child: Id, busy: set<Id>)
    requires ProxiesOk(m, busy) && parent in m && child in m && parent != child && parent !in m[child].deps
    requires parent in busy || !m[parent].proxy || (m[child].proxy && parent in m[child].listed)
    ensures ProxiesOk(WithEdge(m, parent, child), busy)
  {
    hide ProxyOk, EdgeAdded;
    var m' := WithEdge(m, parent, child);
    WithEdgeAdds(m, parent, child);
    forall q | q in m && m[q].proxy && q !in busy ensures ProxyOk(m', q) {
      EdgeProxy(m, m', parent, child, q);
      EdgeOwnKids(m, m', parent, child, q);
    }
  }

  lemma EdgeProxy(m: Graph, m': Graph, parent: Id, child: Id, q: Id)
    requires q in m && m'.Keys == m.Keys
    requires m'[q] == m[q].(deps := m'[q].deps, nkids := m'[q].nkids, pinCache := m'[q].pinCache)
    requires m[q].cached ==> forall l | l in m[q].listed && l in m[q].deps :: l in m'[q].deps
    ensures ProxyOk(m, q) && OwnKids(m', q) == OwnKids(m, q) ==> ProxyOk(m', q)
  {
    hide Increasing, OwnKids;
  }

  lemma WithoutEdgeProxies(m: Graph, parent: Id, child: Id, busy: set<Id>)
    requires ProxiesOk(m, busy) && parent in m && child in m && parent != child && parent in m[child].deps
    requires Distinct(m[child].deps) && m[parent].nkids > 0
    requires parent in busy || !m[parent].proxy || (m[child].proxy && parent in m[child].listed)
    requires child in busy || !m[child].proxy || parent !in m[child].listed
    ensures ProxiesOk(WithoutEdge(m, parent, child), busy)
  {
    hide ProxyOk, Distinct, WithoutEdge;
    WithoutEdgeShape(m, parent, child);
    forall q | q in m && m[q].proxy && q !in busy ensures ProxyOk(WithoutEdge(m, parent, child), q) {
      WithoutEdgeProxy(m, parent, child, q);
    }
  }

  lemma WithoutEdgeShape(m: Graph, parent: Id, child: Id)
    requires parent in m && child in m && parent != child && m[parent].nkids > 0
    ensures var m' := WithoutEdge(m, parent, child);
      m'.Keys == m.Keys && forall x | x in m ::
        m'[x] == m[x].(deps := m'[x].deps, nkids := m'[x].nkids, pinCache := m'[x].pinCache)
  {
    hide Without;
  }

  lemma WithoutEdgeProxy(m: Graph, parent: Id, child: Id, q: Id)
    requires parent in m && child in m && parent != child && parent in m[child].deps
    requires Distinct(m[child].deps) && m[parent].nkids > 0 && q in m && ProxyOk(m, q)
    requires q != parent || (m[child].proxy && parent in m[child].listed)
    requires q != child || parent !in m[child].listed
    ensures ProxyOk(WithoutEdge(m, parent, child), q)
  {
    hide ProxyOk, EdgeAdded, OwnKids, Increasing, Distinct, Without;
    var m' := WithoutEdge(m, parent, child);
    WithoutMembers(m[child].deps, parent);
    WithoutEdgeAdds(m, parent, child);
    EdgeProxy(m, m', parent, child, q);
    EdgeOwnKids(m', m, parent, child, q);
  }

  // ------------------------------------------------- a dirty serialized child

  /** The one situation in which attaching child c leaves proxy p unserialized although no
      child of it is: c is dirty but its image is current, and p had nothing dirty or
      unserialized before. */
  predicate Strands(m: Graph, p: Id, c: Id)
    requires p in m && c in m
  {
    m[c].dirty && m[c].current && m[p].ndirty == 0 && m[p].nunser == 0
  }

  lemma NotExact(m: Graph, p: Id)
    requires p in m && !m[p].current && UnserKids(m, {}, p) == {}
    ensures !Exact(m, {}, p)
  {
    forall c | c in m ensures !(p in m[c].deps && !m[c].current) {
      assert c !in UnserKids(m, {}, p);
    }
  }

  lemma UntouchedKids(m: Graph, m': Graph, rk: map<Id, nat>, p: Id)
    requires Linked(m, rk) && SameShapes(m, m') && p in m && Untouched(m, m', rk, rk[p])
    ensures UnserKids(m', {}, p) == UnserKids(m, {}, p)
  {
  }

  lemma NoUnserKids(m: Graph, p: Id)
    requires p in m && CountsUnser(m, {}) && m[p].nunser == 0
    ensures UnserKids(m, {}, p) == {}
  {
  }

  /** Attaching a child that is dirty and current: the proxy is exact afterwards unless the
      child strands it. */
  lemma StrandedIff(m: Graph, m1: Graph, m': Graph, rk: map<Id, nat>, p: Id, c: Id)
    requires Mid(m1, rk, {(c, p)}, {}, {}, {}) && p in m && c in m && p in m1 && c in m1
    requires SameCounters(m, m1) && m1[p].proxy && m1[c].dirty && m1[c].current && p in m1[c].deps
    requires Up(m1, {}, m', {}, rk, rk[p], {p}) && (Exact(m, {}, p) ==> Exact(m1, {}, p))
    requires if m1[p].pdirty == 0 then !m'[p].current else m' == DirtyUp(m1, p)
    ensures Exact(m, {}, p) ==> (Exact(m', {}, p) <==> !Strands(m, p, c))
  {
    hide DirtyKids, FlagsOk;
    ProxyCounts(m1, {(c, p)}, {}, p);
    if Exact(m, {}, p) {
      if m1[p].pdirty > 0 {
      } else if m1[p].nunser == 0 {
        NoUnserKids(m1, p);
        UntouchedKids(m1, m', rk, p);
        NotExact(m', p);
      } else {
        UntouchedKids(m1, m', rk, p);
        var k :| k in UnserKids(m1, {}, p);
      }
    }
  }

  /** What creating a dependency does: the edge is there, proxies above may have become dirty
      or unserialized, and no proxy loses exactness but for a stranding child. */
  ghost predicate Attached(m: Graph, m': Graph, parent: Id, child: Id) {
    && parent in m && child in m && parent != child
    && Rises(WithEdge(m, parent, child), m', {})
    && m'[child].dirty == m[child].dirty && m'[child].current == m[child].current
    && KeepsExact(m, {}, m', {}, {parent})
    && (m[parent].proxy && Exact(m, {}, parent) ==> (Exact(m', {}, parent) <==> !Strands(m, parent, child)))
    && (!m[child].dirty && m[child].current ==> m' == WithEdge(m, parent, child))
  }

  lemma AttachedQuietly(m: Graph, m': Graph, rk: map<Id, nat>, parent: Id, child: Id)
    requires parent in m && child in m && parent != child && parent !in m[child].deps && parent in rk && child in rk && rk[parent] < rk[child]
    requires !(m[child].dirty && m[child].current)
    requires Up(WithEdge(m, parent, child), OneIf(!m[child].current, child, parent), m', {}, rk, rk[parent], {})
    requires !m[child].dirty && m[child].current ==> m' == WithEdge(m, parent, child)
    ensures Attached(m, m', parent, child)
  {
    hide Exact, OneIf;
    WithEdgeAdds(m, parent, child);
    EdgeKeepsExact(m, WithEdge(m, parent, child), parent, child);
  }

  /** What telling a parent about its new child adds to the edge itself. */
  ghost predicate Told(m: Graph, m': Graph, rk: map<Id, nat>, parent: Id, child: Id) {
    && parent in m && child in m && parent in rk && parent in m'
    && if m[child].dirty && m[child].current
       then && Up(m, {}, m', {}, rk, rk[parent], if m[parent].proxy then {parent} else {})
            && if m[parent].proxy && m[parent].pdirty == 0 then !m'[parent].current else m' == DirtyUp(m, parent)
       else && Up(m, OneIf(!m[child].current, child, parent), m', {}, rk, rk[parent], {})
            && (!m[child].dirty && m[child].current ==> m' == m)
  }

  lemma ToldIsAttached(m: Graph, m': Graph, rk: map<Id, nat>, parent: Id, child: Id)
    requires parent in m && child in m && parent != child && parent !in m[child].deps
    requires parent in rk && child in rk && rk[parent] < rk[child]
    requires var m1, e := WithEdge(m, parent, child), m[child];
      && Told(m1, m', rk, parent, child)
      && Mid(m1, rk, OneIf(e.dirty, child, parent), OneIf(!e.current, child, parent), {}, {})
    ensures Attached(m, m', parent, child)
  {
    hide Attached, Mid, Up;
    if m[child].dirty && m[child].current {
      AttachedDirty(m, m', rk, parent, child);
    } else {
      AttachedQuietly(m, m', rk, parent, child);
    }
  }

  lemma AttachedDirty(m: Graph, m': Graph, rk: map<Id, nat>, parent: Id, child: Id)
    requires parent in m && child in m && parent != child && parent !in m[child].deps && m[child].dirty && m[child].current
    requires parent in rk && child in rk && rk[parent] < rk[child]
    requires var m1 := WithEdge(m, parent, child);
      && Mid(m1, rk, {(child, parent)}, {}, {}, {})
      && Up(m1, {}, m', {}, rk, rk[parent], if m[parent].proxy then {parent} else {})
      && if m1[parent].proxy && m1[parent].pdirty == 0 then !m'[parent].current else m' == DirtyUp(m1, parent)
    ensures Attached(m, m', parent, child)
  {
    hide Exact, Mid, Rises, Untouched, EdgeAdded;
    UpFacts(WithEdge(m, parent, child), {}, m', {}, rk, rk[parent], if m[parent].proxy then {parent} else {}, child);
    var m1 := WithEdge(m, parent, child);
    WithEdgeAdds(m, parent, child);
    EdgeKeepsExact(m, m1, parent, child);
    if m[parent].proxy {
      StrandedIff(m, m1, m', rk, parent, child);
      ProxyRises(m1, m', parent);
    }
  }

  lemma ProxyRises(m: Graph, m': Graph, p: Id)
    requires p in m && m[p].proxy && Rises(m, m', {p})
    ensures Rises(m, m', {})
  {
  }

  lemma WithoutEdgeDrops(m: Graph, parent: Id, child: Id)
    requires parent in m && child in m && parent != child && parent in m[child].deps && Distinct(m[child].deps)
    requires m[parent].nkids > 0
    ensures parent !in WithoutEdge(m, parent, child)[child].deps
  {
    WithoutMembers(m[child].deps, parent);
  }

  /** What destroying a dependency does. */
  ghost predicate Detached(m: Graph, m': Graph, parent: Id, child: Id) {
    && parent in m && child in m && parent != child && m[parent].nkids > 0
    && Falls(WithoutEdge(m, parent, child), m', {})
    && KeepsExact(m, {}, m', {}, {})
  }

  lemma DetachedBy(m: Graph, m': Graph, rk: map<Id, nat>, parent: Id, child: Id)
    requires parent in m && child in m && parent != child && parent in m[child].deps && Distinct(m[child].deps)
    requires m[parent].nkids > 0 && parent in rk
    requires Down(WithoutEdge(m, parent, child), OneIf(!m[child].current, child, parent), m', {}, rk, rk[parent], {})
    ensures Detached(m, m', parent, child)
  {
    hide Exact, OneIf, Without, Distinct;
    WithoutEdgeAdds(m, parent, child);
    EdgeKeepsExact(WithoutEdge(m, parent, child), m, parent, child);
  }

  lemma ParentIsHigher(m: Graph, rk: map<Id, nat>, parent: Id, child: Id)
    requires Mid(m, rk, {}, {}, {}, {}) && KidsOk(m) && child in m && parent in m[child].deps
    ensures parent in m && parent in rk && child in rk && rk[parent] < rk[child] && parent != child
    ensures Distinct(m[child].deps) && m[parent].nkids > 0 && m[parent].cached && m[child].cached && m[parent].pinCache
  {
    assert parent in m;
    assert child in Kids(m, parent);
  }

  // --------------------------------------------- a proxy comes and goes

  /** The proxy as H5C_insert_entry makes it: pinned, dirty, without an image or children. */
  function NewlyCached(e: Entry): Entry {
    e.(cached := true, dirty := true, current := false, prot := false, pinClient := true, pinCache := false,
       deps := [], nkids := 0, ndirty := 0, nunser := 0)
  }

  lemma HasMember(s: seq<Id>)
    ensures s != [] <==> exists q :: q in s
  {
    if s != [] {
      assert s[0] in s;
    }
  }

  lemma UncachedIsAlone(m: Graph, rk: map<Id, nat>, p: Id)
    requires Mid(m, rk, {}, {}, {}, {}) && p in m && !m[p].cached
    ensures m[p].deps == [] && forall c | c in m :: p !in m[c].deps
    ensures DirtyKids(m, {}, p) == {} && UnserKids(m, {}, p) == {} && Kids(m, p) == {} && OwnKids(m, p) == {}
  {
    HasMember(m[p].deps);
  }

  /** p, which has no dependency either way, is replaced by e'. */
  ghost predicate LoneChange(m: Graph, m': Graph, p: Id) {
    && p in m && m'.Keys == m.Keys && (forall q | q in m && q != p :: m'[q] == m[q])
    && m[p].deps == [] && m'[p].deps == [] && (forall c | c in m :: p !in m[c].deps)
  }

  lemma LoneKids(m: Graph, m': Graph, p: Id, q: Id)
    requires LoneChange(m, m', p)
    ensures Kids(m', q) == Kids(m, q) && OwnKids(m', q) == OwnKids(m, q)
    ensures DirtyKids(m', {}, q) == DirtyKids(m, {}, q) && UnserKids(m', {}, q) == UnserKids(m, {}, q)
  {
  }

  lemma LoneMid(m: Graph, m': Graph, rk: map<Id, nat>, p: Id, x: set<Id>)
    requires LoneChange(m, m', p) && Mid(m, rk, {}, {}, x, {})
    requires DirtyKids(m, {}, p) == {} && UnserKids(m, {}, p) == {} && Kids(m, p) == {}
    requires m'[p].ndirty == 0 && m'[p].nunser == 0 && m'[p].pdirty == 0 && m'[p].punser == 0
    ensures CountsDirty(m', {}) && CountsUnser(m', {}) && Linked(m', rk)
    ensures KidsOk(m) && m'[p].nkids == 0 && !m'[p].pinCache ==> KidsOk(m')
  {
    hide DirtyKids, UnserKids, Kids;
    forall q | q in m
      ensures Kids(m', q) == Kids(m, q)
      ensures DirtyKids(m', {}, q) == DirtyKids(m, {}, q) && UnserKids(m', {}, q) == UnserKids(m, {}, q)
    {
      LoneKids(m, m', p, q);
    }
  }

  lemma LoneProxies(m: Graph, m': Graph, p: Id)
    requires LoneChange(m, m', p) && ProxiesOk(m, {p}) && m'[p].proxy
    ensures ProxiesOk(m', {p})
  {
    hide ProxyOk;
    forall q | q in m && m[q].proxy && q != p ensures ProxyOk(m', q) {
      LoneKids(m, m', p, q);
      EdgeProxy(m, m', p, p, q);
    }
  }

  lemma LoneExact(m: Graph, m': Graph, p: Id)
    requires LoneChange(m, m', p)
    ensures KeepsExact(m, {}, m', {}, {p})
  {
  }

  lemma InsertProxyMid(m: Graph, rk: map<Id, nat>, p: Id)
    requires ValidGraph(m, rk) && p in m && m[p].proxy && !m[p].cached
    ensures var m' := m[p := NewlyCached(m[p])];
      && Mid(m', rk, {}, {}, {p}, {}) && KidsOk(m') && ProxiesOk(m', {p}) && OwnKids(m', p) == {}
      && KeepsExact(m, {}, m', {}, {p})
  {
    hide ProxyOk, DirtyKids, UnserKids, Kids, OwnKids, Linked, KidsOk, Exact;
    UncachedIsAlone(m, rk, p);
    var m' := m[p := NewlyCached(m[p])];
    LoneKids(m, m', p, p);
    assert m[p].pdirty == 0 && m[p].punser == 0;
    LoneMid(m, m', rk, p, {});
    LoneProxies(m, m', p);
    LoneExact(m, m', p);
  }

  /** Apart from p, entries change only in what the cache keeps of their own children. */
  ghost predicate OthersStay(m: Graph, m': Graph, p: Id) {
    m'.Keys == m.Keys && forall x | x in m && x != p :: m'[x] == m[x].(nkids := m'[x].nkids, pinCache := m'[x].pinCache)
  }

  /** A proxy in the cache whose dependencies are in place. */
  ghost predicate InPlace(m: Graph, p: Id)
    requires p in m
  {
    && m[p].proxy && m[p].cached && m[p].pinClient && !m[p].prot
    && m[p].pkids == |OwnKids(m, p)| && Increasing(m[p].listed)
    && forall l | l in m[p].listed :: l in m[p].deps
  }

  lemma EdgeStays(m: Graph, m': Graph, parent: Id, child: Id)
    requires Attached(m, m', parent, child)
    ensures m'.Keys == m.Keys && SameShape(m[child].(deps := m[child].deps + [parent]), m'[child])
    ensures forall x | x in m && x != child ::
      && SameShape(m[x].(nkids := 0, pinCache := false), m'[x].(nkids := 0, pinCache := false))
      && (!m[x].proxy ==> m'[x].dirty == m[x].dirty && m'[x].current == m[x].current)
      && (x != parent ==> m'[x].pinCache == m[x].pinCache)
  {
    hide KeepsExact, Exact, WithEdge, Strands;
    WithEdgeShape(m, parent, child);
  }

  lemma WithEdgeShape(m: Graph, parent: Id, child: Id)
    requires parent in m && child in m && parent != child
    ensures var m1 := WithEdge(m, parent, child);
      && m1.Keys == m.Keys && m1[child] == m[child].(deps := m[child].deps + [parent])
      && forall x | x in m && x != child ::
           && m1[x] == m[x].(nkids := m1[x].nkids, pinCache := m1[x].pinCache)
           && (x != parent ==> m1[x].pinCache == m[x].pinCache)
  {
  }

  /** A clean, serialized child is no news to anybody. */
  lemma QuietEdgeStays(m: Graph, m': Graph, parent: Id, child: Id)
    requires Attached(m, m', parent, child) && !m[child].dirty && m[child].current
    ensures OthersStay(m, m', child)
  {
    hide KeepsExact, Exact, Rises;
  }

  /** Proxy p has got a dependency on one of its listed parents. */
  lemma AttachedToParent(m: Graph, m': Graph, l: Id, p: Id)
    requires KidsOk(m) && ProxiesOk(m, {p}) && Attached(m, m', l, p)
    requires m[p].proxy && l in m[p].listed && l !in m[p].deps
    ensures KidsOk(m') && ProxiesOk(m', {p}) && OwnKids(m', p) == OwnKids(m, p)
    ensures m'.Keys == m.Keys && SameShape(m[p].(deps := m[p].deps + [l]), m'[p])
    ensures !m[p].dirty && m[p].current ==> OthersStay(m, m', p)
    ensures m'[p].dirty == m[p].dirty && m'[p].current == m[p].current
    ensures KeepsExact(m, {}, m', {}, {l}) && (!m[p].dirty ==> KeepsExact(m, {}, m', {}, {}))
    ensures forall x | x in m && x != l :: m'[x].pinCache == m[x].pinCache
  {
    hide KidsOk, ProxiesOk, Exact, OwnKids, KeepsExact;
    EdgeStays(m, m', l, p);
    ParentEdgeKids(m, m', l, p);
    if !m[p].dirty && m[p].current {
      QuietEdgeStays(m, m', l, p);
    }
    if !m[p].dirty {
      assert !Strands(m, l, p);
      NothingStranded(m, m', l, p);
    }
  }

  /** The bookkeeping half: child counts, and the other proxies. */
  lemma ParentEdgeKids(m: Graph, m': Graph, l: Id, p: Id)
    requires KidsOk(m) && ProxiesOk(m, {p}) && Attached(m, m', l, p)
    requires m[p].proxy && l in m[p].listed && l !in m[p].deps
    ensures KidsOk(m') && ProxiesOk(m', {p}) && OwnKids(m', p) == OwnKids(m, p)
  {
    hide KidsOk, ProxiesOk, Exact, OwnKids, EdgeAdded, KeepsExact;
    WithEdgeKids(m, l, p);
    WithEdgeProxies(m, l, p, {p});
    WithEdgeAdds(m, l, p);
    EdgeOwnKids(m, WithEdge(m, l, p), l, p, p);
    SameShapesKeep(WithEdge(m, l, p), m', {p});
    SameOwnKids(WithEdge(m, l, p), m', p);
  }

  lemma NothingStranded(m: Graph, m': Graph, l: Id, p: Id)
    requires Attached(m, m', l, p) && !Strands(m, l, p)
    ensures KeepsExact(m, {}, m', {}, {})
  {
    hide Exact, Rises, WithEdge;
  }

  lemma SameOwnKids(m: Graph, m': Graph, p: Id)
    requires SameShapes(m, m')
    ensures OwnKids(m', p) == OwnKids(m, p)
  {
  }

  /** Proxy p has got a child of its own. */
  lemma AttachedChild(m: Graph, m': Graph, rk: map<Id, nat>, p: Id, c: Id)
    requires KidsOk(m) && ProxiesOk(m, {p}) && Attached(m, m', p, c) && Mid(m', rk, {}, {}, {}, {})
    requires InPlace(m, p) && p !in m[c].deps && !(m[c].proxy && p in m[c].listed)
    ensures ValidGraph(m'[p := m'[p].(pkids := m'[p].pkids + 1)], rk)
  {
    hide KidsOk, ProxyOk, Exact, OwnKids, EdgeAdded, Mid;
    var m1 := WithEdge(m, p, c);
    WithEdgeKids(m, p, c);
    WithEdgeProxies(m, p, c, {p});
    WithEdgeAdds(m, p, c);
    EdgeOwnKids(m, m1, p, c, p);
    SameShapesKeep(m1, m', {p});
    SameOwnKids(m1, m', p);
    EdgeStays(m, m', p, c);
    PkidsKids(m', p, m'[p].pkids + 1, p);
    CountAdded(m', rk, p);
  }

  /** The count of own children matters to its proxy only. */
  lemma PkidsMid(m: Graph, rk: map<Id, nat>, p: Id, k: nat)
    requires p in m && Mid(m, rk, {}, {}, {}, {})
    ensures Mid(m[p := m[p].(pkids := k)], rk, {}, {}, {}, {})
  {
    hide CountsDirty, CountsUnser, Distinct;
    var m' := m[p := m[p].(pkids := k)];
    SameDirtyCounts(m, m', {});
    SameUnserCounts(m, m', {});
  }

  lemma PkidsKids(m: Graph, p: Id, k: nat, q: Id)
    requires p in m
    ensures var m' := m[p := m[p].(pkids := k)]; Kids(m', q) == Kids(m, q) && OwnKids(m', q) == OwnKids(m, q)
  {
  }

  lemma PkidsShape(m: Graph, p: Id, k: nat)
    requires p in m && KidsOk(m) && ProxiesOk(m, {p})
    ensures KidsOk(m[p := m[p].(pkids := k)]) && ProxiesOk(m[p := m[p].(pkids := k)], {p})
  {
    hide Kids, ProxyOk;
    var m' := m[p := m[p].(pkids := k)];
    forall q | q in m ensures Kids(m', q) == Kids(m, q) && (q != p && ProxyOk(m, q) ==> ProxyOk(m', q)) {
      PkidsKids(m, p, k, q);
      if q != p {
        EdgeProxy(m, m', p, p, q);
      }
    }
  }

  lemma PkidsExact(m: Graph, p: Id, k: nat)
    requires p in m
    ensures KeepsExact(m, {}, m[p := m[p].(pkids := k)], {}, {})
  {
  }

  lemma CountAdded(m: Graph, rk: map<Id, nat>, p: Id)
    requires KidsOk(m) && ProxiesOk(m, {p}) && Mid(m, rk, {}, {}, {}, {})
    requires p in m && InPlace(m[p := m[p].(pkids := m[p].pkids + 1)], p)
    ensures ValidGraph(m[p := m[p].(pkids := m[p].pkids + 1)], rk)
  {
    hide Mid, KidsOk, OwnKids, Increasing;
    PkidsMid(m, rk, p, m[p].pkids + 1);
    PkidsShape(m, p, m[p].pkids + 1);
  }

  lemma ListedIncreasing(m: Graph, p: Id)
    requires ProxiesOk(m, {}) && p in m && m[p].proxy
    ensures Increasing(m[p].listed) && Distinct(m[p].listed) && ProxyOk(m, p)
  {
  }

  lemma LinkedRanks(m: Graph, rk: map<Id, nat>)
    ensures Linked(m, rk) ==> Ranks(m, rk)
    ensures Mid(m, rk, {}, {}, {}, {}) ==> Ranks(m, rk)
  {
  }

  lemma SameUnserCount(m: Graph, m': Graph, rk: map<Id, nat>, p: Id)
    requires Mid(m, rk, {}, {}, {p}, {}) && Mid(m', rk, {}, {}, {}, {}) && SameUnserEdges(m, m') && p in m
    ensures p in m' && m'[p].nunser == m[p].nunser
  {
    SameUnserKids(m, m', {}, p);
  }

  /** The proxy has been inserted (m1) and marked clean and serialized (m'). */
  lemma NewProxyStays(m: Graph, m1: Graph, m': Graph, p: Id)
    requires p in m && m[p].proxy && m1 == m[p := NewlyCached(m[p])] && Falls(m1, m', {p}) && m' == m1[p := m'[p]]
    requires KidsOk(m1) && ProxiesOk(m1, {p}) && OwnKids(m1, p) == {}
    requires KeepsExact(m, {}, m1, {}, {p}) && KeepsExact(m1, {}, m', {}, {p}) && p in m' && m'[p].current
    ensures KidsOk(m') && ProxiesOk(m', {p}) && OwnKids(m', p) == {}
    ensures OthersStay(m, m', p) && SameShape(NewlyCached(m[p]), m'[p])
    ensures KeepsExact(m, {}, m', {}, {})
    ensures forall x | x in m && x != p :: m'[x].pinCache == m[x].pinCache
  {
    hide KidsOk, ProxiesOk, Exact, OwnKids;
    SameShapesKeep(m1, m', {p});
    SameOwnKids(m1, m', p);
    ExactIfCurrent(m', {}, p);
  }

  /** Proxy p is entering the cache: it depends on the first i of its listed parents. */
  ghost predicate Entering(m0: Graph, m: Graph, rk: map<Id, nat>, rk1: map<Id, nat>, p: Id, i: nat) {
    && OthersStay(m0, m, p) && EnteringShape(m0, m, p, i) && EnteringParents(m0, m, rk1, p, i)
    && Mid(m, rk, {}, {}, {}, {}) && KidsOk(m) && ProxiesOk(m, {p}) && OwnKids(m, p) == {}
    && Ranks(m, rk1) && KeepsExact(m0, {}, m, {}, {})
  }

  /** Proxy p could not enter the cache: it is left there with dependencies on its listed parents
      up to the first that is neither pinned nor protected, and without children. */
  ghost predicate StuckEntering(m0: Graph, m: Graph, rk: map<Id, nat>, rk1: map<Id, nat>, p: Id)
    requires p in m0 && forall l | l in m0[p].listed :: l in m0
  {
    exists i :: 0 <= i < |m0[p].listed|
      && Entering(m0, m, rk, rk1, p, i) && !(m0[m0[p].listed[i]].prot || Pinned(m0[m0[p].listed[i]]))
      && forall j | 0 <= j < i :: m0[m0[p].listed[j]].prot || Pinned(m0[m0[p].listed[j]])
  }

  ghost predicate EnteringShape(m0: Graph, m: Graph, p: Id, i: nat) {
    && p in m0 && p in m && i <= |m0[p].listed| && m[p].proxy && m[p].pkids == 0 && !m[p].dirty && m[p].current
    && SameShape(NewlyCached(m0[p]).(deps := m0[p].listed[..i]), m[p])
  }

  ghost predicate EnteringParents(m0: Graph, m: Graph, rk1: map<Id, nat>, p: Id, i: nat) {
    && p in m0 && p in m && p in rk1 && Increasing(m0[p].listed)
    && (forall l | l in m0[p].listed :: l in m0 && l in m && l in rk1 && m0[l].cached && rk1[l] < rk1[p])
    && (forall j | i <= j < |m0[p].listed| :: m[m0[p].listed[j]].pinCache == m0[m0[p].listed[j]].pinCache)
  }

  lemma ShapeEntered(m0: Graph, m: Graph, m': Graph, p: Id, i: nat)
    requires EnteringShape(m0, m, p, i) && i < |m0[p].listed| && p in m'
    requires SameShape(m[p].(deps := m[p].deps + [m0[p].listed[i]]), m'[p]) && !m'[p].dirty && m'[p].current
    ensures EnteringShape(m0, m', p, i + 1)
  {
    assert m0[p].listed[..i + 1] == m0[p].listed[..i] + [m0[p].listed[i]];
  }

  lemma ParentEntered(m0: Graph, m: Graph, m': Graph, rk1: map<Id, nat>, p: Id, i: nat)
    requires EnteringParents(m0, m, rk1, p, i) && i < |m0[p].listed| && m'.Keys == m.Keys
    requires forall x | x in m && x != m0[p].listed[i] :: m'[x].pinCache == m[x].pinCache
    ensures EnteringParents(m0, m', rk1, p, i + 1)
  {
  }

  lemma StartEntering(m0: Graph, m: Graph, rk: map<Id, nat>, rk1: map<Id, nat>, p: Id)
    requires p in m0 && m0[p].proxy && m0[p].pkids == 0 && OthersStay(m0, m, p) && p in m && SameShape(NewlyCached(m0[p]), m[p])
    requires !m[p].dirty && m[p].current && Increasing(m0[p].listed)
    requires Mid(m, rk, {}, {}, {}, {}) && KidsOk(m) && ProxiesOk(m, {p}) && OwnKids(m, p) == {}
    requires KeepsExact(m0, {}, m, {}, {}) && (forall x | x in m0 && x != p :: m[x].pinCache == m0[x].pinCache)
    requires Ranks(m0, rk1) && forall l | l in m0[p].listed :: l in m0 && m0[l].cached && rk1[l] < rk1[p]
    ensures Entering(m0, m, rk, rk1, p, 0)
  {
    hide Mid, KidsOk, ProxiesOk, OwnKids, KeepsExact, Increasing;
  }

  lemma EnteringFacts(m0: Graph, m: Graph, rk: map<Id, nat>, rk1: map<Id, nat>, p: Id, i: nat)
    requires Entering(m0, m, rk, rk1, p, i)
    ensures p in m0 && p in m && i <= |m0[p].listed| && Mid(m, rk, {}, {}, {}, {}) && m[p].cached && Ranks(m, rk1)
    ensures m[p].listed == m0[p].listed && m0[p].proxy && m[p].proxy && !m[p].dirty && m[p].current
    ensures i < |m0[p].listed| ==>
      var l := m0[p].listed[i];
      && l in m0 && l in m && l != p && m[l].cached && l !in m[p].deps && rk1.Keys == m.Keys && rk1[l] < rk1[p]
      && (m[l].prot || Pinned(m[l]) <==> m0[l].prot || Pinned(m0[l]))
    ensures i == |m0[p].listed| ==>
      && KidsOk(m) && ProxiesOk(m, {p}) && OthersStay(m0, m, p) && InPlace(m, p)
      && m[p].deps == m[p].listed == m0[p].listed && m[p].pkids == 0 && !m[p].dirty && m[p].current
      && KeepsExact(m0, {}, m, {}, {})
  {
    hide Mid, KidsOk, ProxiesOk, KeepsExact;
    RanksKeys(m, rk1);
    assert m0[p].listed[..|m0[p].listed|] == m0[p].listed;
    if i < |m0[p].listed| {
      assert m0[p].listed[i] in m0[p].listed;
    }
  }

  lemma OthersChain(a: Graph, b: Graph, c: Graph, p: Id)
    requires OthersStay(a, b, p) && OthersStay(b, c, p)
    ensures OthersStay(a, c, p)
  {
  }

  lemma ProxyStaysProxy(a: Graph, b: Graph, p: Id)
    requires OthersStay(a, b, p) && p in a && p in b && a[p].proxy == b[p].proxy
    ensures forall x | x in a && x in b :: b[x].proxy == a[x].proxy
  {
  }

  lemma EnteringStep(m0: Graph, m: Graph, m': Graph, rk: map<Id, nat>, rk1: map<Id, nat>, p: Id, i: nat)
    requires Entering(m0, m, rk, rk1, p, i)
    requires i < |m0[p].listed| && Attached(m, m', m0[p].listed[i], p) && Mid(m', rk1, {}, {}, {}, {})
    ensures Entering(m0, m', rk1, rk1, p, i + 1)
  {
    hide Mid, KidsOk, ProxiesOk, KeepsExact, OwnKids, Attached, Ranks, OthersStay, EnteringParents, EnteringShape, Increasing;
    EnteringFacts(m0, m, rk, rk1, p, i);
    var l := m0[p].listed[i];
    AttachedToParent(m, m', l, p);
    LinkedRanks(m', rk1);
    ProxyStaysProxy(m0, m, p);
    ExactChain(m0, m, m');
    OthersChain(m0, m, m', p);
    ParentEntered(m0, m, m', rk1, p, i);
    ShapeEntered(m0, m, m', p, i);
  }

  lemma ExactChain(a: Graph, b: Graph, c: Graph)
    requires KeepsExact(a, {}, b, {}, {}) && KeepsExact(b, {}, c, {}, {})
    requires forall x | x in a && x in b :: b[x].proxy == a[x].proxy
    ensures KeepsExact(a, {}, c, {}, {})
  {
    hide Exact;
  }

  lemma SettledIsInPlace(m: Graph, p: Id)
    requires ProxiesOk(m, {}) && p in m && m[p].proxy && m[p].cached
    ensures InPlace(m, p) && ProxiesOk(m, {p})
  {
    hide OwnKids;
  }

  /** No plain entry's flags change; only the entries of xs may move in the graph. */
  ghost predicate SamePlaces(m: Graph, m': Graph, xs: set<Id>) {
    m'.Keys == m.Keys && forall x | x in m ::
      && m'[x].proxy == m[x].proxy
      && (!m[x].proxy ==> m'[x].dirty == m[x].dirty && m'[x].current == m[x].current)
      && (x !in xs ==> m'[x].deps == m[x].deps && m'[x].cached == m[x].cached && m'[x].listed == m[x].listed && m'[x].pkids == m[x].pkids)
  }

  /** Child c is given to proxy p: who may have changed, and who may end up inexact. */
  ghost predicate ChildGiven(m: Graph, m': Graph, p: Id, c: Id) {
    && SamePlaces(m, m', {p, c}) && p in m && c in m
    && p in m'[c].deps && m'[c].cached == m[c].cached
    && m'[p].cached && m'[p].pkids == m[p].pkids + 1 && m'[p].listed == m[p].listed
    && KeepsExact(m, {}, m', {}, {p})
  }

  lemma OthersPlaces(m: Graph, m': Graph, p: Id)
    requires OthersStay(m, m', p) && p in m && p in m' && m[p].proxy && m'[p].proxy
    ensures SamePlaces(m, m', {p})
  {
  }

  lemma PlacesTrans(a: Graph, b: Graph, c: Graph, xs: set<Id>, ys: set<Id>, zs: set<Id>)
    requires SamePlaces(a, b, xs) && SamePlaces(b, c, ys) && xs <= zs && ys <= zs
    ensures SamePlaces(a, c, zs)
  {
  }

  lemma CascadePlaces(m: Graph, m': Graph)
    requires Rises(m, m', {}) || Falls(m, m', {})
    ensures SamePlaces(m, m', {}) && forall x | x in m :: SameShape(m[x], m'[x])
  {
  }

  lemma EdgePlaces(m: Graph, p: Id, c: Id)
    requires p in m && c in m && p != c
    ensures SamePlaces(m, WithEdge(m, p, c), {c})
    ensures m[p].nkids > 0 ==> SamePlaces(m, WithoutEdge(m, p, c), {c})
  {
    hide Without;
  }

  lemma AttachedPlaces(m: Graph, m': Graph, p: Id, c: Id)
    requires Attached(m, m', p, c)
    ensures SamePlaces(m, m', {c})
    ensures m'[c].deps == m[c].deps + [p] && m'[c].cached == m[c].cached && m'[c].listed == m[c].listed && m'[c].pkids == m[c].pkids
  {
    hide KeepsExact, Exact, Rises, SamePlaces;
    EdgePlaces(m, p, c);
    CascadePlaces(WithEdge(m, p, c), m');
    PlacesTrans(m, WithEdge(m, p, c), m', {c}, {}, {c});
  }

  lemma ChildGivenBy(m0: Graph, m: Graph, m': Graph, p: Id, c: Id)
    requires p in m && p in m0 && c in m0 && p in m' && p != c
    requires OthersStay(m0, m, p) && m[p].pkids == m0[p].pkids && m[p].listed == m0[p].listed
    requires m[p].proxy && m0[p].proxy && m[p].cached
    requires KeepsExact(m0, {}, m, {}, {}) && Attached(m, m', p, c)
    ensures ChildGiven(m0, m'[p := m'[p].(pkids := m'[p].pkids + 1)], p, c)
  {
    hide Attached, KeepsExact, OthersStay;
    OthersPlaces(m0, m, p);
    AttachedPlaces(m, m', p, c);
    AttachedExact(m, m', p, c);
    PkidsExact(m', p, m'[p].pkids + 1);
    var m1 := m'[p := m'[p].(pkids := m'[p].pkids + 1)];
    ExactChainBut(m0, m, m', p);
    ExactChainBut(m0, m', m1, p);
  }

  lemma AttachedExact(m: Graph, m': Graph, parent: Id, child: Id)
    requires Attached(m, m', parent, child)
    ensures KeepsExact(m, {}, m', {}, {parent})
    ensures m[parent].proxy && Exact(m, {}, parent) ==> parent in m' && (Exact(m', {}, parent) <==> !Strands(m, parent, child))
    ensures m'[child].dirty == m[child].dirty && m'[child].current == m[child].current
  {
  }

  lemma ExactChainBut(a: Graph, b: Graph, c: Graph, p: Id)
    requires KeepsExact(a, {}, b, {}, {}) || KeepsExact(a, {}, b, {}, {p})
    requires KeepsExact(b, {}, c, {}, {}) || KeepsExact(b, {}, c, {}, {p})
    requires forall x | x in a && x in b :: b[x].proxy == a[x].proxy
    ensures KeepsExact(a, {}, c, {}, {p})
  {
    hide Exact;
  }

  /** A proxy that is clean, or serialized, counts no dirty, or no unserialized, children. */
  lemma QuietProxy(m: Graph, rk: map<Id, nat>, p: Id)
    requires Mid(m, rk, {}, {}, {}, {}) && p in m && m[p].proxy
    ensures (!m[p].dirty <==> m[p].ndirty == 0) && (m[p].current ==> m[p].nunser == 0)
    ensures !m[p].cached ==> m[p].ndirty == 0 && m[p].nunser == 0
  {
    if !m[p].cached {
      UncachedIsAlone(m, rk, p);
    }
  }

  lemma InPlaceFacts(m: Graph, p: Id)
    requires p in m && InPlace(m, p)
    ensures m[p].cached && m[p].proxy && Pinned(m[p])
  {
  }

  lemma SameExact(m: Graph, p: Id, k: nat)
    requires p in m
    ensures Exact(m[p := m[p].(pkids := k)], {}, p) <==> Exact(m, {}, p)
  {
  }

  lemma DetachedPlaces(m: Graph, m': Graph, p: Id, c: Id)
    requires Detached(m, m', p, c)
    ensures SamePlaces(m, m', {c}) && m'.Keys == m.Keys
    ensures SameShape(m[c].(deps := Without(m[c].deps, p)), m'[c])
    ensures SameShape(m[p].(nkids := m[p].nkids - 1, pinCache := m'[p].pinCache), m'[p])
    ensures KeepsExact(m, {}, m', {}, {})
  {
    hide KeepsExact, Exact, Without, Falls, SamePlaces;
    EdgePlaces(m, p, c);
    CascadePlaces(WithoutEdge(m, p, c), m');
    PlacesTrans(m, WithoutEdge(m, p, c), m', {c}, {}, {c});
    PlacesKeys(m, m', {c});
  }

  lemma PlacesKeys(m: Graph, m': Graph, xs: set<Id>)
    requires SamePlaces(m, m', xs)
    ensures m'.Keys == m.Keys
  {
  }

  /** A dependency of child c on p is gone; p or c is a proxy in between. */
  lemma DetachedOwn(m: Graph, m': Graph, p: Id, c: Id, busy: Id)
    requires KidsOk(m) && ProxiesOk(m, {busy}) && Detached(m, m', p, c) && p in m[c].deps && Distinct(m[c].deps)
    requires busy == p || (busy == c && (!m[p].proxy || (m[c].proxy && p in m[c].listed)))
    requires busy == p ==> !m[c].proxy || p !in m[c].listed
    ensures KidsOk(m') && ProxiesOk(m', {busy})
    ensures OwnKids(m', busy) == if busy == p then OwnKids(m, p) - {c} else OwnKids(m, c)
    ensures busy == p ==> c in OwnKids(m, p)
  {
    hide KidsOk, ProxyOk, Exact, OwnKids, EdgeAdded, KeepsExact, Without, Distinct;
    var m1 := WithoutEdge(m, p, c);
    WithoutEdgeKids(m, p, c);
    WithoutEdgeProxies(m, p, c, {busy});
    WithoutEdgeAdds(m, p, c);
    EdgeOwnKids(m1, m, p, c, busy);
    SameShapesKeep(m1, m', {busy});
    SameOwnKids(m1, m', busy);
  }

  /** Proxy p has lost its last own child and is losing its dependencies, the first i of its
      listed parents so far. */
  ghost predicate Leaving(m0: Graph, m: Graph, rk: map<Id, nat>, p: Id, i: nat) {
    && LeavingDeps(m0, m, p, i)
    && Mid(m, rk, {}, {}, {}, {}) && KidsOk(m) && ProxiesOk(m, {p}) && OwnKids(m, p) == {}
    && SamePlaces(m0, m, {p}) && KeepsExact(m0, {}, m, {}, {})
  }

  ghost predicate LeavingDeps(m0: Graph, m: Graph, p: Id, i: nat) {
    && p in m0 && p in m && i <= |m0[p].listed| && Increasing(m0[p].listed)
    && SameShape(m0[p].(deps := m[p].deps), m[p])
    && m0[p].proxy && m0[p].cached && m0[p].pinClient && !m0[p].prot && m0[p].pkids == 0
    && (forall l | l in m0[p].listed :: l in m0[p].deps)
    && Distinct(m[p].deps)
    && (forall q :: q in m[p].deps <==> q in m0[p].deps && q !in m0[p].listed[..i])
  }

  lemma DepsShrink(m0: Graph, m: Graph, m': Graph, p: Id, i: nat)
    requires LeavingDeps(m0, m, p, i) && i < |m0[p].listed| && p in m'
    requires SameShape(m[p].(deps := Without(m[p].deps, m0[p].listed[i])), m'[p])
    ensures LeavingDeps(m0, m', p, i + 1)
  {
    hide Without;
    WithoutMembers(m[p].deps, m0[p].listed[i]);
    WithoutDistinct(m[p].deps, m0[p].listed[i]);
    assert m0[p].listed[..i + 1] == m0[p].listed[..i] + [m0[p].listed[i]];
  }

  lemma NextToLeave(m0: Graph, m: Graph, p: Id, i: nat)
    requires LeavingDeps(m0, m, p, i) && i < |m0[p].listed|
    ensures m0[p].listed[i] in m[p].deps && Distinct(m[p].deps)
  {
    var l := m0[p].listed[i];
    assert l in m0[p].listed;
    assert forall j | 0 <= j < i :: m0[p].listed[..i][j] == m0[p].listed[j] && m0[p].listed[j] < l;
  }

  lemma LeavingFacts(m0: Graph, m: Graph, rk: map<Id, nat>, p: Id, i: nat)
    requires Leaving(m0, m, rk, p, i)
    ensures LeavingDeps(m0, m, p, i) && p in m0 && p in m && m[p].listed == m0[p].listed && i <= |m0[p].listed|
    ensures Mid(m, rk, {}, {}, {}, {}) && KidsOk(m)
    ensures i < |m0[p].listed| ==> var l := m0[p].listed[i]; l in m && l in m[p].deps && l != p && Distinct(m[p].deps)
  {
    hide KidsOk, ProxiesOk, OwnKids, KeepsExact, CountsDirty, CountsUnser, FlagsOk, Increasing;
    if i < |m0[p].listed| {
      NextToLeave(m0, m, p, i);
      MidFacts(m, rk, {}, {}, {}, {}, p);
    }
  }

  lemma LeavingStep(m0: Graph, m: Graph, m': Graph, rk: map<Id, nat>, p: Id, i: nat)
    requires Leaving(m0, m, rk, p, i) && p in m0 && i < |m0[p].listed|
    requires Detached(m, m', m0[p].listed[i], p) && Mid(m', rk, {}, {}, {}, {})
    ensures Leaving(m0, m', rk, p, i + 1)
  {
    hide Mid, KidsOk, ProxiesOk, OwnKids, KeepsExact, Increasing, Detached, LeavingDeps, SamePlaces, Distinct;
    LeavingFacts(m0, m, rk, p, i);
    var l := m0[p].listed[i];
    DetachedPlaces(m, m', l, p);
    PlacesKeys(m, m', {p});
    LeavingIsListed(m0, m, p, i);
    DetachedOwn(m, m', l, p, p);
    DepsShrink(m0, m, m', p, i);
    PlacesTrans(m0, m, m', {p}, {p}, {p});
    PlacesProxies(m0, m, {p});
    ExactChain(m0, m, m');
  }

  lemma LeavingIsListed(m0: Graph, m: Graph, p: Id, i: nat)
    requires LeavingDeps(m0, m, p, i) && i < |m0[p].listed|
    ensures m[p].proxy && m[p].listed == m0[p].listed && m0[p].listed[i] in m[p].listed
  {
  }

  lemma PlacesProxies(m: Graph, m': Graph, xs: set<Id>)
    requires SamePlaces(m, m', xs)
    ensures forall x | x in m && x in m' :: m'[x].proxy == m[x].proxy
  {
  }

  /** What a proxy that has just lost its last own child still has. */
  lemma StartLeaving(m0: Graph, m: Graph, rk: map<Id, nat>, p: Id, c: Id)
    requires ValidGraph(m0, rk) && p in m0 && c in m0 && m0[p].proxy && m0[p].cached && m0[p].pkids == 1
    requires p in m0[c].deps && !(m0[c].proxy && p in m0[c].listed) && Detached(m0, m, p, c) && Mid(m, rk, {}, {}, {}, {})
    ensures var m1 := m[p := m[p].(pkids := 0)]; Leaving(m1, m1, rk, p, 0)
    ensures m[p].nkids == m0[p].nkids - 1 && m[p].deps == m0[p].deps && m[p].listed == m0[p].listed
  {
    hide Mid, KidsOk, Exact, OwnKids, Detached, SamePlaces;
    SettledIsInPlace(m0, p);
    ParentIsHigher(m0, rk, p, c);
    DetachedPlaces(m0, m, p, c);
    PlacesKeys(m0, m, {c});
    DetachedOwn(m0, m, p, c, p);
    LastOwnChild(m0, p, c);
    PkidsMid(m, rk, p, 0);
    PkidsShape(m, p, 0);
    PkidsKids(m, p, 0, p);
    var m1 := m[p := m[p].(pkids := 0)];
    MidFacts(m1, rk, {}, {}, {}, {}, p);
    NoMoves(m1, p);
  }

  lemma NoMoves(m: Graph, p: Id)
    ensures SamePlaces(m, m, {p}) && KeepsExact(m, {}, m, {}, {})
  {
  }

  lemma LastOwnChild(m: Graph, p: Id, c: Id)
    requires ProxiesOk(m, {}) && p in m && m[p].proxy && m[p].pkids == 1 && c in OwnKids(m, p)
    ensures OwnKids(m, p) == {c}
  {
    hide OwnKids;
    assert |OwnKids(m, p)| == 1;
    var rest := OwnKids(m, p) - {c};
    assert |rest| == 0;
  }

  lemma LeavingDone(m0: Graph, m: Graph, rk: map<Id, nat>, p: Id)
    requires p in m0 && Leaving(m0, m, rk, p, |m0[p].listed|)
    ensures p in m && m[p].cached && m[p].pinClient && !m[p].prot && m[p].pkids == 0 && m[p].nkids == |Kids(m, p)|
    ensures m[p].deps == [] <==> forall q | q in m0[p].deps :: q in m0[p].listed
    ensures m[p].pinCache <==> m[p].nkids > 0
    ensures m[p].nkids == 0 ==> !m[p].dirty && m[p].ndirty == 0 && m[p].nunser == 0 && m[p].pdirty == 0 && m[p].punser == 0
    ensures m[p].nkids == 0 && Exact(m, {}, p) ==> m[p].current
  {
    hide Kids;
    assert m0[p].listed[..|m0[p].listed|] == m0[p].listed;
    HasMember(m[p].deps);
    if m[p].nkids == 0 {
      NoKidsNoCounts(m, rk, p);
    }
  }

  lemma NoKidsNoCounts(m: Graph, rk: map<Id, nat>, p: Id)
    requires Mid(m, rk, {}, {}, {}, {}) && p in m && m[p].proxy && |Kids(m, p)| == 0
    ensures DirtyKids(m, {}, p) == {} && UnserKids(m, {}, p) == {} && forall c | c in m :: p !in m[c].deps
    ensures !m[p].dirty && m[p].ndirty == 0 && m[p].nunser == 0 && m[p].pdirty == 0 && m[p].punser == 0
    ensures Exact(m, {}, p) ==> m[p].current
  {
    assert Kids(m, p) == {};
    forall c | c in m ensures p !in m[c].deps {
      assert c !in Kids(m, p);
    }
  }

  /** The proxy, free of everything, is taken out of the cache. */
  lemma TakenOut(m: Graph, rk: map<Id, nat>, p: Id)
    requires Mid(m, rk, {}, {}, {}, {}) && KidsOk(m) && ProxiesOk(m, {p}) && p in m && m[p].proxy && m[p].pkids == 0
    requires m[p].deps == [] && m[p].nkids == 0 && !m[p].pinCache && !m[p].prot && OwnKids(m, p) == {} && Increasing(m[p].listed)
    ensures ValidGraph(m[p := m[p].(pinClient := false, cached := false)], rk)
    ensures KeepsExact(m, {}, m[p := m[p].(pinClient := false, cached := false)], {}, {})
  {
    hide ProxyOk, DirtyKids, UnserKids, OwnKids, Linked, Exact, Increasing;
    var m' := m[p := m[p].(pinClient := false, cached := false)];
    assert |Kids(m, p)| == 0;
    NoKidsNoCounts(m, rk, p);
    LoneMid(m, m', rk, p, {});
    LoneProxies(m, m', p);
    LoneKids(m, m', p, p);
    LoneProxyOk(m', p);
    LoneExactToo(m, m', p);
  }

  lemma LoneProxyOk(m: Graph, p: Id)
    requires p in m && !m[p].cached && !m[p].pinClient && !m[p].prot && m[p].pkids == 0 && OwnKids(m, p) == {} && Increasing(m[p].listed)
    ensures ProxyOk(m, p)
  {
  }

  lemma LoneExactToo(m: Graph, m': Graph, p: Id)
    requires LoneChange(m, m', p) && m'[p].current == m[p].current
    ensures KeepsExact(m, {}, m', {}, {})
  {
  }

  /** Child c is taken from proxy p. */
  ghost predicate ChildTaken(m: Graph, m': Graph, p: Id, c: Id) {
    && SamePlaces(m, m', {p, c}) && p in m && c in m
    && p !in m'[c].deps && m'[c].cached == m[c].cached && m'[c].listed == m[c].listed
    && m'[p].pkids == m[p].pkids - 1 && m'[p].listed == m[p].listed && (m'[p].cached <==> m[p].pkids > 1)
    && KeepsExact(m, {}, m', {}, {})
  }

  /** A proxy that has lost an own child, and has others. */
  lemma ChildRemaining(m0: Graph, m: Graph, rk: map<Id, nat>, p: Id, c: Id)
    requires ValidGraph(m0, rk) && p in m0 && c in m0 && m0[p].proxy && m0[p].cached && m0[p].pkids > 1
    requires p in m0[c].deps && !(m0[c].proxy && p in m0[c].listed) && Detached(m0, m, p, c) && Mid(m, rk, {}, {}, {}, {})
    ensures p in m && ValidGraph(m[p := m[p].(pkids := m0[p].pkids - 1)], rk)
  {
    hide Mid, KidsOk, Exact, OwnKids, Detached, SamePlaces, Increasing;
    SettledIsInPlace(m0, p);
    ParentIsHigher(m0, rk, p, c);
    DetachedPlaces(m0, m, p, c);
    PlacesKeys(m0, m, {c});
    DetachedOwn(m0, m, p, c, p);
    PkidsMid(m, rk, p, m0[p].pkids - 1);
    PkidsShape(m, p, m0[p].pkids - 1);
    PkidsKids(m, p, m0[p].pkids - 1, p);
  }

  lemma PkidsPlaces(m: Graph, p: Id, k: nat)
    requires p in m
    ensures SamePlaces(m, m[p := m[p].(pkids := k)], {p})
  {
  }

  lemma RemovedPlaces(m: Graph, p: Id)
    requires p in m && m[p].proxy
    ensures SamePlaces(m, m[p := m[p].(pinClient := false, cached := false)], {p})
  {
  }

  lemma LeavingPlaces(m0: Graph, m: Graph, rk: map<Id, nat>, p: Id, i: nat)
    requires Leaving(m0, m, rk, p, i)
    ensures p in m0 && p in m && m[p].nkids == m0[p].nkids && m[p].proxy
    ensures SamePlaces(m0, m, {p}) && KeepsExact(m0, {}, m, {}, {}) && ProxiesOk(m, {p}) && OwnKids(m, p) == {} && Increasing(m[p].listed)
  {
  }

  /** The steps by which p lost its child c, put together. */
  lemma TakenBy(m0: Graph, m1: Graph, m2: Graph, p: Id, c: Id, k: nat)
    requires p in m0 && c in m0 && Detached(m0, m1, p, c) && p in m0[c].deps && Distinct(m0[c].deps) && m0[p].proxy && p in m1 && k == m0[p].pkids - 1
    requires var m := m1[p := m1[p].(pkids := k)];
      && SamePlaces(m, m2, {p}) && KeepsExact(m, {}, m2, {}, {})
    requires p in m2 && m2[p].pkids == k && m2[p].listed == m0[p].listed && (m2[p].cached <==> m0[p].pkids > 1)
    ensures ChildTaken(m0, m2, p, c)
  {
    hide KeepsExact, Detached, SamePlaces, Distinct, Without;
    var m := m1[p := m1[p].(pkids := k)];
    DetachedPlaces(m0, m1, p, c);
    PkidsPlaces(m1, p, k);
    PkidsExact(m1, p, k);
    PlacesTrans(m0, m1, m, {c}, {p}, {p, c});
    PlacesTrans(m0, m, m2, {p, c}, {p}, {p, c});
    PlacesProxies(m0, m, {p, c});
    ExactChain(m0, m1, m);
    ExactChain(m0, m, m2);
    WithoutMembers(m0[c].deps, p);
    PlacesAt(m, m2, {p}, c);
  }

  lemma PlacesAt(m: Graph, m': Graph, xs: set<Id>, x: Id)
    requires SamePlaces(m, m', xs) && x in m
    ensures x in m' && m'[x].proxy == m[x].proxy
    ensures x !in xs ==> m'[x].deps == m[x].deps && m'[x].cached == m[x].cached && m'[x].listed == m[x].listed && m'[x].pkids == m[x].pkids
  {
  }

  lemma KeepsExactAt(m: Graph, m': Graph, p: Id)
    requires KeepsExact(m, {}, m', {}, {}) && p in m && m[p].proxy
    ensures p in m' && (Exact(m, {}, p) ==> Exact(m', {}, p))
  {
  }

  // ---------------------------------------------- the list of parents changes

  function Listing(m: Graph, p: Id, list: seq<Id>): Graph
    requires p in m
  {
    m[p := m[p].(listed := list)]
  }

  lemma ListingKids(m: Graph, p: Id, list: seq<Id>, q: Id)
    requires p in m
    ensures var m' := Listing(m, p, list);
      && Kids(m', q) == Kids(m, q) && SameDirtyEdges(m, m') && SameUnserEdges(m, m')
      && (q !in m[p].deps || (q in list <==> q in m[p].listed) ==> OwnKids(m', q) == OwnKids(m, q))
  {
  }

  lemma ListingMid(m: Graph, rk: map<Id, nat>, p: Id, list: seq<Id>)
    requires p in m && Mid(m, rk, {}, {}, {}, {}) && KidsOk(m)
    ensures Mid(Listing(m, p, list), rk, {}, {}, {}, {}) && KidsOk(Listing(m, p, list))
  {
    hide CountsDirty, CountsUnser, Distinct, Kids;
    var m' := Listing(m, p, list);
    forall q | q in m ensures Kids(m', q) == Kids(m, q) {
      ListingKids(m, p, list, q);
    }
    ListingKids(m, p, list, p);
    SameDirtyCounts(m, m', {});
    SameUnserCounts(m, m', {});
  }

  lemma ListingExact(m: Graph, p: Id, list: seq<Id>)
    requires p in m && m[p].proxy
    ensures KeepsExact(m, {}, Listing(m, p, list), {}, {})
  {
  }

  lemma ListingProxies(m: Graph, p: Id, list: seq<Id>)
    requires p in m && m[p].proxy && ProxiesOk(m, {p})
    requires forall q | q in m[p].deps :: q in list <==> q in m[p].listed
    ensures ProxiesOk(Listing(m, p, list), {p}) && OwnKids(Listing(m, p, list), p) == OwnKids(m, p)
  {
    hide ProxyOk, OwnKids;
    var m' := Listing(m, p, list);
    ListingKids(m, p, list, p);
    forall q | q in m && m[q].proxy && q != p ensures ProxyOk(m', q) {
      ListingKids(m, p, list, q);
      EdgeProxy(m, m', p, p, q);
    }
  }

  /** The parts of a settled proxy, when its list of parents has changed. */
  lemma SettledAgain(m: Graph, rk: map<Id, nat>, p: Id)
    requires Mid(m, rk, {}, {}, {}, {}) && KidsOk(m) && ProxiesOk(m, {p}) && p in m && m[p].proxy
    requires m[p].pinClient == m[p].cached && !m[p].prot && m[p].pkids == |OwnKids(m, p)| && (m[p].cached <==> m[p].pkids > 0)
    requires Increasing(m[p].listed) && (m[p].cached ==> forall l | l in m[p].listed :: l in m[p].deps)
    ensures ValidGraph(m, rk)
  {
    hide Mid, KidsOk, OwnKids, Increasing;
  }

  lemma ListingSameExact(m: Graph, p: Id, list: seq<Id>, l: Id)
    requires p in m && l in m
    ensures Exact(Listing(m, p, list), {}, l) <==> Exact(m, {}, l)
    ensures Strands(Listing(m, p, list), l, p) <==> Strands(m, l, p)
  {
    var m' := Listing(m, p, list);
    assert forall c | c in m :: m'[c].deps == m[c].deps && m'[c].current == m[c].current;
  }

  lemma ListMembers(list: seq<Id>, l: Id)
    requires Increasing(list)
    ensures forall q :: q in Inserted(list, l) <==> q in list || q == l
    ensures forall q :: q in AddressLists.Removed(list, l) <==> q in list && q != l
  {
    hide Increasing, Inserted, AddressLists.Removed;
    ElementsMembers(list);
    ElementsMembers(Inserted(list, l));
    ElementsMembers(AddressLists.Removed(list, l));
  }

  lemma ElementsMembers(list: seq<Id>)
    ensures forall q :: q in Elements(list) <==> q in list
  {
  }

  /** Proxy p, in the cache, has been told of parent l. */
  lemma ParentAdded(m: Graph, m': Graph, rk: map<Id, nat>, p: Id, l: Id)
    requires p in m && l in m && KidsOk(m) && ProxiesOk(m, {p}) && Attached(m, m', l, p) && Mid(m', rk, {}, {}, {}, {})
    requires m[p].proxy && l in m[p].listed && l !in m[p].deps && m[p].cached && m[p].pinClient && !m[p].prot && m[p].pkids > 0
    requires m[p].pkids == |OwnKids(m, p)| && Increasing(m[p].listed) && forall q | q in m[p].listed && q != l :: q in m[p].deps
    ensures ValidGraph(m', rk) && l in m'[p].deps && m'[p].listed == m[p].listed && m'[p].cached && m'[p].pkids == m[p].pkids
  {
    hide Mid, KidsOk, OwnKids, Increasing, ProxiesOk, KeepsExact, Attached;
    AttachedToParent(m, m', l, p);
    SettledAgain(m', rk, p);
  }

  /** Proxy p, in the cache, has given up its listed parent l: first the list entry goes, then
      the dependency. */
  lemma ParentRemoved(m0: Graph, m': Graph, rk: map<Id, nat>, p: Id, l: Id, list: seq<Id>)
    requires ValidGraph(m0, rk) && p in m0 && m0[p].proxy && m0[p].cached && l in m0[p].listed && l in m0[p].deps
    requires Increasing(list) && (forall q :: q in list <==> q in m0[p].listed && q != l) && m0[p].pkids > 0
    requires Detached(Listing(m0, p, list), m', l, p) && Mid(m', rk, {}, {}, {}, {})
    ensures ValidGraph(m', rk)
    ensures p in m' && l !in m'[p].deps && m'[p].listed == list && m'[p].cached && m'[p].pkids == m0[p].pkids
  {
    hide Mid, OwnKids, KeepsExact, Exact, Falls, Distinct, Increasing, KidsOk, ProxiesOk, Without;
    ParentIsHigher(m0, rk, l, p);
    SettledIsInPlace(m0, p);
    WithoutMembers(m0[p].deps, l);
    var m2 := Listing(WithoutEdge(m0, l, p), p, list);
    ParentUnlinked(m0, rk, p, l, list);
    ListingCommutes(m0, p, l, list);
    FallsShapes(m2, m');
    SameShapesKeep(m2, m', {p});
    SameOwnKids(m2, m', p);
    SettledAgain(m', rk, p);
  }

  lemma ListingCommutes(m: Graph, p: Id, l: Id, list: seq<Id>)
    requires p in m && l in m && l != p && m[l].nkids > 0
    ensures Listing(WithoutEdge(m, l, p), p, list) == WithoutEdge(Listing(m, p, list), l, p)
  {
    hide Without;
  }

  lemma ParentUnlinked(m0: Graph, rk: map<Id, nat>, p: Id, l: Id, list: seq<Id>)
    requires ValidGraph(m0, rk) && p in m0 && m0[p].proxy && m0[p].cached && l in m0[p].listed && l in m0[p].deps
    requires l in m0 && l != p && m0[l].nkids > 0 && Distinct(m0[p].deps)
    requires forall q :: q in list <==> q in m0[p].listed && q != l
    ensures var m2 := Listing(WithoutEdge(m0, l, p), p, list);
      KidsOk(m2) && ProxiesOk(m2, {p}) && OwnKids(m2, p) == OwnKids(m0, p)
  {
    hide Mid, OwnKids, KidsOk, Without, Distinct;
    SettledIsInPlace(m0, p);
    var m1 := WithoutEdge(m0, l, p);
    WithoutMembers(m0[p].deps, l);
    WithoutEdgeProxies(m0, l, p, {p});
    WithoutEdgeKids(m0, l, p);
    WithoutEdgeAdds(m0, l, p);
    EdgeOwnKids(m1, m0, l, p, p);
    ListingProxies(m1, p, list);
    ListingMidKids(m1, p, list);
  }

  lemma FallsShapes(m: Graph, m': Graph)
    requires Falls(m, m', {})
    ensures SameShapes(m, m')
  {
  }

  lemma ListingMidKids(m: Graph, p: Id, list: seq<Id>)
    requires p in m && KidsOk(m)
    ensures KidsOk(Listing(m, p, list))
  {
    hide Kids;
    forall q | q in m ensures Kids(Listing(m, p, list), q) == Kids(m, q) {
      ListingKids(m, p, list, q);
    }
  }

  lemma ListingPlaces(m: Graph, p: Id, list: seq<Id>)
    requires p in m && m[p].proxy
    ensures SamePlaces(m, Listing(m, p, list), {p})
  {
  }

  /** The list of parents of p and its dependencies change from m to m'. */
  ghost predicate ParentsChanged(m: Graph, m': Graph, p: Id, list: seq<Id>, xs: set<Id>) {
    && SamePlaces(m, m', {p}) && p in m' && p in m
    && m'[p].listed == list && m'[p].cached == m[p].cached && m'[p].pkids == m[p].pkids
    && KeepsExact(m, {}, m', {}, xs)
  }

  lemma ParentsChangedBy(m: Graph, m1: Graph, m': Graph, p: Id, list: seq<Id>, xs: set<Id>)
    requires p in m && m[p].proxy && m1 == Listing(m, p, list) && SamePlaces(m1, m', {p}) && KeepsExact(m1, {}, m', {}, xs)
    requires p in m' && m'[p].listed == list && m'[p].cached == m[p].cached && m'[p].pkids == m[p].pkids
    ensures ParentsChanged(m, m', p, list, xs)
  {
    hide Exact;
    ListingPlaces(m, p, list);
    ListingExact(m, p, list);
    PlacesTrans(m, m1, m', {p}, {p}, {p});
  }

  lemma ProxiesMinus(m: Graph, p: Id)
    requires ProxiesOk(m, {})
    ensures ProxiesOk(m, {p})
  {
    hide ProxyOk;
  }

  lemma ListingRanks(m: Graph, p: Id, list: seq<Id>, rk: map<Id, nat>)
    requires p in m && Ranks(m, rk)
    ensures Ranks(Listing(m, p, list), rk) && rk.Keys == m.Keys
  {
  }

  // ------------------------------------------------------- plain entries

  /** A plain entry's flags went up or down, and everything above followed. */
  lemma CascadeIsValid(m: Graph, m': Graph, rk: map<Id, nat>, k: nat, e: Id)
    requires ValidGraph(m, rk) && Mid(m', rk, {}, {}, {}, {}) && e in m && !m[e].proxy
    requires Up(m, {}, m', {}, rk, k, {e}) || Down(m, {}, m', {}, rk, k, {e})
    ensures ValidGraph(m', rk) && KeepsExact(m, {}, m', {}, {})
  {
    hide Mid, KidsOk, ProxiesOk, Exact, KeepsExact;
    SameShapesKeep(m, m', {});
    ExactMore(m, {}, m', {}, e);
  }

  lemma ProtMid(m: Graph, rk: map<Id, nat>, e: Id, b: bool, k: bool)
    requires Mid(m, rk, {}, {}, {}, {}) && e in m
    ensures Mid(m[e := m[e].(prot := b, marked := k)], rk, {}, {}, {}, {})
  {
    hide CountsDirty, CountsUnser, Distinct;
    SameDirtyCounts(m, m[e := m[e].(prot := b, marked := k)], {});
    SameUnserCounts(m, m[e := m[e].(prot := b, marked := k)], {});
  }

  lemma ProtOnly(m: Graph, rk: map<Id, nat>, e: Id, b: bool, k: bool)
    requires ValidGraph(m, rk) && e in m && !m[e].proxy
    ensures ValidGraph(m[e := m[e].(prot := b, marked := k)], rk) && KeepsExact(m, {}, m[e := m[e].(prot := b, marked := k)], {}, {})
  {
    hide Mid, Kids, ProxyOk;
    var m' := m[e := m[e].(prot := b, marked := k)];
    ProtMid(m, rk, e, b, k);
    forall q | q in m ensures Kids(m', q) == Kids(m, q) && (m[q].proxy && ProxyOk(m, q) ==> ProxyOk(m', q)) {
      ProtKids(m, e, b, k, q);
    }
  }

  lemma ProtKids(m: Graph, e: Id, b: bool, k: bool, q: Id)
    requires e in m && q in m && !m[e].proxy
    ensures var m' := m[e := m[e].(prot := b, marked := k)];
      Kids(m', q) == Kids(m, q) && (m[q].proxy && ProxyOk(m, q) ==> ProxyOk(m', q))
  {
    hide Increasing;
    assert OwnKids(m[e := m[e].(prot := b, marked := k)], q) == OwnKids(m, q);
  }

  /** A new object without dependencies: an entry of a client, or a proxy not yet cached. */
  function Newcomer(proxy: bool, pin: bool): Entry {
    Entry(!proxy, !proxy, false, false, false, pin && !proxy, false, [], 0, 0, 0, proxy, [], 0, 0, 0)
  }

  lemma NewcomerKids(m: Graph, rk: map<Id, nat>, e: Id, v: Entry, q: Id)
    requires Linked(m, rk) && e !in m && v.deps == []
    ensures var m' := m[e := v];
      && Kids(m', q) == Kids(m, q) && OwnKids(m', q) == OwnKids(m, q)
      && DirtyKids(m', {}, q) == DirtyKids(m, {}, q) && UnserKids(m', {}, q) == UnserKids(m, {}, q)
      && (q == e ==> Kids(m, q) == {} && OwnKids(m, q) == {} && DirtyKids(m, {}, q) == {} && UnserKids(m, {}, q) == {})
  {
  }

  lemma NewcomerMid(m: Graph, rk: map<Id, nat>, e: Id, v: Entry, r: nat)
    requires Mid(m, rk, {}, {}, {}, {}) && KidsOk(m) && e !in m
    requires v == Newcomer(v.proxy, v.pinClient)
    ensures Mid(m[e := v], rk[e := r], {}, {}, {}, {}) && KidsOk(m[e := v])
  {
    hide Kids, DirtyKids, UnserKids, OwnKids;
    var m' := m[e := v];
    forall q | q in m'
      ensures Kids(m', q) == Kids(m, q) && DirtyKids(m', {}, q) == DirtyKids(m, {}, q) && UnserKids(m', {}, q) == UnserKids(m, {}, q)
      ensures q == e ==> Kids(m, q) == {} && DirtyKids(m, {}, q) == {} && UnserKids(m, {}, q) == {}
    {
      NewcomerKids(m, rk, e, v, q);
    }
  }

  lemma NewcomerIsValid(m: Graph, rk: map<Id, nat>, e: Id, v: Entry, r: nat)
    requires ValidGraph(m, rk) && e !in m
    requires v == Newcomer(v.proxy, v.pinClient)
    ensures ValidGraph(m[e := v], rk[e := r])
  {
    hide Mid, KidsOk, ProxyOk;
    var m' := m[e := v];
    NewcomerMid(m, rk, e, v, r);
    MidLinked(m, rk, {}, {}, {}, {});
    forall q | q in m' && m'[q].proxy ensures ProxyOk(m', q) {
      NewcomerKids(m, rk, e, v, q);
      NewcomerProxy(m, e, v, q);
    }
  }

  lemma NewcomerProxy(m: Graph, e: Id, v: Entry, q: Id)
    requires e !in m && q in m[e := v] && OwnKids(m[e := v], q) == OwnKids(m, q)
    requires if q in m then ProxyOk(m, q) else v == Newcomer(true, false) && OwnKids(m, q) == {}
    ensures ProxyOk(m[e := v], q)
  {
  }

  lemma SameDirtyAt(m: Graph, m': Graph, e: Id)
    requires SameDirtyEdges(m, m') && e in m
    ensures e in m' && m'[e].dirty == m[e].dirty
  {
  }

  lemma NothingBelow(rk: map<Id, nat>, e: Id, ps: seq<Id>)
    requires e in rk
    ensures Below(rk, {}, e) && AtOrBelow(rk, {}, e) && AtOrBelow(rk, {} + Owed(e, ps), e)
  {
  }

  lemma UpIsRise(m: Graph, m': Graph, rk: map<Id, nat>, k: nat, xs: set<Id>)
    requires Up(m, {}, m', {}, rk, k, xs)
    ensures Rises(m, m', xs)
  {
  }

  /** Everything but e's protection is as in m', which has risen from m. */
  ghost predicate RisesReleased(m: Graph, m': Graph, e: Id) {
    e in m' && Rises(m, m'[e := m'[e].(prot := true)], {e})
  }

  lemma Releasing(m: Graph, m': Graph, e: Id)
    requires Rises(m, m', {e}) && e in m && m[e].prot && KeepsExact(m, {}, m', {}, {})
    requires e in m' && KeepsExact(m', {}, m'[e := m'[e].(prot := false)], {}, {})
    ensures RisesReleased(m, m'[e := m'[e].(prot := false)], e)
    ensures KeepsExact(m, {}, m'[e := m'[e].(prot := false)], {}, {})
  {
    hide KeepsExact, Rises;
    RisesFacts(m, m', e);
    assert m'[e].(prot := false).(prot := true) == m'[e];
    assert m'[e := m'[e].(prot := false)][e := m'[e]] == m';
    ExactChain(m, m', m'[e := m'[e].(prot := false)]);
  }

  lemma RisesSame(m: Graph, m': Graph, e: Id)
    requires Rises(m, m', {e}) && e in m
    ensures m'.Keys == m.Keys && m'[e].deps == m[e].deps
  {
  }

  lemma RisesFacts(m: Graph, m': Graph, e: Id)
    requires Rises(m, m', {e}) && e in m && m[e].prot
    ensures e in m' && m'[e].prot && forall x | x in m && x in m' :: m'[x].proxy == m[x].proxy
  {
  }

  /** A protected entry that is marked dirty only has that noted. */
  function Noted(m: Graph, e: Id): Graph
    requires e in m
  {
    if m[e].prot then m[e := m[e].(marked := true)] else m
  }

  lemma NotedIsValid(m: Graph, rk: map<Id, nat>, e: Id)
    requires ValidGraph(m, rk) && e in m && !m[e].proxy
    ensures ValidGraph(Noted(m, e), rk) && KeepsExact(m, {}, Noted(m, e), {}, {})
  {
    hide ValidGraph, Exact;
    if m[e].prot {
      ProtOnly(m, rk, e, true, true);
      assert m[e].(prot := true, marked := true) == m[e].(marked := true);
    }
  }

  /** A dependency on a plain parent has come or gone; proxies keep their own children. */
  lemma PlainEdgeIsValid(m: Graph, m': Graph, rk: map<Id, nat>, parent: Id, child: Id)
    requires KidsOk(m) && ProxiesOk(m, {}) && Mid(m', rk, {}, {}, {}, {}) && parent in m && child in m && !m[parent].proxy
    requires if parent !in m[child].deps then Attached(m, m', parent, child)
             else Detached(m, m', parent, child) && Distinct(m[child].deps) && !(m[child].proxy && parent in m[child].listed)
    ensures ValidGraph(m', rk)
  {
    hide KidsOk, ProxiesOk, Mid, KeepsExact, Exact;
    if parent !in m[child].deps {
      WithEdgeKids(m, parent, child);
      WithEdgeProxies(m, parent, child, {});
      SameShapesKeep(WithEdge(m, parent, child), m', {});
    } else {
      WithoutEdgeKids(m, parent, child);
      WithoutEdgeProxies(m, parent, child, {});
      SameShapesKeep(WithoutEdge(m, parent, child), m', {});
    }
  }

  lemma CountedByParents(m: Graph, rk: map<Id, nat>, e: Id)
    requires ValidGraph(m, rk) && e in m && m[e].dirty
    ensures forall p | p in m[e].deps :: p in m && m[p].ndirty == |DirtyKids(m, {}, p)| && e in DirtyKids(m, {}, p)
  {
    hide KidsOk, ProxiesOk, CountsUnser;
  }

  lemma RisesItself(m: Graph, xs: set<Id>)
    ensures Rises(m, m, xs) && KeepsExact(m, {}, m, {}, {})
  {
  }

  /** A proxy that something depends on is pinned by its client, so marking it cannot fail. */
  lemma ParentPinned(m: Graph, rk: map<Id, nat>, l: Id, p: Id)
    requires Mid(m, rk, {}, {}, {}, {}) && ProxiesOk(m, {p}) && p in m && l in m && l in m[p].deps
    ensures l != p && (m[l].proxy ==> m[l].pinClient)
  {
    assert rk[l] < rk[p];
    assert m[l].proxy ==> ProxyOk(m, l);
  }

  lemma WithEdgeFacts(m: Graph, parent: Id, child: Id)
    requires parent in m && child in m && parent != child
    ensures var m' := WithEdge(m, parent, child);
      && m'.Keys == m.Keys && parent in m'[child].deps && Pinned(m'[parent])
      && m'[child].dirty == m[child].dirty && m'[child].current == m[child].current
  {
  }
}
