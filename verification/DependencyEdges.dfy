/** Flush dependencies come and go: what an edge more or less does to the counters. */
module DependencyEdges {
  import opened FlushDeps

  // ------------------------------------------------------ edges come and go

  /** Children counts are right, and the cache pins exactly the entries with children. */
  ghost predicate KidsOk(m: Graph) {
    forall p | p in m :: m[p].nkids == |Kids(m, p)| && (m[p].pinCache <==> m[p].nkids > 0)
  }

  /** Every dependency goes down in the ranking rk. */
  ghost predicate Ranks(m: Graph, rk: map<Id, nat>) {
    rk.Keys == m.Keys && forall c, p | c in m && p in m[c].deps :: p in m && rk[p] < rk[c]
  }

  function WithEdge(m: Graph, parent: Id, child: Id): Graph
    requires parent in m && child in m && parent != child
  {
    m[parent := m[parent].(pinCache := true, nkids := m[parent].nkids + 1)]
     [child := m[child].(deps := m[child].deps + [parent])]
  }

  function Without(s: seq<Id>, x: Id): (r: seq<Id>)
    ensures forall y :: y in r ==> y in s
  {
    if s == [] then [] else if s[0] == x then s[1..] else [s[0]] + Without(s[1..], x)
  }

  lemma {:induction false} WithoutMembers(s: seq<Id>, x: Id)
    requires Distinct(s)
    ensures x !in Without(s, x)
    ensures forall y | y != x :: y in Without(s, x) <==> y in s
  {
    if s != [] {
      assert Distinct(s[1..]);
      WithoutMembers(s[1..], x);
      assert s == [s[0]] + s[1..];
      assert forall y | y in s[1..] :: y != s[0];
    }
  }

  lemma {:induction false} WithoutDistinct(s: seq<Id>, x: Id)
    requires Distinct(s)
    ensures Distinct(Without(s, x))
  {
    if s != [] {
      assert Distinct(s[1..]);
      WithoutDistinct(s[1..], x);
      WithoutMembers(s[1..], x);
      assert forall y | y in s[1..] :: y != s[0];
      var r := Without(s[1..], x);
      assert forall i | 0 <= i < |r| :: r[i] in r && r[i] != s[0];
    }
  }

  function WithoutEdge(m: Graph, parent: Id, child: Id): Graph
    requires parent in m && child in m && parent != child && m[parent].nkids > 0
  {
    m[child := m[child].(deps := Without(m[child].deps, parent))]
     [parent := m[parent].(nkids := m[parent].nkids - 1,
                           pinCache := if m[parent].nkids == 1 then false else m[parent].pinCache)]
  }

  function OneIf(b: bool, c: Id, p: Id): set<(Id, Id)> {
    if b then {(c, p)} else {}
  }

  /** m' has one more edge than m, or one less: who depends on whom, and what q counts. */
  ghost predicate EdgeAdded(m: Graph, m': Graph, parent: Id, child: Id) {
    && m'.Keys == m.Keys && child in m && parent !in m[child].deps
    && (forall c | c in m :: m'[c].dirty == m[c].dirty && m'[c].current == m[c].current)
    && (forall c, q | c in m :: q in m'[c].deps <==> q in m[c].deps || (c == child && q == parent))
  }

  lemma EdgeKids(m: Graph, m': Graph, parent: Id, child: Id, q: Id)
    requires EdgeAdded(m, m', parent, child)
    ensures Kids(m', q) == if q == parent then Kids(m, q) + {child} else Kids(m, q)
    ensures child !in Kids(m, parent)
  {
  }

  lemma EdgeDirtyKids(m: Graph, m': Graph, parent: Id, child: Id, q: Id)
    requires EdgeAdded(m, m', parent, child)
    ensures DirtyKids(m', OneIf(m[child].dirty, child, parent), q) == DirtyKids(m, {}, q)
    ensures DirtyKids(m, OneIf(m[child].dirty, child, parent), q) == DirtyKids(m', {}, q)
  {
  }

  lemma EdgeUnserKids(m: Graph, m': Graph, parent: Id, child: Id, q: Id)
    requires EdgeAdded(m, m', parent, child)
    ensures UnserKids(m', OneIf(!m[child].current, child, parent), q) == UnserKids(m, {}, q)
    ensures UnserKids(m, OneIf(!m[child].current, child, parent), q) == UnserKids(m', {}, q)
  {
  }

  lemma WithEdgeAdds(m: Graph, parent: Id, child: Id)
    requires parent in m && child in m && parent != child && parent !in m[child].deps
    ensures EdgeAdded(m, WithEdge(m, parent, child), parent, child)
  {
  }

  lemma WithoutEdgeAdds(m: Graph, parent: Id, child: Id)
    requires parent in m && child in m && parent != child && parent in m[child].deps && Distinct(m[child].deps)
    requires m[parent].nkids > 0
    ensures EdgeAdded(WithoutEdge(m, parent, child), m, parent, child)
  {
    hide Without, Distinct;
    WithoutMembers(m[child].deps, parent);
  }

  lemma RanksKeys(m: Graph, rk: map<Id, nat>)
    requires Ranks(m, rk)
    ensures rk.Keys == m.Keys
  {
  }

  lemma OneStale(rk: map<Id, nat>, child: Id, parent: Id)
    requires parent in rk && child in rk && rk[parent] < rk[child]
    ensures OneIf(true, child, parent) == {} + {(child, parent)} == {(child, parent)} && OneIf(false, child, parent) == {}
    ensures Below(rk, {}, parent) && Below(rk, {(child, parent)}, parent)
  {
  }

  lemma WithEdgeKids(m: Graph, parent: Id, child: Id)
    requires KidsOk(m) && parent in m && child in m && parent != child && parent !in m[child].deps
    ensures KidsOk(WithEdge(m, parent, child))
  {
    hide Kids, EdgeAdded;
    var m' := WithEdge(m, parent, child);
    WithEdgeAdds(m, parent, child);
    forall q | q in m ensures m'[q].nkids == |Kids(m', q)| && (m'[q].pinCache <==> m'[q].nkids > 0) {
      EdgeKids(m, m', parent, child, q);
    }
  }

  lemma WithoutEdgeKids(m: Graph, parent: Id, child: Id)
    requires KidsOk(m) && parent in m && child in m && parent != child && parent in m[child].deps && Distinct(m[child].deps)
    ensures m[parent].nkids > 0 && KidsOk(WithoutEdge(m, parent, child))
  {
    assert child in Kids(m, parent);
    var m' := WithoutEdge(m, parent, child);
    WithoutEdgeCounts(m, parent, child, m');
  }

  lemma WithoutEdgeCounts(m: Graph, parent: Id, child: Id, m': Graph)
    requires KidsOk(m) && parent in m && child in m && parent != child && parent in m[child].deps && Distinct(m[child].deps)
    requires m[parent].nkids > 0 && m' == WithoutEdge(m, parent, child)
    ensures KidsOk(m')
  {
    hide Kids, EdgeAdded, Without, Distinct;
    WithoutEdgeAdds(m, parent, child);
    forall q | q in m' ensures m'[q].nkids == |Kids(m', q)| && (m'[q].pinCache <==> m'[q].nkids > 0) {
      EdgeKids(m', m, parent, child, q);
    }
  }

  lemma AppendDistinct(s: seq<Id>, x: Id)
    requires Distinct(s) && x !in s
    ensures Distinct(s + [x])
  {
  }

  lemma WithEdgeLinked(m: Graph, rk: map<Id, nat>, parent: Id, child: Id, rk1: map<Id, nat>)
    requires Linked(m, rk) && parent in m && child in m && parent != child && parent !in m[child].deps
    requires m[parent].cached && m[child].cached && Ranks(m, rk1) && rk1[parent] < rk1[child]
    ensures Linked(WithEdge(m, parent, child), rk1)
  {
    hide Distinct, EdgeAdded;
    var m' := WithEdge(m, parent, child);
    AppendDistinct(m[child].deps, parent);
    WithEdgeAdds(m, parent, child);
    forall c, p | c in m' && p in m'[c].deps ensures p in m && rk1[p] < rk1[c] && m'[p].cached && m'[p].pinCache && m'[c].cached {
      EdgeAddedConverse(m, m', parent, child, c, p);
    }
  }

  lemma EdgeAddedConverse(m: Graph, m': Graph, parent: Id, child: Id, c: Id, q: Id)
    requires EdgeAdded(m, m', parent, child) && c in m && q in m'[c].deps
    ensures q in m[c].deps || (c == child && q == parent)
  {
  }

  ghost predicate SameCounters(m: Graph, m': Graph) {
    m'.Keys == m.Keys && forall x | x in m ::
      && m'[x].ndirty == m[x].ndirty && m'[x].nunser == m[x].nunser && m'[x].proxy == m[x].proxy
      && m'[x].pdirty == m[x].pdirty && m'[x].punser == m[x].punser
      && m'[x].dirty == m[x].dirty && m'[x].current == m[x].current
  }

  lemma CountersStay(m: Graph, m': Graph, d: set<(Id, Id)>, u: set<(Id, Id)>)
    requires CountsDirty(m, {}) && CountsUnser(m, {}) && FlagsOk(m, {}, {}) && SameCounters(m, m')
    requires forall q | q in m :: DirtyKids(m', d, q) == DirtyKids(m, {}, q) && UnserKids(m', u, q) == UnserKids(m, {}, q)
    ensures CountsDirty(m', d) && CountsUnser(m', u) && FlagsOk(m', {}, {})
  {
    hide DirtyKids, UnserKids;
  }

  /** A new edge to a dirty or unserialized child is stale until the parent is told. */
  lemma WithEdgeMid(m: Graph, rk: map<Id, nat>, parent: Id, child: Id, rk1: map<Id, nat>)
    requires Mid(m, rk, {}, {}, {}, {}) && parent in m && child in m && parent != child && parent !in m[child].deps
    requires m[parent].cached && m[child].cached && Ranks(m, rk1) && rk1[parent] < rk1[child]
    ensures var e := m[child];
      Mid(WithEdge(m, parent, child), rk1, OneIf(e.dirty, child, parent), OneIf(!e.current, child, parent), {}, {})
  {
    hide DirtyKids, UnserKids, Linked, EdgeAdded, OneIf, Ranks, CountsDirty, CountsUnser, FlagsOk;
    var m', e := WithEdge(m, parent, child), m[child];
    WithEdgeAdds(m, parent, child);
    WithEdgeLinked(m, rk, parent, child, rk1);
    var d, u := OneIf(e.dirty, child, parent), OneIf(!e.current, child, parent);
    forall q | q in m
      ensures DirtyKids(m', d, q) == DirtyKids(m, {}, q) && UnserKids(m', u, q) == UnserKids(m, {}, q)
    {
      EdgeDirtyKids(m, m', parent, child, q);
      EdgeUnserKids(m, m', parent, child, q);
    }
    CountersStay(m, m', d, u);
  }

  lemma WithoutEdgeLinked(m: Graph, rk: map<Id, nat>, parent: Id, child: Id)
    requires Linked(m, rk) && KidsOk(m) && parent in m && child in m
    requires parent != child && parent in m[child].deps && m[parent].nkids > 0
    ensures Linked(WithoutEdge(m, parent, child), rk)
  {
    hide Without, Kids, EdgeAdded, Distinct;
    var m' := WithoutEdge(m, parent, child);
    WithoutDistinct(m[child].deps, parent);
    WithoutEdgeKids(m, parent, child);
    WithoutEdgeAdds(m, parent, child);
    forall c, p | c in m' && p in m'[c].deps ensures p in m && rk[p] < rk[c] && m'[p].cached && m'[p].pinCache && m'[c].cached {
      OneDep(m', c, p);
      EdgeAddedFacts(m', m, parent, child, c, p);
    }
  }

  lemma EdgeAddedFacts(m: Graph, m': Graph, parent: Id, child: Id, c: Id, q: Id)
    requires EdgeAdded(m, m', parent, child) && c in m
    ensures c in m' && (q in m[c].deps ==> q in m'[c].deps)
  {
  }

  lemma OneDep(m: Graph, c: Id, p: Id)
    requires KidsOk(m) && c in m && p in m[c].deps
    ensures p in m ==> m[p].pinCache
  {
    assert c in Kids(m, p);
  }

  lemma WithoutEdgeMid(m: Graph, rk: map<Id, nat>, parent: Id, child: Id)
    requires Mid(m, rk, {}, {}, {}, {}) && KidsOk(m) && parent in m && child in m
    requires parent != child && parent in m[child].deps && m[parent].nkids > 0
    ensures var e := m[child];
      Mid(WithoutEdge(m, parent, child), rk, OneIf(e.dirty, child, parent), OneIf(!e.current, child, parent), {}, {})
  {
    hide DirtyKids, UnserKids, Linked, EdgeAdded, OneIf, Without, KidsOk, Distinct, CountsDirty, CountsUnser, FlagsOk;
    var m', e := WithoutEdge(m, parent, child), m[child];
    WithoutEdgeLinked(m, rk, parent, child);
    MidFacts(m, rk, {}, {}, {}, {}, child);
    WithoutEdgeAdds(m, parent, child);
    var d, u := OneIf(e.dirty, child, parent), OneIf(!e.current, child, parent);
    forall q | q in m
      ensures DirtyKids(m', d, q) == DirtyKids(m, {}, q) && UnserKids(m', u, q) == UnserKids(m, {}, q)
    {
      EdgeDirtyKids(m', m, parent, child, q);
      EdgeUnserKids(m', m, parent, child, q);
    }
    CountersStay(m, m', d, u);
  }

  lemma EdgeKeepsExact(m: Graph, m': Graph, parent: Id, child: Id)
    requires EdgeAdded(m, m', parent, child)
    ensures KeepsExact(m, {}, m', OneIf(!m[child].current, child, parent), {})
    ensures (forall x | x in m :: m'[x].proxy == m[x].proxy)
            ==> KeepsExact(m', {}, m, OneIf(!m[child].current, child, parent), {})
  {
  }
}
