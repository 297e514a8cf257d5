/** The flush-dependency graph of a metadata cache: entries, the dependencies between them and
    the counters each parent keeps of its children, with proxy entries among them. */
module FlushDeps {

  import opened AddressLists

  type Id = nat

  /** A cache entry's flush-dependency fields.  `current` is image_up_to_date, `marked` the
      dirtied field of a protected entry; `deps` are its
      flush-dependency parents in order.  A proxy has fields of its own: the parents it is
      told of, the children it was given, and its counts of dirty and unserialized ones. */
  datatype Entry = Entry(
    cached: bool, dirty: bool, current: bool,
    prot: bool, marked: bool, pinClient: bool, pinCache: bool,
    deps: seq<Id>, nkids: nat, ndirty: nat, nunser: nat,
    proxy: bool, listed: seq<Id>, pkids: nat, pdirty: nat, punser: nat)

  type Graph = map<Id, Entry>

  predicate Pinned(e: Entry) { e.pinClient || e.pinCache }

  predicate Distinct(s: seq<Id>) { forall i, j | 0 <= i < j < |s| :: s[i] != s[j] }

  /** Dependencies join cached entries and go down in rank, so there is no cycle; the cache
      keeps every flush-dependency parent pinned. */
  ghost predicate Linked(m: Graph, rk: map<Id, nat>) {
    && rk.Keys == m.Keys
    && forall c | c in m ::
         && Distinct(m[c].deps)
         && forall p | p in m[c].deps :: p in m && rk[p] < rk[c] && m[p].cached && m[p].pinCache && m[c].cached
  }

  ghost function Kids(m: Graph, p: Id): set<Id> {
    set c | c in m && p in m[c].deps
  }

  /** The children p counts as dirty.  An edge in `stale` is one whose child has changed, or
      which has come or gone, without p having been told. */
  ghost function DirtyKids(m: Graph, stale: set<(Id, Id)>, p: Id): set<Id> {
    set c | c in m && ((p in m[c].deps && m[c].dirty) != ((c, p) in stale))
  }

  ghost function UnserKids(m: Graph, stale: set<(Id, Id)>, p: Id): set<Id> {
    set c | c in m && ((p in m[c].deps && !m[c].current) != ((c, p) in stale))
  }

  /** Every count of dirty children is right, up to the stale edges. */
  ghost predicate CountsDirty(m: Graph, stale: set<(Id, Id)>) {
    forall p | p in m :: m[p].ndirty == |DirtyKids(m, stale, p)| && (m[p].proxy ==> m[p].pdirty == m[p].ndirty)
  }

  ghost predicate CountsUnser(m: Graph, stale: set<(Id, Id)>) {
    forall p | p in m :: m[p].nunser == |UnserKids(m, stale, p)| && (m[p].proxy ==> m[p].punser == m[p].nunser)
  }

  /** A proxy is dirty exactly while it counts dirty children, and unserialized while it
      counts unserialized ones; x is an entry whose dirty flag is about to be set right. */
  ghost predicate FlagsOk(m: Graph, x: set<Id>, y: set<Id>) {
    forall p | p in m && m[p].proxy ::
      && (p !in x ==> (m[p].dirty <==> m[p].ndirty > 0))
      && (p !in y && m[p].nunser > 0 ==> !m[p].current)
  }

  /** What no cascade of notifications changes. */
  predicate SameShape(e: Entry, e': Entry) {
    e' == e.(dirty := e'.dirty, current := e'.current, ndirty := e'.ndirty, nunser := e'.nunser,
             pdirty := e'.pdirty, punser := e'.punser)
  }

  ghost predicate SameShapes(m: Graph, m': Graph) {
    m'.Keys == m.Keys && forall x | x in m :: SameShape(m[x], m'[x])
  }

  /** Only proxies and the entries of xs may have changed: into dirty and unserialized. */
  ghost predicate Rises(m: Graph, m': Graph, xs: set<Id>) {
    && SameShapes(m, m')
    && (forall x | x in m :: (m[x].dirty ==> m'[x].dirty) && (!m[x].current ==> !m'[x].current))
    && (forall x | x in m && !m[x].proxy && x !in xs :: m'[x].dirty == m[x].dirty && m'[x].current == m[x].current)
  }

  /** Only proxies and the entries of xs may have changed: into clean and serialized. */
  ghost predicate Falls(m: Graph, m': Graph, xs: set<Id>) {
    && SameShapes(m, m')
    && (forall x | x in m :: (!m[x].dirty ==> !m'[x].dirty) && (m[x].current ==> m'[x].current))
    && (forall x | x in m && !m[x].proxy && x !in xs :: m'[x].dirty == m[x].dirty && m'[x].current == m[x].current)
  }

  function Owed(e: Id, ps: seq<Id>): set<(Id, Id)> {
    set p | p in ps :: (e, p)
  }

  /** Stale edges lie below e: their children are still being dealt with. */
  ghost predicate Below(rk: map<Id, nat>, stale: set<(Id, Id)>, e: Id)
    requires e in rk
  {
    forall s | s in stale :: s.0 in rk && rk[s.0] > rk[e]
  }

  ghost predicate AtOrBelow(rk: map<Id, nat>, stale: set<(Id, Id)>, e: Id)
    requires e in rk
  {
    forall s | s in stale :: s.0 in rk && rk[s.0] >= rk[e]
  }

  lemma BelowFacts(rk: map<Id, nat>, stale: set<(Id, Id)>, e: Id, ps: seq<Id>)
    requires e in rk && Below(rk, stale, e)
    ensures AtOrBelow(rk, stale, e) && AtOrBelow(rk, stale + Owed(e, ps), e)
  {
  }

  /** Proxy p is unserialized only if one of its children is, or was until just now. */
  ghost predicate Exact(m: Graph, u: set<(Id, Id)>, p: Id)
    requires p in m
  {
    m[p].current || exists c :: c in m && ((p in m[c].deps && !m[c].current) || (c, p) in u)
  }

  /** Proxies that were exact still are, apart from those of xs. */
  ghost predicate KeepsExact(m: Graph, u: set<(Id, Id)>, m': Graph, u': set<(Id, Id)>, xs: set<Id>) {
    m'.Keys == m.Keys && forall p | p in m && m[p].proxy && p !in xs && Exact(m, u, p) :: Exact(m', u', p)
  }

  // ------------------------------------------------------------ single steps

  /** Parent p is told that child c became dirty, or that it is a new dirty child. */
  function DirtyUp(m: Graph, p: Id): Graph
    requires p in m
  {
    m[p := m[p].(ndirty := m[p].ndirty + 1, pdirty := if m[p].proxy then m[p].pdirty + 1 else m[p].pdirty)]
  }

  function DirtyDown(m: Graph, p: Id): Graph
    requires p in m && m[p].ndirty > 0 && (m[p].proxy ==> m[p].pdirty > 0)
  {
    m[p := m[p].(ndirty := m[p].ndirty - 1, pdirty := if m[p].proxy then m[p].pdirty - 1 else m[p].pdirty)]
  }

  function UnserUp(m: Graph, p: Id): Graph
    requires p in m
  {
    m[p := m[p].(nunser := m[p].nunser + 1, punser := if m[p].proxy then m[p].punser + 1 else m[p].punser)]
  }

  function UnserDown(m: Graph, p: Id): Graph
    requires p in m && m[p].nunser > 0 && (m[p].proxy ==> m[p].punser > 0)
  {
    m[p := m[p].(nunser := m[p].nunser - 1, punser := if m[p].proxy then m[p].punser - 1 else m[p].punser)]
  }

  ghost predicate SameDirtyEdges(m: Graph, m': Graph) {
    m'.Keys == m.Keys && forall c | c in m :: m'[c].deps == m[c].deps && m'[c].dirty == m[c].dirty
  }

  ghost predicate SameUnserEdges(m: Graph, m': Graph) {
    m'.Keys == m.Keys && forall c | c in m :: m'[c].deps == m[c].deps && m'[c].current == m[c].current
  }

  lemma SameDirtyKids(m: Graph, m': Graph, stale: set<(Id, Id)>, p: Id)
    requires SameDirtyEdges(m, m')
    ensures DirtyKids(m', stale, p) == DirtyKids(m, stale, p)
  {
  }

  lemma SameUnserKids(m: Graph, m': Graph, stale: set<(Id, Id)>, p: Id)
    requires SameUnserEdges(m, m')
    ensures UnserKids(m', stale, p) == UnserKids(m, stale, p)
  {
  }

  lemma LessStaleDirty(m: Graph, d: set<(Id, Id)>, c: Id, p: Id, q: Id)
    requires c in m && (c, p) !in d
    ensures q != p ==> DirtyKids(m, d + {(c, p)}, q) == DirtyKids(m, d, q)
    ensures var k := DirtyKids(m, d + {(c, p)}, p);
      DirtyKids(m, d, p) == if p in m[c].deps && m[c].dirty then k + {c} else k - {c}
    ensures c in DirtyKids(m, d + {(c, p)}, p) <==> !(p in m[c].deps && m[c].dirty)
  {
  }

  lemma LessStaleUnser(m: Graph, u: set<(Id, Id)>, c: Id, p: Id, q: Id)
    requires c in m && (c, p) !in u
    ensures q != p ==> UnserKids(m, u + {(c, p)}, q) == UnserKids(m, u, q)
    ensures var k := UnserKids(m, u + {(c, p)}, p);
      UnserKids(m, u, p) == if p in m[c].deps && !m[c].current then k + {c} else k - {c}
    ensures c in UnserKids(m, u + {(c, p)}, p) <==> !(p in m[c].deps && !m[c].current)
  {
  }

  /** Telling p about its child c settles the edge between them. */
  lemma DirtyUpCounts(m: Graph, d: set<(Id, Id)>, c: Id, p: Id)
    requires p in m && c in m && CountsDirty(m, d + {(c, p)}) && (c, p) !in d
    requires p in m[c].deps && m[c].dirty
    ensures CountsDirty(DirtyUp(m, p), d)
  {
    hide DirtyKids;
    var m' := DirtyUp(m, p);
    forall q | q in m ensures m'[q].ndirty == |DirtyKids(m', d, q)| {
      SameDirtyKids(m, m', d, q);
      LessStaleDirty(m, d, c, p, q);
    }
  }

  lemma DirtyDownCounts(m: Graph, d: set<(Id, Id)>, c: Id, p: Id)
    requires p in m && c in m && CountsDirty(m, d + {(c, p)}) && (c, p) !in d
    requires !(p in m[c].deps && m[c].dirty)
    ensures m[p].ndirty > 0 && CountsDirty(DirtyDown(m, p), d)
  {
    hide DirtyKids;
    LessStaleDirty(m, d, c, p, p);
    var m' := DirtyDown(m, p);
    forall q | q in m ensures m'[q].ndirty == |DirtyKids(m', d, q)| {
      SameDirtyKids(m, m', d, q);
      LessStaleDirty(m, d, c, p, q);
    }
  }

  lemma UnserUpCounts(m: Graph, u: set<(Id, Id)>, c: Id, p: Id)
    requires p in m && c in m && CountsUnser(m, u + {(c, p)}) && (c, p) !in u
    requires p in m[c].deps && !m[c].current
    ensures CountsUnser(UnserUp(m, p), u)
  {
    hide UnserKids;
    var m' := UnserUp(m, p);
    forall q | q in m ensures m'[q].nunser == |UnserKids(m', u, q)| {
      SameUnserKids(m, m', u, q);
      LessStaleUnser(m, u, c, p, q);
    }
  }

  lemma UnserDownCounts(m: Graph, u: set<(Id, Id)>, c: Id, p: Id)
    requires p in m && c in m && CountsUnser(m, u + {(c, p)}) && (c, p) !in u
    requires !(p in m[c].deps && !m[c].current)
    ensures m[p].nunser > 0 && CountsUnser(UnserDown(m, p), u)
  {
    hide UnserKids;
    LessStaleUnser(m, u, c, p, p);
    var m' := UnserDown(m, p);
    forall q | q in m ensures m'[q].nunser == |UnserKids(m', u, q)| {
      SameUnserKids(m, m', u, q);
      LessStaleUnser(m, u, c, p, q);
    }
  }

  /** Flipping e's dirty flag makes the edges to all its parents stale. */
  lemma FlipDirtyCounts(m: Graph, d: set<(Id, Id)>, e: Id, rk: map<Id, nat>)
    requires e in m && CountsDirty(m, d) && e in rk && Below(rk, d, e)
    ensures CountsDirty(m[e := m[e].(dirty := !m[e].dirty)], d + Owed(e, m[e].deps))
  {
    var m' := m[e := m[e].(dirty := !m[e].dirty)];
    forall q | q in m ensures DirtyKids(m', d + Owed(e, m[e].deps), q) == DirtyKids(m, d, q) {
    }
  }

  lemma FlipUnserCounts(m: Graph, u: set<(Id, Id)>, e: Id, rk: map<Id, nat>)
    requires e in m && CountsUnser(m, u) && e in rk && Below(rk, u, e)
    ensures CountsUnser(m[e := m[e].(current := !m[e].current)], u + Owed(e, m[e].deps))
  {
    var m' := m[e := m[e].(current := !m[e].current)];
    forall q | q in m ensures UnserKids(m', u + Owed(e, m[e].deps), q) == UnserKids(m, u, q) {
    }
  }

  lemma OwedSplit(e: Id, ps: seq<Id>, d: set<(Id, Id)>)
    requires ps != [] && Distinct(ps)
    ensures d + Owed(e, ps) == (d + Owed(e, ps[1..])) + {(e, ps[0])}
    ensures (e, ps[0]) !in Owed(e, ps[1..])
  {
  }

  lemma OwedSplitLast(e: Id, ps: seq<Id>, d: set<(Id, Id)>)
    requires ps != [] && Distinct(ps)
    ensures var k := |ps| - 1;
      && d + Owed(e, ps) == (d + Owed(e, ps[..k])) + {(e, ps[k])}
      && (e, ps[k]) !in Owed(e, ps[..k])
  {
  }

  // --------------------------------------------------- cascades, composed

  lemma SameShapesLinked(m: Graph, m': Graph, rk: map<Id, nat>)
    requires Linked(m, rk) && SameShapes(m, m')
    ensures Linked(m', rk)
  {
  }

  lemma BelowParent(m: Graph, rk: map<Id, nat>, stale: set<(Id, Id)>, e: Id, p: Id)
    requires Linked(m, rk) && e in m && p in m[e].deps && AtOrBelow(rk, stale, e)
    ensures p in rk && Below(rk, stale, p)
  {
  }

  /** The state in the middle of a cascade: counters are right up to the stale edges, flags up
      to the entries x (dirty) and y (unserialized). */
  ghost predicate Mid(m: Graph, rk: map<Id, nat>, d: set<(Id, Id)>, u: set<(Id, Id)>, x: set<Id>, y: set<Id>) {
    Linked(m, rk) && CountsDirty(m, d) && CountsUnser(m, u) && FlagsOk(m, x, y)
  }

  lemma MidFacts(m: Graph, rk: map<Id, nat>, d: set<(Id, Id)>, u: set<(Id, Id)>, x: set<Id>, y: set<Id>, e: Id)
    requires Mid(m, rk, d, u, x, y) && e in m
    ensures e in rk && Distinct(m[e].deps)
    ensures forall p | p in m[e].deps :: p in m && p in rk && rk[p] < rk[e]
  {
  }

  lemma SameDirtyCounts(m: Graph, m': Graph, d: set<(Id, Id)>)
    requires CountsDirty(m, d) && SameDirtyEdges(m, m')
    requires forall x | x in m :: m'[x].ndirty == m[x].ndirty && m'[x].pdirty == m[x].pdirty && m'[x].proxy == m[x].proxy
    ensures CountsDirty(m', d)
  {
    hide DirtyKids;
    forall q | q in m ensures DirtyKids(m', d, q) == DirtyKids(m, d, q) {
      SameDirtyKids(m, m', d, q);
    }
  }

  lemma SameUnserCounts(m: Graph, m': Graph, u: set<(Id, Id)>)
    requires CountsUnser(m, u) && SameUnserEdges(m, m')
    requires forall x | x in m :: m'[x].nunser == m[x].nunser && m'[x].punser == m[x].punser && m'[x].proxy == m[x].proxy
    ensures CountsUnser(m', u)
  {
    hide UnserKids;
    forall q | q in m ensures UnserKids(m', u, q) == UnserKids(m, u, q) {
      SameUnserKids(m, m', u, q);
    }
  }

  lemma ProxyCounts(m: Graph, d: set<(Id, Id)>, u: set<(Id, Id)>, p: Id)
    requires p in m && m[p].proxy
    ensures CountsDirty(m, d) ==> m[p].pdirty == m[p].ndirty
    ensures CountsUnser(m, u) ==> m[p].punser == m[p].nunser
  {
  }

  lemma ExactMore(m: Graph, u: set<(Id, Id)>, m': Graph, u': set<(Id, Id)>, e: Id)
    requires KeepsExact(m, u, m', u', {}) || KeepsExact(m, u, m', u', {e})
    ensures KeepsExact(m, u, m', u', {e})
    ensures e in m && !m[e].proxy ==> KeepsExact(m, u, m', u', {})
  {
    hide Exact;
  }

  lemma CountersOnly(m: Graph, m': Graph)
    requires m'.Keys == m.Keys
    requires forall x | x in m :: SameShape(m[x], m'[x]) && m'[x].dirty == m[x].dirty && m'[x].current == m[x].current
    ensures SameShapes(m, m') && Rises(m, m', {}) && Falls(m, m', {})
  {
  }

  lemma FlagsOnly(m: Graph, m': Graph, e: Id)
    requires m'.Keys == m.Keys && e in m && SameShape(m[e], m'[e]) && forall x | x in m && x != e :: m'[x] == m[x]
    ensures SameShapes(m, m')
    ensures (m[e].dirty ==> m'[e].dirty) && (m'[e].current ==> m[e].current) ==> Rises(m, m', {e})
    ensures (m'[e].dirty ==> m[e].dirty) && (m[e].current ==> m'[e].current) ==> Falls(m, m', {e})
  {
  }

  lemma UnserUpExact(m: Graph, u: set<(Id, Id)>, c: Id, p: Id)
    requires p in m && c in m && p in m[c].deps && !m[c].current
    ensures KeepsExact(m, u + {(c, p)}, UnserUp(m, p), u, {})
  {
  }

  /** A count that is still positive has an unserialized child, or one not yet told of. */
  lemma UnserDownExact(m: Graph, u: set<(Id, Id)>, c: Id, p: Id)
    requires p in m && c in m && m[p].nunser > 0 && (m[p].proxy ==> m[p].punser == m[p].nunser)
    requires CountsUnser(UnserDown(m, p), u)
    ensures KeepsExact(m, u + {(c, p)}, UnserDown(m, p), u, {p})
    ensures m[p].nunser > 1 ==> Exact(UnserDown(m, p), u, p)
  {
    if m[p].nunser > 1 {
      assert |UnserKids(UnserDown(m, p), u, p)| > 0;
      var k :| k in UnserKids(UnserDown(m, p), u, p);
    }
  }

  lemma UnserializeExact(m: Graph, u: set<(Id, Id)>, e: Id)
    requires e in m
    ensures KeepsExact(m, u, m[e := m[e].(current := false)], u + Owed(e, m[e].deps), {e})
  {
    var m', u' := m[e := m[e].(current := false)], u + Owed(e, m[e].deps);
    forall p | p in m && m[p].proxy && p != e && Exact(m, u, p) ensures Exact(m', u', p) {
      if !m[p].current {
        var c :| c in m && ((p in m[c].deps && !m[c].current) || (c, p) in u);
        assert c in m' && m'[c].deps == m[c].deps && (!m[c].current ==> !m'[c].current);
      }
    }
  }

  lemma SerializeExact(m: Graph, u: set<(Id, Id)>, e: Id)
    requires e in m
    ensures var m', u' := m[e := m[e].(current := true)], u + Owed(e, m[e].deps);
      KeepsExact(m, u, m', u', {}) && Exact(m', u', e)
  {
  }

  lemma DirtyUpMid(m: Graph, rk: map<Id, nat>, d: set<(Id, Id)>, u: set<(Id, Id)>, c: Id, p: Id)
    requires p in m && c in m && p in rk && Mid(m, rk, d + {(c, p)}, u, {}, {}) && (c, p) !in d
    requires p in m[c].deps && m[c].dirty
    ensures var m' := DirtyUp(m, p);
      && Mid(m', rk, d, u, {p}, {}) && Up(m, u, m', u, rk, rk[p], {})
      && (m[p].proxy && m'[p].pdirty == 1 ==> !m'[p].dirty && m'[p].ndirty > 0)
      && (!m[p].proxy || m'[p].pdirty != 1 ==> Mid(m', rk, d, u, {}, {}))
  {
    hide CountsDirty, CountsUnser, Linked, Exact, KeepsExact, SameShapes;
    var m' := DirtyUp(m, p);
    DirtyUpCounts(m, d, c, p);
    SameUnserCounts(m, m', u);
    CountersOnly(m, m');
    SameShapesLinked(m, m', rk);
    SameUnserEdgesExact(m, m', u);
    if m[p].proxy {
      ProxyCounts(m, d + {(c, p)}, u, p);
    }
  }

  lemma DirtyDownMid(m: Graph, rk: map<Id, nat>, d: set<(Id, Id)>, u: set<(Id, Id)>, c: Id, p: Id)
    requires p in m && c in m && p in rk && Mid(m, rk, d + {(c, p)}, u, {}, {}) && (c, p) !in d
    requires !(p in m[c].deps && m[c].dirty)
    ensures m[p].ndirty > 0 && (m[p].proxy ==> m[p].pdirty > 0)
    ensures var m' := DirtyDown(m, p);
      && Mid(m', rk, d, u, {p}, {}) && Down(m, u, m', u, rk, rk[p], {}) && SameUnserEdges(m, m')
      && (m[p].proxy && m'[p].pdirty == 0 ==> m'[p].dirty && m'[p].ndirty == 0)
      && (!m[p].proxy || m'[p].pdirty != 0 ==> Mid(m', rk, d, u, {}, {}))
  {
    hide CountsDirty, CountsUnser, Linked, Exact, KeepsExact, SameShapes;
    DirtyDownCounts(m, d, c, p);
    if m[p].proxy {
      ProxyCounts(m, d + {(c, p)}, u, p);
    }
    var m' := DirtyDown(m, p);
    SameUnserCounts(m, m', u);
    CountersOnly(m, m');
    SameShapesLinked(m, m', rk);
    SameUnserEdgesExact(m, m', u);
  }

  lemma UnserUpMid(m: Graph, rk: map<Id, nat>, d: set<(Id, Id)>, u: set<(Id, Id)>, c: Id, p: Id)
    requires p in m && c in m && p in rk && Mid(m, rk, d, u + {(c, p)}, {}, {}) && (c, p) !in u
    requires p in m[c].deps && !m[c].current
    ensures var m' := UnserUp(m, p);
      && Mid(m', rk, d, u, {}, {p}) && Up(m, u + {(c, p)}, m', u, rk, rk[p], {}) && SameDirtyEdges(m, m')
      && (!m[p].proxy || m'[p].punser != 1 ==> Mid(m', rk, d, u, {}, {}))
  {
    hide CountsDirty, CountsUnser, Linked, KeepsExact, SameShapes, Exact;
    var m' := UnserUp(m, p);
    UnserUpCounts(m, u, c, p);
    SameDirtyCounts(m, m', d);
    UnserUpExact(m, u, c, p);
    CountersOnly(m, m');
    SameShapesLinked(m, m', rk);
    if m[p].proxy {
      ProxyCounts(m, d, u + {(c, p)}, p);
    }
  }

  lemma UnserDownMid(m: Graph, rk: map<Id, nat>, d: set<(Id, Id)>, u: set<(Id, Id)>, c: Id, p: Id)
    requires p in m && c in m && p in rk && Mid(m, rk, d, u + {(c, p)}, {}, {}) && (c, p) !in u
    requires !(p in m[c].deps && !m[c].current)
    ensures m[p].nunser > 0 && (m[p].proxy ==> m[p].punser > 0)
    ensures var m' := UnserDown(m, p);
      && Mid(m', rk, d, u, {}, {}) && Down(m, u + {(c, p)}, m', u, rk, rk[p], if m[p].proxy then {p} else {}) && SameDirtyEdges(m, m')
      && (m[p].proxy && m'[p].punser == 0 ==> !m'[p].current && m'[p].nunser == 0)
      && (m[p].proxy && m'[p].punser > 0 ==> Exact(m', u, p))
  {
    hide CountsDirty, CountsUnser, Linked, KeepsExact, SameShapes, Exact;
    UnserDownCounts(m, u, c, p);
    if m[p].proxy {
      ProxyCounts(m, d, u + {(c, p)}, p);
    }
    var m' := UnserDown(m, p);
    SameDirtyCounts(m, m', d);
    UnserDownExact(m, u, c, p);
    ExactMore(m, u + {(c, p)}, m', u, p);
    CountersOnly(m, m');
    SameShapesLinked(m, m', rk);
  }

  lemma SameUnserEdgesExact(m: Graph, m': Graph, u: set<(Id, Id)>)
    requires SameUnserEdges(m, m') && SameShapes(m, m')
    ensures KeepsExact(m, u, m', u, {})
  {
  }

  /** The flag flips of one entry. */
  lemma DirtyMid(m: Graph, rk: map<Id, nat>, d: set<(Id, Id)>, u: set<(Id, Id)>, e: Id)
    requires e in m && e in rk && Mid(m, rk, d, u, {e}, {}) && Below(rk, d, e)
    requires !m[e].dirty && (m[e].proxy ==> m[e].ndirty > 0)
    ensures var m' := m[e := m[e].(dirty := true)];
      && Mid(m', rk, d + Owed(e, m[e].deps), u, {}, {}) && Up(m, u, m', u, rk, rk[e], {e})
  {
    hide CountsDirty, CountsUnser, Linked, Owed, Exact, KeepsExact, SameShapes;
    var m' := m[e := m[e].(dirty := true)];
    FlipDirtyCounts(m, d, e, rk);
    SameUnserCounts(m, m', u);
    FlagsOnly(m, m', e);
    SameShapesLinked(m, m', rk);
    SameUnserEdgesExact(m, m', u);
    ExactMore(m, u, m', u, e);
  }

  lemma CleanMid(m: Graph, rk: map<Id, nat>, d: set<(Id, Id)>, u: set<(Id, Id)>, e: Id)
    requires e in m && e in rk && Mid(m, rk, d, u, {e}, {}) && Below(rk, d, e)
    requires m[e].dirty && (m[e].proxy ==> m[e].ndirty == 0)
    ensures var m' := m[e := m[e].(dirty := false)];
      && Mid(m', rk, d + Owed(e, m[e].deps), u, {}, {}) && Down(m, u, m', u, rk, rk[e], {e}) && SameUnserEdges(m, m')
  {
    hide CountsDirty, CountsUnser, Linked, Owed, Exact, KeepsExact, SameShapes;
    var m' := m[e := m[e].(dirty := false)];
    FlipDirtyCounts(m, d, e, rk);
    SameUnserCounts(m, m', u);
    FlagsOnly(m, m', e);
    SameShapesLinked(m, m', rk);
    SameUnserEdgesExact(m, m', u);
    ExactMore(m, u, m', u, e);
  }

  lemma UnserializeMid(m: Graph, rk: map<Id, nat>, d: set<(Id, Id)>, u: set<(Id, Id)>, e: Id)
    requires e in m && e in rk && Mid(m, rk, d, u, {}, {e}) && m[e].current && Below(rk, u, e)
    ensures var m', u' := m[e := m[e].(current := false)], u + Owed(e, m[e].deps);
      Mid(m', rk, d, u', {}, {}) && Up(m, u, m', u', rk, rk[e], {e}) && SameDirtyEdges(m, m')
  {
    hide CountsDirty, CountsUnser, Linked, Owed, KeepsExact, SameShapes, Exact;
    var m' := m[e := m[e].(current := false)];
    FlipUnserCounts(m, u, e, rk);
    SameDirtyCounts(m, m', d);
    UnserializeExact(m, u, e);
    FlagsOnly(m, m', e);
    SameShapesLinked(m, m', rk);
  }

  lemma SerializeMid(m: Graph, rk: map<Id, nat>, d: set<(Id, Id)>, u: set<(Id, Id)>, e: Id)
    requires e in m && e in rk && Mid(m, rk, d, u, {}, {}) && !m[e].current && Below(rk, u, e)
    requires m[e].proxy ==> m[e].nunser == 0
    ensures var m', u' := m[e := m[e].(current := true)], u + Owed(e, m[e].deps);
      Mid(m', rk, d, u', {}, {}) && Down(m, u, m', u', rk, rk[e], {e}) && SameDirtyEdges(m, m')
  {
    hide CountsDirty, CountsUnser, Linked, Owed, KeepsExact, SameShapes, Exact;
    var m' := m[e := m[e].(current := true)];
    FlipUnserCounts(m, u, e, rk);
    SameDirtyCounts(m, m', d);
    SerializeExact(m, u, e);
    ExactMore(m, u, m', u + Owed(e, m[e].deps), e);
    FlagsOnly(m, m', e);
    SameShapesLinked(m, m', rk);
  }

  lemma ExactByKid(m: Graph, u: set<(Id, Id)>, c: Id, p: Id)
    requires c in m && p in m && p in m[c].deps && !m[c].current
    ensures Exact(m, u, p)
  {
  }

  /** The next parent of e to be told, in forward order. */
  lemma NextParent(m: Graph, rk: map<Id, nat>, stale: set<(Id, Id)>, e: Id, i: nat)
    requires Linked(m, rk) && e in m && i < |m[e].deps| && Below(rk, stale, e)
    ensures var p, rest := m[e].deps[i], stale + Owed(e, m[e].deps[i + 1..]);
      && p in m && p in rk && rk[p] < rk[e] && p in m[e].deps && m[p].pinCache
      && stale + Owed(e, m[e].deps[i..]) == rest + {(e, p)} && (e, p) !in rest
      && Below(rk, rest, p) && Below(rk, stale, p)
  {
    var ps := m[e].deps[i..];
    assert ps[1..] == m[e].deps[i + 1..];
    OwedSplit(e, ps, stale);
  }

  /** The next parent of e to be told, in reverse order. */
  lemma LastParent(m: Graph, rk: map<Id, nat>, stale: set<(Id, Id)>, e: Id, i: nat)
    requires Linked(m, rk) && e in m && i < |m[e].deps| && Below(rk, stale, e)
    ensures var p, rest := m[e].deps[i], stale + Owed(e, m[e].deps[..i]);
      && p in m && p in rk && rk[p] < rk[e] && p in m[e].deps && m[p].pinCache
      && stale + Owed(e, m[e].deps[..i + 1]) == rest + {(e, p)} && (e, p) !in rest
      && Below(rk, rest, p) && Below(rk, stale, p)
  {
    var ps := m[e].deps[..i + 1];
    assert ps[..i] == m[e].deps[..i];
    OwedSplitLast(e, ps, stale);
  }

  lemma NothingOwed(e: Id, ps: seq<Id>, stale: set<(Id, Id)>)
    ensures stale + Owed(e, ps[|ps|..]) == stale && stale + Owed(e, ps[..0]) == stale
    ensures ps[0..] == ps && ps[..|ps|] == ps
  {
  }

  lemma MidLinked(m: Graph, rk: map<Id, nat>, d: set<(Id, Id)>, u: set<(Id, Id)>, x: set<Id>, y: set<Id>)
    requires Mid(m, rk, d, u, x, y)
    ensures Linked(m, rk)
  {
  }

  lemma AlreadyUnserialized(m: Graph, rk: map<Id, nat>, d: set<(Id, Id)>, u: set<(Id, Id)>, e: Id)
    requires e in m && Mid(m, rk, d, u, {}, {e}) && !m[e].current
    ensures Mid(m, rk, d, u, {}, {})
  {
  }

  /** The flags of e are only known up to a dirty or unserialized flag that may be off. */
  lemma MidWeaker(m: Graph, rk: map<Id, nat>, d: set<(Id, Id)>, u: set<(Id, Id)>, e: Id)
    requires Mid(m, rk, d, u, {}, {})
    ensures Mid(m, rk, d, u, {e}, {}) && Mid(m, rk, d, u, {}, {e})
  {
  }

  lemma SameEdgesTrans(a: Graph, b: Graph, c: Graph)
    ensures SameDirtyEdges(a, b) && SameDirtyEdges(b, c) ==> SameDirtyEdges(a, c)
    ensures SameUnserEdges(a, b) && SameUnserEdges(b, c) ==> SameUnserEdges(a, c)
  {
  }

  /** Entries of rank above k, further down the graph, are left alone. */
  ghost predicate Untouched(m: Graph, m': Graph, rk: map<Id, nat>, k: nat) {
    m'.Keys == m.Keys && forall x | x in m && x in rk && rk[x] > k :: m'[x] == m[x]
  }

  /** A cascade of dirtying or unserializing from an entry of rank k upwards. */
  ghost predicate Up(m: Graph, u: set<(Id, Id)>, m': Graph, u': set<(Id, Id)>, rk: map<Id, nat>, k: nat, xs: set<Id>) {
    Rises(m, m', xs) && KeepsExact(m, u, m', u', xs) && Untouched(m, m', rk, k)
  }

  /** A cascade of cleaning or serializing from an entry of rank k upwards. */
  ghost predicate Down(m: Graph, u: set<(Id, Id)>, m': Graph, u': set<(Id, Id)>, rk: map<Id, nat>, k: nat, xs: set<Id>) {
    Falls(m, m', xs) && KeepsExact(m, u, m', u', xs) && Untouched(m, m', rk, k)
  }

  lemma NoMove(m: Graph, u: set<(Id, Id)>, rk: map<Id, nat>, k: nat, xs: set<Id>)
    ensures Up(m, u, m, u, rk, k, xs) && Down(m, u, m, u, rk, k, xs)
    ensures SameDirtyEdges(m, m) && SameUnserEdges(m, m)
  {
  }

  lemma UpTrans(a: Graph, ua: set<(Id, Id)>, b: Graph, ub: set<(Id, Id)>, c: Graph, uc: set<(Id, Id)>,
                rk: map<Id, nat>, k: nat, j: nat, xs: set<Id>, ys: set<Id>)
    requires (Up(a, ua, b, ub, rk, k, xs) || Up(a, ua, b, ub, rk, k, {})) && Up(b, ub, c, uc, rk, j, ys) && j <= k
    requires forall y | y in ys :: y in xs || (y in a && a[y].proxy && y in c && Exact(c, uc, y))
    ensures Up(a, ua, c, uc, rk, k, xs)
  {
    hide Exact;
  }

  lemma DownTrans(a: Graph, ua: set<(Id, Id)>, b: Graph, ub: set<(Id, Id)>, c: Graph, uc: set<(Id, Id)>,
                  rk: map<Id, nat>, k: nat, j: nat, xs: set<Id>, ys: set<Id>)
    requires (Down(a, ua, b, ub, rk, k, xs) || Down(a, ua, b, ub, rk, k, {})) && Down(b, ub, c, uc, rk, j, ys) && j <= k
    requires forall y | y in ys :: y in xs ||
               (y in a && a[y].proxy && y in b && y in c && (Exact(b, ub, y) ==> Exact(c, uc, y)))
    ensures Down(a, ua, c, uc, rk, k, xs)
  {
    hide Exact;
  }

  lemma UpFacts(m: Graph, u: set<(Id, Id)>, m': Graph, u': set<(Id, Id)>, rk: map<Id, nat>, k: nat, xs: set<Id>, x: Id)
    requires Up(m, u, m', u', rk, k, xs) && x in m
    ensures x in m' && SameShape(m[x], m'[x])
    ensures (m[x].dirty ==> m'[x].dirty) && (!m[x].current ==> !m'[x].current)
    ensures x in rk && rk[x] > k ==> m'[x] == m[x]
  {
  }

  lemma DownFacts(m: Graph, u: set<(Id, Id)>, m': Graph, u': set<(Id, Id)>, rk: map<Id, nat>, k: nat, xs: set<Id>, x: Id)
    requires Down(m, u, m', u', rk, k, xs) && x in m
    ensures x in m' && SameShape(m[x], m'[x])
    ensures (!m[x].dirty ==> !m'[x].dirty) && (m[x].current ==> m'[x].current)
    ensures x in rk && rk[x] > k ==> m'[x] == m[x]
  {
  }

  /** Only dirty flags changed, so what is exact stays exact. */
  lemma SameUnserExact(m: Graph, m': Graph, u: set<(Id, Id)>, p: Id)
    requires SameUnserEdges(m, m') && p in m
    ensures p in m' && (Exact(m, u, p) ==> Exact(m', u, p))
  {
  }

  /** A proxy whose exactness is accounted for need not be named. */
  lemma DownDrop(m: Graph, u: set<(Id, Id)>, m': Graph, u': set<(Id, Id)>, rk: map<Id, nat>, k: nat, p: Id)
    requires Down(m, u, m', u', rk, k, {p}) && p in m && m[p].proxy && p in m' && Exact(m', u', p)
    ensures Down(m, u, m', u', rk, k, {})
  {
    hide Exact;
  }

  lemma ExactIfCurrent(m: Graph, u: set<(Id, Id)>, e: Id)
    requires e in m && m[e].current
    ensures Exact(m, u, e)
  {
  }
}
