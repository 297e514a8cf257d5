/** What a valid flush-dependency graph says about its proxies. */
module ProxyTheorems {
  import opened AddressLists
  import opened FlushDeps
  import opened DependencyEdges
  import opened ProxyLife
  import opened Proxies

  // -------------------------------------------------- dirty, from below

  /** A way down from p: each step goes to a dependent, through proxies only, and ends at a
      client's own entry. */
  ghost predicate WayDown(m: Graph, path: seq<Id>) {
    && |path| >= 2
    && (forall i | 0 <= i < |path| :: path[i] in m)
    && (forall i | 0 <= i < |path| - 1 :: path[i] in m[path[i + 1]].deps && m[path[i]].proxy)
    && !m[path[|path| - 1]].proxy
  }

  ghost predicate DirtyBelow(m: Graph, p: Id) {
    exists path :: WayDown(m, path) && path[0] == p && m[path[|path| - 1]].dirty
  }

  ghost predicate UnserBelow(m: Graph, p: Id) {
    exists path :: WayDown(m, path) && path[0] == p && !m[path[|path| - 1]].current
  }

  lemma DirtyKidMarks(m: Graph, rk: map<Id, nat>, p: Id, c: Id)
    requires Mid(m, rk, {}, {}, {}, {}) && p in m && c in m && m[p].proxy && p in m[c].deps
    ensures m[c].dirty ==> m[p].dirty
    ensures !m[c].current ==> !m[p].current
  {
    if m[c].dirty {
      assert c in DirtyKids(m, {}, p);
    }
    if !m[c].current {
      assert c in UnserKids(m, {}, p);
    }
  }

  lemma {:induction false} MarksGoUp(m: Graph, rk: map<Id, nat>, path: seq<Id>)
    requires Mid(m, rk, {}, {}, {}, {}) && WayDown(m, path)
    ensures m[path[|path| - 1]].dirty ==> m[path[0]].dirty
    ensures !m[path[|path| - 1]].current ==> !m[path[0]].current
    decreases |path|
  {
    hide Mid;
    DirtyKidMarks(m, rk, path[0], path[1]);
    if |path| > 2 {
      MarksGoUp(m, rk, path[1..]);
    }
  }

  lemma DirtyHasDirtyKid(m: Graph, rk: map<Id, nat>, p: Id) returns (c: Id)
    requires Mid(m, rk, {}, {}, {}, {}) && p in m && m[p].proxy && m[p].dirty
    ensures c in m && p in m[c].deps && m[c].dirty && p in rk && c in rk && rk[p] < rk[c]
  {
    assert |DirtyKids(m, {}, p)| > 0;
    c :| c in DirtyKids(m, {}, p);
  }

  function Deeper(m: Graph, rk: map<Id, nat>, k: nat): set<Id> {
    set x | x in m && x in rk && rk[x] > k
  }

  lemma DeeperShrinks(m: Graph, rk: map<Id, nat>, p: Id, c: Id)
    requires p in m && c in m && p in rk && c in rk && rk[p] < rk[c]
    ensures |Deeper(m, rk, rk[c])| < |Deeper(m, rk, rk[p])|
  {
    var s, t := Deeper(m, rk, rk[c]), Deeper(m, rk, rk[p]);
    assert s <= t - {c};
    SubsetIsSmaller(s, t - {c});
  }

  lemma {:induction false} DirtyComesFromBelow(m: Graph, rk: map<Id, nat>, p: Id) returns (path: seq<Id>)
    requires Mid(m, rk, {}, {}, {}, {}) && p in m && m[p].proxy && m[p].dirty
    ensures WayDown(m, path) && path[0] == p && m[path[|path| - 1]].dirty
    decreases if p in rk then |Deeper(m, rk, rk[p])| else 0
  {
    hide Mid;
    var c := DirtyHasDirtyKid(m, rk, p);
    DeeperShrinks(m, rk, p, c);
    if m[c].proxy {
      var rest := DirtyComesFromBelow(m, rk, c);
      path := [p] + rest;
    } else {
      path := [p, c];
    }
  }

  lemma CountersCount(m: Graph, rk: map<Id, nat>, p: Id)
    requires Mid(m, rk, {}, {}, {}, {}) && p in m && m[p].proxy
    ensures m[p].pdirty == m[p].ndirty == |set c | c in m && p in m[c].deps && m[c].dirty|
    ensures m[p].punser == m[p].nunser == |set c | c in m && p in m[c].deps && !m[c].current|
  {
    assert (set c | c in m && p in m[c].deps && m[c].dirty) == DirtyKids(m, {}, p);
    assert (set c | c in m && p in m[c].deps && !m[c].current) == UnserKids(m, {}, p);
  }

  /** At the end of every operation a proxy is dirty exactly when some client's entry that can
      be reached below it, through proxies, is dirty; and its own counter and the cache's are
      both the number of its dirty children. */
  lemma ProxyDirtyIffBelow(m: Graph, rk: map<Id, nat>, p: Id)
    requires ValidGraph(m, rk) && p in m && m[p].proxy
    ensures m[p].dirty <==> DirtyBelow(m, p)
    ensures m[p].pdirty == m[p].ndirty == |set c | c in m && p in m[c].deps && m[c].dirty|
  {
    hide Mid, KidsOk, ProxiesOk;
    if m[p].dirty {
      var path := DirtyComesFromBelow(m, rk, p);
    }
    if DirtyBelow(m, p) {
      var path :| WayDown(m, path) && path[0] == p && m[path[|path| - 1]].dirty;
      MarksGoUp(m, rk, path);
    }
    CountersCount(m, rk, p);
  }

  // ------------------------------------------- unserialized, from below

  /** All proxies at or below p are exact. */
  ghost predicate ExactBelow(m: Graph, rk: map<Id, nat>, p: Id) {
    forall x | x in m && m[x].proxy && (x == p || (p in rk && x in Deeper(m, rk, rk[p]))) :: Exact(m, {}, x)
  }

  lemma UnserHasUnserKid(m: Graph, rk: map<Id, nat>, p: Id) returns (c: Id)
    requires Mid(m, rk, {}, {}, {}, {}) && p in m && m[p].proxy && !m[p].current && Exact(m, {}, p)
    ensures c in m && p in m[c].deps && !m[c].current && p in rk && c in rk && rk[p] < rk[c]
  {
    c :| c in m && p in m[c].deps && !m[c].current;
    MidFacts(m, rk, {}, {}, {}, {}, c);
  }

  lemma ExactFurtherDown(m: Graph, rk: map<Id, nat>, p: Id, c: Id)
    requires ExactBelow(m, rk, p) && p in rk && c in rk && rk[p] < rk[c] && c in m
    ensures ExactBelow(m, rk, c)
  {
    hide Exact;
  }

  lemma {:induction false} UnserComesFromBelow(m: Graph, rk: map<Id, nat>, p: Id) returns (path: seq<Id>)
    requires Mid(m, rk, {}, {}, {}, {}) && p in m && m[p].proxy && !m[p].current && ExactBelow(m, rk, p)
    ensures WayDown(m, path) && path[0] == p && !m[path[|path| - 1]].current
    decreases if p in rk then |Deeper(m, rk, rk[p])| else 0
  {
    hide Mid, Exact;
    var c := UnserHasUnserKid(m, rk, p);
    DeeperShrinks(m, rk, p, c);
    if m[c].proxy {
      ExactFurtherDown(m, rk, p, c);
      var rest := UnserComesFromBelow(m, rk, c);
      path := [p] + rest;
    } else {
      path := [p, c];
    }
  }

  /** Likewise for unserialized, in full while the proxies are exact; that an unserialized
      entry below makes the proxy unserialized holds always. */
  lemma ProxyUnserializedIffBelow(m: Graph, rk: map<Id, nat>, p: Id)
    requires ValidGraph(m, rk) && p in m && m[p].proxy
    ensures UnserBelow(m, p) ==> !m[p].current
    ensures ExactBelow(m, rk, p) ==> (!m[p].current <==> UnserBelow(m, p))
    ensures m[p].punser == m[p].nunser == |set c | c in m && p in m[c].deps && !m[c].current|
  {
    hide Mid, KidsOk, ProxiesOk, Exact;
    if UnserBelow(m, p) {
      var path :| WayDown(m, path) && path[0] == p && !m[path[|path| - 1]].current;
      MarksGoUp(m, rk, path);
    }
    if ExactBelow(m, rk, p) && !m[p].current {
      var path := UnserComesFromBelow(m, rk, p);
    }
    CountersCount(m, rk, p);
  }

  // ------------------------------------------------------------ residence

  /** A proxy is in the cache, and pinned, exactly while it has children of its own; then each
      parent it is told of has a dependency on it, and otherwise nothing depends on anything. */
  lemma CachedIffChildren(m: Graph, rk: map<Id, nat>, p: Id)
    requires ValidGraph(m, rk) && p in m && m[p].proxy
    ensures m[p].cached <==> exists c :: c in m && p in m[c].deps && !(m[c].proxy && p in m[c].listed)
    ensures m[p].cached <==> Pinned(m[p])
    ensures m[p].cached ==> forall l | l in m[p].listed :: l in m[p].deps
    ensures !m[p].cached ==> m[p].deps == [] && (forall c | c in m :: p !in m[c].deps)
                             && !m[p].dirty && m[p].pkids == 0 && m[p].pdirty == 0 && m[p].punser == 0
  {
    assert ProxyOk(m, p);
    if m[p].cached {
      assert |OwnKids(m, p)| > 0;
      var c :| c in OwnKids(m, p);
    } else {
      UncachedIsAlone(m, rk, p);
      QuietProxy(m, rk, p);
      assert |Kids(m, p)| == 0;
    }
    if c :| c in m && p in m[c].deps && !(m[c].proxy && p in m[c].listed) {
      assert c in OwnKids(m, p);
    }
  }

  // ------------------------------------------------------------- rankings

  /** A way up along dependencies. */
  ghost predicate WayUp(m: Graph, path: seq<Id>) {
    && |path| >= 2
    && (forall i | 0 <= i < |path| :: path[i] in m)
    && forall i | 0 <= i < |path| - 1 :: path[i + 1] in m[path[i]].deps
  }

  /** No chain of dependencies leads from an entry back to itself. */
  ghost predicate NoCycle(m: Graph) {
    forall path | WayUp(m, path) :: path[0] != path[|path| - 1]
  }

  ghost function Above(m: Graph, x: Id): set<Id> {
    set y | y in m && exists path :: WayUp(m, path) && path[0] == x && path[|path| - 1] == y
  }

  lemma AboveShrinks(m: Graph, c: Id, p: Id)
    requires NoCycle(m) && c in m && p in m && p in m[c].deps
    ensures |Above(m, p)| < |Above(m, c)|
  {
    assert WayUp(m, [c, p]) && [c, p][0] == c && [c, p][|[c, p]| - 1] == p;
    assert p in Above(m, c);
    forall y | y in Above(m, p) ensures y in Above(m, c) && y != p {
      var path :| WayUp(m, path) && path[0] == p && path[|path| - 1] == y;
      assert WayUp(m, [c] + path);
      assert ([c] + path)[0] == c && ([c] + path)[|[c] + path| - 1] == y;
    }
    SubsetIsSmaller(Above(m, p), Above(m, c) - {p});
  }

  /** Every acyclic graph has a ranking, so nothing is lost by asking for one. */
  lemma AcyclicIsRanked(m: Graph)
    requires NoCycle(m) && forall c, p | c in m && p in m[c].deps :: p in m
    ensures exists rk :: Ranks(m, rk)
  {
    var rk := map x | x in m :: |Above(m, x)|;
    forall c, p | c in m && p in m[c].deps ensures p in m && rk[p] < rk[c] {
      AboveShrinks(m, c, p);
    }
    assert Ranks(m, rk);
  }

  // ----------------------------------------------------- a stranded proxy

  lemma InexactMeans(m: Graph, rk: map<Id, nat>, p: Id)
    requires ValidGraph(m, rk) && p in m && m[p].proxy && !Exact(m, {}, p)
    ensures !m[p].current && m[p].punser == 0
  {
    hide KidsOk, ProxiesOk;
    assert UnserKids(m, {}, p) == {};
    CountersCount(m, rk, p);
  }

  lemma CurrentBelow(m: Graph, p: Id)
    requires forall x | x in m && !m[x].proxy :: m[x].current
    ensures !UnserBelow(m, p)
  {
  }

  /** The exception is real: a client's entry that is dirty but whose image is current, given
      to a new proxy, leaves the proxy unserialized although its only child is serialized and
      it counts no unserialized children. */
  method StrandedProxy() returns (c: FlushDepCache)
    ensures c.Valid() && c.objs.Keys == {0, 1} && c.objs[1].proxy && !c.objs[0].proxy
    ensures 1 in c.objs[0].deps && c.objs[0].dirty && c.objs[0].current
    ensures !c.objs[1].current && c.objs[1].punser == 0 && !UnserBelow(c.objs, 1)
  {
    hide Mid, KidsOk, ProxiesOk, Exact, KeepsExact;
    c := new FlushDepCache();
    c.Create(0, false, true);
    c.Create(1, true, false);
    var ok := c.MarkEntrySerialized(0);
    QuietProxy(c.objs, c.rk, 1);
    ProxyAlone(c.objs, 1);
    ghost var m := c.objs;
    ok := c.AddChild(1, 0, map[0 := 1, 1 := 0]);
    InexactMeans(c.objs, c.rk, 1);
    CurrentBelow(c.objs, 1);
  }

  lemma ProxyAlone(m: Graph, p: Id)
    requires ProxiesOk(m, {}) && p in m && m[p].proxy && !m[p].cached
    ensures m[p].pkids == 0
  {
    assert ProxyOk(m, p);
  }
}
