/** The storage behind an object's dense attributes, as a value: the object's heap, the file's
    shared messages, link counts of shared components, and the two indexes. */
module DenseStore {
  import opened NameOrder

  type Comp = nat

  /** An attribute message; `comps` are the committed datatype and shared dataspace it uses. */
  datatype Attr = Attr(name: string, data: int, comps: set<Comp>)

  /** What the object has under a name. */
  datatype Item = Item(attr: Attr, corder: nat)

  /** A record of the name index: where the message is, and its creation order. */
  datatype Rec = Rec(id: nat, shared: bool, corder: nat, hash: nat)

  /** A record of the creation-order index. */
  datatype CRec = CRec(id: nat, shared: bool, corder: nat)

  datatype Message = Message(attr: Attr, rc: nat)

  datatype Store = Store(
    heap: map<nat, Attr>,
    sohm: map<nat, Message>,
    links: map<Comp, nat>,
    names: seq<Rec>,
    corders: seq<CRec>)

  /** What does not change: the hash function, which messages the file shares, and whether
      the object has a creation-order index. */
  datatype Policy = Policy(hash: Hash, sharable: Attr -> bool, indexed: bool)

  predicate Live(s: Store, id: nat, shared: bool) {
    if shared then id in s.sohm else id in s.heap
  }

  function Content(s: Store, id: nat, shared: bool): Attr
    requires Live(s, id, shared)
  {
    if shared then s.sohm[id].attr else s.heap[id]
  }

  ghost predicate AllLive(s: Store) {
    forall i | 0 <= i < |s.names| :: Live(s, s.names[i].id, s.names[i].shared)
  }

  function AttrAt(s: Store, i: nat): Attr
    requires i < |s.names| && Live(s, s.names[i].id, s.names[i].shared)
  {
    Content(s, s.names[i].id, s.names[i].shared)
  }

  ghost function Names(s: Store): (r: seq<string>)
    requires AllLive(s)
    ensures |r| == |s.names| && forall i | 0 <= i < |r| :: r[i] == AttrAt(s, i).name
  {
    seq(|s.names|, i requires 0 <= i < |s.names| => AttrAt(s, i).name)
  }

  /** The name index: every record's object exists, hashes match, and the order is right. */
  ghost predicate NamesOk(hash: Hash, s: Store) {
    && AllLive(s)
    && (forall i | 0 <= i < |s.names| :: s.names[i].hash == hash(AttrAt(s, i).name))
    && InOrder(hash, Names(s))
  }

  /** The index holds what the model says the object has. */
  ghost predicate Represents(s: Store, model: map<string, Item>)
    requires AllLive(s)
  {
    && (forall i | 0 <= i < |s.names| ::
          AttrAt(s, i).name in model && model[AttrAt(s, i).name] == Item(AttrAt(s, i), s.names[i].corder))
    && (forall n | n in model :: n in Names(s))
  }

  /** Each object in the heap belongs to exactly one record. */
  ghost predicate HeapOk(s: Store) {
    OneOwner(s.names) && forall id | id in s.heap :: HasOwner(s.names, id)
  }

  ghost predicate OneOwner(names: seq<Rec>) {
    forall i, j | 0 <= i < j < |names| :: !names[i].shared && !names[j].shared ==> names[i].id != names[j].id
  }

  ghost predicate HasOwner(names: seq<Rec>, id: nat) {
    exists i :: 0 <= i < |names| && !names[i].shared && names[i].id == id
  }

  function CRecOf(r: Rec): CRec { CRec(r.id, r.shared, r.corder) }

  ghost predicate ByCorder(corders: seq<CRec>) {
    forall i, j | 0 <= i < j < |corders| :: corders[i].corder < corders[j].corder
  }

  ghost predicate DistinctCorders(names: seq<Rec>) {
    forall i, j | 0 <= i < j < |names| :: names[i].corder != names[j].corder
  }

  /** Both indexes have the same records. */
  ghost predicate SameRecords(names: seq<Rec>, corders: seq<CRec>) {
    && |corders| == |names|
    && (forall r | r in names :: CRecOf(r) in corders)
    && (forall c | c in corders :: exists r :: r in names && CRecOf(r) == c)
  }

  /** The creation-order index, if the object has one. */
  ghost predicate CordersOk(indexed: bool, s: Store) {
    if indexed then ByCorder(s.corders) && DistinctCorders(s.names) && SameRecords(s.names, s.corders)
    else s.corders == []
  }

  // ------------------------------------------------------------- counting

  function RefsTo(names: seq<Rec>, sid: nat): nat {
    if names == [] then 0
    else RefsTo(names[1..], sid) + if names[0].shared && names[0].id == sid then 1 else 0
  }

  /** References to message sid from elsewhere in the file. */
  function Elsewhere(others: map<nat, Message>, sid: nat): nat {
    if sid in others then others[sid].rc else 0
  }

  /** The reference count of a shared message is the number of this object's records that
      point to it plus the references from elsewhere, whose messages are there as they were;
      messages with equal content are one. */
  ghost predicate CountsOk(s: Store, others: map<nat, Message>) {
    OthersThere(s.sohm, others) && RefsOk(s, others) && OneEach(s.sohm)
  }

  ghost predicate OthersThere(sohm: map<nat, Message>, others: map<nat, Message>) {
    forall sid | sid in others :: others[sid].rc > 0 && sid in sohm && sohm[sid].attr == others[sid].attr
  }

  ghost predicate RefsOk(s: Store, others: map<nat, Message>) {
    forall sid | sid in s.sohm :: s.sohm[sid].rc == RefsTo(s.names, sid) + Elsewhere(others, sid) && s.sohm[sid].rc > 0
  }

  ghost predicate OneEach(sohm: map<nat, Message>) {
    forall x, y | x in sohm && y in sohm && sohm[x].attr == sohm[y].attr :: x == y
  }

  function Links(links: map<Comp, nat>, c: Comp): nat {
    if c in links then links[c] else 0
  }

  ghost function HeapUsers(heap: map<nat, Attr>, c: Comp): set<nat> {
    set id | id in heap && c in heap[id].comps
  }

  ghost function MessageUsers(sohm: map<nat, Message>, c: Comp): set<nat> {
    set sid | sid in sohm && c in sohm[sid].attr.comps
  }

  /** The link count of a shared component is the number of unshared attributes that use it
      plus the number of distinct shared messages that use it, plus uses by other objects. */
  ghost predicate LinksOk(s: Store, base: map<Comp, nat>) {
    forall c :: Links(s.links, c) == Links(base, c) + |HeapUsers(s.heap, c)| + |MessageUsers(s.sohm, c)|
  }

  function LinkUp(links: map<Comp, nat>, comps: set<Comp>): map<Comp, nat> {
    map c | c in links.Keys + comps :: Links(links, c) + if c in comps then 1 else 0
  }

  function LinkDown(links: map<Comp, nat>, comps: set<Comp>): map<Comp, nat>
    requires forall c | c in comps :: Links(links, c) > 0
  {
    map c | c in links.Keys :: if c in comps then Links(links, c) - 1 else links[c]
  }

  /** Everything but the creation-order index and the link counts. */
  ghost predicate Core(hash: Hash, s: Store, model: map<string, Item>, others: map<nat, Message>) {
    NamesOk(hash, s) && Represents(s, model) && HeapOk(s) && CountsOk(s, others)
  }

  ghost predicate Good(pol: Policy, s: Store, model: map<string, Item>, others: map<nat, Message>, base: map<Comp, nat>) {
    Core(pol.hash, s, model, others) && CordersOk(pol.indexed, s) && LinksOk(s, base)
  }

  // ---------------------------------------------------------- inserting

  /** Storing a message: share it if the file shares such messages, else put it in the heap.
      `fresh` is the heap ID the heap hands out. */
  datatype Stored = Stored(s: Store, id: nat, shared: bool)

  ghost predicate StoresAs(pol: Policy, s: Store, attr: Attr, r: Stored) {
    if pol.sharable(attr) then
      && r.shared
      && if exists sid :: sid in s.sohm && s.sohm[sid].attr == attr
         then r.id in s.sohm && s.sohm[r.id].attr == attr
              && r.s == s.(sohm := s.sohm[r.id := Message(attr, s.sohm[r.id].rc + 1)])
         else r.id !in s.sohm && r.s == s.(sohm := s.sohm[r.id := Message(attr, 1)])
    else
      !r.shared && r.id !in s.heap && r.s == s.(heap := s.heap[r.id := attr])
  }

  /** The message is one more user of its components, rather than one more reference to a
      message that already uses them. */
  predicate NewUser(r: Stored) {
    !r.shared || (r.id in r.s.sohm && r.s.sohm[r.id].rc == 1)
  }

  function InsertAt<T>(list: seq<T>, pos: nat, x: T): seq<T>
    requires pos <= |list|
  {
    list[..pos] + [x] + list[pos..]
  }

  function RemoveAt<T>(list: seq<T>, pos: nat): seq<T>
    requires pos < |list|
  {
    list[..pos] + list[pos + 1..]
  }

  lemma {:induction false} RefsToAppend(a: seq<Rec>, b: seq<Rec>, sid: nat)
    ensures RefsTo(a + b, sid) == RefsTo(a, sid) + RefsTo(b, sid)
  {
    if a == [] {
      assert a + b == b;
    } else {
      assert (a + b)[1..] == a[1..] + b;
      RefsToAppend(a[1..], b, sid);
    }
  }

  lemma RefsToInsert(names: seq<Rec>, pos: nat, rec: Rec, sid: nat)
    requires pos <= |names|
    ensures RefsTo(InsertAt(names, pos, rec), sid) == RefsTo(names, sid) + if rec.shared && rec.id == sid then 1 else 0
  {
    RefsToAppend(names[..pos] + [rec], names[pos..], sid);
    RefsToAppend(names[..pos], [rec], sid);
    RefsToAppend(names[..pos], names[pos..], sid);
    assert names[..pos] + names[pos..] == names;
  }

  lemma RefsToRemove(names: seq<Rec>, pos: nat, sid: nat)
    requires pos < |names|
    ensures RefsTo(names, sid) == RefsTo(RemoveAt(names, pos), sid) + if names[pos].shared && names[pos].id == sid then 1 else 0
  {
    RefsToInsert(RemoveAt(names, pos), pos, names[pos], sid);
    assert InsertAt(RemoveAt(names, pos), pos, names[pos]) == names;
  }

  lemma {:induction false} RefsToExists(names: seq<Rec>, sid: nat)
    ensures RefsTo(names, sid) > 0 <==> exists i :: 0 <= i < |names| && names[i].shared && names[i].id == sid
  {
    if names != [] {
      RefsToExists(names[1..], sid);
      if i :| 0 <= i < |names[1..]| && names[1..][i].shared && names[1..][i].id == sid {
        assert names[i + 1].shared && names[i + 1].id == sid;
      }
      if i :| 0 <= i < |names| && names[i].shared && names[i].id == sid {
        assert i > 0 ==> names[1..][i - 1] == names[i];
      }
    }
  }

  /** All of s's messages are in s1 with the same content. */
  ghost predicate Extends(s: Store, s1: Store) {
    && s1.names == s.names
    && (forall id | id in s.heap :: id in s1.heap && s1.heap[id] == s.heap[id])
    && (forall sid | sid in s.sohm :: sid in s1.sohm && s1.sohm[sid].attr == s.sohm[sid].attr)
  }

  lemma ExtendsNames(hash: Hash, s: Store, s1: Store, model: map<string, Item>)
    requires NamesOk(hash, s) && Represents(s, model) && Extends(s, s1)
    ensures NamesOk(hash, s1) && Represents(s1, model) && Names(s1) == Names(s)
  {
    assert forall i | 0 <= i < |s.names| :: AttrAt(s1, i) == AttrAt(s, i);
    assert Names(s1) == Names(s);
  }

  lemma InsertShift(s: Store, pos: nat, rec: Rec, i: nat)
    requires AllLive(s) && Live(s, rec.id, rec.shared) && pos <= |s.names| && i <= |s.names|
    ensures var s' := s.(names := InsertAt(s.names, pos, rec));
      && |s'.names| == |s.names| + 1
      && s'.names[i] == (if i < pos then s.names[i] else if i == pos then rec else s.names[i - 1])
      && Live(s', s'.names[i].id, s'.names[i].shared)
      && AttrAt(s', i) == (if i < pos then AttrAt(s, i) else if i == pos then Content(s, rec.id, rec.shared) else AttrAt(s, i - 1))
  {
  }

  /** A record is inserted at its place. */
  lemma InsertName(hash: Hash, s: Store, model: map<string, Item>, pos: nat, rec: Rec)
    requires NamesOk(hash, s) && Represents(s, model) && Live(s, rec.id, rec.shared)
    requires var attr := Content(s, rec.id, rec.shared);
      rec.hash == hash(attr.name) && attr.name !in model && Place(hash, Names(s), attr.name, pos)
    ensures var attr, s' := Content(s, rec.id, rec.shared), s.(names := InsertAt(s.names, pos, rec));
      NamesOk(hash, s') && Represents(s', model[attr.name := Item(attr, rec.corder)])
  {
    hide InOrder, InsertAt;
    var attr, s' := Content(s, rec.id, rec.shared), s.(names := InsertAt(s.names, pos, rec));
    InsertShift(s, pos, rec, 0);
    forall i | 0 <= i < |s'.names|
      ensures Live(s', s'.names[i].id, s'.names[i].shared)
      ensures s'.names[i].hash == hash(AttrAt(s', i).name)
      ensures var m := model[attr.name := Item(attr, rec.corder)];
        AttrAt(s', i).name in m && m[AttrAt(s', i).name] == Item(AttrAt(s', i), s'.names[i].corder)
    {
      InsertShift(s, pos, rec, i);
    }
    InsertedNames(hash, s, model, pos, rec);
  }

  lemma InsertedNames(hash: Hash, s: Store, model: map<string, Item>, pos: nat, rec: Rec)
    requires NamesOk(hash, s) && Represents(s, model) && Live(s, rec.id, rec.shared)
    requires var name := Content(s, rec.id, rec.shared).name; name !in model && Place(hash, Names(s), name, pos)
    ensures var name, s' := Content(s, rec.id, rec.shared).name, s.(names := InsertAt(s.names, pos, rec));
      AllLive(s') && InOrder(hash, Names(s')) && forall n | n in model || n == name :: n in Names(s')
  {
    hide InOrder, Represents, Names;
    var name := Content(s, rec.id, rec.shared).name;
    NameInserted(s, pos, rec);
    ModelNames(s, model);
    InsertKeepsOrder(hash, Names(s), name, pos);
    InsertMembers(Names(s), pos, name);
  }

  lemma NameInserted(s: Store, pos: nat, rec: Rec)
    requires AllLive(s) && Live(s, rec.id, rec.shared) && pos <= |s.names|
    ensures var s' := s.(names := InsertAt(s.names, pos, rec));
      AllLive(s') && Names(s') == InsertAt(Names(s), pos, Content(s, rec.id, rec.shared).name)
  {
  }

  lemma ModelNames(s: Store, model: map<string, Item>)
    requires AllLive(s) && Represents(s, model)
    ensures forall n :: n in Names(s) <==> n in model
  {
    forall n | n in Names(s) ensures n in model {
      var i :| 0 <= i < |Names(s)| && Names(s)[i] == n;
    }
  }

  lemma InsertMembers<T>(list: seq<T>, pos: nat, x: T)
    requires pos <= |list|
    ensures forall y :: y in InsertAt(list, pos, x) <==> y in list || y == x
  {
    assert list == list[..pos] + list[pos..];
  }

  lemma RemoveShift(s: Store, pos: nat, i: nat)
    requires AllLive(s) && pos < |s.names| && i < |s.names| - 1
    ensures var s' := s.(names := RemoveAt(s.names, pos));
      && |s'.names| == |s.names| - 1
      && s'.names[i] == s.names[if i < pos then i else i + 1]
      && Live(s', s'.names[i].id, s'.names[i].shared)
      && AttrAt(s', i) == AttrAt(s, if i < pos then i else i + 1)
  {
  }

  lemma RemoveName(hash: Hash, s: Store, model: map<string, Item>, pos: nat)
    requires NamesOk(hash, s) && Represents(s, model) && pos < |s.names|
    ensures var s' := s.(names := RemoveAt(s.names, pos));
      NamesOk(hash, s') && Represents(s', model - {AttrAt(s, pos).name})
  {
    hide InOrder, RemoveAt;
    var name, s' := AttrAt(s, pos).name, s.(names := RemoveAt(s.names, pos));
    RemovedNames(hash, s, pos);
    forall i | 0 <= i < |s'.names|
      ensures Live(s', s'.names[i].id, s'.names[i].shared)
      ensures s'.names[i].hash == hash(AttrAt(s', i).name)
      ensures AttrAt(s', i).name in model - {name}
      ensures model[AttrAt(s', i).name] == Item(AttrAt(s', i), s'.names[i].corder)
    {
      RemoveShift(s, pos, i);
      assert Names(s')[i] in Names(s');
    }
    forall n | n in model - {name} ensures n in Names(s') {
      assert n in Names(s);
    }
  }

  lemma RemovedNames(hash: Hash, s: Store, pos: nat)
    requires NamesOk(hash, s) && pos < |s.names|
    ensures var name, s' := AttrAt(s, pos).name, s.(names := RemoveAt(s.names, pos));
      && AllLive(s') && |s'.names| == |s.names| - 1 && InOrder(hash, Names(s'))
      && name !in Names(s') && forall n | n in Names(s) && n != name :: n in Names(s')
  {
    hide InOrder;
    var s' := s.(names := RemoveAt(s.names, pos));
    var was, now := Names(s), Names(s');
    assert now == was[..pos] + was[pos + 1..];
    RemoveKeepsOrder(hash, was, pos);
    forall n | n in was && n != was[pos] ensures n in now {
      var j :| 0 <= j < |was| && was[j] == n;
      assert now[if j < pos then j else j - 1] == n;
    }
  }
}
