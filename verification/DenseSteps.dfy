/** What storing, releasing and replacing a message does to the invariants of dense storage. */
module DenseSteps {
  import opened NameOrder
  import opened DenseStore

  // --------------------------------------------------------------- storing

  lemma StoreExtends(pol: Policy, s: Store, attr: Attr, st: Stored)
    requires StoresAs(pol, s, attr, st)
    ensures Extends(s, st.s) && Live(st.s, st.id, st.shared) && Content(st.s, st.id, st.shared) == attr
    ensures st.s.names == s.names && st.s.corders == s.corders && st.s.links == s.links
  {
  }

  function NewRec(hash: Hash, attr: Attr, st: Stored, corder: nat): Rec {
    Rec(st.id, st.shared, corder, hash(attr.name))
  }

  /** The three ways a message is stored. */
  lemma StoreCases(pol: Policy, s: Store, attr: Attr, st: Stored)
    requires StoresAs(pol, s, attr, st)
    ensures !st.shared ==> st.id !in s.heap && st.s == s.(heap := s.heap[st.id := attr])
    ensures st.shared && st.id in s.sohm ==>
      s.sohm[st.id].attr == attr && st.s == s.(sohm := s.sohm[st.id := Message(attr, s.sohm[st.id].rc + 1)])
    ensures st.shared && st.id !in s.sohm ==>
      st.s == s.(sohm := s.sohm[st.id := Message(attr, 1)]) && forall sid | sid in s.sohm :: s.sohm[sid].attr != attr
  {
  }

  lemma InsertCounts(s: Store, pol: Policy, attr: Attr, st: Stored, others: map<nat, Message>, pos: nat, rec: Rec)
    requires CountsOk(s, others) && StoresAs(pol, s, attr, st) && pos <= |s.names|
    requires AllLive(s) && rec.id == st.id && rec.shared == st.shared
    ensures CountsOk(st.s.(names := InsertAt(s.names, pos, rec)), others)
  {
    hide AllLive, StoresAs, InsertAt, RefsTo, OneEach;
    StoreCases(pol, s, attr, st);
    StoreKeepsOneEach(pol, s, attr, st);
    var s' := st.s.(names := InsertAt(s.names, pos, rec));
    forall sid | sid in s'.sohm ensures s'.sohm[sid].rc == RefsTo(s'.names, sid) + Elsewhere(others, sid) && s'.sohm[sid].rc > 0 {
      RefsToInsert(s.names, pos, rec, sid);
      if sid !in s.sohm {
        NoRefs(s, sid);
      }
    }
  }

  lemma StoreKeepsOneEach(pol: Policy, s: Store, attr: Attr, st: Stored)
    requires OneEach(s.sohm) && StoresAs(pol, s, attr, st)
    ensures OneEach(st.s.sohm)
  {
  }

  lemma NoRefs(s: Store, sid: nat)
    requires AllLive(s) && sid !in s.sohm
    ensures RefsTo(s.names, sid) == 0
  {
    RefsToExists(s.names, sid);
  }

  lemma InsertOwner(names: seq<Rec>, pos: nat, rec: Rec)
    requires OneOwner(names) && pos <= |names| && (!rec.shared ==> !HasOwner(names, rec.id))
    ensures OneOwner(InsertAt(names, pos, rec))
    ensures forall id | HasOwner(names, id) || (!rec.shared && id == rec.id) :: HasOwner(InsertAt(names, pos, rec), id)
  {
    var r := InsertAt(names, pos, rec);
    forall id | HasOwner(names, id) || (!rec.shared && id == rec.id) ensures HasOwner(r, id) {
      if HasOwner(names, id) {
        var j :| 0 <= j < |names| && !names[j].shared && names[j].id == id;
        assert r[if j < pos then j else j + 1] == names[j];
      } else {
        assert r[pos] == rec;
      }
    }
  }

  lemma RemoveOwner(names: seq<Rec>, pos: nat)
    requires OneOwner(names) && pos < |names|
    ensures OneOwner(RemoveAt(names, pos))
    ensures forall id | HasOwner(names, id) && (names[pos].shared || id != names[pos].id) :: HasOwner(RemoveAt(names, pos), id)
  {
    var r := RemoveAt(names, pos);
    forall id | HasOwner(names, id) && (names[pos].shared || id != names[pos].id) ensures HasOwner(r, id) {
      var j :| 0 <= j < |names| && !names[j].shared && names[j].id == id;
      assert r[if j < pos then j else j - 1] == names[j];
    }
  }

  lemma OwnersAreLive(s: Store, id: nat)
    requires AllLive(s) && HasOwner(s.names, id)
    ensures id in s.heap
  {
  }

  lemma InsertHeap(s: Store, pol: Policy, attr: Attr, st: Stored, pos: nat, rec: Rec)
    requires HeapOk(s) && StoresAs(pol, s, attr, st) && pos <= |s.names| && AllLive(s)
    requires rec.id == st.id && rec.shared == st.shared
    ensures HeapOk(st.s.(names := InsertAt(s.names, pos, rec)))
  {
    hide StoresAs, AllLive, OneOwner, HasOwner, InsertAt;
    StoreCases(pol, s, attr, st);
    if HasOwner(s.names, rec.id) {
      OwnersAreLive(s, rec.id);
    }
    InsertOwner(s.names, pos, rec);
  }

  /** A message stored and entered under a new name at its place. */
  lemma InsertCore(pol: Policy, s: Store, model: map<string, Item>, others: map<nat, Message>, attr: Attr, st: Stored, corder: nat, pos: nat)
    requires Core(pol.hash, s, model, others) && StoresAs(pol, s, attr, st)
    requires attr.name !in model && Place(pol.hash, Names(s), attr.name, pos)
    ensures Core(pol.hash, st.s.(names := InsertAt(s.names, pos, NewRec(pol.hash, attr, st, corder))),
                 model[attr.name := Item(attr, corder)], others)
  {
    hide StoresAs, HeapOk, CountsOk, InsertAt;
    StoreExtends(pol, s, attr, st);
    ExtendsNames(pol.hash, s, st.s, model);
    var rec := NewRec(pol.hash, attr, st, corder);
    InsertName(pol.hash, st.s, model, pos, rec);
    InsertHeap(s, pol, attr, st, pos, rec);
    InsertCounts(s, pol, attr, st, others, pos, rec);
  }

  lemma StoreLinks(pol: Policy, s: Store, others: map<nat, Message>, base: map<Comp, nat>, attr: Attr, st: Stored)
    requires LinksOk(s, base) && CountsOk(s, others) && StoresAs(pol, s, attr, st)
    ensures LinksOk(st.s.(links := if NewUser(st) then LinkUp(s.links, attr.comps) else s.links), base)
  {
    hide CountsOk;
    var s' := st.s.(links := if NewUser(st) then LinkUp(s.links, attr.comps) else s.links);
    forall c ensures Links(s'.links, c) == Links(base, c) + |HeapUsers(s'.heap, c)| + |MessageUsers(s'.sohm, c)| {
      StoreUsers(pol, s, others, attr, st, c);
    }
  }

  lemma HeapUserAdded(heap: map<nat, Attr>, id: nat, attr: Attr, c: Comp)
    requires id !in heap
    ensures |HeapUsers(heap[id := attr], c)| == |HeapUsers(heap, c)| + if c in attr.comps then 1 else 0
  {
    assert HeapUsers(heap[id := attr], c) == HeapUsers(heap, c) + if c in attr.comps then {id} else {};
  }

  lemma MessageUserAdded(sohm: map<nat, Message>, id: nat, m: Message, c: Comp)
    ensures id !in sohm ==> |MessageUsers(sohm[id := m], c)| == |MessageUsers(sohm, c)| + if c in m.attr.comps then 1 else 0
    ensures id in sohm && sohm[id].attr == m.attr ==> MessageUsers(sohm[id := m], c) == MessageUsers(sohm, c)
  {
    if id !in sohm {
      assert MessageUsers(sohm[id := m], c) == MessageUsers(sohm, c) + if c in m.attr.comps then {id} else {};
    } else if sohm[id].attr == m.attr {
      assert MessageUsers(sohm[id := m], c) == MessageUsers(sohm, c);
    }
  }

  lemma StoreUsers(pol: Policy, s: Store, others: map<nat, Message>, attr: Attr, st: Stored, c: Comp)
    requires CountsOk(s, others) && StoresAs(pol, s, attr, st)
    ensures |HeapUsers(st.s.heap, c)| + |MessageUsers(st.s.sohm, c)|
            == |HeapUsers(s.heap, c)| + |MessageUsers(s.sohm, c)| + if NewUser(st) && c in attr.comps then 1 else 0
  {
    hide StoresAs, HeapUsers, MessageUsers;
    StoreCases(pol, s, attr, st);
    if st.shared {
      MessageUserAdded(s.sohm, st.id, st.s.sohm[st.id], c);
    } else {
      HeapUserAdded(s.heap, st.id, attr, c);
    }
  }

  // ------------------------------------------------------------- releasing

  /** The last use of a message gives up its components. */
  predicate LastUse(s: Store, id: nat, shared: bool)
    requires Live(s, id, shared)
  {
    shared ==> s.sohm[id].rc <= 1
  }

  predicate CanUnlink(links: map<Comp, nat>, comps: set<Comp>) {
    forall c | c in comps :: Links(links, c) > 0
  }

  /** One reference to a message is given up; an unshared message, or a shared one without
      other references, goes away and gives up its components. */
  function Dropped(s: Store, id: nat, shared: bool): Store
    requires Live(s, id, shared) && (LastUse(s, id, shared) ==> CanUnlink(s.links, Content(s, id, shared).comps))
  {
    if shared then
      if s.sohm[id].rc > 1 then s.(sohm := s.sohm[id := s.sohm[id].(rc := s.sohm[id].rc - 1)])
      else s.(sohm := s.sohm - {id}, links := LinkDown(s.links, s.sohm[id].attr.comps))
    else s.(heap := s.heap - {id}, links := LinkDown(s.links, s.heap[id].comps))
  }

  lemma DropLinks(s: Store, base: map<Comp, nat>, id: nat, shared: bool)
    requires LinksOk(s, base) && Live(s, id, shared)
    ensures CanUnlink(s.links, Content(s, id, shared).comps)
    ensures LinksOk(Dropped(s, id, shared), base)
  {
    forall c | c in Content(s, id, shared).comps ensures Links(s.links, c) > 0 {
      if shared {
        assert id in MessageUsers(s.sohm, c);
      } else {
        assert id in HeapUsers(s.heap, c);
      }
    }
    var s' := Dropped(s, id, shared);
    forall c ensures Links(s'.links, c) == Links(base, c) + |HeapUsers(s'.heap, c)| + |MessageUsers(s'.sohm, c)| {
      DropUsers(s, id, shared, c);
    }
  }

  lemma DropUsers(s: Store, id: nat, shared: bool, c: Comp)
    requires Live(s, id, shared) && CanUnlink(s.links, Content(s, id, shared).comps)
    ensures var s' := Dropped(s, id, shared);
      && |HeapUsers(s'.heap, c)| + |MessageUsers(s'.sohm, c)| + (if LastUse(s, id, shared) && c in Content(s, id, shared).comps then 1 else 0)
         == |HeapUsers(s.heap, c)| + |MessageUsers(s.sohm, c)|
      && Links(s'.links, c) + (if LastUse(s, id, shared) && c in Content(s, id, shared).comps then 1 else 0) == Links(s.links, c)
  {
    if !shared {
      HeapUserRemoved(s.heap, id, c);
    } else if s.sohm[id].rc > 1 {
      assert MessageUsers(Dropped(s, id, shared).sohm, c) == MessageUsers(s.sohm, c);
    } else {
      MessageUserRemoved(s.sohm, id, c);
    }
  }

  lemma HeapUserRemoved(heap: map<nat, Attr>, id: nat, c: Comp)
    requires id in heap
    ensures |HeapUsers(heap - {id}, c)| + (if c in heap[id].comps then 1 else 0) == |HeapUsers(heap, c)|
  {
    var one := if c in heap[id].comps then {id} else {};
    assert HeapUsers(heap - {id}, c) == HeapUsers(heap, c) - one;
    assert one <= HeapUsers(heap, c);
  }

  lemma MessageUserRemoved(sohm: map<nat, Message>, id: nat, c: Comp)
    requires id in sohm
    ensures |MessageUsers(sohm - {id}, c)| + (if c in sohm[id].attr.comps then 1 else 0) == |MessageUsers(sohm, c)|
  {
    var one := if c in sohm[id].attr.comps then {id} else {};
    assert MessageUsers(sohm - {id}, c) == MessageUsers(sohm, c) - one;
    assert one <= MessageUsers(sohm, c);
  }

  /** The record at pos and its message are gone. */
  function RemovedAt(s: Store, pos: nat): Store
    requires pos < |s.names| && Live(s, s.names[pos].id, s.names[pos].shared)
    requires LastUse(s, s.names[pos].id, s.names[pos].shared) ==> CanUnlink(s.links, AttrAt(s, pos).comps)
  {
    Dropped(s, s.names[pos].id, s.names[pos].shared).(names := RemoveAt(s.names, pos))
  }

  lemma RemoveCounts(s: Store, others: map<nat, Message>, pos: nat)
    requires AllLive(s) && CountsOk(s, others) && pos < |s.names| && CanUnlink(s.links, AttrAt(s, pos).comps)
    ensures CountsOk(RemovedAt(s, pos), others)
  {
    hide CanUnlink, RemoveAt, LinkDown, RefsTo, OneEach;
    var s', rec := RemovedAt(s, pos), s.names[pos];
    FewerMessages(s.sohm, s'.sohm);
    RefsToRemove(s.names, pos, rec.id);
    forall sid | sid in s'.sohm ensures s'.sohm[sid].rc == RefsTo(s'.names, sid) + Elsewhere(others, sid) && s'.sohm[sid].rc > 0 {
      RefsToRemove(s.names, pos, sid);
    }
  }

  lemma FewerMessages(sohm: map<nat, Message>, sohm': map<nat, Message>)
    requires OneEach(sohm) && forall sid | sid in sohm' :: sid in sohm && sohm'[sid].attr == sohm[sid].attr
    ensures OneEach(sohm')
  {
  }

  lemma RemoveHeap(s: Store, pos: nat)
    requires AllLive(s) && HeapOk(s) && pos < |s.names| && CanUnlink(s.links, AttrAt(s, pos).comps)
    ensures HeapOk(RemovedAt(s, pos))
  {
    hide CanUnlink, OneOwner, HasOwner, RemoveAt, LinkDown;
    RemoveOwner(s.names, pos);
  }

  /** No other record needs the message that goes away. */
  lemma RemoveIsUnneeded(s: Store, others: map<nat, Message>, pos: nat)
    requires AllLive(s) && HeapOk(s) && CountsOk(s, others) && pos < |s.names| && CanUnlink(s.links, AttrAt(s, pos).comps)
    ensures var s1, s' := s.(names := RemoveAt(s.names, pos)), RemovedAt(s, pos);
      forall i | 0 <= i < |s1.names| ::
        && Live(s1, s1.names[i].id, s1.names[i].shared) && Live(s', s1.names[i].id, s1.names[i].shared)
        && Content(s', s1.names[i].id, s1.names[i].shared) == Content(s1, s1.names[i].id, s1.names[i].shared)
  {
    var s1, s', rec := s.(names := RemoveAt(s.names, pos)), RemovedAt(s, pos), s.names[pos];
    hide CanUnlink, LinkDown;
    RefsToRemove(s.names, pos, rec.id);
    RefsToExists(s1.names, rec.id);
    forall i | 0 <= i < |s1.names|
      ensures Live(s1, s1.names[i].id, s1.names[i].shared) && Live(s', s1.names[i].id, s1.names[i].shared)
      ensures Content(s', s1.names[i].id, s1.names[i].shared) == Content(s1, s1.names[i].id, s1.names[i].shared)
    {
      assert s1.names[i] == s.names[if i < pos then i else i + 1];
    }
  }

  lemma SameNames(hash: Hash, s: Store, s': Store, model: map<string, Item>)
    requires NamesOk(hash, s) && Represents(s, model) && s'.names == s.names
    requires forall i | 0 <= i < |s.names| ::
      Live(s', s.names[i].id, s.names[i].shared) && Content(s', s.names[i].id, s.names[i].shared) == AttrAt(s, i)
    ensures NamesOk(hash, s') && Represents(s', model) && Names(s') == Names(s)
  {
    assert Names(s') == Names(s);
  }

  lemma RemoveCore(hash: Hash, s: Store, model: map<string, Item>, others: map<nat, Message>, pos: nat)
    requires Core(hash, s, model, others) && pos < |s.names| && CanUnlink(s.links, AttrAt(s, pos).comps)
    ensures Core(hash, RemovedAt(s, pos), model - {AttrAt(s, pos).name}, others)
  {
    hide CountsOk, HeapOk, CanUnlink, InOrder, Represents, RemoveAt;
    var s1, s' := s.(names := RemoveAt(s.names, pos)), RemovedAt(s, pos);
    RemoveName(hash, s, model, pos);
    RemoveIsUnneeded(s, others, pos);
    SameNames(hash, s1, s', model - {AttrAt(s, pos).name});
    RemoveCounts(s, others, pos);
    RemoveHeap(s, pos);
  }

  // -------------------------------------------------- creation-order index

  /** Where a creation order is, or would go. */
  ghost predicate CPlace(corders: seq<CRec>, corder: nat, pos: nat) {
    && pos <= |corders|
    && (forall i | 0 <= i < pos :: corders[i].corder < corder)
    && (forall i | pos <= i < |corders| :: corders[i].corder >= corder)
  }

  lemma InsertCorder(names: seq<Rec>, corders: seq<CRec>, pos: nat, rec: Rec, cpos: nat)
    requires ByCorder(corders) && DistinctCorders(names) && SameRecords(names, corders)
    requires pos <= |names| && CPlace(corders, rec.corder, cpos) && forall r | r in names :: r.corder != rec.corder
    ensures var ns, cs := InsertAt(names, pos, rec), InsertAt(corders, cpos, CRecOf(rec));
      ByCorder(cs) && DistinctCorders(ns) && SameRecords(ns, cs)
  {
    var ns, cs := InsertAt(names, pos, rec), InsertAt(corders, cpos, CRecOf(rec));
    InsertMembers(names, pos, rec);
    InsertMembers(corders, cpos, CRecOf(rec));
    forall i | 0 <= i < |corders| ensures corders[i].corder != rec.corder {
      assert corders[i] in corders;
    }
    CordersInsert(names, pos, rec);
    forall c | c in cs ensures exists r :: r in ns && CRecOf(r) == c {
      if c == CRecOf(rec) {
        assert rec in ns;
      } else {
        var r :| r in names && CRecOf(r) == c;
        assert r in ns;
      }
    }
  }

  lemma CordersInsert(names: seq<Rec>, pos: nat, rec: Rec)
    requires DistinctCorders(names) && pos <= |names| && forall r | r in names :: r.corder != rec.corder
    ensures DistinctCorders(InsertAt(names, pos, rec))
  {
    var ns := InsertAt(names, pos, rec);
    assert forall i | 0 <= i < |names| :: names[i] in names;
    forall i, j | 0 <= i < j < |ns| ensures ns[i].corder != ns[j].corder {
      assert ns[i] == if i < pos then names[i] else if i == pos then rec else names[i - 1];
      assert ns[j] == if j < pos then names[j] else if j == pos then rec else names[j - 1];
    }
  }

  lemma RemoveMembers<T>(list: seq<T>, pos: nat)
    requires pos < |list| && forall i | 0 <= i < |list| && i != pos :: list[i] != list[pos]
    ensures forall y :: y in RemoveAt(list, pos) <==> y in list && y != list[pos]
  {
    var r := RemoveAt(list, pos);
    forall y | y in list && y != list[pos] ensures y in r {
      var j :| 0 <= j < |list| && list[j] == y;
      assert r[if j < pos then j else j - 1] == y;
    }
  }

  lemma OrderTells(names: seq<Rec>, a: Rec, b: Rec)
    requires DistinctCorders(names) && a in names && b in names
    ensures a.corder == b.corder <==> a == b
  {
    var i :| 0 <= i < |names| && names[i] == a;
    var j :| 0 <= j < |names| && names[j] == b;
  }

  lemma NamesDiffer(names: seq<Rec>, pos: nat)
    requires DistinctCorders(names) && pos < |names|
    ensures forall i | 0 <= i < |names| && i != pos :: names[i] != names[pos]
  {
  }

  lemma CordersRemove(names: seq<Rec>, pos: nat)
    requires DistinctCorders(names) && pos < |names|
    ensures DistinctCorders(RemoveAt(names, pos))
  {
    var ns := RemoveAt(names, pos);
    forall i, j | 0 <= i < j < |ns| ensures ns[i].corder != ns[j].corder {
      assert ns[i] == names[if i < pos then i else i + 1] && ns[j] == names[if j < pos then j else j + 1];
    }
  }

  lemma RemoveCorder(names: seq<Rec>, corders: seq<CRec>, pos: nat, cpos: nat)
    requires ByCorder(corders) && DistinctCorders(names) && SameRecords(names, corders)
    requires pos < |names| && cpos < |corders| && corders[cpos].corder == names[pos].corder
    ensures corders[cpos] == CRecOf(names[pos])
    ensures var ns, cs := RemoveAt(names, pos), RemoveAt(corders, cpos);
      && ByCorder(cs) && DistinctCorders(ns) && SameRecords(ns, cs)
      && (forall r | r in ns :: r.corder != names[pos].corder) && (forall c | c in cs :: c.corder != names[pos].corder)
  {
    hide DistinctCorders;
    var ns, cs := RemoveAt(names, pos), RemoveAt(corders, cpos);
    NamesDiffer(names, pos);
    assert corders[cpos] in corders && names[pos] in names;
    var r0 :| r0 in names && CRecOf(r0) == corders[cpos];
    OrderTells(names, r0, names[pos]);
    RemoveMembers(names, pos);
    RemoveMembers(corders, cpos);
    forall r | r in ns ensures CRecOf(r) in cs && r.corder != names[pos].corder {
      OrderTells(names, r, names[pos]);
      assert CRecOf(r) in corders;
    }
    CordersRemove(names, pos);
    forall c | c in cs ensures exists r :: r in ns && CRecOf(r) == c {
      var r :| r in names && CRecOf(r) == c;
      assert r in ns;
    }
  }

  /** An order that is in the name index is found in the creation-order index. */
  lemma CorderIsThere(names: seq<Rec>, corders: seq<CRec>, rec: Rec, cpos: nat)
    requires SameRecords(names, corders) && ByCorder(corders) && rec in names && CPlace(corders, rec.corder, cpos)
    ensures cpos < |corders| && corders[cpos] == CRecOf(rec)
  {
    var j :| 0 <= j < |corders| && corders[j] == CRecOf(rec);
    assert j >= cpos;
  }

  /** Inserting first and then removing an older record is removing it first. */
  lemma RemoveInsertSwap<T>(list: seq<T>, pos: nat, x: T, k: nat)
    requires pos <= |list| && k < |list|
    ensures RemoveAt(InsertAt(list, pos, x), if k < pos then k else k + 1)
            == InsertAt(RemoveAt(list, k), if k < pos then pos - 1 else pos, x)
  {
  }

  // --------------------------------------------------- operations, as a whole

  /** s' is s with the message `attr` stored and entered in both indexes. */
  ghost predicate Entered(pol: Policy, s: Store, s': Store, attr: Attr, corder: nat, id: nat, shared: bool, pos: nat, cpos: nat) {
    var st := Stored(s.(heap := s'.heap, sohm := s'.sohm), id, shared);
    && StoresAs(pol, s, attr, st)
    && pos <= |s.names| && s'.names == InsertAt(s.names, pos, NewRec(pol.hash, attr, st, corder))
    && (if pol.indexed then cpos <= |s.corders| && s'.corders == InsertAt(s.corders, cpos, CRec(id, shared, corder))
        else s'.corders == s.corders)
    && s'.links == s.links
  }

  /** s' is s without the record at pos and its message; the creation-order index aside. */
  ghost predicate TakenOut(s: Store, s': Store, pos: nat) {
    && pos < |s.names| && Live(s, s.names[pos].id, s.names[pos].shared) && CanUnlink(s.links, AttrAt(s, pos).comps)
    && s' == RemovedAt(s, pos).(corders := s'.corders)
  }

  /** Only the link counts, or the creation-order index, differ. */
  lemma CoreIgnores(hash: Hash, s: Store, s': Store, model: map<string, Item>, others: map<nat, Message>)
    requires Core(hash, s, model, others) && s' == s.(links := s'.links, corders := s'.corders)
    ensures Core(hash, s', model, others) && Names(s') == Names(s)
  {
    SameNames(hash, s, s', model);
  }

  lemma LinksIgnore(s: Store, s': Store, base: map<Comp, nat>)
    requires LinksOk(s, base) && s'.heap == s.heap && s'.sohm == s.sohm && forall c :: Links(s'.links, c) == Links(s.links, c)
    ensures LinksOk(s', base)
  {
  }

  lemma UpAndDown(links: map<Comp, nat>, comps: set<Comp>)
    ensures CanUnlink(LinkUp(links, comps), comps)
    ensures forall c :: Links(LinkDown(LinkUp(links, comps), comps), c) == Links(links, c)
  {
  }

  lemma PlaceBounds(hash: Hash, names: seq<string>, name: string, pos: nat)
    requires Place(hash, names, name, pos)
    ensures pos <= |names|
  {
  }

  lemma CPlaceBounds(corders: seq<CRec>, corder: nat, pos: nat)
    requires CPlace(corders, corder, pos)
    ensures pos <= |corders|
  {
  }

  lemma FreshCorder(hash: Hash, s: Store, model: map<string, Item>, others: map<nat, Message>, corder: nat)
    requires Core(hash, s, model, others) && CordersOk(true, s) && forall n | n in model :: model[n].corder != corder
    ensures ByCorder(s.corders) && DistinctCorders(s.names) && SameRecords(s.names, s.corders)
    ensures forall r | r in s.names :: r.corder != corder
    ensures forall c | c in s.corders :: c.corder != corder
  {
    forall r | r in s.names ensures r.corder != corder {
      var i :| 0 <= i < |s.names| && s.names[i] == r;
      assert AttrAt(s, i).name in model;
    }
  }

  /** The creation-order index keeps up with an insertion. */
  lemma EnteredCorders(pol: Policy, s: Store, s': Store, attr: Attr, corder: nat, id: nat, shared: bool, pos: nat, cpos: nat)
    requires CordersOk(pol.indexed, s) && Entered(pol, s, s', attr, corder, id, shared, pos, cpos)
    requires pol.indexed ==> CPlace(s.corders, corder, cpos) && forall r | r in s.names :: r.corder != corder
    ensures CordersOk(pol.indexed, s')
  {
    hide StoresAs, InsertAt, ByCorder, DistinctCorders, SameRecords, CPlace;
    if pol.indexed {
      InsertCorder(s.names, s.corders, pos, NewRec(pol.hash, attr, Stored(s.(heap := s'.heap, sohm := s'.sohm), id, shared), corder), cpos);
    }
  }

  /** Links aside, the same message has been stored. */
  lemma StoresAnyLinks(pol: Policy, s: Store, s1: Store, attr: Attr, st: Stored)
    requires StoresAs(pol, s1, attr, st) && s1 == s.(links := s1.links)
    ensures StoresAs(pol, s, attr, st.(s := st.s.(links := s.links)))
  {
  }

  /** After an insertion the link counts are right once a new user is counted. */
  lemma EnteredLinks(pol: Policy, s: Store, s': Store, others: map<nat, Message>, base: map<Comp, nat>, attr: Attr, id: nat, shared: bool)
    requires LinksOk(s, base) && CountsOk(s, others)
    requires var s1 := s.(links := s'.links); StoresAs(pol, s1, attr, Stored(s1.(heap := s'.heap, sohm := s'.sohm), id, shared))
    ensures Live(s', id, shared) && (shared ==> s'.sohm[id].rc > 0)
    ensures LinksOk(s'.(links := if !shared || s'.sohm[id].rc == 1 then LinkUp(s.links, attr.comps) else s.links), base)
  {
    hide LinksOk, CountsOk, StoresAs;
    var s1 := s.(links := s'.links);
    var st1 := Stored(s1.(heap := s'.heap, sohm := s'.sohm), id, shared);
    StoresAnyLinks(pol, s, s1, attr, st1);
    var st := st1.(s := st1.s.(links := s.links));
    StoreCases(pol, s, attr, st);
    StoreExtends(pol, s, attr, st);
    StoreLinks(pol, s, others, base, attr, st);
    LinksIgnore(st.s.(links := if NewUser(st) then LinkUp(s.links, attr.comps) else s.links),
                s'.(links := if !shared || s'.sohm[id].rc == 1 then LinkUp(s.links, attr.comps) else s.links), base);
  }

  lemma TakenOutKeeps(hash: Hash, s: Store, s': Store, model: map<string, Item>, others: map<nat, Message>, base: map<Comp, nat>, pos: nat)
    requires Core(hash, s, model, others) && LinksOk(s, base) && TakenOut(s, s', pos)
    ensures Core(hash, s', model - {AttrAt(s, pos).name}, others) && LinksOk(s', base)
  {
    hide CountsOk, HeapOk, Represents, InOrder, RemoveAt, LinksOk;
    RemoveCore(hash, s, model, others, pos);
    CoreIgnores(hash, RemovedAt(s, pos), s', model - {AttrAt(s, pos).name}, others);
    DropLinks(s, base, s.names[pos].id, s.names[pos].shared);
    LinksIgnore(Dropped(s, s.names[pos].id, s.names[pos].shared), s', base);
  }

  // ------------------------------------------------------------- renaming

  /** The record at `at` gives way to one with the same creation order, inserted first in the
      name index and last in the creation-order index. */
  lemma RenamedCorders(names: seq<Rec>, corders: seq<CRec>, at: nat, cat: nat, pos: nat, rec: Rec, cpos: nat)
    requires ByCorder(corders) && DistinctCorders(names) && SameRecords(names, corders)
    requires at < |names| && cat < |corders| && corders[cat].corder == names[at].corder == rec.corder
    requires pos <= |names| && CPlace(RemoveAt(corders, cat), rec.corder, cpos)
    ensures cpos <= |RemoveAt(corders, cat)|
    ensures var ns, cs := RemoveAt(InsertAt(names, pos, rec), if at < pos then at else at + 1), InsertAt(RemoveAt(corders, cat), cpos, CRecOf(rec));
      ByCorder(cs) && DistinctCorders(ns) && SameRecords(ns, cs)
  {
    hide ByCorder, DistinctCorders, SameRecords;
    RemoveCorder(names, corders, at, cat);
    RemoveInsertSwap(names, pos, rec, at);
    InsertCorder(RemoveAt(names, at), RemoveAt(corders, cat), if at < pos then pos - 1 else pos, rec, cpos);
  }

  /** Where a name is after another has been inserted. */
  lemma ShiftedPlace(hash: Hash, s: Store, s2: Store, pos: nat, rec: Rec, name: string, at: nat, at2: nat)
    requires NamesOk(hash, s) && NamesOk(hash, s2) && pos <= |s.names| && s2.names == InsertAt(s.names, pos, rec)
    requires forall i | 0 <= i < |s.names| ::
      Live(s2, s.names[i].id, s.names[i].shared) && Content(s2, s.names[i].id, s.names[i].shared) == AttrAt(s, i)
    requires at < |s.names| && Names(s)[at] == name && Place(hash, Names(s2), name, at2)
    ensures at2 == if at < pos then at else at + 1
  {
    var k := if at < pos then at else at + 1;
    assert s2.names[k] == s.names[at];
    assert Names(s2)[k] == name;
    PlaceDecides(hash, Names(s2), name, at2);
  }

  /** A message stored without a record leaves the storage inconsistent. */
  lemma OrphanBreaks(pol: Policy, s: Store, s': Store, model: map<string, Item>, others: map<nat, Message>,
                     base: map<Comp, nat>, attr: Attr, id: nat, shared: bool)
    requires Core(pol.hash, s, model, others) && s'.names == s.names
    requires StoresAs(pol, s.(corders := s'.corders, links := s'.links), attr, Stored(s', id, shared))
    ensures !Good(pol, s', model, others, base)
  {
    hide InOrder, Represents;
    StoreCases(pol, s.(corders := s'.corders, links := s'.links), attr, Stored(s', id, shared));
    if !shared {
      if HasOwner(s.names, id) {
        OwnersAreLive(s, id);
      }
      assert id in s'.heap;
    } else if id in s.sohm {
      assert s'.sohm[id].rc == s.sohm[id].rc + 1;
    } else {
      assert id in s'.sohm.Keys && id !in others.Keys;
      NoRefs(s, id);
    }
  }

  lemma CordersFacts(indexed: bool, s: Store)
    requires CordersOk(indexed, s)
    ensures indexed ==> ByCorder(s.corders) && DistinctCorders(s.names) && SameRecords(s.names, s.corders)
    ensures !indexed ==> s.corders == []
  {
  }

  /** The creation-order index once a renamed attribute has replaced the old one. */
  lemma RenameIsComplete(pol: Policy, s: Store, s3: Store, s4: Store, attr: Attr, id: nat, shared: bool,
                         name: string, at: nat, cat: nat, pos: nat, cpos: nat, at2: nat)
    requires NamesOk(pol.hash, s) && CordersOk(pol.indexed, s) && NamesOk(pol.hash, s3) && at < |s.names| && Names(s)[at] == name
    requires pol.indexed ==> cat < |s.corders| && s.corders[cat].corder == s.names[at].corder
    requires var s1 := s.(corders := if pol.indexed then RemoveAt(s.corders, cat) else s.corders);
      && Entered(pol, s1, s3.(links := s.links), attr, s.names[at].corder, id, shared, pos, cpos)
      && (pol.indexed ==> CPlace(s1.corders, s.names[at].corder, cpos))
    requires TakenOut(s3, s4, at2) && Place(pol.hash, Names(s3), name, at2) && s4.corders == s3.corders
    ensures CordersOk(pol.indexed, s4)
  {
    hide ByCorder, DistinctCorders, SameRecords, RemoveAt, InsertAt, InOrder, CPlace, StoresAs;
    var s1 := s.(corders := if pol.indexed then RemoveAt(s.corders, cat) else s.corders);
    var st := Stored(s1.(heap := s3.heap, sohm := s3.sohm), id, shared);
    var rec := NewRec(pol.hash, attr, st, s.names[at].corder);
    StoreExtends(pol, s1, attr, st);
    ShiftedPlace(pol.hash, s, s3, pos, rec, name, at, at2);
    if pol.indexed {
      RenamedCorders(s.names, s.corders, at, cat, pos, rec, cpos);
    }
  }

  // ------------------------------------------------------------- rewriting

  lemma InsertLive(s: Store, pos: nat, rec: Rec)
    requires AllLive(s) && pos <= |s.names| && Live(s, rec.id, rec.shared)
    ensures AllLive(s.(names := InsertAt(s.names, pos, rec)))
  {
  }

  lemma ReplaceIs<T>(list: seq<T>, pos: nat, x: T)
    requires pos < |list|
    ensures RemoveAt(InsertAt(list, pos, x), pos + 1) == list[pos := x] && InsertAt(list, pos, x)[pos + 1] == list[pos]
    ensures InsertAt(RemoveAt(list, pos), pos, x) == list[pos := x]
  {
  }

  /** The state in which both the new and the old shared message have a record. */
  function Doubled(s: Store, st: Stored, at: nat, comps: set<Comp>): Store
    requires at < |s.names| && at <= |st.s.names| && (st.shared ==> st.id in st.s.sohm)
  {
    st.s.(names := InsertAt(s.names, at, s.names[at].(id := st.id)),
          links := if NewUser(st) then LinkUp(s.links, comps) else s.links)
  }

  lemma DoubledIsFine(pol: Policy, s: Store, model: map<string, Item>, others: map<nat, Message>, base: map<Comp, nat>, at: nat, attr: Attr, st: Stored)
    requires Core(pol.hash, s, model, others) && LinksOk(s, base) && at < |s.names| && s.names[at].shared
    requires StoresAs(pol, s, attr, st) && st.shared
    ensures var d := Doubled(s, st, at, attr.comps);
      && AllLive(d) && HeapOk(d) && CountsOk(d, others) && LinksOk(d, base)
      && at + 1 < |d.names| && d.names[at + 1] == s.names[at]
      && CanUnlink(d.links, AttrAt(d, at + 1).comps) && LinksOk(RemovedAt(d, at + 1), base)
  {
    hide StoresAs, HeapOk, CountsOk, LinksOk, Represents, InOrder, CanUnlink;
    var rec := s.names[at].(id := st.id);
    StoreExtends(pol, s, attr, st);
    ExtendsNames(pol.hash, s, st.s, model);
    InsertLive(st.s, at, rec);
    InsertHeap(s, pol, attr, st, at, rec);
    InsertCounts(s, pol, attr, st, others, at, rec);
    StoreLinks(pol, s, others, base, attr, st);
    ReplaceIs(s.names, at, rec);
    var d := Doubled(s, st, at, attr.comps);
    SameStoreLive(st.s.(names := d.names), d);
    LinksIgnore(st.s.(links := d.links), d, base);
    CountsIgnoreLinks(st.s.(names := d.names), d, others);
    DropLinks(d, base, s.names[at].id, true);
    LinksIgnore(Dropped(d, s.names[at].id, true), RemovedAt(d, at + 1), base);
  }

  lemma SameStoreLive(s: Store, s': Store)
    requires AllLive(s) && s' == s.(links := s'.links)
    ensures AllLive(s') && (HeapOk(s) ==> HeapOk(s'))
  {
  }

  lemma CountsIgnoreLinks(s: Store, s': Store, others: map<nat, Message>)
    requires CountsOk(s, others) && s' == s.(links := s'.links)
    ensures CountsOk(s', others)
  {
  }

  /** A shared attribute is rewritten: the new message is stored and linked, the old one is
      released, and the record points to the new one. */
  lemma RewriteShared(pol: Policy, s: Store, model: map<string, Item>, others: map<nat, Message>, base: map<Comp, nat>, at: nat, attr: Attr, st: Stored)
    requires Core(pol.hash, s, model, others) && LinksOk(s, base) && at < |s.names| && s.names[at].shared
    requires StoresAs(pol, s, attr, st) && st.shared && attr.name == AttrAt(s, at).name
    requires var d := Doubled(s, st, at, attr.comps);
      at + 1 < |d.names| && Live(d, d.names[at + 1].id, d.names[at + 1].shared) && CanUnlink(d.links, AttrAt(d, at + 1).comps)
    ensures var d := Doubled(s, st, at, attr.comps);
      && Core(pol.hash, RemovedAt(d, at + 1), model[attr.name := Item(attr, s.names[at].corder)],
              others)
      && LinksOk(RemovedAt(d, at + 1), base)
      && RemovedAt(d, at + 1).names == s.names[at := s.names[at].(id := st.id)]
  {
    hide StoresAs, HeapOk, CountsOk, LinksOk, Represents, InOrder, CanUnlink;
    StoreExtends(pol, s, attr, st);
    var d, rec := Doubled(s, st, at, attr.comps), s.names[at].(id := st.id);
    DoubledIsFine(pol, s, model, others, base, at, attr, st);
    ReplaceIs(s.names, at, rec);
    RemoveCounts(d, others, at + 1);
    RemoveHeap(d, at + 1);
    RewrittenNames(pol, s, model, others, at, attr, st);
  }

  lemma RewrittenNames(pol: Policy, s: Store, model: map<string, Item>, others1: map<nat, Message>, at: nat, attr: Attr, st: Stored)
    requires NamesOk(pol.hash, s) && Represents(s, model) && at < |s.names| && s.names[at].shared
    requires StoresAs(pol, s, attr, st) && st.shared && attr.name == AttrAt(s, at).name
    requires var d := Doubled(s, st, at, attr.comps);
      && AllLive(d) && HeapOk(d) && CountsOk(d, others1)
      && at + 1 < |d.names| && CanUnlink(d.links, AttrAt(d, at + 1).comps)
    ensures var s' := RemovedAt(Doubled(s, st, at, attr.comps), at + 1);
      NamesOk(pol.hash, s') && Represents(s', model[attr.name := Item(attr, s.names[at].corder)])
  {
    hide StoresAs, HeapOk, CountsOk, CanUnlink, InOrder, Represents, RemoveAt, InsertAt;
    StoreExtends(pol, s, attr, st);
    var d, rec := Doubled(s, st, at, attr.comps), s.names[at].(id := st.id);
    var s' := RemovedAt(d, at + 1);
    ReplaceIs(s.names, at, rec);
    RemoveIsUnneeded(d, others1, at + 1);
    forall i | 0 <= i < |s.names|
      ensures Live(s', s'.names[i].id, s'.names[i].shared)
      ensures AttrAt(s', i) == if i == at then attr else AttrAt(s, i)
    {
      var r, d1 := s'.names[i], d.(names := RemoveAt(d.names, at + 1));
      assert r == d1.names[i];
      assert r == if i == at then rec else s.names[i];
      assert Content(s', r.id, r.shared) == Content(d, r.id, r.shared);
    }
    SamePositions(pol.hash, s, s', model, at, attr);
  }

  /** The record at `at` now stands for `attr`; all others for what they did. */
  lemma SamePositions(hash: Hash, s: Store, s': Store, model: map<string, Item>, at: nat, attr: Attr)
    requires NamesOk(hash, s) && Represents(s, model) && at < |s.names| && |s'.names| == |s.names|
    requires attr.name == AttrAt(s, at).name
    requires forall i | 0 <= i < |s.names| ::
      && Live(s', s'.names[i].id, s'.names[i].shared) && s'.names[i].hash == s.names[i].hash && s'.names[i].corder == s.names[i].corder
      && AttrAt(s', i) == if i == at then attr else AttrAt(s, i)
    ensures NamesOk(hash, s') && Represents(s', model[attr.name := Item(attr, s.names[at].corder)])
  {
    hide InOrder;
    assert AllLive(s');
    assert Names(s') == Names(s);
    OnlyThere(hash, s, at);
    forall n | n in model[attr.name := Item(attr, s.names[at].corder)] ensures n in Names(s') {
      if n == attr.name {
        assert Names(s)[at] == n;
      }
    }
  }

  lemma OnlyThere(hash: Hash, s: Store, at: nat)
    requires NamesOk(hash, s) && at < |s.names|
    ensures forall i | 0 <= i < |s.names| && i != at :: AttrAt(s, i).name != AttrAt(s, at).name
  {
    forall i | 0 <= i < |s.names| && i != at ensures AttrAt(s, i).name != AttrAt(s, at).name {
      BeforeIsTotal(hash, Names(s)[at], Names(s)[at]);
      assert Before(hash, Names(s)[i], Names(s)[at]) || Before(hash, Names(s)[at], Names(s)[i]);
    }
  }

  /** An unshared attribute is rewritten in place. */
  lemma RewritePlain(pol: Policy, s: Store, model: map<string, Item>, others: map<nat, Message>, base: map<Comp, nat>, at: nat, attr: Attr)
    requires Core(pol.hash, s, model, others) && LinksOk(s, base) && at < |s.names| && !s.names[at].shared
    requires attr.name == AttrAt(s, at).name && attr.comps == AttrAt(s, at).comps
    ensures var s' := s.(heap := s.heap[s.names[at].id := attr]);
      Core(pol.hash, s', model[attr.name := Item(attr, s.names[at].corder)], others) && LinksOk(s', base)
  {
    hide InOrder, Represents;
    var s' := s.(heap := s.heap[s.names[at].id := attr]);
    OthersUntouched(s, at, attr);
    SamePositions(pol.hash, s, s', model, at, attr);
    forall c ensures HeapUsers(s'.heap, c) == HeapUsers(s.heap, c) {
    }
  }

  lemma OthersUntouched(s: Store, at: nat, attr: Attr)
    requires AllLive(s) && HeapOk(s) && at < |s.names| && !s.names[at].shared
    ensures var s' := s.(heap := s.heap[s.names[at].id := attr]);
      && HeapOk(s')
      && forall i | 0 <= i < |s.names| ::
           Live(s', s'.names[i].id, s'.names[i].shared) && AttrAt(s', i) == if i == at then attr else AttrAt(s, i)
  {
    hide HasOwner;
  }

  /** The creation-order record follows. */
  lemma RewrittenCorders(names: seq<Rec>, corders: seq<CRec>, at: nat, cat: nat, id: nat)
    requires ByCorder(corders) && DistinctCorders(names) && SameRecords(names, corders) && at < |names|
    requires cat < |corders| && corders[cat] == CRecOf(names[at])
    ensures var ns, cs := names[at := names[at].(id := id)], corders[cat := corders[cat].(id := id)];
      ByCorder(cs) && DistinctCorders(ns) && SameRecords(ns, cs)
  {
    var rec := names[at].(id := id);
    ReplaceIs(names, at, rec);
    ReplaceIs(corders, cat, CRecOf(rec));
    assert CPlace(RemoveAt(corders, cat), rec.corder, cat);
    RenamedCorders(names, corders, at, cat, at, rec, cat);
  }

  lemma SharedIfSharable(pol: Policy, s: Store, attr: Attr, st: Stored)
    requires StoresAs(pol, s, attr, st)
    ensures st.shared == pol.sharable(attr)
  {
  }

  lemma CordersStay(indexed: bool, s: Store, s': Store)
    requires CordersOk(indexed, s) && s'.names == s.names && s'.corders == s.corders
    ensures CordersOk(indexed, s')
  {
  }

  lemma CordersFrom(indexed: bool, s: Store)
    requires if indexed then ByCorder(s.corders) && DistinctCorders(s.names) && SameRecords(s.names, s.corders) else s.corders == []
    ensures CordersOk(indexed, s)
  {
  }

  /** An attribute is gone from the heap and from both indexes. */
  lemma RemovedTogether(pol: Policy, s: Store, s': Store, model: map<string, Item>, others: map<nat, Message>, base: map<Comp, nat>, at: nat, cat: nat)
    requires Good(pol, s, model, others, base) && TakenOut(s, s', at)
    requires pol.indexed ==> cat < |s.corders| && s.corders[cat].corder == s.names[at].corder && s'.corders == RemoveAt(s.corders, cat)
    requires !pol.indexed ==> s'.corders == s.corders
    ensures Good(pol, s', model - {AttrAt(s, at).name}, others, base)
  {
    hide CountsOk, HeapOk, Represents, InOrder, RemoveAt, LinksOk, ByCorder, DistinctCorders, SameRecords;
    TakenOutKeeps(pol.hash, s, s', model, others, base, at);
    if pol.indexed {
      RemoveCorder(s.names, s.corders, at, cat);
    }
  }

  lemma CordersIfIndexed(indexed: bool, s: Store)
    requires if indexed then CordersOk(true, s) else s.corders == []
    ensures CordersOk(indexed, s)
  {
  }

  lemma FirstIsLive(hash: Hash, s: Store, model: map<string, Item>, others: map<nat, Message>)
    requires Core(hash, s, model, others) && s.names != []
    ensures Live(s, s.names[0].id, s.names[0].shared)
  {
  }

  /** Without records there is no object in the heap and nothing in the model, and the shared
      messages are those used elsewhere, as often as they are. */
  lemma NothingLeft(hash: Hash, s: Store, model: map<string, Item>, others: map<nat, Message>)
    requires Core(hash, s, model, others) && s.names == []
    ensures s.heap == map[] && model == map[] && s.sohm == others
  {
    assert s.heap.Keys == {};
    assert Names(s) == [];
    assert model.Keys == {};
    forall sid | sid in s.sohm ensures sid in others && s.sohm[sid] == others[sid] {
      assert RefsTo(s.names, sid) == 0;
    }
  }

  lemma LinksLeft(s: Store, base: map<Comp, nat>)
    requires LinksOk(s, base) && s.heap == map[]
    ensures forall c :: Links(s.links, c) == Links(base, c) + |MessageUsers(s.sohm, c)|
  {
    assert forall c :: HeapUsers(s.heap, c) == {};
  }

  lemma EmptyCorders(indexed: bool, s: Store)
    requires s.names == [] && s.corders == []
    ensures CordersOk(indexed, s)
  {
  }
}
