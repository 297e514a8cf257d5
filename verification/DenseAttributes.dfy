/** Dense attribute storage as it is updated: messages come and go in the heap and among the
    shared messages, and two indexes follow, one step at a time. */
module DenseAttributes {
  import opened NameOrder
  import opened Options
  import opened DenseStore
  import opened DenseSteps
  import opened DenseTables

  class DenseStorage {
    const pol: Policy
    var heap: map<nat, Attr>
    var sohm: map<nat, Message>
    var links: map<Comp, nat>
    var names: seq<Rec>
    var corders: seq<CRec>
    ghost var model: map<string, Item>       // what the object has
    ghost const others: map<nat, Message>    // shared messages used elsewhere, and how often
    ghost const base: map<Comp, nat>         // uses of components by other objects

    function St(): Store
      reads this
    {
      Store(heap, sohm, links, names, corders)
    }

    ghost predicate Valid()
      reads this
    {
      Good(pol, St(), model, others, base)
    }

    /** An object without attributes, in a file with the given shared messages and links. */
    constructor (pol: Policy, sohm: map<nat, Message>, links: map<Comp, nat>, ghost others: map<nat, Message>, ghost base: map<Comp, nat>)
      requires Good(pol, Store(map[], sohm, links, [], []), map[], others, base)
      ensures Valid() && model == map[] && this.pol == pol && this.others == others && this.base == base
    {
      this.pol, this.sohm, this.links, this.others, this.base := pol, sohm, links, others, base;
      heap, names, corders, model := map[], [], [], map[];
    }

    // ------------------------------------------------------------ searching

    /** Search of the name index.  An object is read only where hashes are equal, and then it
        exists. */
    method Locate(name: string) returns (pos: nat)
      requires NamesOk(pol.hash, St())
      ensures Place(pol.hash, Names(St()), name, pos)
    {
      var h := pol.hash(name);
      var lo, hi := 0, |names|;
      while lo < hi
        invariant 0 <= lo <= hi <= |names|
        invariant forall i | 0 <= i < lo :: Before(pol.hash, Names(St())[i], name)
        invariant forall i | hi <= i < |names| :: !Before(pol.hash, Names(St())[i], name)
      {
        var mid := (lo + hi) / 2;
        var before: bool;
        if names[mid].hash != h {
          before := names[mid].hash < h;
        } else {
          before := Compare(AttrAt(St(), mid).name, name) < 0;
        }
        SearchStep(pol.hash, Names(St()), name, mid);
        if before {
          lo := mid + 1;
        } else {
          hi := mid;
        }
      }
      pos := lo;
    }

    /** Search of the creation-order index. */
    method LocateCorder(corder: nat) returns (pos: nat)
      requires ByCorder(corders)
      ensures CPlace(corders, corder, pos)
    {
      var lo, hi := 0, |corders|;
      while lo < hi
        invariant 0 <= lo <= hi <= |corders|
        invariant forall i | 0 <= i < lo :: corders[i].corder < corder
        invariant forall i | hi <= i < |corders| :: corders[i].corder >= corder
      {
        var mid := (lo + hi) / 2;
        if corders[mid].corder < corder {
          lo := mid + 1;
        } else {
          hi := mid;
        }
      }
      pos := lo;
    }

    /** The record of `name`, if there is one. */
    method Find(name: string) returns (found: bool, pos: nat)
      requires NamesOk(pol.hash, St()) && Represents(St(), model)
      ensures Place(pol.hash, Names(St()), name, pos)
      ensures found == (name in model)
      ensures found ==> pos < |names| && Live(St(), names[pos].id, names[pos].shared) && Names(St())[pos] == name
                        && model[name] == Item(AttrAt(St(), pos), names[pos].corder)
    {
      pos := Locate(name);
      PlaceDecides(pol.hash, Names(St()), name, pos);
      found := pos < |names| && names[pos].hash == pol.hash(name) && AttrAt(St(), pos).name == name;
      ModelNames(St(), model);
    }

    method Exists(name: string) returns (found: bool)
      requires Valid()
      ensures found == (name in model)
    {
      var pos: nat;
      found, pos := Find(name);
    }

    method Open(name: string) returns (item: Option<Item>)
      requires Valid()
      ensures item == if name in model then Some(model[name]) else None
    {
      var found, pos := Find(name);
      item := if found then Some(Item(AttrAt(St(), pos), names[pos].corder)) else None;
    }

    // -------------------------------------------------------------- storing

    /** Share the message if the file shares such messages, else put it in the heap. */
    method StoreMessage(attr: Attr) returns (id: nat, shared: bool)
      modifies `heap, `sohm
      ensures StoresAs(pol, old(St()), attr, Stored(St(), id, shared))
    {
      shared := pol.sharable(attr);
      if shared {
        if sid :| sid in sohm && sohm[sid].attr == attr {
          id := sid;
          sohm := sohm[sid := Message(attr, sohm[sid].rc + 1)];
        } else {
          id := NewId(sohm.Keys);
          sohm := sohm[id := Message(attr, 1)];
        }
      } else {
        id := NewId(heap.Keys);
        heap := heap[id := attr];
      }
    }

    /** One reference to a message is given up. */
    method ReleaseMessage(id: nat, shared: bool)
      requires Live(St(), id, shared) && CanUnlink(links, Content(St(), id, shared).comps)
      modifies `heap, `sohm, `links
      ensures St() == Dropped(old(St()), id, shared)
    {
      if shared {
        if sohm[id].rc > 1 {
          sohm := sohm[id := sohm[id].(rc := sohm[id].rc - 1)];
        } else {
          var attr := sohm[id].attr;
          sohm := sohm - {id};
          links := LinkDown(links, attr.comps);
        }
      } else {
        links := LinkDown(links, heap[id].comps);
        heap := heap - {id};
      }
    }

    // ------------------------------------------------------------ inserting

    /** Into the heap, the name index and the creation-order index, in that order.  If the name
        is taken the call fails with the message already stored. */
    method DenseInsert(attr: Attr, corder: nat) returns (ok: bool, id: nat, shared: bool, ghost pos: nat, ghost cpos: nat)
      requires Core(pol.hash, St(), model, others)
      requires pol.indexed ==> ByCorder(corders) && forall c | c in corders :: c.corder != corder
      modifies `heap, `sohm, `names, `corders, `model
      ensures ok == (attr.name !in old(model))
      ensures StoresAs(pol, old(St()), attr, Stored(old(St()).(heap := heap, sohm := sohm), id, shared))
      ensures !ok ==> names == old(names) && corders == old(corders) && model == old(model)
      ensures ok ==> Entered(pol, old(St()), St(), attr, corder, id, shared, pos, cpos)
                     && (pol.indexed ==> CPlace(old(corders), corder, cpos))
      ensures ok ==> Core(pol.hash, St(), model, others)
                     && model == old(model)[attr.name := Item(attr, corder)]
    {
      hide StoresAs, Represents, HeapOk, CountsOk, Place, InOrder, InsertAt, Extends, ByCorder, CPlace;
      id, shared := StoreMessage(attr);
      ghost var s, st := old(St()), Stored(St(), id, shared);
      StoreExtends(pol, s, attr, st);
      ExtendsNames(pol.hash, s, St(), model);
      cpos := 0;
      var found, at := Find(attr.name);
      pos := at;
      ok := !found;
      if !ok {
        return;
      }
      PlaceBounds(pol.hash, Names(s), attr.name, at);
      InsertCore(pol, s, model, others, attr, st, corder, at);
      names := InsertAt(names, at, Rec(id, shared, corder, pol.hash(attr.name)));
      model := model[attr.name := Item(attr, corder)];
      if pol.indexed {
        ghost var before := St();
        var cat := LocateCorder(corder);
        CPlaceBounds(corders, corder, cat);
        cpos := cat;
        corders := InsertAt(corders, cat, CRec(id, shared, corder));
        CoreIgnores(pol.hash, before, St(), model, others);
      }
    }

    /** A new attribute.  Its components have been linked by then; a message that was already
        shared has its components linked once, so the extra link is taken back. */
    method Create(attr: Attr, corder: nat) returns (ok: bool)
      requires Valid()
      requires pol.indexed ==> forall n | n in model :: model[n].corder != corder
      modifies this
      ensures Valid() && ok == (attr.name !in old(model))
      ensures model == if ok then old(model)[attr.name := Item(attr, corder)] else old(model)
    {
      hide StoresAs, Represents, HeapOk, CountsOk, Place, InOrder, InsertAt, ByCorder, CPlace, NamesOk, LinksOk, SameRecords, DistinctCorders;
      var exists_ := Exists(attr.name);
      if exists_ {
        return false;
      }
      ghost var s := St();
      if pol.indexed {
        FreshCorder(pol.hash, s, model, others, corder);
      }
      links := LinkUp(links, attr.comps);
      CoreIgnores(pol.hash, s, St(), model, others);
      ghost var s1 := St();
      var id, shared;
      ghost var pos, cpos;
      ok, id, shared, pos, cpos := DenseInsert(attr, corder);
      EnteredCorders(pol, s1, St(), attr, corder, id, shared, pos, cpos);
      EnteredLinks(pol, s, St(), others, base, attr, id, shared);
      UpAndDown(s.links, attr.comps);
      ghost var s2 := St();
      if shared && sohm[id].rc > 1 {
        links := LinkDown(links, attr.comps);
        LinksIgnore(s2.(links := s.links), St(), base);
      } else {
        LinksIgnore(s2.(links := LinkUp(s.links, attr.comps)), St(), base);
      }
      CoreIgnores(pol.hash, s2, St(), model, others);
    }

    // ------------------------------------------------------------- removing

    /** The record is found in the name index; before it goes, its creation-order record (if
        asked for) and then its message go.  No search happens after that. */
    method Remove(name: string, fromCorders: bool) returns (ok: bool, ghost pos: nat)
      requires Core(pol.hash, St(), model, others) && LinksOk(St(), base)
      requires fromCorders ==> CordersOk(true, St())
      modifies this
      ensures ok == (name in old(model))
      ensures !ok ==> St() == old(St()) && model == old(model)
      ensures ok ==> TakenOut(old(St()), St(), pos) && Place(pol.hash, Names(old(St())), name, pos)
      ensures ok ==> Core(pol.hash, St(), model, others) && LinksOk(St(), base) && model == old(model) - {name}
      ensures ok ==> if fromCorders then CordersOk(true, St()) else corders == old(corders)
    {
      hide Represents, HeapOk, CountsOk, Place, InOrder, ByCorder, DistinctCorders, SameRecords, LinksOk, RemoveAt, CPlace, CanUnlink;
      var found, at := Find(name);
      pos := at;
      ok := found;
      if !ok {
        return;
      }
      ghost var s := St();
      var rec := names[at];
      DropLinks(s, base, rec.id, rec.shared);
      if fromCorders {
        var cat := LocateCorder(rec.corder);
        CorderIsThere(names, corders, rec, cat);
        RemoveCorder(names, corders, at, cat);
        corders := RemoveAt(corders, cat);
      }
      ReleaseMessage(rec.id, rec.shared);
      names := RemoveAt(names, at);
      TakenOutKeeps(pol.hash, s, St(), model, others, base, at);
      model := model - {name};
    }

    /** The creation-order record goes first, then the renamed attribute is inserted, then the
        old name is removed from the name index alone.  That no other attribute has the new
        name is never checked: if one has, the call fails and leaves the storage invalid. */
    method Rename(oldName: string, newName: string) returns (ok: bool)
      requires Valid()
      modifies this
      ensures ok == (oldName in old(model) && newName !in old(model))
      ensures ok ==> var item := old(model)[oldName];
                     model == (old(model) - {oldName})[newName := Item(item.attr.(name := newName), item.corder)]
      ensures !ok ==> model == old(model) && names == old(names) && links == old(links)
      ensures oldName !in old(model) ==> St() == old(St())
      ensures Valid() <==> oldName !in old(model) || newName !in old(model)
      ensures !ok && oldName in old(model) && pol.indexed ==> |corders| + 1 == |names|
    {
      hide StoresAs, Represents, HeapOk, CountsOk, Place, InOrder, ByCorder, DistinctCorders, SameRecords, LinksOk,
           RemoveAt, InsertAt, CPlace, NamesOk, CordersOk;
      var found, at := Find(oldName);
      if !found {
        return false;
      }
      ghost var s := St();
      var corder := names[at].corder;
      var attr := AttrAt(St(), at).(name := newName);
      ghost var cat := DropCorder(corder, at);
      ghost var s1, model1 := St(), model;
      CoreIgnores(pol.hash, s, s1, model, others);
      LinksIgnore(s, s1, base);
      var id, shared;
      ghost var pos, cpos;
      ok, id, shared, pos, cpos := DenseInsert(attr, corder);
      if !ok {
        OrphanBreaks(pol, s1, St(), model, others, base, attr, id, shared);
        return;
      }
      ghost var s2 := St();
      EnteredLinks(pol, s1, s2, others, base, attr, id, shared);
      LinkIfNew(attr, id, shared);
      ghost var s3 := St();
      CoreIgnores(pol.hash, s2, s3, model, others);
      ghost var at2;
      ok, at2 := Remove(oldName, false);
      RenameIsComplete(pol, s, s3, St(), attr, id, shared, oldName, at, cat, pos, cpos, at2);
      assert model == (model1 - {oldName})[newName := Item(attr, corder)];
    }

    method DropCorder(corder: nat, ghost at: nat) returns (ghost cat0: nat)
      requires CordersOk(pol.indexed, St()) && at < |names| && names[at].corder == corder
      modifies `corders
      ensures pol.indexed ==> cat0 < |old(corders)| && old(corders)[cat0].corder == corder
      ensures corders == if pol.indexed then RemoveAt(old(corders), cat0) else old(corders)
      ensures pol.indexed ==> |corders| + 1 == |names|
      ensures pol.indexed ==> ByCorder(corders) && forall c | c in corders :: c.corder != corder
    {
      hide ByCorder, DistinctCorders, SameRecords, RemoveAt, CPlace;
      cat0 := 0;
      if pol.indexed {
        var cat := LocateCorder(corder);
        CorderIsThere(names, corders, names[at], cat);
        if cat < |corders| && corders[cat].corder == corder {
          RemoveCorder(names, corders, at, cat);
          SameSizes(St());
          RemoveLess(corders, cat);
          corders := RemoveAt(corders, cat);
        }
        cat0 := cat;
      }
    }

    /** The renamed or rewritten message takes its share of its components, unless it was
        shared before. */
    method LinkIfNew(attr: Attr, id: nat, shared: bool)
      requires shared ==> id in sohm
      modifies `links
      ensures links == if !shared || sohm[id].rc == 1 then LinkUp(old(links), attr.comps) else old(links)
    {
      if shared {
        if sohm[id].rc == 1 {
          links := LinkUp(links, attr.comps);
        }
      } else {
        links := LinkUp(links, attr.comps);
      }
    }

    // ------------------------------------------------------------ rewriting

    /** New data for an attribute.  A shared message is stored anew and the record, in both
        indexes, gets its new heap ID; an unshared one is rewritten in place. */
    method Write(name: string, data: int) returns (ok: bool, ghost pos: nat)
      requires Valid()
      modifies this
      ensures Valid()
      ensures name in old(model) ==> pos < |old(names)| && Names(old(St()))[pos] == name
      ensures ok == (name in old(model)
                     && (old(names)[pos].shared ==> pol.sharable(old(model)[name].attr.(data := data))))
      ensures !ok ==> St() == old(St()) && model == old(model)
      ensures ok ==> var item := old(model)[name];
                     model == old(model)[name := Item(item.attr.(data := data), item.corder)]
    {
      hide StoresAs, Represents, HeapOk, CountsOk, Place, InOrder, ByCorder, DistinctCorders, SameRecords, LinksOk,
           RemoveAt, InsertAt, CPlace, NamesOk, CordersOk;
      var found, at := Find(name);
      pos := at;
      if !found {
        return false, pos;
      }
      ghost var s := St();
      var rec := names[at];
      var attr := AttrAt(St(), at).(data := data);
      if rec.shared {
        if !pol.sharable(attr) {
          return false, pos;
        }
        WriteShared(at, attr);
      } else {
        RewritePlain(pol, s, model, others, base, at, attr);
        heap := heap[rec.id := attr];
        CordersStay(pol.indexed, s, St());
        model := model[name := Item(attr, rec.corder)];
      }
      ok := true;
    }

    method WriteShared(at: nat, attr: Attr)
      requires Valid() && at < |names| && names[at].shared && pol.sharable(attr)
      requires Live(St(), names[at].id, true) && attr.name == AttrAt(St(), at).name
      modifies this
      ensures Valid() && model == old(model)[attr.name := Item(attr, old(names)[at].corder)]
    {
      hide StoresAs, Represents, HeapOk, CountsOk, Place, InOrder, ByCorder, DistinctCorders, SameRecords, LinksOk,
           RemoveAt, InsertAt, CPlace, NamesOk, CordersOk, CanUnlink,
           LinkUp, LinkDown, Links, Names;
      ghost var s := St();
      var rec := names[at];
      var id, shared := StoreMessage(attr);
      ghost var st := Stored(St(), id, shared);
      StoreCases(pol, s, attr, st);
      SharedIfSharable(pol, s, attr, st);
      LinkIfNew(attr, id, shared);
      DoubledIsFine(pol, s, model, others, base, at, attr, st);
      RewriteShared(pol, s, model, others, base, at, attr, st);
      ReleaseMessage(rec.id, true);
      names := names[at := rec.(id := id)];
      ghost var s4 := St();
      RepointCorder(at, rec.corder, id, s);
      CoreIgnores(pol.hash, s4, St(), model[attr.name := Item(attr, rec.corder)], others);
      LinksIgnore(s4, St(), base);
      model := model[attr.name := Item(attr, rec.corder)];
    }

    /** The creation-order record of the attribute gets the new heap ID as well. */
    method RepointCorder(at: nat, corder: nat, id: nat, ghost s: Store)
      requires CordersOk(pol.indexed, s) && corders == s.corders && at < |s.names| && s.names[at].corder == corder
      requires names == s.names[at := s.names[at].(id := id)]
      modifies `corders
      ensures CordersOk(pol.indexed, St())
    {
      hide ByCorder, DistinctCorders, SameRecords, CPlace, CordersOk;
      CordersFacts(pol.indexed, s);
      if pol.indexed {
        var cat := LocateCorder(corder);
        CorderIsThere(s.names, corders, s.names[at], cat);
        RewrittenCorders(s.names, s.corders, at, cat, id);
        corders := corders[cat := corders[cat].(id := id)];
      }
      CordersFrom(pol.indexed, St());
    }

    // ------------------------------------------------- tables and iteration

    /** All attributes in the order of the name index, then sorted as asked. */
    method BuildTable(idx: IndexType, order: Order) returns (table: seq<Item>)
      requires NamesOk(pol.hash, St()) && Represents(St(), model) && (idx.ByCreation? ==> DistinctCorders(names))
      ensures IsTable(model, table, idx, order) && table == SortTable(idx, order, NameItems(St()))
      ensures forall i, j | 0 <= i < j < |table| :: Precedence(idx, order, table[i], table[j])
      ensures order.Native? ==> table == NameItems(St())
    {
      hide InOrder, Represents, IsTable, SortTable, Precedence;
      SortedIsTable(pol.hash, St(), model, idx, order);
      TableOrder(model, SortTable(idx, order, NameItems(St())), idx, order);
      NativeStays(idx, NameItems(St()));
      table := ReadNames();
      table := SortTable(idx, order, table);
    }

    /** Iteration over an index counts every record it passes; over a table it counts from the
        start position. */
    method Iterate(idx: IndexType, order: Order, skip: nat, op: Op)
      returns (ret: int, next: nat, visited: seq<Item>, ghost items: seq<Item>)
      requires Valid() && (idx.ByCreation? ==> DistinctCorders(names))
      ensures IsTable(model, items, idx, order)
      ensures items == Listed(idx, order)
      ensures next == Reported(order.Native? && (idx.ByName? || pol.indexed), items, skip, op)
      ensures visited == if skip <= |items| then items[skip..StopAt(items, skip, op)] else []
      ensures ret == if visited == [] then 0 else op(visited[|visited| - 1])
    {
      hide IsTable, StopAt, Represents, InOrder, CordersOk, LinksOk, CountsOk, HeapOk, Lists;
      var list: seq<Item>;
      if ByIndex(idx, order) {
        list := ReadIndex(idx);
        ret, next, visited := IterateIndex(list, skip, op);
      } else {
        list := BuildTable(idx, order);
        ret, next, visited := IterateTable(list, skip, op);
      }
      items := list;
    }

    /** What there is to iterate over: an index in its own order, or a sorted table. */
    ghost function Listed(idx: IndexType, order: Order): seq<Item>
      reads this
      requires Valid() && (idx.ByCreation? ==> DistinctCorders(names))
    {
      if !ByIndex(idx, order) then SortTable(idx, order, NameItems(St()))
      else if idx.ByName? then NameItems(St())
      else
        CordersOfIndex(pol.hash, St(), model);
        CorderItems(St())
    }

    /** Iterating with one operator after the other, each time from the position reported last:
        every attribute up to there has been visited once, in the order of the listing. */
    method IterateAgain(idx: IndexType, order: Order, ops: seq<Op>) returns (next: nat, visited: seq<Item>)
      requires Valid() && (idx.ByCreation? ==> DistinctCorders(names))
      ensures next <= |Listed(idx, order)| && visited == Listed(idx, order)[..next]
      ensures next >= |ops| || next == |Listed(idx, order)|
    {
      hide Listed;
      next, visited := 0, [];
      var u := 0;
      while u < |ops|
        invariant 0 <= u <= |ops| && next <= |Listed(idx, order)| && visited == Listed(idx, order)[..next]
        invariant next >= u || next == |Listed(idx, order)|
      {
        ghost var items;
        var ret, more;
        ret, next, more, items := Iterate(idx, order, next, ops[u]);
        visited := visited + more;
        u := u + 1;
      }
    }

    predicate ByIndex(idx: IndexType, order: Order) {
      order == Native && (idx == ByName || pol.indexed)
    }

    /** The records of an index, in its own order. */
    method ReadIndex(idx: IndexType) returns (list: seq<Item>)
      requires Valid() && (idx == ByName || pol.indexed)
      ensures IsTable(model, list, idx, Native)
      ensures AllLive(St()) && (idx == ByName ==> list == NameItems(St()))
      ensures idx == ByCreation ==> CordersLive(St()) && list == CorderItems(St())
    {
      hide InOrder, Represents, SameRecords, Lists;
      if idx == ByName {
        NameItemsList(pol.hash, St(), model);
        list := ReadNames();
      } else {
        CorderItemsTable(pol.hash, St(), model);
        list := ReadCorders();
      }
    }

    method ReadNames() returns (list: seq<Item>)
      requires AllLive(St())
      ensures list == NameItems(St())
    {
      list := [];
      while |list| < |names|
        invariant |list| <= |names| && forall i | 0 <= i < |list| :: list[i] == Item(AttrAt(St(), i), names[i].corder)
      {
        list := list + [Item(AttrAt(St(), |list|), names[|list|].corder)];
      }
    }

    method ReadCorders() returns (list: seq<Item>)
      requires CordersLive(St())
      ensures list == CorderItems(St())
    {
      list := [];
      while |list| < |corders|
        invariant |list| <= |corders|
        invariant forall i | 0 <= i < |list| :: list[i] == Item(Content(St(), corders[i].id, corders[i].shared), corders[i].corder)
      {
        var c := corders[|list|];
        list := list + [Item(Content(St(), c.id, c.shared), c.corder)];
      }
    }

    /** The n-th attribute by an index or by a table goes.  Through an index, the record of the
        other index goes first, then the message, then the record itself. */
    method RemoveByIdx(idx: IndexType, order: Order, n: nat) returns (ok: bool, ghost table: seq<Item>)
      requires Valid() && (idx.ByCreation? ==> DistinctCorders(names))
      modifies this
      ensures Valid() && ok == (n < |old(names)|)
      ensures !ok ==> St() == old(St()) && model == old(model)
      ensures ok ==> n < |table| && model == old(model) - {table[n].attr.name}
      ensures ok ==> IsTable(old(model), table, idx, if idx.ByCreation? && order.Native? && pol.indexed then Inc else order)
      ensures ok ==> forall i, j | 0 <= i < j < |table| ::
        Precedence(idx, if idx.ByCreation? && order.Native? && pol.indexed then Inc else order, table[i], table[j])
      ensures ok && idx.ByName? && order.Native? ==> AllLive(old(St())) && table == NameItems(old(St()))
    {
      hide Represents, HeapOk, CountsOk, Place, InOrder, ByCorder, DistinctCorders, SameRecords, LinksOk, IsTable, CordersOk, TakenOut, Names, Precedence;
      table := [];
      if n >= |names| {
        return false, table;
      }
      ok := true;
      if idx.ByName? && order.Native? {
        NameItemsList(pol.hash, St(), model);
        table := NameItems(St());
        ListIsTable(model, table, idx);
        TableOrder(model, table, idx, order);
        RemoveAtName(n);
      } else if idx.ByCreation? && pol.indexed {
        SameSizes(St());
        CorderItemsTable(pol.hash, St(), model);
        table := if order.Dec? then Reversed(CorderItems(St())) else CorderItems(St());
        ReversedTable(model, CorderItems(St()));
        TableOrder(model, table, idx, if order.Dec? then Dec else Inc);
        RemoveAtCorder(if order.Dec? then |corders| - 1 - n else n);
      } else {
        var list := BuildTable(idx, order);
        table := list;
        TableHas(model, table, idx, order, n);
        ghost var pos;
        CordersFacts(pol.indexed, St());
        ok, pos := Remove(list[n].attr.name, pol.indexed);
        CordersIfIndexed(pol.indexed, St());
      }
    }

    method RemoveAtName(n: nat)
      requires Valid() && n < |names|
      modifies this
      ensures Valid() && AllLive(old(St())) && model == old(model) - {NameItems(old(St()))[n].attr.name}
    {
      hide Represents, HeapOk, CountsOk, InOrder, ByCorder, DistinctCorders, SameRecords, LinksOk, RemoveAt, CPlace, CanUnlink;
      ghost var s := St();
      var rec := names[n];
      DropLinks(s, base, rec.id, rec.shared);
      ghost var cat := DropCorder(rec.corder, n);
      ReleaseMessage(rec.id, rec.shared);
      names := RemoveAt(names, n);
      RemovedTogether(pol, s, St(), model, others, base, n, cat);
      model := model - {AttrAt(s, n).name};
    }

    method RemoveAtCorder(k: nat)
      requires Valid() && pol.indexed && k < |corders|
      modifies this
      ensures Valid() && CordersLive(old(St())) && model == old(model) - {CorderItems(old(St()))[k].attr.name}
    {
      hide Represents, HeapOk, CountsOk, InOrder, ByCorder, DistinctCorders, SameRecords, LinksOk, RemoveAt, CPlace, CanUnlink;
      ghost var s := St();
      CorderRecords(s);
      ghost var j := RecordOf(s, k);
      var crec := corders[k];
      var attr := Content(St(), crec.id, crec.shared);
      var at := Locate(attr.name);
      PlaceDecides(pol.hash, Names(s), attr.name, at);
      assert Names(s)[j] == attr.name;
      DropLinks(s, base, crec.id, crec.shared);
      names := RemoveAt(names, at);
      ReleaseMessage(crec.id, crec.shared);
      corders := RemoveAt(corders, k);
      RemovedTogether(pol, s, St(), model, others, base, at, k);
      model := model - {attr.name};
    }

    /** Everything goes: each record of the name index gives up its message or its components;
        then the indexes and the heap are deleted as wholes.  What is left of shared messages
        and link counts is what others use. */
    method DeleteAll()
      requires Valid()
      modifies this
      ensures Valid() && model == map[] && heap == map[] && names == [] && corders == []
      ensures sohm == others && forall c :: Links(links, c) == Links(base, c) + |MessageUsers(others, c)|
    {
      hide NamesOk, Represents, HeapOk, CountsOk, LinksOk, CanUnlink, CordersOk;
      ghost var v := St();             // what would be left had each object been removed
      var i := 0;
      while i < |names|
        invariant 0 <= i <= |names| && names == old(names) && corders == old(corders) && v.names == names[i..]
        invariant v.sohm == sohm && v.links == links && heap == old(heap)
        invariant forall id | id in v.heap :: id in heap && heap[id] == v.heap[id]
        invariant Core(pol.hash, v, model, others) && LinksOk(v, base)
      {
        var rec := names[i];
        FirstIsLive(pol.hash, v, model, others);
        assert v.names[0] == rec;
        DropLinks(v, base, rec.id, rec.shared);
        if rec.shared {
          ReleaseMessage(rec.id, true);
        } else {
          links := LinkDown(links, heap[rec.id].comps);
        }
        ghost var v1 := RemovedAt(v, 0);
        TakenOutKeeps(pol.hash, v, v1, model, others, base, 0);
        model := model - {AttrAt(v, 0).name};
        v := v1;
        i := i + 1;
      }
      names, corders, heap := [], [], map[];
      NothingLeft(pol.hash, v, model, others);
      CoreIgnores(pol.hash, v, St(), model, others);
      LinksIgnore(v, St(), base);
      EmptyCorders(pol.indexed, St());
      LinksLeft(St(), base);
    }
  }

  /** The index callback: skip first, then visit, and count either way. */
  method IterateIndex(items: seq<Item>, skip: nat, op: Op) returns (ret: int, count: nat, visited: seq<Item>)
    ensures count == NextByIndex(items, skip, op)
    ensures visited == if skip <= |items| then items[skip..StopAt(items, skip, op)] else []
    ensures ret == if visited == [] then 0 else op(visited[|visited| - 1])
  {
    ret, count, visited := 0, 0, [];
    var left := skip;
    while count < |items| && ret == 0
      invariant count <= |items| && left == (if count <= skip then skip - count else 0)
      invariant visited == if count <= skip then [] else items[skip..count]
      invariant ret == if visited == [] then 0 else op(visited[|visited| - 1])
      invariant skip < count ==> StopAt(items, skip, op) == if ret != 0 then count else StopAt(items, count, op)
      decreases |items| - count
    {
      if left > 0 {
        left := left - 1;
      } else {
        ret := op(items[count]);
        assert items[skip..count + 1] == items[skip..count] + [items[count]];
        visited := visited + [items[count]];
      }
      count := count + 1;
    }
  }

  method IterateTable(items: seq<Item>, skip: nat, op: Op) returns (ret: int, last: nat, visited: seq<Item>)
    ensures last == NextByTable(items, skip, op)
    ensures visited == if skip <= |items| then items[skip..StopAt(items, skip, op)] else []
    ensures ret == if visited == [] then 0 else op(visited[|visited| - 1])
  {
    ret, last, visited := 0, skip, [];
    while last < |items| && ret == 0
      invariant skip <= last && (last <= |items| || last == skip)
      invariant visited == if last <= |items| then items[skip..last] else []
      invariant ret == if visited == [] then 0 else op(visited[|visited| - 1])
      invariant last <= |items| ==> StopAt(items, skip, op) == if ret != 0 then last else StopAt(items, last, op)
      decreases |items| - last
    {
      ret := op(items[last]);
      assert items[skip..last + 1] == items[skip..last] + [items[last]];
      visited := visited + [items[last]];
      last := last + 1;
    }
  }

  lemma SearchStep(hash: Hash, names: seq<string>, name: string, mid: nat)
    requires InOrder(hash, names) && mid < |names|
    ensures Before(hash, names[mid], name) ==> forall i | 0 <= i <= mid :: Before(hash, names[i], name)
    ensures !Before(hash, names[mid], name) ==> forall i | mid <= i < |names| :: !Before(hash, names[i], name)
  {
    forall i | 0 <= i < |names|
      ensures i <= mid && Before(hash, names[mid], name) ==> Before(hash, names[i], name)
      ensures mid <= i && Before(hash, names[i], name) ==> Before(hash, names[mid], name)
    {
      if i < mid && Before(hash, names[mid], name) {
        BeforeChains(hash, names[i], names[mid], name);
      }
      if mid < i && Before(hash, names[i], name) {
        BeforeChains(hash, names[mid], names[i], name);
      }
    }
  }

  /** An ID the heap has not given out. */
  method NewId(used: set<nat>) returns (id: nat)
    ensures id !in used
  {
    id := 0;
    var rest := used;
    while rest != {}
      invariant forall x | x in used && x !in rest :: x < id
    {
      var x :| x in rest;
      if x >= id {
        id := x + 1;
      }
      rest := rest - {x};
    }
  }

  lemma RemoveLess<T>(list: seq<T>, pos: nat)
    requires pos < |list|
    ensures |RemoveAt(list, pos)| + 1 == |list|
  {
  }

  /** Renaming onto a name in use, concretely: two attributes, and the first is to be called
      like the second.  The call fails, both are still there by name, but the first is no
      longer in the creation-order index, and the heap holds an object nobody refers to. */
  method RenameOntoExisting() returns (d: DenseStorage, ok: bool)
    ensures !ok && d.pol.indexed
    ensures d.model == map["a" := Item(Attr("a", 1, {}), 0), "b" := Item(Attr("b", 2, {}), 1)]
    ensures |d.corders| + 1 == |d.names| && !d.Valid()
  {
    var pol := Policy((s: string) => |s|, (a: Attr) => false, true);
    EmptyStorage(pol);
    d := new DenseStorage(pol, map[], map[], map[], map[]);
    ok := d.Create(Attr("a", 1, {}), 0);
    ok := d.Create(Attr("b", 2, {}), 1);
    ok := d.Rename("a", "b");
  }

  lemma EmptyStorage(pol: Policy)
    ensures Good(pol, Store(map[], map[], map[], [], []), map[], map[], map[])
  {
    var s := Store(map[], map[], map[], [], []);
    assert forall c :: HeapUsers(s.heap, c) == {} && MessageUsers(s.sohm, c) == {};
  }
}
