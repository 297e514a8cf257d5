/** Attribute tables and iteration: sorted tables are determined by what they hold, and
    iteration over an index and over a table stop and resume alike. */
module DenseTables {
  import opened NameOrder
  import opened DenseStore

  datatype IndexType = ByName | ByCreation

  datatype Order = Inc | Dec | Native

  /** The comparison routines of the table sort. */
  function CompareItems(idx: IndexType, order: Order, a: Item, b: Item): int {
    match (idx, order)
    case (ByName, Dec) => Compare(b.attr.name, a.attr.name)
    case (ByName, _) => Compare(a.attr.name, b.attr.name)
    case (ByCreation, Dec) => b.corder - a.corder
    case (ByCreation, _) => a.corder - b.corder
  }

  ghost predicate InTableOrder(idx: IndexType, order: Order, table: seq<Item>) {
    forall i, j | 0 <= i < j < |table| :: CompareItems(idx, order, table[i], table[j]) < 0
  }

  /** The table has every attribute of the object once. */
  ghost predicate Lists(model: map<string, Item>, table: seq<Item>) {
    && (forall x | x in table :: x.attr.name in model && model[x.attr.name] == x)
    && (forall n | n in model :: model[n] in table)
    && forall i, j | 0 <= i < j < |table| :: table[i] != table[j]
  }

  ghost predicate IsTable(model: map<string, Item>, table: seq<Item>, idx: IndexType, order: Order) {
    Lists(model, table) && (order != Native ==> InTableOrder(idx, order, table))
  }

  /** x may stand before y in a table: by the names or the creation orders themselves. */
  ghost predicate Precedence(idx: IndexType, order: Order, x: Item, y: Item) {
    match (idx, order)
    case (ByName, Inc) => Precedes(x.attr.name, y.attr.name)
    case (ByName, Dec) => Precedes(y.attr.name, x.attr.name)
    case (ByCreation, Inc) => x.corder < y.corder
    case (ByCreation, Dec) => y.corder < x.corder
    case (_, Native) => true
  }

  lemma TableOrder(model: map<string, Item>, table: seq<Item>, idx: IndexType, order: Order)
    requires IsTable(model, table, idx, order)
    ensures forall i, j | 0 <= i < j < |table| :: Precedence(idx, order, table[i], table[j])
  {
    forall i, j | 0 <= i < j < |table| ensures Precedence(idx, order, table[i], table[j]) {
      CompareIs(table[i].attr.name, table[j].attr.name);
      CompareIs(table[j].attr.name, table[i].attr.name);
    }
  }

  lemma CompareItemsReverses(idx: IndexType, order: Order, a: Item, b: Item)
    ensures CompareItems(idx, order, a, b) < 0 <==> CompareItems(idx, order, b, a) > 0
    ensures CompareItems(idx, order, a, a) == 0
  {
    CompareReverses(a.attr.name, b.attr.name);
    CompareReverses(b.attr.name, a.attr.name);
  }

  lemma CompareItemsChains(idx: IndexType, order: Order, a: Item, b: Item, c: Item)
    requires CompareItems(idx, order, a, b) < 0 && CompareItems(idx, order, b, c) < 0
    ensures CompareItems(idx, order, a, c) < 0
  {
    if idx.ByName? {
      if order.Dec? {
        CompareChains(c.attr.name, b.attr.name, a.attr.name);
      } else {
        CompareChains(a.attr.name, b.attr.name, c.attr.name);
      }
    }
  }

  lemma HasItem(p: seq<Item>)
    ensures p != [] <==> exists x :: x in p
  {
    if p != [] {
      assert p[0] in p;
    }
  }

  /** Sorted sequences with the same members are the same. */
  lemma {:induction false} SortedUnique(idx: IndexType, order: Order, p: seq<Item>, q: seq<Item>)
    requires InTableOrder(idx, order, p) && InTableOrder(idx, order, q) && forall x :: x in p <==> x in q
    ensures p == q
  {
    HasItem(p);
    HasItem(q);
    if p != [] {
      HeadsAgree(idx, order, p, q);
      TailMembers(idx, order, p);
      TailMembers(idx, order, q);
      SortedUnique(idx, order, p[1..], q[1..]);
    }
  }

  lemma HeadsAgree(idx: IndexType, order: Order, p: seq<Item>, q: seq<Item>)
    requires InTableOrder(idx, order, p) && InTableOrder(idx, order, q) && p != [] && q != [] && forall x :: x in p <==> x in q
    ensures p[0] == q[0]
  {
    assert p[0] in q && q[0] in p;
    var i :| 0 <= i < |q| && q[i] == p[0];
    var j :| 0 <= j < |p| && p[j] == q[0];
    CompareItemsReverses(idx, order, p[0], q[0]);
  }

  lemma TailMembers(idx: IndexType, order: Order, p: seq<Item>)
    requires InTableOrder(idx, order, p) && p != []
    ensures InTableOrder(idx, order, p[1..]) && forall x :: x in p[1..] <==> x in p && x != p[0]
  {
    forall x | x in p[1..] ensures x != p[0] {
      var i :| 0 <= i < |p[1..]| && p[1..][i] == x;
      CompareItemsReverses(idx, order, p[0], p[0]);
      assert CompareItems(idx, order, p[0], p[i + 1]) < 0;
    }
    assert p == [p[0]] + p[1..];
  }

  /** A sorted table is determined by what the object has, so it does not matter whether it
      comes from the creation-order index or from sorting what the name index holds. */
  lemma TableUnique(model: map<string, Item>, idx: IndexType, order: Order, p: seq<Item>, q: seq<Item>)
    requires order != Native && IsTable(model, p, idx, order) && IsTable(model, q, idx, order)
    ensures p == q
  {
    forall x ensures x in p <==> x in q {
      if x in p {
        assert model[x.attr.name] in q;
      }
      if x in q {
        assert model[x.attr.name] in p;
      }
    }
    SortedUnique(idx, order, p, q);
  }

  // -------------------------------------------------------------- sorting

  function InsertItem(idx: IndexType, order: Order, table: seq<Item>, x: Item): (r: seq<Item>)
    ensures forall y :: y in r <==> y in table || y == x
    ensures |r| == |table| + 1
  {
    if table == [] then [x]
    else
      assert table == [table[0]] + table[1..];
      if CompareItems(idx, order, x, table[0]) < 0 then [x] + table
      else [table[0]] + InsertItem(idx, order, table[1..], x)
  }

  /** What sorting the table promises. */
  function SortTable(idx: IndexType, order: Order, table: seq<Item>): (r: seq<Item>)
    ensures forall y :: y in r <==> y in table
    ensures |r| == |table|
  {
    if order == Native || table == [] then table
    else
      assert table == [table[0]] + table[1..];
      InsertItem(idx, order, SortTable(idx, order, table[1..]), table[0])
  }

  lemma {:induction false} InsertItemSorts(idx: IndexType, order: Order, table: seq<Item>, x: Item)
    requires InTableOrder(idx, order, table) && forall y | y in table :: CompareItems(idx, order, x, y) != 0
    ensures InTableOrder(idx, order, InsertItem(idx, order, table, x))
  {
    if table != [] {
      TailMembers(idx, order, table);
      if CompareItems(idx, order, x, table[0]) < 0 {
        forall j | 0 <= j < |table| ensures CompareItems(idx, order, x, table[j]) < 0 {
          if j > 0 {
            CompareItemsChains(idx, order, x, table[0], table[j]);
          }
        }
      } else {
        InsertItemSorts(idx, order, table[1..], x);
        var r := InsertItem(idx, order, table[1..], x);
        CompareItemsReverses(idx, order, x, table[0]);
        forall j | 0 <= j < |r| ensures CompareItems(idx, order, table[0], r[j]) < 0 {
          assert r[j] in r;
          HeadIsLeast(idx, order, table, r[j], x);
        }
      }
    }
  }

  lemma HeadIsLeast(idx: IndexType, order: Order, table: seq<Item>, y: Item, x: Item)
    requires InTableOrder(idx, order, table) && table != [] && (y in table[1..] || y == x)
    requires CompareItems(idx, order, table[0], x) < 0
    ensures CompareItems(idx, order, table[0], y) < 0
  {
    if y in table[1..] {
      var i :| 0 <= i < |table[1..]| && table[1..][i] == y;
      assert table[i + 1] == y;
    }
  }

  lemma {:induction false} SortTableSorts(idx: IndexType, order: Order, table: seq<Item>)
    requires order != Native
    requires forall i, j | 0 <= i < j < |table| :: CompareItems(idx, order, table[i], table[j]) != 0
    ensures InTableOrder(idx, order, SortTable(idx, order, table))
  {
    if table != [] {
      var rest := table[1..];
      forall i, j | 0 <= i < j < |rest| ensures CompareItems(idx, order, rest[i], rest[j]) != 0 {
        assert rest[i] == table[i + 1] && rest[j] == table[j + 1];
      }
      SortTableSorts(idx, order, rest);
      forall y | y in SortTable(idx, order, rest) ensures CompareItems(idx, order, table[0], y) != 0 {
        var j :| 0 <= j < |rest| && rest[j] == y;
        assert table[j + 1] == y;
      }
      InsertItemSorts(idx, order, SortTable(idx, order, rest), table[0]);
    }
  }

  // ------------------------------------------------------------- iteration

  type Op = Item -> int

  /** The position after the item on which iteration from `from` stops. */
  function StopAt(items: seq<Item>, from: nat, op: Op): (next: nat)
    requires from <= |items|
    ensures from <= next <= |items| && (from < |items| ==> from < next)
    decreases |items| - from
  {
    if from == |items| then from
    else if op(items[from]) != 0 then from + 1
    else StopAt(items, from + 1, op)
  }

  /** The next position, as the two kinds of iteration report it. */
  function NextByIndex(items: seq<Item>, skip: nat, op: Op): nat {
    if skip >= |items| then |items| else StopAt(items, skip, op)
  }

  function NextByTable(items: seq<Item>, skip: nat, op: Op): nat {
    if skip >= |items| then skip else StopAt(items, skip, op)
  }

  /** They agree exactly when the start is not beyond the end. */
  lemma NextAgreesIff(items: seq<Item>, skip: nat, op: Op)
    ensures NextByIndex(items, skip, op) == NextByTable(items, skip, op) <==> skip <= |items|
  {
  }

  lemma {:induction false} StopsAtFirst(items: seq<Item>, from: nat, op: Op)
    requires from <= |items|
    ensures var next := StopAt(items, from, op);
      && (forall i | from <= i < next - 1 :: op(items[i]) == 0)
      && (from < next < |items| ==> op(items[next - 1]) != 0)
    decreases |items| - from
  {
    if from < |items| && op(items[from]) == 0 {
      StopsAtFirst(items, from + 1, op);
    }
  }

  /** The position iteration reports. */
  function Reported(byIndex: bool, items: seq<Item>, from: nat, op: Op): nat {
    if byIndex then NextByIndex(items, from, op) else NextByTable(items, from, op)
  }

  /** Iterating again and again, each time from the position reported last: what is visited. */
  function Visits(byIndex: bool, items: seq<Item>, from: nat, ops: seq<Op>): seq<Item>
    requires from <= |items|
    decreases |ops|
  {
    if ops == [] then []
    else
      var next := Reported(byIndex, items, from, ops[0]);
      items[from..StopAt(items, from, ops[0])] + if next <= |items| then Visits(byIndex, items, next, ops[1..]) else []
  }

  function ReachedBy(byIndex: bool, items: seq<Item>, from: nat, ops: seq<Op>): nat
    decreases |ops|
  {
    if ops == [] then from else ReachedBy(byIndex, items, Reported(byIndex, items, from, ops[0]), ops[1..])
  }

  /** However often iteration stops early, nothing is missed and nothing visited twice, and
      enough restarts reach the end. */
  lemma {:induction false} RestartsVisitAll(byIndex: bool, items: seq<Item>, from: nat, ops: seq<Op>)
    requires from <= |items|
    ensures from <= ReachedBy(byIndex, items, from, ops) <= |items|
    ensures Visits(byIndex, items, from, ops) == items[from..ReachedBy(byIndex, items, from, ops)]
    ensures ReachedBy(byIndex, items, from, ops) >= from + |ops| || ReachedBy(byIndex, items, from, ops) == |items|
    decreases |ops|
  {
    if ops != [] {
      RestartsVisitAll(byIndex, items, Reported(byIndex, items, from, ops[0]), ops[1..]);
    }
  }

  // --------------------------------------------------- what the indexes list

  ghost function NameItems(s: Store): (r: seq<Item>)
    requires AllLive(s)
    ensures |r| == |s.names| && forall i | 0 <= i < |r| :: r[i] == Item(AttrAt(s, i), s.names[i].corder)
  {
    seq(|s.names|, i requires 0 <= i < |s.names| => Item(AttrAt(s, i), s.names[i].corder))
  }

  ghost predicate CordersLive(s: Store) {
    forall i | 0 <= i < |s.corders| :: Live(s, s.corders[i].id, s.corders[i].shared)
  }

  ghost function CorderItems(s: Store): (r: seq<Item>)
    requires CordersLive(s)
    ensures |r| == |s.corders|
    ensures forall i | 0 <= i < |r| :: r[i] == Item(Content(s, s.corders[i].id, s.corders[i].shared), s.corders[i].corder)
  {
    seq(|s.corders|, i requires 0 <= i < |s.corders| => Item(Content(s, s.corders[i].id, s.corders[i].shared), s.corders[i].corder))
  }

  lemma NamesDistinct(hash: Hash, s: Store, i: nat, j: nat)
    requires NamesOk(hash, s) && i < |s.names| && j < |s.names| && i != j
    ensures AttrAt(s, i).name != AttrAt(s, j).name
  {
    BeforeIsTotal(hash, Names(s)[i], Names(s)[i]);
    assert Before(hash, Names(s)[i], Names(s)[j]) || Before(hash, Names(s)[j], Names(s)[i]);
  }

  lemma NameItemsList(hash: Hash, s: Store, model: map<string, Item>)
    requires NamesOk(hash, s) && Represents(s, model)
    ensures Lists(model, NameItems(s))
  {
    hide InOrder;
    var items := NameItems(s);
    forall i, j | 0 <= i < j < |items| ensures items[i] != items[j] {
      NamesDistinct(hash, s, i, j);
    }
    forall n | n in model ensures model[n] in items {
      var i :| 0 <= i < |Names(s)| && Names(s)[i] == n;
      assert items[i] == model[n];
    }
  }

  /** The record of the name index behind a record of the creation-order index, and back. */
  lemma RecordOf(s: Store, i: nat) returns (j: nat)
    requires AllLive(s) && SameRecords(s.names, s.corders) && i < |s.corders|
    ensures j < |s.names| && CRecOf(s.names[j]) == s.corders[i]
    ensures Live(s, s.corders[i].id, s.corders[i].shared)
    ensures Item(Content(s, s.corders[i].id, s.corders[i].shared), s.corders[i].corder) == Item(AttrAt(s, j), s.names[j].corder)
  {
    assert s.corders[i] in s.corders;
    var r :| r in s.names && CRecOf(r) == s.corders[i];
    j :| 0 <= j < |s.names| && s.names[j] == r;
  }

  lemma CorderOf(s: Store, j: nat) returns (i: nat)
    requires SameRecords(s.names, s.corders) && j < |s.names|
    ensures i < |s.corders| && CRecOf(s.names[j]) == s.corders[i]
  {
    assert s.names[j] in s.names;
    i :| 0 <= i < |s.corders| && s.corders[i] == CRecOf(s.names[j]);
  }

  /** The creation-order index lists the attributes in increasing order of creation. */
  lemma CorderItemsTable(hash: Hash, s: Store, model: map<string, Item>)
    requires NamesOk(hash, s) && Represents(s, model) && CordersOk(true, s)
    ensures CordersLive(s) && IsTable(model, CorderItems(s), ByCreation, Inc)
  {
    hide InOrder, SameRecords;
    CorderRecords(s);
    var items := CorderItems(s);
    forall x | x in items ensures x.attr.name in model && model[x.attr.name] == x {
      var i :| 0 <= i < |items| && items[i] == x;
      var j := RecordOf(s, i);
    }
    forall n | n in model ensures model[n] in items {
      var j :| 0 <= j < |Names(s)| && Names(s)[j] == n;
      var i := CorderOf(s, j);
      assert items[i] == model[n];
    }
  }

  lemma CorderRecords(s: Store)
    requires AllLive(s) && SameRecords(s.names, s.corders)
    ensures CordersLive(s)
  {
    forall i | 0 <= i < |s.corders| ensures Live(s, s.corders[i].id, s.corders[i].shared) {
      var j := RecordOf(s, i);
    }
  }

  lemma CordersOfIndex(hash: Hash, s: Store, model: map<string, Item>)
    requires NamesOk(hash, s) && Represents(s, model)
    ensures CordersOk(true, s) ==> CordersLive(s)
  {
    if CordersOk(true, s) {
      CorderRecords(s);
    }
  }

  function Reversed<T>(list: seq<T>): (r: seq<T>)
    ensures |r| == |list| && forall i | 0 <= i < |list| :: r[i] == list[|list| - 1 - i]
  {
    seq(|list|, i requires 0 <= i < |list| => list[|list| - 1 - i])
  }

  lemma ReversedMembers<T>(list: seq<T>)
    ensures forall x :: x in Reversed(list) <==> x in list
  {
    var r := Reversed(list);
    forall x | x in list ensures x in r {
      var i :| 0 <= i < |list| && list[i] == x;
      assert r[|list| - 1 - i] == x;
    }
  }

  lemma ReversedTable(model: map<string, Item>, table: seq<Item>)
    requires IsTable(model, table, ByCreation, Inc)
    ensures IsTable(model, Reversed(table), ByCreation, Dec)
  {
    var r := Reversed(table);
    ReversedMembers(table);
    forall i, j | 0 <= i < j < |r| ensures r[i] != r[j] && CompareItems(ByCreation, Dec, r[i], r[j]) < 0 {
      assert r[i] == table[|table| - 1 - i] && r[j] == table[|table| - 1 - j];
    }
  }

  /** Sorting what the name index holds gives a table in the order asked for. */
  lemma SortedIsTable(hash: Hash, s: Store, model: map<string, Item>, idx: IndexType, order: Order)
    requires NamesOk(hash, s) && Represents(s, model) && (idx.ByCreation? ==> DistinctCorders(s.names))
    ensures IsTable(model, SortTable(idx, order, NameItems(s)), idx, order)
  {
    hide InOrder, SortTable, Represents;
    NameItemsList(hash, s, model);
    var items := NameItems(s);
    forall i, j | 0 <= i < j < |items| ensures CompareItems(idx, order, items[i], items[j]) != 0 {
      NamesDistinct(hash, s, i, j);
    }
    if order != Native {
      SortTableSorts(idx, order, items);
      SortedDistinct(idx, order, SortTable(idx, order, items));
    } else {
      NativeStays(idx, items);
    }
  }

  lemma NativeStays(idx: IndexType, table: seq<Item>)
    ensures SortTable(idx, Native, table) == table
  {
  }

  lemma SortedDistinct(idx: IndexType, order: Order, table: seq<Item>)
    requires InTableOrder(idx, order, table)
    ensures forall i, j | 0 <= i < j < |table| :: table[i] != table[j]
  {
    forall i, j | 0 <= i < j < |table| ensures table[i] != table[j] {
      CompareItemsReverses(idx, order, table[i], table[i]);
    }
  }

  /** The n-th attribute by the creation-order index is the n-th of the sorted table. */
  lemma ByIndexIsByTable(hash: Hash, s: Store, model: map<string, Item>, order: Order)
    requires NamesOk(hash, s) && Represents(s, model) && CordersOk(true, s) && order != Native
    ensures CordersLive(s)
    ensures SortTable(ByCreation, order, NameItems(s)) == if order == Dec then Reversed(CorderItems(s)) else CorderItems(s)
  {
    hide InOrder, Represents, SortTable, IsTable;
    CorderItemsTable(hash, s, model);
    ReversedTable(model, CorderItems(s));
    SortedIsTable(hash, s, model, ByCreation, order);
    if order == Dec {
      TableUnique(model, ByCreation, Dec, SortTable(ByCreation, order, NameItems(s)), Reversed(CorderItems(s)));
    } else {
      TableUnique(model, ByCreation, Inc, SortTable(ByCreation, order, NameItems(s)), CorderItems(s));
    }
  }

  lemma ListIsTable(model: map<string, Item>, table: seq<Item>, idx: IndexType)
    requires Lists(model, table)
    ensures IsTable(model, table, idx, Native)
  {
  }

  lemma SameSizes(s: Store)
    requires CordersOk(true, s)
    ensures |s.corders| == |s.names|
  {
  }

  lemma TableHas(model: map<string, Item>, table: seq<Item>, idx: IndexType, order: Order, n: nat)
    requires IsTable(model, table, idx, order) && n < |table|
    ensures table[n].attr.name in model
  {
    assert table[n] in table;
  }
}
