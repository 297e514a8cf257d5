/** Address lists kept in increasing order, and the split of a candidate list among ranks. */
module AddressLists {

  type Addr = nat

  function Elements(list: seq<Addr>): set<Addr> {
    set a | a in list
  }

  /** A skip list keyed by address holds each address once, in increasing order. */
  predicate Increasing(list: seq<Addr>) {
    forall i, j | 0 <= i < j < |list| :: list[i] < list[j]
  }

  ghost function Least(s: set<Addr>): (m: Addr)
    requires s != {}
    ensures m in s && forall a | a in s :: m <= a
  {
    var x :| x in s;
    if s == {x} then x
    else
      var m := Least(s - {x});
      assert forall a | a in s :: a == x || a in s - {x};
      if x < m then x else m
  }

  /** The buffer a skip list empties into: its addresses in increasing order. */
  ghost function Sorted(s: set<Addr>): (list: seq<Addr>)
    ensures Increasing(list) && Elements(list) == s
    ensures |list| == |s|
  {
    if s == {} then []
    else
      var m := Least(s);
      var rest := Sorted(s - {m});
      SortedStep(s, m, rest);
      [m] + rest
  }

  lemma SortedStep(s: set<Addr>, m: Addr, rest: seq<Addr>)
    requires m in s && (forall a | a in s :: m <= a)
    requires Increasing(rest) && Elements(rest) == s - {m}
    ensures Increasing([m] + rest) && Elements([m] + rest) == s
  {
    var list := [m] + rest;
    forall i, j | 0 <= i < j < |list| ensures list[i] < list[j] {
      assert rest[j - 1] in Elements(rest);
    }
    forall a ensures a in Elements(list) <==> a in s {
      assert a in list <==> a == m || a in rest;
      assert a in rest <==> a in Elements(rest);
    }
  }

  /** Two increasing lists with the same addresses are the same list, so ranks that build
      their lists apart, from equal sets, build identical lists. */
  lemma {:induction false} IncreasingUnique(p: seq<Addr>, q: seq<Addr>)
    requires Increasing(p) && Increasing(q) && Elements(p) == Elements(q)
    ensures p == q
  {
    assert forall i | 0 <= i < |p| :: p[i] in Elements(q);
    assert forall i | 0 <= i < |q| :: q[i] in Elements(p);
    if p == [] || q == [] {
    } else {
      assert p[0] == q[0];
      forall a ensures a in Elements(p[1..]) <==> a in Elements(q[1..]) {
        assert a in p[1..] <==> a in Elements(p) && a != p[0];
        assert a in q[1..] <==> a in Elements(q) && a != q[0];
      }
      IncreasingUnique(p[1..], q[1..]);
    }
  }

  lemma HeadFirst(x: Addr, rest: seq<Addr>)
    requires Increasing(rest) && forall y | y in Elements(rest) :: x < y
    ensures Increasing([x] + rest) && Elements([x] + rest) == Elements(rest) + {x}
  {
    var list := [x] + rest;
    forall i, j | 0 <= i < j < |list| ensures list[i] < list[j] {
      assert rest[j - 1] in Elements(rest);
    }
    forall a ensures a in Elements(list) <==> a == x || a in Elements(rest) {
      assert a in list <==> a == x || a in rest;
    }
  }

  lemma TailAfterHead(list: seq<Addr>)
    requires Increasing(list) && list != []
    ensures Increasing(list[1..]) && Elements(list) == Elements(list[1..]) + {list[0]}
    ensures forall y | y in Elements(list[1..]) :: list[0] < y
  {
    assert list == [list[0]] + list[1..];
    assert forall i | 0 <= i < |list[1..]| :: list[1..][i] == list[i + 1];
    HeadFirst(list[0], list[1..]);
  }

  lemma SubsetIsSmaller(s: set<nat>, t: set<nat>)
    requires s <= t
    ensures |s| <= |t|
  {
    if s != t {
      var x :| x in t && x !in s;
      SubsetIsSmaller(s, t - {x});
    }
  }

  lemma EmptyList()
    ensures Increasing([]) && Elements([]) == {}
  {
  }

  /** What the skip list promises of inserting and removing an address. */
  function Inserted(list: seq<Addr>, a: Addr): (r: seq<Addr>)
    requires Increasing(list)
    ensures Increasing(r) && Elements(r) == Elements(list) + {a}
  {
    hide Increasing, Elements;
    EmptyList();
    if list == [] then
      HeadFirst(a, []);
      [a] + []
    else
      TailAfterHead(list);
      if a < list[0] then
        HeadFirst(a, list);
        [a] + list
      else if a == list[0] then list
      else
        var rest := Inserted(list[1..], a);
        HeadFirst(list[0], rest);
        [list[0]] + rest
  }

  function Removed(list: seq<Addr>, a: Addr): (r: seq<Addr>)
    requires Increasing(list)
    ensures Increasing(r) && Elements(r) == Elements(list) - {a}
  {
    if list == [] then []
    else
      TailAfterHead(list);
      if a == list[0] then list[1..]
      else
        var rest := Removed(list[1..], a);
        HeadFirst(list[0], rest);
        [list[0]] + rest
  }

  lemma SortedIs(list: seq<Addr>)
    requires Increasing(list)
    ensures Sorted(Elements(list)) == list
  {
    IncreasingUnique(list, Sorted(Elements(list)));
  }

  lemma OneMore(list: seq<Addr>, u: nat)
    requires u < |list|
    ensures list[..u + 1] == list[..u] + [list[u]]
    ensures Elements(list[..u + 1]) == Elements(list[..u]) + {list[u]}
    ensures list[u] in Elements(list)
  {
  }

  // ---------------------------------------------------- splitting the list

  function Min(a: nat, b: nat): nat { if a < b then a else b }

  /** Where rank r's share starts when `num` candidates are split among `n` ranks. */
  function Boundary(num: nat, n: nat, r: nat): nat
    requires n > 0
  {
    r * (num / n) + Min(r, num % n)
  }

  predicate Owns(num: nat, n: nat, r: nat, i: nat)
    requires n > 0
  {
    Boundary(num, n, r) <= i < Boundary(num, n, r + 1)
  }

  lemma BoundaryStep(num: nat, n: nat, r: nat)
    requires n > 0
    ensures Boundary(num, n, r + 1) == Boundary(num, n, r) + num / n + (if r < num % n then 1 else 0)
  {
    assert (r + 1) * (num / n) == r * (num / n) + num / n;
  }

  lemma BoundaryEnds(num: nat, n: nat)
    requires n > 0
    ensures Boundary(num, n, 0) == 0 && Boundary(num, n, n) == num
  {
    assert num == n * (num / n) + num % n;
  }

  lemma {:induction false} BoundaryMonotone(num: nat, n: nat, r: nat, q: nat)
    requires n > 0 && r <= q
    ensures Boundary(num, n, r) <= Boundary(num, n, q)
    decreases q - r
  {
    if r < q {
      BoundaryStep(num, n, r);
      BoundaryMonotone(num, n, r + 1, q);
    }
  }

  /** The rank that writes candidate `i`: the search always ends at a rank of the job. */
  ghost function OwnerFrom(num: nat, n: nat, i: nat, r: nat): (q: nat)
    requires n > 0 && i < num && r < n && Boundary(num, n, r) <= i
    ensures q < n && Owns(num, n, q, i)
    decreases n - r
  {
    if i < Boundary(num, n, r + 1) then r
    else
      BoundaryEnds(num, n);
      OwnerFrom(num, n, i, r + 1)
  }

  ghost function Owner(num: nat, n: nat, i: nat): (q: nat)
    requires n > 0 && i < num
    ensures q < n && Owns(num, n, q, i)
  {
    BoundaryEnds(num, n);
    OwnerFrom(num, n, i, 0)
  }

  /** Each list position belongs to exactly one rank. */
  lemma ExactlyOneOwner(num: nat, n: nat, i: nat, r: nat)
    requires n > 0 && i < num
    ensures Owns(num, n, r, i) <==> r == Owner(num, n, i)
  {
    var q := Owner(num, n, i);
    if r < q {
      BoundaryMonotone(num, n, r + 1, q);
    } else if q < r {
      BoundaryMonotone(num, n, q + 1, r);
    }
  }

  lemma Boundaries(num: nat, n: nat) returns (b: seq<nat>)
    requires n > 0
    ensures |b| == n + 1 && b[0] == 0 && b[n] == num
    ensures forall r | 0 <= r <= n :: b[r] == Boundary(num, n, r)
    ensures forall r | 0 <= r < n :: b[r + 1] == b[r] + num / n + (if r < num % n then 1 else 0)
  {
    BoundaryEnds(num, n);
    b := seq(n + 1, r requires 0 <= r => Boundary(num, n, r));
    forall r | 0 <= r < n ensures b[r + 1] == b[r] + num / n + (if r < num % n then 1 else 0) {
      BoundaryStep(num, n, r);
    }
  }

  lemma {:induction false} FlatTail(b: seq<nat>, n: nat, m: nat, u: nat)
    requires |b| == n + 1 && m <= u <= n
    requires forall r | m <= r < n :: b[r + 1] == b[r]
    ensures b[u] == b[m]
  {
    if m < u {
      FlatTail(b, n, m, u - 1);
      assert b[(u - 1) + 1] == b[u - 1];
    }
  }

  /** The table of share boundaries, filled in place: the first m shares have q + 1
      candidates and the others q. */
  method FillShares(num: nat, n: nat, q: nat, m: nat, table: array<nat>, ghost b: seq<nat>)
    requires n > 0 && m < n && table.Length == n + 1
    requires |b| == n + 1 && b[0] == 0 && b[n] == num
    requires forall r | 0 <= r < n :: b[r + 1] == b[r] + q + (if r < m then 1 else 0)
    requires num < n ==> q == 0
    modifies table
    ensures table[..] == b
  {
    table[0] := 0;
    table[n] := num;
    var u := 1;
    if m == 0 {
      while u < n
        invariant 1 <= u <= n && table[n] == num
        invariant forall r | 0 <= r < u :: table[r] == b[r]
      {
        assert b[(u - 1) + 1] == b[u - 1] + q;
        table[u] := table[u - 1] + q;
        u := u + 1;
      }
    } else {
      while u <= m
        invariant 1 <= u <= m + 1 && table[n] == num
        invariant forall r | 0 <= r < u :: table[r] == b[r]
      {
        assert b[(u - 1) + 1] == b[u - 1] + q + 1;
        table[u] := table[u - 1] + q + 1;
        u := u + 1;
      }
      if num < n {
        FlatTail(b, n, m, n);
        while u < n
          invariant m + 1 <= u <= n && table[n] == num
          invariant forall r | 0 <= r < u :: table[r] == b[r]
        {
          FlatTail(b, n, m, u);
          table[u] := num;
          u := u + 1;
        }
      } else {
        while u < n
          invariant m + 1 <= u <= n && table[n] == num
          invariant forall r | 0 <= r < u :: table[r] == b[r]
        {
          assert b[(u - 1) + 1] == b[u - 1] + q;
          table[u] := table[u - 1] + q;
          u := u + 1;
        }
      }
    }
  }

  method FillAssignmentTable(num: nat, n: nat, table: array<nat>)
    requires n > 0 && num > 0 && table.Length == n + 1
    modifies table
    ensures forall r | 0 <= r <= n :: table[r] == Boundary(num, n, r)
  {
    ghost var b := Boundaries(num, n);
    FillShares(num, n, num / n, num % n, table, b);
  }
}
