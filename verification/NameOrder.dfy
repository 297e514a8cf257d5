/** The order of the name index: by hash first, then by the names themselves, whatever the
    hash function is and however often it collides. */
module NameOrder {

  /** strcmp: negative, zero or positive. */
  function Compare(a: string, b: string): (r: int)
    ensures r == 0 <==> a == b
  {
    if a == [] then if b == [] then 0 else -1
    else if b == [] then 1
    else if a[0] < b[0] then -1
    else if a[0] > b[0] then 1
    else
      assert a == [a[0]] + a[1..] && b == [b[0]] + b[1..];
      Compare(a[1..], b[1..])
  }

  /** At the first position where they differ, a has the smaller character, or has ended. */
  ghost predicate Precedes(a: string, b: string) {
    exists k :: PartsAt(a, b, k)
  }

  ghost predicate PartsAt(a: string, b: string, k: nat) {
    k <= |a| && k < |b| && a[..k] == b[..k] && (k == |a| || a[k] < b[k])
  }

  /** What comparing names means. */
  lemma {:induction false} CompareIs(a: string, b: string)
    ensures Compare(a, b) < 0 <==> Precedes(a, b)
    ensures Compare(a, b) > 0 <==> Precedes(b, a)
  {
    if a == [] || b == [] || a[0] != b[0] {
      PartsAtOnce(a, b);
      PartsAtOnce(b, a);
    } else {
      CompareIs(a[1..], b[1..]);
      PartsLater(a, b);
      PartsLater(b, a);
    }
  }

  lemma PartsAtOnce(a: string, b: string)
    requires a == [] || b == [] || a[0] != b[0]
    ensures Precedes(a, b) <==> b != [] && (a == [] || a[0] < b[0])
  {
    if b != [] && (a == [] || a[0] < b[0]) {
      assert PartsAt(a, b, 0);
    }
    if k: nat :| PartsAt(a, b, k) {
      PartsFirst(a, b, k);
    }
  }

  lemma PartsFirst(a: string, b: string, k: nat)
    requires PartsAt(a, b, k)
    ensures k > 0 ==> a[0] == b[0]
  {
    if k > 0 {
      assert a[..k][0] == a[0] && b[..k][0] == b[0];
    }
  }

  lemma PartsLater(a: string, b: string)
    requires a != [] && b != [] && a[0] == b[0]
    ensures Precedes(a, b) <==> Precedes(a[1..], b[1..])
  {
    if k: nat :| PartsAt(a[1..], b[1..], k) {
      assert a == [a[0]] + a[1..] && b == [b[0]] + b[1..];
      assert a[..k + 1] == [a[0]] + a[1..][..k] && b[..k + 1] == [b[0]] + b[1..][..k];
      assert PartsAt(a, b, k + 1);
    }
    if k: nat :| PartsAt(a, b, k) {
      assert k > 0;
      assert a[1..][..k - 1] == a[..k][1..] && b[1..][..k - 1] == b[..k][1..];
      assert PartsAt(a[1..], b[1..], k - 1);
    }
  }

  lemma {:induction false} CompareReverses(a: string, b: string)
    ensures Compare(a, b) < 0 <==> Compare(b, a) > 0
  {
    if a != [] && b != [] {
      CompareReverses(a[1..], b[1..]);
    }
  }

  lemma {:induction false} CompareChains(a: string, b: string, c: string)
    requires Compare(a, b) < 0 && Compare(b, c) < 0
    ensures Compare(a, c) < 0
  {
    if a != [] && b != [] && c != [] && a[0] == b[0] == c[0] {
      CompareChains(a[1..], b[1..], c[1..]);
    }
  }

  type Hash = string -> nat

  /** a comes before b in the name index. */
  predicate Before(hash: Hash, a: string, b: string) {
    hash(a) < hash(b) || (hash(a) == hash(b) && Compare(a, b) < 0)
  }

  /** The index is ordered by increasing hash, and among equal hashes by name. */
  lemma BeforeIs(hash: Hash, a: string, b: string)
    ensures Before(hash, a, b) <==> hash(a) < hash(b) || (hash(a) == hash(b) && Precedes(a, b))
  {
    CompareIs(a, b);
  }

  /** For every hash function this is a strict total order, with nothing between equal names. */
  lemma BeforeIsTotal(hash: Hash, a: string, b: string)
    ensures Before(hash, a, b) || Before(hash, b, a) || a == b
    ensures !(Before(hash, a, b) && Before(hash, b, a))
    ensures a == b ==> !Before(hash, a, b)
  {
    CompareReverses(a, b);
  }

  lemma BeforeChains(hash: Hash, a: string, b: string, c: string)
    requires Before(hash, a, b) && Before(hash, b, c)
    ensures Before(hash, a, c)
  {
    if hash(a) == hash(b) == hash(c) {
      CompareChains(a, b, c);
    }
  }

  ghost predicate InOrder(hash: Hash, names: seq<string>) {
    forall i, j | 0 <= i < j < |names| :: Before(hash, names[i], names[j])
  }

  /** Where `name` is, or would go. */
  ghost predicate Place(hash: Hash, names: seq<string>, name: string, pos: nat) {
    && pos <= |names|
    && (forall i | 0 <= i < pos :: Before(hash, names[i], name))
    && (forall i | pos <= i < |names| :: !Before(hash, names[i], name))
  }

  /** In an ordered list the place of a name settles whether it is there. */
  lemma PlaceDecides(hash: Hash, names: seq<string>, name: string, pos: nat)
    requires InOrder(hash, names) && Place(hash, names, name, pos)
    ensures name in names <==> pos < |names| && names[pos] == name
    ensures forall i | 0 <= i < |names| && names[i] == name :: i == pos
  {
    BeforeIsTotal(hash, name, name);
  }

  lemma InsertKeepsOrder(hash: Hash, names: seq<string>, name: string, pos: nat)
    requires InOrder(hash, names) && Place(hash, names, name, pos) && name !in names
    ensures InOrder(hash, names[..pos] + [name] + names[pos..])
  {
    var r := names[..pos] + [name] + names[pos..];
    forall i, j | 0 <= i < j < |r| ensures Before(hash, r[i], r[j]) {
      if j > pos && i == pos {
        assert r[j] == names[j - 1];
        assert names[j - 1] in names;
        BeforeIsTotal(hash, names[j - 1], name);
      }
    }
  }

  lemma RemoveKeepsOrder(hash: Hash, names: seq<string>, pos: nat)
    requires InOrder(hash, names) && pos < |names|
    ensures InOrder(hash, names[..pos] + names[pos + 1..])
    ensures names[pos] !in names[..pos] + names[pos + 1..]
  {
    var r := names[..pos] + names[pos + 1..];
    forall i | 0 <= i < |r| ensures r[i] != names[pos] {
      BeforeIsTotal(hash, names[pos], names[pos]);
      if i < pos {
        assert Before(hash, names[i], names[pos]);
      } else {
        assert r[i] == names[i + 1] && Before(hash, names[pos], names[i + 1]);
      }
    }
  }
}
