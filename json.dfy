/**
 * JSON-like values and the canonical form `json.dumps(params, sort_keys=True)`
 * gives a parameter dict: its entries ordered by key, Python's string order.
 * Both cache-key builders hash this canonical form.
 */
module Json {

  datatype Value =
    | Null
    | Bool(b: bool)
    | Int(i: int)
    | Str(s: string)
    | List(items: seq<Value>)
    | Obj(fields: seq<(string, Value)>)

  /** A Python dict with string keys, in insertion order. */
  type Entries = seq<(string, Value)>

  /** Python truthiness. */
  predicate Truthy(v: Value)
  {
    match v
    case Null => false
    case Bool(b) => b
    case Int(i) => i != 0
    case Str(s) => s != []
    case List(items) => items != []
    case Obj(fields) => fields != []
  }

  /** Python's `a < b` on strings: lexicographic on code points. */
  predicate Below(a: string, b: string)
    decreases |a|
  {
    if a == [] then b != []
    else if b == [] then false
    else a[0] < b[0] || (a[0] == b[0] && Below(a[1..], b[1..]))
  }

  lemma {:induction false} BelowIrreflexive(a: string)
    ensures !Below(a, a)
    decreases |a|
  {
    if a != [] {
      BelowIrreflexive(a[1..]);
    }
  }

  lemma {:induction false} BelowTransitive(a: string, b: string, c: string)
    requires Below(a, b) && Below(b, c)
    ensures Below(a, c)
    decreases |a|
  {
    if a != [] && a[0] == b[0] && b[0] == c[0] {
      BelowTransitive(a[1..], b[1..], c[1..]);
    }
  }

  lemma {:induction false} BelowTotal(a: string, b: string)
    requires a != b
    ensures Below(a, b) || Below(b, a)
    decreases |a|
  {
    if a != [] && b != [] && a[0] == b[0] {
      assert a == [a[0]] + a[1..] && b == [b[0]] + b[1..];
      BelowTotal(a[1..], b[1..]);
    }
  }

  predicate DistinctKeys(ps: Entries)
  {
    forall i, j :: 0 <= i < j < |ps| ==> ps[i].0 != ps[j].0
  }

  predicate SortedKeys(ps: Entries)
  {
    forall i, j :: 0 <= i < j < |ps| ==> Below(ps[i].0, ps[j].0)
  }

  /** Inserts one entry into a key-sorted list, before the first larger key. */
  function Insert(p: (string, Value), ps: Entries): Entries
  {
    if ps == [] then [p]
    else if Below(p.0, ps[0].0) then [p] + ps
    else [ps[0]] + Insert(p, ps[1..])
  }

  /** Insertion adds exactly the one entry. */
  lemma {:induction false} InsertAdds(p: (string, Value), ps: Entries)
    ensures multiset(Insert(p, ps)) == multiset(ps) + multiset{p}
  {
    if ps != [] && !Below(p.0, ps[0].0) {
      InsertAdds(p, ps[1..]);
      assert ps == [ps[0]] + ps[1..];
    }
  }

  /** An entry whose key is below every key of a sorted list may head it. */
  lemma ConsSorted(x: (string, Value), ps: Entries)
    requires SortedKeys(ps)
    requires forall i :: 0 <= i < |ps| ==> Below(x.0, ps[i].0)
    ensures SortedKeys([x] + ps)
  {
    var r := [x] + ps;
    forall i, j | 0 <= i < j < |r| ensures Below(r[i].0, r[j].0) {
      assert r[j] == ps[j - 1];
      if i > 0 {
        assert r[i] == ps[i - 1];
      }
    }
  }

  /** Insertion into a key-sorted list of other keys keeps it key-sorted. */
  lemma {:induction false} InsertSorted(p: (string, Value), ps: Entries)
    requires SortedKeys(ps)
    requires forall i :: 0 <= i < |ps| ==> ps[i].0 != p.0
    ensures SortedKeys(Insert(p, ps))
  {
    if ps == [] {
    } else if Below(p.0, ps[0].0) {
      forall j | 0 <= j < |ps| ensures Below(p.0, ps[j].0) {
        if j > 0 { BelowTransitive(p.0, ps[0].0, ps[j].0); }
      }
      ConsSorted(p, ps);
    } else {
      BelowTotal(p.0, ps[0].0);
      var tail := ps[1..];
      InsertSorted(p, tail);
      InsertAdds(p, tail);
      var rest := Insert(p, tail);
      forall i | 0 <= i < |rest| ensures Below(ps[0].0, rest[i].0) {
        assert rest[i] in multiset(rest);
        if rest[i] != p {
          assert rest[i] in multiset(tail);
          var j :| 0 <= j < |tail| && tail[j] == rest[i];
          assert ps[j + 1] == rest[i];
        }
      }
      ConsSorted(ps[0], rest);
    }
  }

  /**
   * The entries of a dict in the order `sort_keys=True` writes them. Only
   * the top level is sorted, where `json.dumps` also sorts nested dicts;
   * every parameter dict the model keys a cache with is flat.
   */
  function SortKeys(ps: Entries): (r: Entries)
    requires DistinctKeys(ps)
    ensures SortedKeys(r)
    ensures multiset(r) == multiset(ps)
  {
    if ps == [] then []
    else
      var rest := SortKeys(ps[1..]);
      forall i | 0 <= i < |rest| ensures rest[i].0 != ps[0].0 {
        assert rest[i] in multiset(ps[1..]);
      }
      assert ps == [ps[0]] + ps[1..];
      InsertSorted(ps[0], rest);
      InsertAdds(ps[0], rest);
      Insert(ps[0], rest)
  }

  /** The head of a key-sorted list has the least key of all its entries. */
  lemma HeadIsLeast(a: Entries, x: (string, Value))
    requires SortedKeys(a) && x in a && x != a[0]
    ensures Below(a[0].0, x.0)
  {
    var k :| 0 <= k < |a| && a[k] == x;
  }

  /** Two non-empty key-sorted lists holding the same entries start with the same entry. */
  lemma SameHead(a: Entries, b: Entries)
    requires SortedKeys(a) && SortedKeys(b) && a != [] && b != []
    requires multiset(a) == multiset(b)
    ensures a[0] == b[0]
  {
    assert a[0] in multiset(b) && b[0] in multiset(a);
    if a[0] != b[0] {
      HeadIsLeast(a, b[0]);
      HeadIsLeast(b, a[0]);
      BelowTransitive(a[0].0, b[0].0, a[0].0);
      BelowIrreflexive(a[0].0);
    }
  }

  /** Removing the same first entry from two lists with the same entries leaves the same entries. */
  lemma SameTail(a: Entries, b: Entries)
    requires a != [] && b != [] && a[0] == b[0] && multiset(a) == multiset(b)
    ensures multiset(a[1..]) == multiset(b[1..])
  {
    assert a == [a[0]] + a[1..] && b == [b[0]] + b[1..];
    assert multiset(a) == multiset{a[0]} + multiset(a[1..]);
    assert multiset(b) == multiset{b[0]} + multiset(b[1..]);
    assert multiset(a[1..]) == multiset(a) - multiset{a[0]};
    assert multiset(b[1..]) == multiset(b) - multiset{b[0]};
  }

  /** Two key-sorted lists holding the same entries are the same list. */
  lemma {:induction false} SortedUnique(a: Entries, b: Entries)
    requires SortedKeys(a) && SortedKeys(b)
    requires multiset(a) == multiset(b)
    ensures a == b
    decreases |a|
  {
    if a != [] {
      assert b != [] by {
        assert |multiset(b)| == |multiset(a)| == |a|;
      }
      SameHead(a, b);
      SameTail(a, b);
      SortedUnique(a[1..], b[1..]);
      assert a == [a[0]] + a[1..] && b == [b[0]] + b[1..];
    } else {
      assert |b| == |multiset(b)| == |multiset(a)| == 0;
    }
  }

  /**
   * `json.dumps(params, sort_keys=True)` does not depend on insertion order:
   * two dicts with the same entries have the same canonical form.
   */
  lemma CanonicalIgnoresOrder(ps: Entries, qs: Entries)
    requires DistinctKeys(ps) && DistinctKeys(qs)
    requires multiset(ps) == multiset(qs)
    ensures SortKeys(ps) == SortKeys(qs)
  {
    SortedUnique(SortKeys(ps), SortKeys(qs));
  }
}
