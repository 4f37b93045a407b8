/**
 * The order in which an object store hands back its records: `getAll()`
 * returns the values of a collection in ascending order of their keys.
 */
module KeyOrder {

  predicate IsLeast(k: nat, s: set<nat>) {
    k in s && forall j :: j in s ==> k <= j
  }

  lemma LeastExists(s: set<nat>)
    requires s != {}
    ensures exists k :: IsLeast(k, s)
    decreases |s|
  {
    var x :| x in s;
    if s != {x} {
      var rest := s - {x};
      LeastExists(rest);
      var m :| IsLeast(m, rest);
      var least := if x < m then x else m;
      forall j | j in s
        ensures least <= j
      {
        if j != x {
          assert j in rest;
        }
      }
      assert IsLeast(least, s);
    } else {
      assert IsLeast(x, s);
    }
  }

  function Least(s: set<nat>): (k: nat)
    requires s != {}
    ensures IsLeast(k, s)
  {
    LeastExists(s);
    var k :| IsLeast(k, s); k
  }

  predicate StrictlyIncreasing(r: seq<nat>) {
    forall i, j :: 0 <= i < j < |r| ==> r[i] < r[j]
  }

  /** The keys of a collection from the smallest to the largest. */
  function SortedKeys(s: set<nat>): seq<nat>
    decreases |s|
  {
    if s == {} then [] else var k := Least(s); [k] + SortedKeys(s - {k})
  }

  /** `SortedKeys` lists every key exactly once, in increasing order. */
  lemma {:induction false} SortedKeysSpec(s: set<nat>)
    ensures StrictlyIncreasing(SortedKeys(s))
    ensures forall x :: x in SortedKeys(s) <==> x in s
    ensures |SortedKeys(s)| == |s|
    decreases |s|
  {
    if s != {} {
      var k := Least(s);
      SortedKeysSpec(s - {k});
      var rest := SortedKeys(s - {k});
      var r := SortedKeys(s);
      assert r == [k] + rest;
      assert forall x :: x in rest ==> k < x;
      forall i, j | 0 <= i < j < |r|
        ensures r[i] < r[j]
      {
        assert r[j] == rest[j - 1];
        if i > 0 {
          assert r[i] == rest[i - 1];
        } else {
          assert rest[j - 1] in rest;
        }
      }
    }
  }

  /** The values stored under `keys`, in that order. */
  function Project<T>(m: map<nat, T>, keys: seq<nat>): seq<T>
    requires forall i :: 0 <= i < |keys| ==> keys[i] in m
  {
    if keys == [] then [] else [m[keys[0]]] + Project(m, keys[1..])
  }

  lemma {:induction false} ProjectSpec<T>(m: map<nat, T>, keys: seq<nat>)
    requires forall i :: 0 <= i < |keys| ==> keys[i] in m
    ensures |Project(m, keys)| == |keys|
    ensures forall i :: 0 <= i < |keys| ==> Project(m, keys)[i] == m[keys[i]]
  {
    if keys != [] {
      ProjectSpec(m, keys[1..]);
    }
  }

  /** `getAll()`: every record of the collection, in ascending key order. */
  function ValuesByKey<T>(m: map<nat, T>): seq<T> {
    SortedKeysSpec(m.Keys);
    Project(m, SortedKeys(m.Keys))
  }

  /** The i-th listed record is the one under the i-th smallest key. */
  lemma ValuesByKeySpec<T>(m: map<nat, T>)
    ensures |SortedKeys(m.Keys)| == |m|
    ensures forall x :: x in SortedKeys(m.Keys) <==> x in m
    ensures StrictlyIncreasing(SortedKeys(m.Keys))
    ensures |ValuesByKey(m)| == |m|
    ensures forall i :: 0 <= i < |m| ==> ValuesByKey(m)[i] == m[SortedKeys(m.Keys)[i]]
  {
    SortedKeysSpec(m.Keys);
    assert |m.Keys| == |m|;
    ProjectSpec(m, SortedKeys(m.Keys));
  }

  /** Every stored record appears in the listing. */
  lemma ValuesByKeyComplete<T>(m: map<nat, T>, k: nat)
    requires k in m
    ensures m[k] in ValuesByKey(m)
  {
    ValuesByKeySpec(m);
    var keys := SortedKeys(m.Keys);
    var i :| 0 <= i < |keys| && keys[i] == k;
    assert ValuesByKey(m)[i] == m[k];
  }

  /** Every listed record is stored under some key. */
  lemma ValuesByKeySound<T>(m: map<nat, T>, i: int)
    requires 0 <= i < |ValuesByKey(m)|
    ensures exists k :: k in m && m[k] == ValuesByKey(m)[i]
  {
    ValuesByKeySpec(m);
    assert SortedKeys(m.Keys)[i] in m;
  }
}
