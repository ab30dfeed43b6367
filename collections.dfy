/**
 * Swift dictionaries keyed by class name are enumerated in an order the program does not choose.
 * The model makes that order explicit: an enumeration of a key set is a
 * sequence that lists every key exactly once.
 */
module Collections {

  predicate NoDuplicates(s: seq<string>) {
    forall i, j :: 0 <= i < j < |s| ==> s[i] != s[j]
  }

  predicate IsEnumerationOf(order: seq<string>, keys: set<string>) {
    && NoDuplicates(order)
    && (forall i :: 0 <= i < |order| ==> order[i] in keys)
    && (forall k :: k in keys ==> k in order)
  }

  /** Picks some enumeration order of a finite key set, as iterating a dictionary does. */
  method EnumerateKeys(keys: set<string>) returns (order: seq<string>)
    ensures IsEnumerationOf(order, keys)
  {
    order := [];
    var remaining := keys;
    while remaining != {}
      invariant NoDuplicates(order)
      invariant remaining <= keys
      invariant forall i :: 0 <= i < |order| ==> order[i] in keys - remaining
      invariant forall k :: k in keys - remaining ==> k in order
      decreases |remaining|
    {
      var k :| k in remaining;
      order := order + [k];
      remaining := remaining - {k};
    }
  }

  /** In a sequence without duplicates every element occurs exactly once. */
  lemma {:induction false} NoDuplicatesCount(s: seq<string>, x: string)
    requires NoDuplicates(s)
    ensures multiset(s)[x] == if x in s then 1 else 0
    decreases |s|
  {
    if s != [] {
      var init := s[..|s| - 1];
      assert s == init + [s[|s| - 1]];
      NoDuplicatesCount(init, x);
      assert x in s <==> x in init || x == s[|s| - 1];
    }
  }

  /** Two enumerations of the same keys list the same keys, possibly in another order. */
  lemma EnumerationsArePermutations(a: seq<string>, b: seq<string>, keys: set<string>)
    requires IsEnumerationOf(a, keys) && IsEnumerationOf(b, keys)
    ensures multiset(a) == multiset(b)
  {
    forall x
      ensures multiset(a)[x] == multiset(b)[x]
    {
      NoDuplicatesCount(a, x);
      NoDuplicatesCount(b, x);
    }
  }

  /** Taking the last element off one of two permutations, and the same element off the other, leaves permutations. */
  lemma RemoveMatching<T>(a: seq<T>, b: seq<T>, j: nat)
    requires multiset(a) == multiset(b) && |a| > 0
    requires j < |b| && b[j] == a[|a| - 1]
    ensures b == b[..j] + [b[j]] + b[j + 1..]
    ensures multiset(a[..|a| - 1]) == multiset(b[..j] + b[j + 1..])
  {
    var x, rest, before, after := a[|a| - 1], a[..|a| - 1], b[..j], b[j + 1..];
    assert a == rest + [x];
    assert b == before + [x] + after;
    assert multiset(rest) + multiset{x} == multiset(before + after) + multiset{x};
    forall y
      ensures multiset(rest)[y] == multiset(before + after)[y]
    {
      assert (multiset(rest) + multiset{x})[y] == (multiset(before + after) + multiset{x})[y];
    }
  }

  /** A single key has a single enumeration. */
  lemma SingletonEnumeration(order: seq<string>, k: string)
    requires IsEnumerationOf(order, {k})
    ensures order == [k]
  {
    assert k in order;
    var i :| 0 <= i < |order| && order[i] == k;
    forall j | 0 <= j < |order|
      ensures order[j] == order[i] && j == i
    {
      assert order[j] in {k};
    }
    assert order[0] == order[i] && order[|order| - 1] == order[i];
  }

  /** Moving one element of `remaining` over to `done` keeps the two a split of `all`. */
  lemma TakeOne<T>(all: set<T>, remaining: set<T>, done: set<T>, x: T)
    requires remaining <= all && done == all - remaining && x in remaining
    ensures remaining - {x} <= all && done + {x} == all - (remaining - {x})
    ensures |remaining - {x}| < |remaining| && x !in done
  {
  }

  /** The elements of `s` that `keep` accepts, in their order. */
  function Filter<T>(s: seq<T>, keep: T -> bool): seq<T> {
    if s == [] then [] else (if keep(s[0]) then [s[0]] else []) + Filter(s[1..], keep)
  }

  lemma {:induction false} FilterMembers<T>(s: seq<T>, keep: T -> bool, x: T)
    ensures x in Filter(s, keep) <==> x in s && keep(x)
  {
    if s != [] {
      assert s == [s[0]] + s[1..];
      FilterMembers(s[1..], keep, x);
    }
  }

  lemma {:induction false} FilterAppend<T>(a: seq<T>, b: seq<T>, keep: T -> bool)
    ensures Filter(a + b, keep) == Filter(a, keep) + Filter(b, keep)
  {
    if a == [] {
      assert a + b == b;
    } else {
      var head := if keep(a[0]) then [a[0]] else [];
      assert (a + b)[0] == a[0] && (a + b)[1..] == a[1..] + b;
      assert Filter(a + b, keep) == head + Filter(a[1..] + b, keep);
      FilterAppend(a[1..], b, keep);
      assert Filter(a, keep) == head + Filter(a[1..], keep);
    }
  }

  /** Filtering a list extended by one element keeps that element exactly when `keep` accepts it. */
  lemma FilterSnoc<T>(s: seq<T>, x: T, keep: T -> bool)
    ensures Filter(s + [x], keep) == Filter(s, keep) + (if keep(x) then [x] else [])
  {
    FilterAppend(s, [x], keep);
    assert [x][1..] == [];
  }

  /** The entries of `m` whose keys are in `keys`. */
  function Restrict<K, V>(m: map<K, V>, keys: set<K>): map<K, V> {
    map k | k in m.Keys * keys :: m[k]
  }

  /** Admitting one more key adds that key's entry. */
  lemma RestrictGrows<K, V>(m: map<K, V>, keys: set<K>, k: K)
    requires k in m
    ensures Restrict(m, keys + {k}) == Restrict(m, keys)[k := m[k]]
  {
    var bigger, updated := Restrict(m, keys + {k}), Restrict(m, keys)[k := m[k]];
    assert bigger.Keys == updated.Keys;
  }

  /** No key admits nothing; every key admits the whole map. */
  lemma RestrictEnds<K, V>(m: map<K, V>)
    ensures Restrict(m, {}) == map[]
    ensures Restrict(m, m.Keys) == m
  {
    assert Restrict(m, {}).Keys == {};
    assert Restrict(m, m.Keys).Keys == m.Keys;
  }

  /** Updating the right operand of a map union updates the union. */
  lemma UnionUpdate<K, V>(a: map<K, V>, b: map<K, V>, k: K, v: V)
    ensures a + b[k := v] == (a + b)[k := v]
  {
    var left, right := a + b[k := v], (a + b)[k := v];
    assert left.Keys == right.Keys;
  }
}
