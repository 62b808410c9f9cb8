// Python's orderings as used by the topology code: `sorted(set(names))` over
// strings (code-point lexicographic order, duplicates removed) and the
// stable `list.sort(key=...)` over an integer key.

module Ordering {

  // ---------------------------------------------------------------------
  // String order

  /** Python's `a < b` on `str`: lexicographic by code point, a proper
      prefix before its extensions. */
  predicate LexLess(a: string, b: string)
    decreases |a|
  {
    if a == [] then b != []
    else if b == [] then false
    else if a[0] != b[0] then a[0] < b[0]
    else LexLess(a[1..], b[1..])
  }

  lemma {:induction false} LexIrreflexive(a: string)
    ensures !LexLess(a, a)
    decreases |a|
  {
    if a != [] {
      LexIrreflexive(a[1..]);
    }
  }

  lemma {:induction false} LexTransitive(a: string, b: string, c: string)
    requires LexLess(a, b) && LexLess(b, c)
    ensures LexLess(a, c)
    decreases |a|
  {
    if a != [] && b != [] && c != [] && a[0] == b[0] && b[0] == c[0] {
      LexTransitive(a[1..], b[1..], c[1..]);
    }
  }

  lemma {:induction false} LexTotal(a: string, b: string)
    ensures a == b || LexLess(a, b) || LexLess(b, a)
    decreases |a|
  {
    if a != [] && b != [] && a[0] == b[0] {
      LexTotal(a[1..], b[1..]);
      if a[1..] == b[1..] {
        assert a == [a[0]] + a[1..] && b == [b[0]] + b[1..];
      }
    }
  }

  predicate StrictlySorted(s: seq<string>)
  {
    forall i, j :: 0 <= i < j < |s| ==> LexLess(s[i], s[j])
  }

  /** Inserting into a strictly sorted list of distinct names, ignoring a
      name already present. */
  function InsertSorted(x: string, s: seq<string>): (r: seq<string>)
    requires StrictlySorted(s)
    ensures StrictlySorted(r)
    ensures forall y :: y in r <==> y == x || y in s
  {
    if s == [] then [x]
    else if x == s[0] then s
    else if LexLess(x, s[0]) then
      assert forall j :: 0 < j < |s| ==> LexLess(x, s[j]) by {
        forall j | 0 < j < |s| ensures LexLess(x, s[j]) {
          LexTransitive(x, s[0], s[j]);
        }
      }
      [x] + s
    else
      LexTotal(x, s[0]);
      var rest := InsertSorted(x, s[1..]);
      assert forall y :: y in rest ==> LexLess(s[0], y);
      [s[0]] + rest
  }

  lemma HeadIsMember(a: seq<string>)
    requires a != []
    ensures a[0] in a
  {
  }

  /** Two strictly sorted lists with the same members are the same list:
      `sorted(set(...))` has exactly one answer. */
  lemma {:induction false} StrictlySortedUnique(a: seq<string>, b: seq<string>)
    requires StrictlySorted(a) && StrictlySorted(b)
    requires forall y :: y in a <==> y in b
    ensures a == b
    decreases |a|
  {
    if a != [] && b != [] {
      if a[0] != b[0] {
        assert b[0] in a && a[0] in b;
        var i :| 0 <= i < |a| && a[i] == b[0];
        var j :| 0 <= j < |b| && b[j] == a[0];
        assert 0 < i && 0 < j;
        LexTransitive(a[0], a[i], a[0]);
        LexIrreflexive(a[0]);
        assert false;
      }
      forall y ensures y in a[1..] <==> y in b[1..] {
        assert a == [a[0]] + a[1..] && b == [b[0]] + b[1..];
        if y in a[1..] {
          var i :| 0 < i < |a| && a[i] == y;
          assert LexLess(a[0], y);
          LexIrreflexive(y);
          assert y in b && y != b[0];
        }
        if y in b[1..] {
          var j :| 0 < j < |b| && b[j] == y;
          assert LexLess(b[0], y);
          LexIrreflexive(y);
          assert y in a && y != a[0];
        }
      }
      StrictlySortedUnique(a[1..], b[1..]);
      assert a == [a[0]] + a[1..] && b == [b[0]] + b[1..];
    } else if a != [] {
      HeadIsMember(a);
      assert false;
    } else if b != [] {
      HeadIsMember(b);
      assert false;
    }
  }

  /** Python's `sorted(set_of_names)`: the members of `names`, once each, in
      ascending order. */
  method SortedNames(names: set<string>) returns (r: seq<string>)
    ensures StrictlySorted(r)
    ensures forall y :: y in r <==> y in names
  {
    r := [];
    var rest := names;
    while rest != {}
      invariant StrictlySorted(r)
      invariant rest <= names
      invariant forall y :: y in names <==> y in r || y in rest
      decreases |rest|
    {
      var x :| x in rest;
      r := InsertSorted(x, r);
      rest := rest - {x};
    }
  }

  // ---------------------------------------------------------------------
  // Stable sort by an integer key

  predicate SortedByKey<T>(s: seq<T>, key: T -> int)
  {
    forall i, j :: 0 <= i < j < |s| ==> key(s[i]) <= key(s[j])
  }

  /** Inserts `x` after every element whose key does not exceed its own. */
  function InsertByKey<T>(x: T, s: seq<T>, key: T -> int): (r: seq<T>)
    ensures multiset(r) == multiset(s) + multiset{x}
  {
    if s == [] then [x]
    else if key(x) < key(s[|s| - 1]) then
      assert s == s[..|s| - 1] + [s[|s| - 1]];
      InsertByKey(x, s[..|s| - 1], key) + [s[|s| - 1]]
    else
      s + [x]
  }

  lemma {:induction false} InsertByKeyBound<T>(x: T, s: seq<T>, key: T -> int, b: int)
    requires forall i :: 0 <= i < |s| ==> key(s[i]) <= b
    requires key(x) <= b
    ensures forall i :: 0 <= i < |InsertByKey(x, s, key)| ==> key(InsertByKey(x, s, key)[i]) <= b
    decreases |s|
  {
    if s != [] && key(x) < key(s[|s| - 1]) {
      InsertByKeyBound(x, s[..|s| - 1], key, b);
    }
  }

  /** Insertion keeps a key-sorted list key-sorted. */
  lemma {:induction false} InsertByKeySorted<T>(x: T, s: seq<T>, key: T -> int)
    requires SortedByKey(s, key)
    ensures SortedByKey(InsertByKey(x, s, key), key)
    decreases |s|
  {
    if s != [] && key(x) < key(s[|s| - 1]) {
      var init, last := s[..|s| - 1], s[|s| - 1];
      InsertByKeySorted(x, init, key);
      InsertByKeyBound(x, init, key, key(last));
      var r' := InsertByKey(x, init, key);
      assert InsertByKey(x, s, key) == r' + [last];
    }
  }

  /** Python's `list.sort(key=key)`: a stable insertion sort, giving a
      key-sorted permutation of its input. */
  function SortByKey<T>(s: seq<T>, key: T -> int): (r: seq<T>)
    ensures SortedByKey(r, key)
    ensures multiset(r) == multiset(s)
  {
    if s == [] then []
    else
      var init := SortByKey(s[..|s| - 1], key);
      InsertByKeySorted(s[|s| - 1], init, key);
      assert s == s[..|s| - 1] + [s[|s| - 1]];
      InsertByKey(s[|s| - 1], init, key)
  }

  /** The elements of `s` whose key is `k`, in their order in `s`. */
  function KeyFilter<T>(s: seq<T>, key: T -> int, k: int): seq<T>
  {
    if s == [] then []
    else KeyFilter(s[..|s| - 1], key, k) + (if key(s[|s| - 1]) == k then [s[|s| - 1]] else [])
  }

  lemma {:induction false} KeyFilterAppend<T>(a: seq<T>, b: seq<T>, key: T -> int, k: int)
    ensures KeyFilter(a + b, key, k) == KeyFilter(a, key, k) + KeyFilter(b, key, k)
    decreases |b|
  {
    if b == [] {
      assert a + b == a;
    } else {
      assert (a + b)[..|a + b| - 1] == a + b[..|b| - 1];
      KeyFilterAppend(a, b[..|b| - 1], key, k);
    }
  }

  lemma KeyFilterSingle<T>(y: T, key: T -> int, k: int)
    ensures KeyFilter([y], key, k) == if key(y) == k then [y] else []
  {
    assert [y][..0] == [];
  }

  lemma CommuteWithEmpty<T>(a: seq<T>, b: seq<T>, c: seq<T>)
    requires b == [] || c == []
    ensures a + b + c == a + c + b
  {
  }

  /** The case of `KeyFilterInsert` where `x` goes before the last element,
      given the case for the elements before it. */
  lemma KeyFilterInsertBefore<T>(x: T, s: seq<T>, key: T -> int, k: int)
    requires s != [] && key(x) < key(s[|s| - 1])
    requires KeyFilter(InsertByKey(x, s[..|s| - 1], key), key, k)
          == KeyFilter(s[..|s| - 1], key, k) + (if key(x) == k then [x] else [])
    ensures KeyFilter(InsertByKey(x, s, key), key, k)
         == KeyFilter(s, key, k) + (if key(x) == k then [x] else [])
  {
    var init, last := s[..|s| - 1], s[|s| - 1];
    var r' := InsertByKey(x, init, key);
    KeyFilterAppend(r', [last], key, k);
    KeyFilterSingle(last, key, k);
    CommuteWithEmpty(KeyFilter(init, key, k), if key(x) == k then [x] else [], KeyFilter([last], key, k));
  }

  /** The case of `KeyFilterInsert` where `x` goes last. */
  lemma KeyFilterInsertLast<T>(x: T, s: seq<T>, key: T -> int, k: int)
    requires s == [] || key(s[|s| - 1]) <= key(x)
    ensures KeyFilter(InsertByKey(x, s, key), key, k)
         == KeyFilter(s, key, k) + (if key(x) == k then [x] else [])
  {
    assert InsertByKey(x, s, key) == s + [x];
    KeyFilterAppend(s, [x], key, k);
    KeyFilterSingle(x, key, k);
  }

  /** Inserting `x` adds it to its key's class, after the elements already
      there. */
  lemma {:induction false} KeyFilterInsert<T>(x: T, s: seq<T>, key: T -> int, k: int)
    ensures KeyFilter(InsertByKey(x, s, key), key, k)
         == KeyFilter(s, key, k) + (if key(x) == k then [x] else [])
    decreases |s|
  {
    if s != [] && key(x) < key(s[|s| - 1]) {
      KeyFilterInsert(x, s[..|s| - 1], key, k);
      KeyFilterInsertBefore(x, s, key, k);
    } else {
      KeyFilterInsertLast(x, s, key, k);
    }
  }

  /** Stability: elements sharing a key keep their original relative order. */
  lemma {:induction false} SortByKeyStable<T>(s: seq<T>, key: T -> int, k: int)
    ensures KeyFilter(SortByKey(s, key), key, k) == KeyFilter(s, key, k)
    decreases |s|
  {
    if s != [] {
      var init := s[..|s| - 1];
      SortByKeyStable(init, key, k);
      KeyFilterInsert(s[|s| - 1], SortByKey(init, key), key, k);
    }
  }
}
