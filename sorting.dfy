/** The two ways the scrapers order a room's time slots before storing them:
    `Array.prototype.sort` with a numeric comparator `(a, b) => key(a) - key(b)`
    (myaku, yogan), and `Array.prototype.sort()` without one, which compares
    the strings themselves (tenjin, gflow). Both are stable sorts. The
    insertion sort here is proved stable (`SortByKeyStable`), and a sorted,
    stable arrangement of a list is unique (`SortedStableUnique`), so it is
    the same function as the engine's sort. */
module Sorting {
  import opened Text

  // -------------------------------------------------------- by numeric key

  predicate SortedByKey(s: seq<string>, key: string -> int) {
    forall i, j :: 0 <= i < j < |s| ==> key(s[i]) <= key(s[j])
  }

  /** Places `x` after every element whose key is not larger than its own. */
  function InsertByKey(x: string, s: seq<string>, key: string -> int): (r: seq<string>)
    ensures multiset(r) == multiset(s) + multiset{x}
  {
    if s == [] || key(x) < key(s[0]) then [x] + s
    else
      assert s == [s[0]] + s[1..];
      [s[0]] + InsertByKey(x, s[1..], key)
  }

  lemma {:induction false} InsertByKeySorted(x: string, s: seq<string>, key: string -> int)
    requires SortedByKey(s, key)
    ensures SortedByKey(InsertByKey(x, s, key), key)
  {
    if s != [] && key(s[0]) <= key(x) {
      var rest := InsertByKey(x, s[1..], key);
      InsertByKeySorted(x, s[1..], key);
      forall y | y in rest ensures key(s[0]) <= key(y) {
        assert y in multiset(rest);
        if y != x {
          assert y in s[1..];
        }
      }
      ConsSorted(s[0], rest, key);
    }
  }

  lemma ConsSorted(h: string, rest: seq<string>, key: string -> int)
    requires SortedByKey(rest, key)
    requires forall y :: y in rest ==> key(h) <= key(y)
    ensures SortedByKey([h] + rest, key)
  {
    forall i, j | 0 <= i < j < |[h] + rest| ensures key(([h] + rest)[i]) <= key(([h] + rest)[j]) {
      assert ([h] + rest)[j] == rest[j - 1];
      if i > 0 {
        assert ([h] + rest)[i] == rest[i - 1];
      }
    }
  }

  /** `s.sort((a, b) => key(a) - key(b))`: ascending by key, a permutation of `s`. */
  function SortByKey(s: seq<string>, key: string -> int): (r: seq<string>)
    ensures multiset(r) == multiset(s)
    ensures SortedByKey(r, key)
  {
    if s == [] then []
    else
      assert s == s[..|s| - 1] + [s[|s| - 1]];
      var prefix := SortByKey(s[..|s| - 1], key);
      InsertByKeySorted(s[|s| - 1], prefix, key);
      InsertByKey(s[|s| - 1], prefix, key)
  }

  /** The elements of `s` whose key is `k`, in their order in `s`. */
  function WithKey(s: seq<string>, key: string -> int, k: int): seq<string> {
    if s == [] then [] else (if key(s[0]) == k then [s[0]] else []) + WithKey(s[1..], key, k)
  }

  lemma {:induction false} WithKeyAppend(a: seq<string>, b: seq<string>, key: string -> int, k: int)
    ensures WithKey(a + b, key, k) == WithKey(a, key, k) + WithKey(b, key, k)
  {
    if a != [] {
      assert (a + b)[0] == a[0] && (a + b)[1..] == a[1..] + b;
      WithKeyAppend(a[1..], b, key, k);
      AppendAssoc(if key(a[0]) == k then [a[0]] else [], WithKey(a[1..], key, k), WithKey(b, key, k));
    } else {
      assert a + b == b;
    }
  }

  lemma {:induction false} WithKeyNone(s: seq<string>, key: string -> int, k: int)
    requires forall i :: 0 <= i < |s| ==> key(s[i]) != k
    ensures WithKey(s, key, k) == []
  {
    if s != [] {
      WithKeyNone(s[1..], key, k);
    }
  }

  lemma {:induction false} WithKeyMember(s: seq<string>, key: string -> int, k: int, x: string)
    requires x in WithKey(s, key, k)
    ensures x in s && key(x) == k
  {
    if x != s[0] || key(s[0]) != k {
      WithKeyMember(s[1..], key, k, x);
    }
  }

  /** Inserting `x` into a key-sorted list puts it after every element with
      the same key. */
  lemma {:induction false} InsertByKeyStable(x: string, s: seq<string>, key: string -> int, k: int)
    requires SortedByKey(s, key)
    ensures WithKey(InsertByKey(x, s, key), key, k) == WithKey(s, key, k) + WithKey([x], key, k)
  {
    var single := WithKey([x], key, k);
    assert single == if key(x) == k then [x] else [] by {
      assert [x][0] == x && [x][1..] == [];
      assert WithKey([x], key, k) == (if key(x) == k then [x] else []) + WithKey([], key, k);
    }
    if s == [] {
    } else if key(x) < key(s[0]) {
      assert ([x] + s)[0] == x && ([x] + s)[1..] == s;
      if key(x) == k {
        WithKeyNone(s, key, k);
      }
    } else {
      var rest := InsertByKey(x, s[1..], key);
      assert ([s[0]] + rest)[0] == s[0] && ([s[0]] + rest)[1..] == rest;
      InsertByKeyStable(x, s[1..], key, k);
      AppendAssoc(if key(s[0]) == k then [s[0]] else [], WithKey(s[1..], key, k), single);
    }
  }

  /** The sort is stable: for every key, the elements with that key keep
      their order. */
  lemma {:induction false} SortByKeyStable(s: seq<string>, key: string -> int, k: int)
    ensures WithKey(SortByKey(s, key), key, k) == WithKey(s, key, k)
  {
    if s != [] {
      var n := |s| - 1;
      assert s == s[..n] + [s[n]];
      SortByKeyStable(s[..n], key, k);
      InsertByKeyStable(s[n], SortByKey(s[..n], key), key, k);
      WithKeyAppend(s[..n], [s[n]], key, k);
    }
  }

  /** The first element of a list heads the elements with its key. */
  lemma {:induction false} WithKeyHead(s: seq<string>, key: string -> int)
    requires s != []
    ensures WithKey(s, key, key(s[0])) != [] && WithKey(s, key, key(s[0]))[0] == s[0]
  {
    assert WithKey(s, key, key(s[0])) == [s[0]] + WithKey(s[1..], key, key(s[0]));
  }

  /** No element of a key-sorted list has a smaller key than its first. */
  lemma {:induction false} SortedFirstLeast(s: seq<string>, key: string -> int, x: string)
    requires SortedByKey(s, key) && x in s
    ensures key(s[0]) <= key(x)
  {
    var i :| 0 <= i < |s| && s[i] == x;
    assert key(s[0]) <= key(s[i]);
  }

  /** Lists with the same first element and the same elements of each key
      have tails with the same elements of each key. */
  lemma {:induction false} WithKeyTails(a: seq<string>, b: seq<string>, key: string -> int, k: int)
    requires a != [] && b != [] && a[0] == b[0]
    requires WithKey(a, key, k) == WithKey(b, key, k)
    ensures WithKey(a[1..], key, k) == WithKey(b[1..], key, k)
  {
    var head := if key(a[0]) == k then [a[0]] else [];
    assert WithKey(a, key, k) == head + WithKey(a[1..], key, k);
    assert WithKey(b, key, k) == head + WithKey(b[1..], key, k);
    assert (head + WithKey(a[1..], key, k))[|head|..] == WithKey(a[1..], key, k);
    assert (head + WithKey(b[1..], key, k))[|head|..] == WithKey(b[1..], key, k);
  }

  /** Lists with the same elements of each key are both empty or both not. */
  lemma {:induction false} SameKeysSameEmptiness(a: seq<string>, b: seq<string>, key: string -> int)
    requires forall k :: WithKey(a, key, k) == WithKey(b, key, k)
    ensures a == [] <==> b == []
  {
    if a != [] {
      WithKeyHead(a, key);
      assert WithKey(b, key, key(a[0])) != [];
    }
    if b != [] {
      WithKeyHead(b, key);
      assert WithKey(a, key, key(b[0])) != [];
    }
  }

  /** Two key-sorted lists with the same elements of each key start with
      the same element. */
  lemma {:induction false} SortedHeadsAgree(a: seq<string>, b: seq<string>, key: string -> int)
    requires SortedByKey(a, key) && SortedByKey(b, key) && a != [] && b != []
    requires WithKey(a, key, key(a[0])) == WithKey(b, key, key(a[0]))
    requires WithKey(a, key, key(b[0])) == WithKey(b, key, key(b[0]))
    ensures a[0] == b[0]
  {
    var ka, kb := key(a[0]), key(b[0]);
    WithKeyHead(a, key);
    WithKeyHead(b, key);
    assert a[0] in WithKey(b, key, ka);
    WithKeyMember(b, key, ka, a[0]);
    SortedFirstLeast(b, key, a[0]);
    assert b[0] in WithKey(a, key, kb);
    WithKeyMember(a, key, kb, b[0]);
    SortedFirstLeast(a, key, b[0]);
  }

  /** Two key-sorted lists with the same elements of each key, in the same
      order, are the same list. */
  lemma {:induction false} SortedStableUnique(a: seq<string>, b: seq<string>, key: string -> int)
    requires SortedByKey(a, key) && SortedByKey(b, key)
    requires forall k :: WithKey(a, key, k) == WithKey(b, key, k)
    ensures a == b
    decreases |a|
  {
    SameKeysSameEmptiness(a, b, key);
    if a != [] {
      SortedHeadsAgree(a, b, key);
      forall k ensures WithKey(a[1..], key, k) == WithKey(b[1..], key, k) {
        WithKeyTails(a, b, key, k);
      }
      SortedStableUnique(a[1..], b[1..], key);
      assert a == [a[0]] + a[1..] && b == [b[0]] + b[1..];
    }
  }

  // ------------------------------------------------------- by string order

  predicate SortedLex(s: seq<string>) {
    forall i, j :: 0 <= i < j < |s| ==> LexLe(s[i], s[j])
  }

  function InsertLex(x: string, s: seq<string>): (r: seq<string>)
    ensures multiset(r) == multiset(s) + multiset{x}
  {
    if s == [] || LexLess(x, s[0]) then [x] + s
    else
      assert s == [s[0]] + s[1..];
      [s[0]] + InsertLex(x, s[1..])
  }

  lemma {:induction false} InsertLexSorted(x: string, s: seq<string>)
    requires SortedLex(s)
    ensures SortedLex(InsertLex(x, s))
  {
    if s == [] {
    } else if LexLess(x, s[0]) {
      forall j | 0 <= j < |s| ensures LexLe(x, s[j]) {
        if LexLess(s[0], s[j]) {
          LexLessTransitive(x, s[0], s[j]);
        }
      }
    } else {
      LexLessTotal(x, s[0]);
      var rest := InsertLex(x, s[1..]);
      InsertLexSorted(x, s[1..]);
      forall y | y in rest ensures LexLe(s[0], y) {
        assert y in multiset(rest);
        if y != x {
          assert y in s[1..];
        }
      }
    }
  }

  /** `s.sort()`: ascending in the default string order, a permutation of `s`. */
  function SortLex(s: seq<string>): (r: seq<string>)
    ensures multiset(r) == multiset(s)
    ensures SortedLex(r)
  {
    if s == [] then []
    else
      assert s == s[..|s| - 1] + [s[|s| - 1]];
      var prefix := SortLex(s[..|s| - 1]);
      InsertLexSorted(s[|s| - 1], prefix);
      InsertLex(s[|s| - 1], prefix)
  }
}
