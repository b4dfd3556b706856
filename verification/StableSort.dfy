/** Stable sorting by an integer key: the order, the content, and that these two leave
    only one result. */
module StableSort {
  function Sort<T>(s: seq<T>, key: T -> int): seq<T> {
    if s == [] then [] else Insert(s[0], Sort(s[1..], key), key)
  }

  // Before the first element that is not smaller.
  function Insert<T>(x: T, sorted: seq<T>, key: T -> int): seq<T> {
    if sorted == [] || key(x) <= key(sorted[0]) then [x] + sorted
    else [sorted[0]] + Insert(x, sorted[1..], key)
  }

  predicate Sorted<T>(s: seq<T>, key: T -> int) {
    forall i, j :: 0 <= i < j < |s| ==> key(s[i]) <= key(s[j])
  }

  // The elements with one key, in order.
  function At<T>(s: seq<T>, key: T -> int, k: int): seq<T> {
    if s == [] then [] else (if key(s[0]) == k then [s[0]] else []) + At(s[1..], key, k)
  }

  ghost predicate SameAt<T>(s: seq<T>, t: seq<T>, key: T -> int) {
    forall k :: At(s, key, k) == At(t, key, k)
  }

  lemma {:induction false} InsertSorts<T>(x: T, sorted: seq<T>, key: T -> int)
    requires Sorted(sorted, key)
    ensures Sorted(Insert(x, sorted, key), key)
    ensures forall i :: 0 <= i < |Insert(x, sorted, key)| ==>
              key(Insert(x, sorted, key)[i]) == key(x) || key(Insert(x, sorted, key)[i]) >= key(sorted[0])
    ensures sorted == [] ==> Insert(x, sorted, key) == [x]
  {
    if sorted != [] && key(sorted[0]) < key(x) {
      InsertSorts(x, sorted[1..], key);
    }
  }

  lemma AtFirst<T>(x: T, s: seq<T>, key: T -> int, k: int)
    ensures At([x] + s, key, k) == (if key(x) == k then [x] else []) + At(s, key, k)
  {
    assert ([x] + s)[1..] == s;
  }

  lemma {:induction false} InsertAt<T>(x: T, sorted: seq<T>, key: T -> int, k: int)
    ensures At(Insert(x, sorted, key), key, k) == (if key(x) == k then [x] else []) + At(sorted, key, k)
  {
    if sorted == [] || key(x) <= key(sorted[0]) {
      AtFirst(x, sorted, key, k);
    } else {
      var first, rest := sorted[0], sorted[1..];
      InsertAt(x, rest, key, k);
      AtFirst(first, Insert(x, rest, key), key, k);
      AtFirst(first, rest, key, k);
      assert sorted == [first] + rest;
    }
  }

  // Sorted, and elements of the same key keep their order: nothing is lost or invented.
  lemma {:induction false} SortSorts<T>(s: seq<T>, key: T -> int)
    ensures Sorted(Sort(s, key), key) && SameAt(Sort(s, key), s, key)
  {
    if s != [] {
      SortSorts(s[1..], key);
      InsertSorts(s[0], Sort(s[1..], key), key);
      forall k ensures At(Sort(s, key), key, k) == At(s, key, k) { InsertAt(s[0], Sort(s[1..], key), key, k); }
    }
  }

  lemma {:induction false} AtBoth<T>(s: seq<T>, t: seq<T>, key: T -> int, k: int)
    ensures At(s + t, key, k) == At(s, key, k) + At(t, key, k)
  {
    if s == [] {
      assert s + t == t && At(s, key, k) == [];
    } else {
      var first, rest := s[0], s[1..];
      AtBoth(rest, t, key, k);
      AtFirst(first, rest + t, key, k);
      AtFirst(first, rest, key, k);
      assert s + t == [first] + (rest + t) && s == [first] + rest;
    }
  }

  lemma {:induction false} AtHas<T>(s: seq<T>, key: T -> int, x: T)
    ensures x in s <==> x in At(s, key, key(x))
  {
    if s != [] {
      AtHas(s[1..], key, x);
      AtFirst(s[0], s[1..], key, key(x));
      assert s == [s[0]] + s[1..];
    }
  }

  lemma {:induction false} AtIs<T>(s: seq<T>, key: T -> int, k: int)
    ensures forall y | y in At(s, key, k) :: y in s && key(y) == k
  {
    if s != [] {
      AtIs(s[1..], key, k);
      AtFirst(s[0], s[1..], key, k);
      assert s == [s[0]] + s[1..];
    }
  }

  // Two sorted lists with the same elements at every key are the same list.
  lemma {:induction false} SortedUnique<T>(s: seq<T>, t: seq<T>, key: T -> int)
    requires Sorted(s, key) && Sorted(t, key) && SameAt(s, t, key)
    ensures s == t
  {
    if s == [] {
      if t != [] { AtHas(t, key, t[0]); AtHas(s, key, t[0]); }
    } else {
      AtHas(s, key, s[0]);
      AtHas(t, key, s[0]);
      SameHead(s, t, key);
      assert s == [s[0]] + s[1..] && t == [s[0]] + t[1..];
      SameTail(s[0], s[1..], t[1..], key);
      SortedUnique(s[1..], t[1..], key);
    }
  }

  lemma SameTail<T>(x: T, s: seq<T>, t: seq<T>, key: T -> int)
    requires SameAt([x] + s, [x] + t, key)
    ensures SameAt(s, t, key)
  {
    forall k ensures At(s, key, k) == At(t, key, k) {
      AtFirst(x, s, key, k);
      AtFirst(x, t, key, k);
      assert At([x] + s, key, k) == At([x] + t, key, k);
      var head := if key(x) == k then [x] else [];
      assert (head + At(s, key, k))[|head|..] == At(s, key, k);
      assert (head + At(t, key, k))[|head|..] == At(t, key, k);
    }
  }

  lemma FirstSmallest<T>(s: seq<T>, key: T -> int, y: T)
    requires Sorted(s, key) && y in s
    ensures key(s[0]) <= key(y)
  {
    var j :| 0 <= j < |s| && s[j] == y;
    if j > 0 { assert key(s[0]) <= key(s[j]); }
  }

  lemma SameHead<T>(s: seq<T>, t: seq<T>, key: T -> int)
    requires s != [] && t != [] && Sorted(s, key) && Sorted(t, key) && SameAt(s, t, key)
    ensures s[0] == t[0]
  {
    var k, l := key(s[0]), key(t[0]);
    AtHas(s, key, s[0]);
    AtHas(t, key, s[0]);
    AtHas(s, key, t[0]);
    AtHas(t, key, t[0]);
    assert At(s, key, k) == At(t, key, k) && At(s, key, l) == At(t, key, l);
    FirstSmallest(s, key, t[0]);
    FirstSmallest(t, key, s[0]);
    AtFirst(s[0], s[1..], key, k);
    AtFirst(t[0], t[1..], key, k);
    assert s == [s[0]] + s[1..] && t == [t[0]] + t[1..];
    assert k == l;
    assert At(s, key, k)[0] == s[0] && At(t, key, k)[0] == t[0];
  }
}
