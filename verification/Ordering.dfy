/** Sorting by a strict total order, as `sort_by` and `sort_by_key` do. */
module Ordering {
  import opened Prelude

  ghost predicate StrictTotal<T(!new)>(keys: set<T>, before: (T, T) -> bool) {
    && (forall a :: a in keys ==> !before(a, a))
    && (forall a, b :: a in keys && b in keys && a != b ==> before(a, b) || before(b, a))
    && (forall a, b, c :: a in keys && b in keys && c in keys && before(a, b) && before(b, c) ==> before(a, c))
  }

  ghost predicate Ascending<T>(s: seq<T>, before: (T, T) -> bool) {
    forall i, j :: 0 <= i < j < |s| ==> before(s[i], s[j])
  }

  function Insert<T>(x: T, s: seq<T>, before: (T, T) -> bool): seq<T> {
    if s == [] || before(x, s[0]) then [x] + s else [s[0]] + Insert(x, s[1..], before)
  }

  /** The sorted list: insertion sort stands for the library's sort. */
  function Sort<T>(s: seq<T>, before: (T, T) -> bool): seq<T> {
    if s == [] then [] else Insert(s[0], Sort(s[1..], before), before)
  }

  lemma ElementsCons<T(!new)>(x: T, s: seq<T>)
    ensures Elements([x] + s) == {x} + Elements(s)
  {
    assert ([x] + s)[0] == x && forall i :: 0 <= i < |s| ==> ([x] + s)[i + 1] == s[i];
  }

  lemma {:induction false} InsertElements<T(!new)>(x: T, s: seq<T>, before: (T, T) -> bool)
    ensures Elements(Insert(x, s, before)) == Elements(s) + {x}
  {
    ElementsCons(x, s);
    if s != [] && !before(x, s[0]) {
      InsertElements(x, s[1..], before);
      assert s == [s[0]] + s[1..];
      ElementsCons(s[0], s[1..]);
      ElementsCons(s[0], Insert(x, s[1..], before));
    }
  }

  lemma MultisetCons<T(!new)>(x: T, s: seq<T>)
    ensures multiset([x] + s) == multiset{x} + multiset(s)
  {
  }

  lemma {:induction false} InsertMultiset<T(!new)>(x: T, s: seq<T>, before: (T, T) -> bool)
    ensures multiset(Insert(x, s, before)) == multiset(s) + multiset{x}
  {
    if s != [] && !before(x, s[0]) {
      InsertMultiset(x, s[1..], before);
      MultisetCons(s[0], s[1..]);
      MultisetCons(s[0], Insert(x, s[1..], before));
      assert s == [s[0]] + s[1..];
    }
  }

  lemma {:induction false} InsertAscending<T(!new)>(x: T, s: seq<T>, before: (T, T) -> bool)
    requires Ascending(s, before) && x !in s && StrictTotal(Elements(s) + {x}, before)
    ensures Ascending(Insert(x, s, before), before)
  {
    if s == [] {
    } else if before(x, s[0]) {
      forall j | 0 <= j < |s| ensures before(x, s[j]) {
        assert s[j] in Elements(s) && s[0] in Elements(s);
        if j > 0 {
          assert before(s[0], s[j]);
        }
      }
    } else {
      var tail := s[1..];
      assert Elements(tail) <= Elements(s) && s[0] in Elements(s);
      InsertAscending(x, tail, before);
      InsertElements(x, tail, before);
      var rest := Insert(x, tail, before);
      forall j | 0 <= j < |rest| ensures before(s[0], rest[j]) {
        assert rest[j] in Elements(rest);
        if rest[j] != x {
          assert rest[j] in tail;
        }
      }
    }
  }

  lemma {:induction false} SortPermutes<T(!new)>(s: seq<T>, before: (T, T) -> bool)
    ensures multiset(Sort(s, before)) == multiset(s)
  {
    if s != [] {
      SortPermutes(s[1..], before);
      InsertMultiset(s[0], Sort(s[1..], before), before);
      assert s == [s[0]] + s[1..];
    }
  }

  lemma {:induction false} InsertSize<T(!new)>(x: T, s: seq<T>, before: (T, T) -> bool)
    ensures |Insert(x, s, before)| == |s| + 1
  {
    if s != [] && !before(x, s[0]) {
      InsertSize(x, s[1..], before);
    }
  }

  lemma {:induction false} SortSize<T(!new)>(s: seq<T>, before: (T, T) -> bool)
    ensures |Sort(s, before)| == |s|
  {
    if s != [] {
      SortSize(s[1..], before);
      InsertSize(s[0], Sort(s[1..], before), before);
    }
  }

  lemma {:induction false} SortElements<T(!new)>(s: seq<T>, before: (T, T) -> bool)
    ensures Elements(Sort(s, before)) == Elements(s)
  {
    if s != [] {
      SortElements(s[1..], before);
      InsertElements(s[0], Sort(s[1..], before), before);
      assert s == [s[0]] + s[1..];
      ElementsCons(s[0], s[1..]);
    }
  }

  lemma {:induction false} SortAscends<T(!new)>(s: seq<T>, before: (T, T) -> bool)
    requires NoDuplicates(s) && StrictTotal(Elements(s), before)
    ensures Ascending(Sort(s, before), before)
  {
    if s != [] {
      var tail := s[1..];
      assert s == [s[0]] + tail;
      ElementsCons(s[0], tail);
      SortElements(tail, before);
      SortAscends(tail, before);
      assert s[0] !in Elements(Sort(tail, before)) by {
        assert s[0] !in tail;
      }
      InsertAscending(s[0], Sort(tail, before), before);
    }
  }

  /** Sorting keeps exactly the elements and puts them in order. */
  lemma SortSorts<T(!new)>(s: seq<T>, before: (T, T) -> bool)
    requires NoDuplicates(s) && StrictTotal(Elements(s), before)
    ensures Ascending(Sort(s, before), before)
    ensures multiset(Sort(s, before)) == multiset(s)
    ensures Elements(Sort(s, before)) == Elements(s)
    ensures |Sort(s, before)| == |s|
  {
    SortAscends(s, before);
    SortPermutes(s, before);
    SortElements(s, before);
    SortSize(s, before);
  }

  /** There is only one ascending list of the same elements. */
  lemma {:induction false} AscendingUnique<T(!new)>(a: seq<T>, b: seq<T>, before: (T, T) -> bool)
    requires Ascending(a, before) && Ascending(b, before) && Elements(a) == Elements(b)
    requires StrictTotal(Elements(a), before)
    ensures a == b
  {
    NoElements(a);
    NoElements(b);
    if a != [] {
      SameHead(a, b, before);
      var x := a[0];
      AscendingTail(a, before);
      AscendingTail(b, before);
      AscendingUnique(a[1..], b[1..], before);
      assert a == [x] + a[1..] && b == [x] + b[1..];
    }
  }

  lemma AscendingTail<T(!new)>(a: seq<T>, before: (T, T) -> bool)
    requires a != [] && Ascending(a, before) && StrictTotal(Elements(a), before)
    ensures Ascending(a[1..], before)
    ensures Elements(a[1..]) == Elements(a) - {a[0]}
    ensures StrictTotal(Elements(a[1..]), before)
  {
    assert a == [a[0]] + a[1..];
    assert Elements(a) == {a[0]} + Elements(a[1..]);
    assert a[0] in Elements(a);
    forall x | x in a[1..] ensures x != a[0] {
      var j :| 0 <= j < |a[1..]| && a[1..][j] == x;
      assert before(a[0], a[j + 1]);
    }
  }

  lemma SameHead<T(!new)>(a: seq<T>, b: seq<T>, before: (T, T) -> bool)
    requires a != [] && b != [] && Ascending(a, before) && Ascending(b, before)
    requires Elements(a) == Elements(b) && StrictTotal(Elements(a), before)
    ensures a[0] == b[0]
  {
    HeadIsLeast(a, b[0], before);
    HeadIsLeast(b, a[0], before);
    assert a[0] in Elements(a) && b[0] in Elements(a);
  }

  lemma HeadIsLeast<T(!new)>(a: seq<T>, x: T, before: (T, T) -> bool)
    requires Ascending(a, before) && x in Elements(a)
    ensures a != [] && (x == a[0] || before(a[0], x))
  {
  }

  lemma NoElements<T(!new)>(a: seq<T>)
    ensures Elements(a) == {} <==> a == []
  {
    if a != [] {
      assert a[0] in Elements(a);
    }
  }

  /** Some listing of a finite set. */
  ghost function Listing<T(!new)>(keys: set<T>): (s: seq<T>)
    ensures Elements(s) == keys && NoDuplicates(s)
  {
    if keys == {} then []
    else
      var k :| k in keys;
      var rest := Listing(keys - {k});
      assert k !in rest by { assert k !in Elements(rest); }
      assert Elements([k] + rest) == {k} + Elements(rest);
      [k] + rest
  }

  /** The keys in ascending order. */
  ghost function Ordered<T(!new)>(keys: set<T>, before: (T, T) -> bool): seq<T> {
    Sort(Listing(keys), before)
  }

  lemma OrderedIs<T(!new)>(keys: set<T>, before: (T, T) -> bool, s: seq<T>)
    requires StrictTotal(keys, before) && Elements(s) == keys && Ascending(s, before)
    ensures Ordered(keys, before) == s
  {
    SortSorts(Listing(keys), before);
    AscendingUnique(Ordered(keys, before), s, before);
  }
}
