// The stable sort used wherever the runtime calls `Array.prototype.sort` with a comparator.
module Sorting {

  function Insert<T>(x: T, sorted: seq<T>, le: (T, T) -> bool): seq<T> {
    if sorted == [] then [x]
    else if le(x, sorted[0]) then [x] + sorted
    else [sorted[0]] + Insert(x, sorted[1..], le)
  }

  function StableSort<T>(s: seq<T>, le: (T, T) -> bool): seq<T> {
    if s == [] then [] else Insert(s[0], StableSort(s[1..], le), le)
  }

  ghost predicate Ascending<T>(s: seq<T>, le: (T, T) -> bool) {
    forall i, j :: 0 <= i < j < |s| ==> le(s[i], s[j])
  }

  ghost predicate TotalPreorder<T(!new)>(le: (T, T) -> bool) {
    && (forall a, b :: le(a, b) || le(b, a))
    && (forall a, b, c :: le(a, b) && le(b, c) ==> le(a, c))
  }

  /** An already ascending sequence is left alone, whatever the comparator. */
  lemma {:induction false} SortKeepsAscending<T>(s: seq<T>, le: (T, T) -> bool)
    requires Ascending(s, le)
    ensures StableSort(s, le) == s
  {
    if s != [] {
      forall i, j | 0 <= i < j < |s[1..]| ensures le(s[1..][i], s[1..][j]) {
        assert le(s[i + 1], s[j + 1]);
      }
      SortKeepsAscending(s[1..], le);
      if |s| > 1 { assert le(s[0], s[1]); }
      assert [s[0]] + s[1..] == s;
    }
  }

  ghost predicate AtMost<T>(x: T, items: seq<T>, le: (T, T) -> bool) {
    forall k :: 0 <= k < |items| ==> le(x, items[k])
  }

  lemma ConsAscending<T>(x: T, sorted: seq<T>, le: (T, T) -> bool)
    ensures Ascending([x] + sorted, le) <==> AtMost(x, sorted, le) && Ascending(sorted, le)
  {
    var all := [x] + sorted;
    if Ascending(all, le) {
      forall k | 0 <= k < |sorted| ensures le(x, sorted[k]) { assert le(all[0], all[k + 1]); }
      forall i, j | 0 <= i < j < |sorted| ensures le(sorted[i], sorted[j]) { assert le(all[i + 1], all[j + 1]); }
    }
  }

  lemma {:induction false} InsertSorted<T(!new)>(x: T, sorted: seq<T>, le: (T, T) -> bool)
    requires TotalPreorder(le) && Ascending(sorted, le)
    ensures Ascending(Insert(x, sorted, le), le)
    ensures forall y :: AtMost(y, sorted, le) && le(y, x) ==> AtMost(y, Insert(x, sorted, le), le)
  {
    hide Ascending;
    if sorted == [] {
      ConsAscending(x, [], le);
      assert [x] + [] == [x];
      assert Ascending([x], le) by { OneAscends(x, le); }
    } else {
      assert sorted == [sorted[0]] + sorted[1..];
      ConsAscending(sorted[0], sorted[1..], le);
      if le(x, sorted[0]) {
        ConsAscending(x, sorted, le);
        assert AtMost(x, sorted, le);
      } else {
        InsertSorted(x, sorted[1..], le);
        ConsAscending(sorted[0], Insert(x, sorted[1..], le), le);
        forall y | AtMost(y, sorted, le) && le(y, x) ensures AtMost(y, Insert(x, sorted, le), le) {
          assert le(y, sorted[0]);
          assert AtMost(y, sorted[1..], le);
        }
      }
    }
  }

  lemma OneAscends<T>(x: T, le: (T, T) -> bool)
    ensures Ascending([x], le)
  {}

  lemma {:induction false} InsertAdds<T>(x: T, sorted: seq<T>, le: (T, T) -> bool)
    ensures multiset(Insert(x, sorted, le)) == multiset(sorted) + multiset{x}
  {
    if sorted != [] {
      assert sorted == [sorted[0]] + sorted[1..];
      if !le(x, sorted[0]) { InsertAdds(x, sorted[1..], le); }
    }
  }

  /** Whatever the comparator, nothing is lost. */
  lemma {:induction false} SortPermutes<T>(items: seq<T>, le: (T, T) -> bool)
    ensures multiset(StableSort(items, le)) == multiset(items)
  {
    if items != [] {
      assert items == [items[0]] + items[1..];
      SortPermutes(items[1..], le);
      InsertAdds(items[0], StableSort(items[1..], le), le);
    }
  }

  lemma {:induction false} SortSorts<T(!new)>(items: seq<T>, le: (T, T) -> bool)
    requires TotalPreorder(le)
    ensures Ascending(StableSort(items, le), le) && multiset(StableSort(items, le)) == multiset(items)
  {
    if items != [] {
      assert items == [items[0]] + items[1..];
      SortSorts(items[1..], le);
      InsertSorted(items[0], StableSort(items[1..], le), le);
      InsertAdds(items[0], StableSort(items[1..], le), le);
    }
  }

  lemma SameLeast<T(!new)>(a: seq<T>, b: seq<T>, le: (T, T) -> bool)
    requires TotalPreorder(le) && (forall x, y :: le(x, y) && le(y, x) ==> x == y)
    requires Ascending(a, le) && Ascending(b, le) && multiset(a) == multiset(b) && a != [] && b != []
    ensures a[0] == b[0]
  {
    assert a[0] in multiset(b) && b[0] in multiset(a);
    var i :| 0 <= i < |b| && b[i] == a[0];
    var j :| 0 <= j < |a| && a[j] == b[0];
    assert le(b[0], a[0]) by { if i > 0 { assert le(b[0], b[i]); } }
    assert le(a[0], b[0]) by { if j > 0 { assert le(a[0], a[j]); } }
  }

  /** Under a total order, two sorted arrangements of the same elements are the same sequence. */
  lemma {:induction false} SortedIsUnique<T(!new)>(a: seq<T>, b: seq<T>, le: (T, T) -> bool)
    requires TotalPreorder(le) && (forall x, y :: le(x, y) && le(y, x) ==> x == y)
    requires Ascending(a, le) && Ascending(b, le) && multiset(a) == multiset(b)
    ensures a == b
  {
    hide TotalPreorder, Ascending;
    assert |multiset(a)| == |a| && |multiset(b)| == |b|;
    if a != [] {
      SameLeast(a, b, le);
      assert a == [a[0]] + a[1..] && b == [b[0]] + b[1..];
      ConsAscending(a[0], a[1..], le);
      ConsAscending(b[0], b[1..], le);
      assert multiset(a[1..]) == multiset(a) - multiset{a[0]};
      assert multiset(b[1..]) == multiset(b) - multiset{b[0]};
      SortedIsUnique(a[1..], b[1..], le);
    }
  }
}
