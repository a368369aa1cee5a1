/** Python's `sorted`, as a stable insertion sort by any order. */
module StableSort {

  function Insert<T>(less: (T, T) -> bool, x: T, sorted: seq<T>): seq<T> {
    if sorted == [] || !less(sorted[0], x) then [x] + sorted
    else [sorted[0]] + Insert(less, x, sorted[1..])
  }

  function Sort<T>(less: (T, T) -> bool, s: seq<T>): seq<T> {
    if s == [] then [] else Insert(less, s[0], Sort(less, s[1..]))
  }

  lemma {:induction false} InsertKeeps<T>(less: (T, T) -> bool, x: T, sorted: seq<T>)
    ensures |Insert(less, x, sorted)| == |sorted| + 1 && multiset(Insert(less, x, sorted)) == multiset(sorted) + multiset{x}
  {
    if sorted != [] && less(sorted[0], x) {
      InsertKeeps(less, x, sorted[1..]);
      assert sorted == [sorted[0]] + sorted[1..];
    }
  }

  lemma {:induction false} SortKeeps<T>(less: (T, T) -> bool, s: seq<T>)
    ensures |Sort(less, s)| == |s| && multiset(Sort(less, s)) == multiset(s)
  {
    if s != [] {
      SortKeeps(less, s[1..]);
      InsertKeeps(less, s[0], Sort(less, s[1..]));
      assert s == [s[0]] + s[1..];
    }
  }

  lemma SortHas<T>(less: (T, T) -> bool, s: seq<T>)
    ensures forall x :: x in Sort(less, s) <==> x in s
  {
    SortKeeps(less, s);
    assert forall x :: x in Sort(less, s) <==> x in multiset(Sort(less, s));
    assert forall x :: x in s <==> x in multiset(s);
  }

  lemma SortOne<T>(less: (T, T) -> bool, a: T)
    ensures Sort(less, [a]) == [a]
  {
    assert [a][1..] == [] && Sort(less, [a][1..]) == [];
  }

  /** Elements the order does not tell apart keep their places. */
  lemma SortPair<T>(less: (T, T) -> bool, a: T, b: T)
    requires !less(b, a)
    ensures Sort(less, [a, b]) == [a, b]
  {
    assert [a, b][1..] == [b];
    SortOne(less, b);
  }

  ghost predicate Ascending<T(!new)>(less: (T, T) -> bool, s: seq<T>) {
    forall i, j | 0 <= i < j < |s| :: less(s[i], s[j])
  }

  ghost predicate Transitive<T(!new)>(less: (T, T) -> bool) {
    forall a, b, c | less(a, b) && less(b, c) :: less(a, c)
  }

  /** Different positions hold elements that the order tells apart. */
  ghost predicate Separated<T(!new)>(less: (T, T) -> bool, s: seq<T>) {
    forall i, j | 0 <= i < j < |s| :: less(s[i], s[j]) || less(s[j], s[i])
  }

  lemma {:induction false} InsertAscends<T(!new)>(less: (T, T) -> bool, x: T, sorted: seq<T>)
    requires Transitive(less) && Ascending(less, sorted) && forall y | y in sorted :: less(x, y) || less(y, x)
    ensures Ascending(less, Insert(less, x, sorted))
  {
    if sorted != [] {
      assert forall y | y in sorted[1..] :: y in sorted;
      if less(sorted[0], x) {
        InsertAscends(less, x, sorted[1..]);
        InsertKeeps(less, x, sorted[1..]);
        var rest := Insert(less, x, sorted[1..]);
        forall y | y in rest ensures less(sorted[0], y) {
          assert y in multiset(rest);
        }
      } else {
        assert sorted[0] in sorted;
      }
    }
  }

  /** A list whose elements the order tells apart comes out strictly ascending. */
  lemma {:induction false} SortAscends<T(!new)>(less: (T, T) -> bool, s: seq<T>)
    requires Transitive(less) && Separated(less, s)
    ensures Ascending(less, Sort(less, s))
  {
    if s != [] {
      SortAscends(less, s[1..]);
      SortHas(less, s[1..]);
      forall y | y in Sort(less, s[1..]) ensures less(s[0], y) || less(y, s[0]) {
        var i :| 0 <= i < |s[1..]| && s[1..][i] == y;
        assert s[i + 1] == y;
      }
      InsertAscends(less, s[0], Sort(less, s[1..]));
    }
  }
}
