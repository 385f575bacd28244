/** The result of sort.SliceStable, which any stable sorting algorithm computes. */
module StableSort {
  /** Puts x behind every element whose key is not larger. */
  function Insert<T>(s: seq<T>, x: T, key: T -> int): seq<T> {
    if s == [] || key(s[|s| - 1]) <= key(x) then s + [x]
    else Insert(s[..|s| - 1], x, key) + [s[|s| - 1]]
  }

  function Sort<T>(s: seq<T>, key: T -> int): seq<T> {
    if s == [] then [] else Insert(Sort(s[..|s| - 1], key), s[|s| - 1], key)
  }

  lemma {:induction false} InsertMembers<T>(s: seq<T>, x: T, key: T -> int)
    ensures |Insert(s, x, key)| == |s| + 1
    ensures forall y :: y in Insert(s, x, key) <==> y in s || y == x
  {
    if s != [] {
      InsertMembers(s[..|s| - 1], x, key);
      assert s == s[..|s| - 1] + [s[|s| - 1]];
    }
  }

  lemma {:induction false} SortMembers<T>(s: seq<T>, key: T -> int)
    ensures |Sort(s, key)| == |s|
    ensures forall y :: y in Sort(s, key) <==> y in s
  {
    if s != [] {
      SortMembers(s[..|s| - 1], key);
      InsertMembers(Sort(s[..|s| - 1], key), s[|s| - 1], key);
      assert s == s[..|s| - 1] + [s[|s| - 1]];
    }
  }

  /** The elements stand in the order `less`, pair by pair. */
  ghost predicate InOrder<T(!new)>(s: seq<T>, less: (T, T) -> bool) {
    forall i, j | 0 <= i < j < |s| :: less(s[i], s[j])
  }

  /** First by the key, then by `less`. */
  predicate Before<T(!new)>(a: T, b: T, key: T -> int, less: (T, T) -> bool) {
    key(a) < key(b) || (key(a) == key(b) && less(a, b))
  }

  ghost predicate InKeyOrder<T(!new)>(s: seq<T>, key: T -> int, less: (T, T) -> bool) {
    forall i, j | 0 <= i < j < |s| :: Before(s[i], s[j], key, less)
  }

  lemma {:induction false} InsertKeepsOrder<T(!new)>(s: seq<T>, x: T, key: T -> int, less: (T, T) -> bool)
    requires InKeyOrder(s, key, less) && forall y | y in s :: less(y, x)
    ensures InKeyOrder(Insert(s, x, key), key, less)
  {
    var r := Insert(s, x, key);
    if s == [] {
    } else if key(s[|s| - 1]) <= key(x) {
      forall i, j | 0 <= i < j < |r| ensures Before(r[i], r[j], key, less) {
        if j == |s| {
          assert less(s[i], x);
          assert i < |s| - 1 ==> Before(s[i], s[|s| - 1], key, less);
        } else {
          assert Before(s[i], s[j], key, less);
        }
      }
    } else {
      var init, last := s[..|s| - 1], s[|s| - 1];
      assert forall i, j | 0 <= i < j < |init| :: Before(s[i], s[j], key, less) && init[i] == s[i] && init[j] == s[j];
      InsertKeepsOrder(init, x, key, less);
      InsertMembers(init, x, key);
      var t := Insert(init, x, key);
      forall i, j | 0 <= i < j < |r| ensures Before(r[i], r[j], key, less) {
        if j < |t| {
          assert Before(t[i], t[j], key, less);
        } else {
          assert t[i] in t;
          if t[i] != x {
            var k :| 0 <= k < |init| && init[k] == t[i];
            assert Before(s[k], s[|s| - 1], key, less);
          }
        }
      }
    }
  }

  /** A stable sort of a list that stands in some order gives the order by key and, within a key, the old order. */
  lemma {:induction false} SortIsStable<T(!new)>(s: seq<T>, key: T -> int, less: (T, T) -> bool)
    requires InOrder(s, less)
    ensures InKeyOrder(Sort(s, key), key, less)
  {
    if s != [] {
      var init, last := s[..|s| - 1], s[|s| - 1];
      forall i, j | 0 <= i < j < |init| ensures less(init[i], init[j]) {
        assert less(s[i], s[j]);
      }
      SortIsStable(init, key, less);
      SortMembers(init, key);
      forall y | y in Sort(init, key) ensures less(y, last) {
        var k :| 0 <= k < |init| && init[k] == y;
        assert less(s[k], s[|s| - 1]);
      }
      InsertKeepsOrder(Sort(init, key), last, key, less);
    }
  }
}
