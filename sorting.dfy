/**
 * The comparator sorts the screens apply to a fresh copy of a list
 * (`(a, b) => key(b) - key(a)`): largest key first. JavaScript's sort is
 * stable, so the result is the one insertion sort gives when each later
 * element goes after every earlier one whose key is at least its own.
 */
module Sorting {
  /** Keys never increase from left to right. */
  predicate SortedDesc<T>(s: seq<T>, key: T -> int)
  {
    forall i, j :: 0 <= i < j < |s| ==> key(s[i]) >= key(s[j])
  }

  /** Place `x` before the first element whose key is strictly smaller. */
  function InsertDesc<T>(s: seq<T>, x: T, key: T -> int): (r: seq<T>)
    ensures |r| == |s| + 1
    ensures multiset(r) == multiset(s) + multiset{x}
    decreases |s|
  {
    if |s| == 0 then [x]
    else if key(s[0]) < key(x) then [x] + s
    else
      assert s == [s[0]] + s[1..];
      [s[0]] + InsertDesc(s[1..], x, key)
  }

  /** Inserting into a descending list keeps it descending. */
  lemma {:induction false} InsertDescSorted<T>(s: seq<T>, x: T, key: T -> int)
    requires SortedDesc(s, key)
    ensures SortedDesc(InsertDesc(s, x, key), key)
    decreases |s|
  {
    if |s| > 0 && key(s[0]) >= key(x) {
      var rest := InsertDesc(s[1..], x, key);
      InsertDescSorted(s[1..], x, key);
      forall k | 0 <= k < |rest| ensures key(s[0]) >= key(rest[k]) {
        assert rest[k] in multiset(rest);
        if rest[k] != x {
          assert rest[k] in multiset(s[1..]);
          var m :| 0 <= m < |s[1..]| && s[1..][m] == rest[k];
          assert s[m + 1] == rest[k];
        }
      }
    }
  }

  /** The stable descending sort by `key`. */
  function SortDesc<T>(s: seq<T>, key: T -> int): (r: seq<T>)
    ensures |r| == |s|
    ensures multiset(r) == multiset(s)
    ensures SortedDesc(r, key)
    decreases |s|
  {
    if |s| == 0 then []
    else
      var sorted := SortDesc(s[..|s| - 1], key);
      InsertDescSorted(sorted, s[|s| - 1], key);
      assert s == s[..|s| - 1] + [s[|s| - 1]];
      InsertDesc(sorted, s[|s| - 1], key)
  }
}
