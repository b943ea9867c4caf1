/** The `sort` step of the Sales and Purchases lists: records ordered by their
    invoice date, ascending or descending. Dates are ISO `YYYY-MM-DD` strings,
    whose chronological order is their lexicographic order. */
module Sorting {

  /** Lexicographic `a <= b` on strings. */
  predicate LexLe(a: string, b: string)
    decreases |a|
  {
    |a| == 0 || (|b| > 0 && (a[0] < b[0] || (a[0] == b[0] && LexLe(a[1..], b[1..]))))
  }

  lemma {:induction false} LexLeTotal(a: string, b: string)
    ensures LexLe(a, b) || LexLe(b, a)
    decreases |a|
  {
    if |a| > 0 && |b| > 0 && a[0] == b[0] {
      LexLeTotal(a[1..], b[1..]);
    }
  }

  lemma {:induction false} LexLeTransitive(a: string, b: string, c: string)
    requires LexLe(a, b) && LexLe(b, c)
    ensures LexLe(a, c)
    decreases |a|
  {
    if |a| > 0 && a[0] == b[0] && b[0] == c[0] {
      LexLeTransitive(a[1..], b[1..], c[1..]);
    }
  }

  /** `x` may come before `y`: the comparator `dateX - dateY` (ascending) or
      `dateY - dateX` (descending) is not positive. */
  predicate InOrder<T>(key: T -> string, asc: bool, x: T, y: T)
  {
    if asc then LexLe(key(x), key(y)) else LexLe(key(y), key(x))
  }

  lemma InOrderTotal<T>(key: T -> string, asc: bool, x: T, y: T)
    ensures InOrder(key, asc, x, y) || InOrder(key, asc, y, x)
  {
    LexLeTotal(key(x), key(y));
  }

  lemma InOrderTransitive<T>(key: T -> string, asc: bool, x: T, y: T, z: T)
    requires InOrder(key, asc, x, y) && InOrder(key, asc, y, z)
    ensures InOrder(key, asc, x, z)
  {
    if asc {
      LexLeTransitive(key(x), key(y), key(z));
    } else {
      LexLeTransitive(key(z), key(y), key(x));
    }
  }

  predicate SortedBy<T>(s: seq<T>, key: T -> string, asc: bool)
  {
    forall i, j :: 0 <= i < j < |s| ==> InOrder(key, asc, s[i], s[j])
  }

  /** Inserts `x` before the first element it may precede. */
  function Insert<T>(x: T, s: seq<T>, key: T -> string, asc: bool): seq<T>
    decreases |s|
  {
    if |s| == 0 then [x]
    else if InOrder(key, asc, x, s[0]) then [x] + s
    else [s[0]] + Insert(x, s[1..], key, asc)
  }

  /** An insertion sort by `key`. */
  function SortBy<T>(s: seq<T>, key: T -> string, asc: bool): seq<T>
    decreases |s|
  {
    if |s| == 0 then [] else Insert(s[0], SortBy(s[1..], key, asc), key, asc)
  }

  lemma {:induction false} InsertPermutes<T>(x: T, s: seq<T>, key: T -> string, asc: bool)
    ensures multiset(Insert(x, s, key, asc)) == multiset([x]) + multiset(s)
    decreases |s|
  {
    if |s| > 0 && !InOrder(key, asc, x, s[0]) {
      InsertPermutes(x, s[1..], key, asc);
      assert s == [s[0]] + s[1..];
    }
  }

  lemma {:induction false} InsertSorted<T>(x: T, s: seq<T>, key: T -> string, asc: bool)
    requires SortedBy(s, key, asc)
    ensures SortedBy(Insert(x, s, key, asc), key, asc)
    decreases |s|
  {
    if |s| == 0 {
    } else if InOrder(key, asc, x, s[0]) {
      forall j | 0 <= j < |s| ensures InOrder(key, asc, x, s[j]) {
        if j > 0 {
          InOrderTransitive(key, asc, x, s[0], s[j]);
        }
      }
      ConsSorted(x, s, key, asc);
    } else {
      InOrderTotal(key, asc, x, s[0]);
      var t := Insert(x, s[1..], key, asc);
      InsertSorted(x, s[1..], key, asc);
      InsertPermutes(x, s[1..], key, asc);
      HeadBelow(x, s, t, key, asc);
      ConsSorted(s[0], t, key, asc);
    }
  }

  /** A sorted list stays sorted behind a head that may precede all of it. */
  lemma ConsSorted<T>(h: T, t: seq<T>, key: T -> string, asc: bool)
    requires SortedBy(t, key, asc)
    requires forall j :: 0 <= j < |t| ==> InOrder(key, asc, h, t[j])
    ensures SortedBy([h] + t, key, asc)
  {
    var r := [h] + t;
    forall i, j | 0 <= i < j < |r| ensures InOrder(key, asc, r[i], r[j]) {
      if i == 0 {
        assert r[j] == t[j - 1];
      } else {
        assert r[i] == t[i - 1] && r[j] == t[j - 1];
      }
    }
  }

  /** The head of a sorted list may precede every element of a rearrangement of
      its tail with one element added that the head may precede. */
  lemma HeadBelow<T>(x: T, s: seq<T>, t: seq<T>, key: T -> string, asc: bool)
    requires |s| > 0 && SortedBy(s, key, asc) && InOrder(key, asc, s[0], x)
    requires multiset(t) == multiset([x]) + multiset(s[1..])
    ensures forall j :: 0 <= j < |t| ==> InOrder(key, asc, s[0], t[j])
  {
    forall j | 0 <= j < |t| ensures InOrder(key, asc, s[0], t[j]) {
      assert t[j] in multiset(t);
      assert t[j] == x || t[j] in multiset(s[1..]);
      if t[j] != x {
        assert t[j] in s[1..];
        var k :| 0 <= k < |s[1..]| && s[1..][k] == t[j];
        assert s[k + 1] == t[j];
      }
    }
  }

  /** The sorted list is a permutation of its input. */
  lemma {:induction false} SortByPermutes<T>(s: seq<T>, key: T -> string, asc: bool)
    ensures multiset(SortBy(s, key, asc)) == multiset(s)
    decreases |s|
  {
    if |s| > 0 {
      SortByPermutes(s[1..], key, asc);
      InsertPermutes(s[0], SortBy(s[1..], key, asc), key, asc);
      assert s == [s[0]] + s[1..];
    }
  }

  /** The sorted list is ordered by the comparator. */
  lemma {:induction false} SortBySorted<T>(s: seq<T>, key: T -> string, asc: bool)
    ensures SortedBy(SortBy(s, key, asc), key, asc)
    decreases |s|
  {
    if |s| > 0 {
      SortBySorted(s[1..], key, asc);
      InsertSorted(s[0], SortBy(s[1..], key, asc), key, asc);
    }
  }
}
