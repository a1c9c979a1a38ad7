/** Python's `list.sort(key=..., reverse=True)`, `max(..., key=...)`,
    `min(..., key=...)` and `sorted(...)` on integers, as value-level functions.
    The descending sort is stable: elements with equal keys keep their input order,
    which is what Python guarantees for `reverse=True`. */
module Sorting {

  /** `key(x)` never increases along `s`. */
  predicate NonIncreasing<T>(s: seq<T>, key: T -> real)
  {
    forall i, j :: 0 <= i < j < |s| ==> key(s[i]) >= key(s[j])
  }

  /** Insert `x` in front of the first element whose key is not larger. */
  function Insert<T>(x: T, s: seq<T>, key: T -> real): (r: seq<T>)
    ensures |r| == |s| + 1
    ensures multiset(r) == multiset(s) + multiset{x}
  {
    if s == [] || key(x) >= key(s[0]) then [x] + s
    else
      assert s == [s[0]] + s[1..];
      [s[0]] + Insert(x, s[1..], key)
  }

  /** Stable sort by `key`, largest first. */
  function SortDesc<T>(s: seq<T>, key: T -> real): (r: seq<T>)
    ensures |r| == |s|
    ensures multiset(r) == multiset(s)
  {
    if s == [] then []
    else
      assert s == [s[0]] + s[1..];
      Insert(s[0], SortDesc(s[1..], key), key)
  }

  /** Every element of an insertion is the inserted one or one of `s`. */
  lemma {:induction false} InsertFrom<T>(x: T, s: seq<T>, key: T -> real)
    ensures forall i :: 0 <= i < |Insert(x, s, key)| ==>
      Insert(x, s, key)[i] == x || exists k :: 0 <= k < |s| && Insert(x, s, key)[i] == s[k]
  {
    if s != [] && key(x) < key(s[0]) {
      var t := s[1..];
      InsertFrom(x, t, key);
      var u := Insert(x, t, key);
      var r := Insert(x, s, key);
      assert r == [s[0]] + u;
      forall i | 0 <= i < |r| ensures r[i] == x || exists k :: 0 <= k < |s| && r[i] == s[k] {
        if i == 0 {
          assert r[i] == s[0];
        } else if u[i - 1] != x {
          var k :| 0 <= k < |t| && u[i - 1] == t[k];
          assert r[i] == s[k + 1];
        }
      }
    }
  }

  /** An insertion stays below any bound on `x` and on `s`. */
  lemma InsertBelow<T>(x: T, s: seq<T>, key: T -> real, top: real)
    requires key(x) <= top && forall k :: 0 <= k < |s| ==> key(s[k]) <= top
    ensures forall j :: 0 <= j < |Insert(x, s, key)| ==> key(Insert(x, s, key)[j]) <= top
  {
    InsertFrom(x, s, key);
  }

  lemma {:induction false} InsertKeeps<T>(x: T, s: seq<T>, key: T -> real)
    requires NonIncreasing(s, key)
    ensures NonIncreasing(Insert(x, s, key), key)
    ensures Insert(x, s, key)[0] == (if s == [] || key(x) >= key(s[0]) then x else s[0])
  {
    if s != [] && key(x) < key(s[0]) {
      var t := s[1..];
      assert NonIncreasing(t, key) by {
        forall i, j | 0 <= i < j < |t| ensures key(t[i]) >= key(t[j]) {
          assert t[i] == s[i + 1] && t[j] == s[j + 1];
        }
      }
      assert forall k :: 0 <= k < |t| ==> key(t[k]) <= key(s[0]) by {
        forall k | 0 <= k < |t| ensures key(t[k]) <= key(s[0]) {
          assert t[k] == s[k + 1];
        }
      }
      InsertKeeps(x, t, key);
      var u := Insert(x, t, key);
      var r := [s[0]] + u;
      InsertBelow(x, t, key, key(s[0]));
      assert r == Insert(x, s, key);
      forall i, j | 0 <= i < j < |r| ensures key(r[i]) >= key(r[j]) {
        assert r[j] == u[j - 1];
        if i > 0 {
          assert r[i] == u[i - 1];
        }
      }
    }
  }

  /** The result is ordered largest key first. */
  lemma {:induction false} SortDescSorted<T>(s: seq<T>, key: T -> real)
    ensures NonIncreasing(SortDesc(s, key), key)
  {
    if s != [] {
      SortDescSorted(s[1..], key);
      InsertKeeps(s[0], SortDesc(s[1..], key), key);
    }
  }

  /** Python `max(s, key=key)`: the first element with the largest key. */
  function FirstMax<T>(s: seq<T>, key: T -> real): (m: T)
    requires |s| > 0
    ensures m in s
  {
    if |s| == 1 then s[0]
    else
      var m := FirstMax(s[1..], key);
      assert m in s by { assert s == [s[0]] + s[1..]; }
      if key(s[0]) >= key(m) then s[0] else m
  }

  /** `FirstMax` has the largest key, and every element before its first
      occurrence has a strictly smaller key. */
  lemma {:induction false} FirstMaxIsFirstMaximum<T>(s: seq<T>, key: T -> real)
    requires |s| > 0
    ensures forall i :: 0 <= i < |s| ==> key(s[i]) <= key(FirstMax(s, key))
    ensures exists k :: 0 <= k < |s| && s[k] == FirstMax(s, key)
              && forall i :: 0 <= i < k ==> key(s[i]) < key(FirstMax(s, key))
  {
    if |s| > 1 {
      var t := s[1..];
      FirstMaxIsFirstMaximum(t, key);
      var m := FirstMax(t, key);
      forall i | 0 <= i < |s| ensures key(s[i]) <= key(FirstMax(s, key)) {
        if i > 0 { assert s[i] == t[i - 1]; }
      }
      if key(s[0]) < key(m) {
        assert FirstMax(s, key) == m;
        var k :| 0 <= k < |t| && t[k] == m && forall i :: 0 <= i < k ==> key(t[i]) < key(m);
        assert s[k + 1] == m;
        forall i | 0 <= i < k + 1 ensures key(s[i]) < key(m) {
          if i > 0 { assert s[i] == t[i - 1]; }
        }
        assert 0 <= k + 1 < |s| && s[k + 1] == FirstMax(s, key)
          && forall i :: 0 <= i < k + 1 ==> key(s[i]) < key(FirstMax(s, key));
      } else {
        assert s[0] == FirstMax(s, key);
        assert 0 < |s| && s[0] == FirstMax(s, key);
      }
    } else {
      assert s[0] == FirstMax(s, key);
    }
  }

  /** The head of the stable descending sort is `max(s, key=key)`. */
  lemma {:induction false} SortDescHead<T>(s: seq<T>, key: T -> real)
    requires |s| > 0
    ensures SortDesc(s, key)[0] == FirstMax(s, key)
  {
    if |s| > 1 {
      SortDescHead(s[1..], key);
      SortDescSorted(s[1..], key);
      InsertKeeps(s[0], SortDesc(s[1..], key), key);
    } else {
      assert SortDesc(s[1..], key) == [];
    }
  }

  /** Sorting a list that is already ordered changes nothing (stability). */
  lemma {:induction false} SortDescOfSorted<T>(s: seq<T>, key: T -> real)
    requires NonIncreasing(s, key)
    ensures SortDesc(s, key) == s
  {
    if s != [] {
      var t := s[1..];
      assert NonIncreasing(t, key) by {
        forall i, j | 0 <= i < j < |t| ensures key(t[i]) >= key(t[j]) {
          assert t[i] == s[i + 1] && t[j] == s[j + 1];
        }
      }
      SortDescOfSorted(t, key);
      if t != [] {
        assert key(s[0]) >= key(t[0]) by { assert t[0] == s[1]; }
      }
      assert [s[0]] + t == s;
    }
  }

  /** Python `min(s, key=key)`: the first element with the smallest key. */
  function FirstMin<T>(s: seq<T>, key: T -> int): (m: T)
    requires |s| > 0
    ensures m in s
    ensures forall i :: 0 <= i < |s| ==> key(m) <= key(s[i])
  {
    if |s| == 1 then s[0]
    else
      var m := FirstMin(s[1..], key);
      assert forall i :: 1 <= i < |s| ==> s[i] == s[1..][i - 1];
      assert m in s by { assert s == [s[0]] + s[1..]; }
      if key(s[0]) <= key(m) then s[0] else m
  }

  /** Every element is at most its successor. */
  predicate Ascending(s: seq<int>)
  {
    forall i, j :: 0 <= i < j < |s| ==> s[i] <= s[j]
  }

  function InsertAsc(x: int, s: seq<int>): (r: seq<int>)
    ensures |r| == |s| + 1
    ensures multiset(r) == multiset(s) + multiset{x}
  {
    if s == [] || x <= s[0] then [x] + s
    else
      assert s == [s[0]] + s[1..];
      [s[0]] + InsertAsc(x, s[1..])
  }

  /** Python `sorted(s)` for a list of integers. */
  function SortAsc(s: seq<int>): (r: seq<int>)
    ensures |r| == |s|
    ensures multiset(r) == multiset(s)
  {
    if s == [] then []
    else
      assert s == [s[0]] + s[1..];
      InsertAsc(s[0], SortAsc(s[1..]))
  }

  lemma {:induction false} InsertAscKeeps(x: int, s: seq<int>)
    requires Ascending(s)
    ensures Ascending(InsertAsc(x, s))
  {
    if s != [] && x > s[0] {
      var t := s[1..];
      assert Ascending(t) by {
        forall i, j | 0 <= i < j < |t| ensures t[i] <= t[j] {
          assert t[i] == s[i + 1] && t[j] == s[j + 1];
        }
      }
      InsertAscKeeps(x, t);
      assert forall k :: 0 <= k < |t| ==> t[k] >= s[0] by {
        forall k | 0 <= k < |t| ensures t[k] >= s[0] {
          assert t[k] == s[k + 1];
        }
      }
      InsertAscAbove(x, t, s[0]);
      var u := InsertAsc(x, t);
      var r := [s[0]] + u;
      forall i, j | 0 <= i < j < |r| ensures r[i] <= r[j] {
        assert r[j] == u[j - 1];
        if i > 0 {
          assert r[i] == u[i - 1];
        }
      }
    }
  }

  /** Inserting keeps a lower bound that the element and the list respect. */
  lemma InsertAscAbove(x: int, t: seq<int>, b: int)
    requires x >= b && forall k :: 0 <= k < |t| ==> t[k] >= b
    ensures forall k :: 0 <= k < |InsertAsc(x, t)| ==> InsertAsc(x, t)[k] >= b
  {
    var u := InsertAsc(x, t);
    forall k | 0 <= k < |u| ensures u[k] >= b {
      assert u[k] in multiset(u);
      if u[k] != x {
        assert u[k] in multiset(t);
        var i :| 0 <= i < |t| && t[i] == u[k];
      }
    }
  }

  /** `sorted(s)` is ascending. */
  lemma {:induction false} SortAscSorted(s: seq<int>)
    ensures Ascending(SortAsc(s))
  {
    if s != [] {
      SortAscSorted(s[1..]);
      InsertAscKeeps(s[0], SortAsc(s[1..]));
    }
  }
}
