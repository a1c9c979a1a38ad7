/** Redis sorted sets as lists of (member, score) entries in ascending score order
    with no member twice, and the commands the core issues on them: ZADD,
    ZREMRANGEBYRANK with a negative stop (keep the highest-ranked entries),
    ZRANGEBYSCORE with an optional LIMIT, and ZREMRANGEBYSCORE. */
module SortedSets {
  import opened Common

  datatype Entry<M> = Entry(member: M, score: real)

  /** Scores never decrease along the list. */
  predicate Ordered<M>(z: seq<Entry<M>>)
  {
    forall i, j :: 0 <= i < j < |z| ==> z[i].score <= z[j].score
  }

  /** No member appears twice. */
  predicate UniqueMembers<M(==)>(z: seq<Entry<M>>)
  {
    forall i, j :: 0 <= i < j < |z| ==> z[i].member != z[j].member
  }

  predicate Valid<M(==)>(z: seq<Entry<M>>)
  {
    Ordered(z) && UniqueMembers(z)
  }

  /** The set with `m` removed (ZREM). */
  function Without<M(==)>(z: seq<Entry<M>>, m: M): (r: seq<Entry<M>>)
    ensures forall i :: 0 <= i < |r| ==> r[i] in z && r[i].member != m
    ensures forall i :: 0 <= i < |z| && z[i].member != m ==> z[i] in r
  {
    Filter(z, (e: Entry<M>) => e.member != m)
  }

  /** A filtered list keeps the order of its source. */
  lemma {:induction false} FilterOrdered<M>(z: seq<Entry<M>>, p: Entry<M> -> bool)
    requires Ordered(z)
    ensures Ordered(Filter(z, p))
  {
    if z != [] {
      var init := z[..|z| - 1];
      var last := z[|z| - 1];
      assert Ordered(init);
      FilterOrdered(init, p);
      var f := Filter(init, p);
      var r := f + (if p(last) then [last] else []);
      assert r == Filter(z, p);
      forall i, j | 0 <= i < j < |r| ensures r[i].score <= r[j].score {
        if j >= |f| {
          assert r[i] == f[i] && r[i] in init;
          var k :| 0 <= k < |init| && init[k] == r[i];
          assert z[k] == r[i];
        }
      }
    }
  }

  /** A filtered list has no repeated member when its source has none. */
  lemma {:induction false} FilterUnique<M>(z: seq<Entry<M>>, p: Entry<M> -> bool)
    requires UniqueMembers(z)
    ensures UniqueMembers(Filter(z, p))
  {
    if z != [] {
      var init := z[..|z| - 1];
      var last := z[|z| - 1];
      assert UniqueMembers(init);
      FilterUnique(init, p);
      var f := Filter(init, p);
      var r := f + (if p(last) then [last] else []);
      assert r == Filter(z, p);
      forall i, j | 0 <= i < j < |r| ensures r[i].member != r[j].member {
        if j >= |f| {
          assert r[i] == f[i] && r[i] in init;
          var k :| 0 <= k < |init| && init[k] == r[i];
          assert z[k] == r[i];
        }
      }
    }
  }

  /** Place `e` after every entry whose score is not larger. */
  function InsertByScore<M>(e: Entry<M>, z: seq<Entry<M>>): (r: seq<Entry<M>>)
    ensures |r| == |z| + 1
    ensures multiset(r) == multiset(z) + multiset{e}
  {
    if z == [] || e.score < z[0].score then [e] + z
    else
      assert z == [z[0]] + z[1..];
      [z[0]] + InsertByScore(e, z[1..])
  }

  /** Every entry of an insertion is `e` or an entry of `z`. */
  lemma {:induction false} InsertByScoreFrom<M>(e: Entry<M>, z: seq<Entry<M>>)
    ensures forall i :: 0 <= i < |InsertByScore(e, z)| ==>
      InsertByScore(e, z)[i] == e || exists k :: 0 <= k < |z| && InsertByScore(e, z)[i] == z[k]
  {
    if z != [] && e.score >= z[0].score {
      var t := z[1..];
      InsertByScoreFrom(e, t);
      var u := InsertByScore(e, t);
      var r := InsertByScore(e, z);
      assert r == [z[0]] + u;
      forall i | 0 <= i < |r| ensures r[i] == e || exists k :: 0 <= k < |z| && r[i] == z[k] {
        if i == 0 {
          assert r[i] == z[0];
        } else if u[i - 1] != e {
          var k :| 0 <= k < |t| && u[i - 1] == t[k];
          assert r[i] == z[k + 1];
        }
      }
    }
  }

  /** An entry that is above `e` and every entry of `z`, with a member none of them has,
      stays so after the insertion. */
  lemma InsertByScoreAbove<M>(e: Entry<M>, z: seq<Entry<M>>, top: Entry<M>)
    requires top.score <= e.score && top.member != e.member
    requires forall k :: 0 <= k < |z| ==> top.score <= z[k].score && top.member != z[k].member
    ensures forall j :: 0 <= j < |InsertByScore(e, z)| ==>
      top.score <= InsertByScore(e, z)[j].score && top.member != InsertByScore(e, z)[j].member
  {
    InsertByScoreFrom(e, z);
  }

  lemma {:induction false} InsertByScoreValid<M>(e: Entry<M>, z: seq<Entry<M>>)
    requires Valid(z)
    requires forall i :: 0 <= i < |z| ==> z[i].member != e.member
    ensures Valid(InsertByScore(e, z))
  {
    if z != [] && e.score >= z[0].score {
      var t := z[1..];
      assert Valid(t) && forall k :: 0 <= k < |t| ==> z[0].score <= t[k].score && z[0].member != t[k].member by {
        forall i, j | 0 <= i < j < |t| ensures t[i].score <= t[j].score && t[i].member != t[j].member {
          assert t[i] == z[i + 1] && t[j] == z[j + 1];
        }
        forall k | 0 <= k < |t| ensures z[0].score <= t[k].score && z[0].member != t[k].member {
          assert t[k] == z[k + 1];
        }
      }
      assert forall i :: 0 <= i < |t| ==> t[i] == z[i + 1];
      InsertByScoreValid(e, t);
      var u := InsertByScore(e, t);
      var r := [z[0]] + u;
      InsertByScoreAbove(e, t, z[0]);
      assert r == InsertByScore(e, z);
      forall i, j | 0 <= i < j < |r| ensures r[i].score <= r[j].score && r[i].member != r[j].member {
        assert r[j] == u[j - 1];
        if i > 0 {
          assert r[i] == u[i - 1];
        }
      }
    }
  }

  /** ZADD: add `m` with score `sc`, replacing the score of an existing `m`. */
  function ZAdd<M(==)>(z: seq<Entry<M>>, m: M, sc: real): seq<Entry<M>>
  {
    InsertByScore(Entry(m, sc), Without(z, m))
  }

  /** ZADD keeps the set well formed. */
  lemma ZAddValid<M>(z: seq<Entry<M>>, m: M, sc: real)
    requires Valid(z)
    ensures Valid(ZAdd(z, m, sc))
  {
    FilterOrdered(z, (e: Entry<M>) => e.member != m);
    FilterUnique(z, (e: Entry<M>) => e.member != m);
    InsertByScoreValid(Entry(m, sc), Without(z, m));
  }

  /** After ZADD, `m` has score `sc` and every other member keeps its entry. */
  lemma ZAddEntries<M>(z: seq<Entry<M>>, m: M, sc: real)
    ensures Entry(m, sc) in ZAdd(z, m, sc)
    ensures forall i :: 0 <= i < |ZAdd(z, m, sc)| && ZAdd(z, m, sc)[i].member == m
              ==> ZAdd(z, m, sc)[i].score == sc
    ensures forall i :: 0 <= i < |z| && z[i].member != m ==> z[i] in ZAdd(z, m, sc)
  {
    var w := Without(z, m);
    var r := InsertByScore(Entry(m, sc), w);
    assert r == ZAdd(z, m, sc);
    assert multiset(r) == multiset(w) + multiset{Entry(m, sc)};
    assert Entry(m, sc) in multiset(r);
    forall i | 0 <= i < |r| && r[i].member == m ensures r[i].score == sc {
      assert r[i] in multiset(r);
      assert r[i] !in w;
      assert r[i] !in multiset(w);
    }
    forall i | 0 <= i < |z| && z[i].member != m ensures z[i] in r {
      assert z[i] in w;
      assert z[i] in multiset(w);
      assert z[i] in multiset(r);
    }
  }

  /** ZADD adds at most one entry, and every entry after it is either the new
      one or was there before. */
  lemma ZAddFrom<M>(z: seq<Entry<M>>, m: M, sc: real)
    ensures |ZAdd(z, m, sc)| <= |z| + 1
    ensures forall i :: 0 <= i < |ZAdd(z, m, sc)| ==> ZAdd(z, m, sc)[i] in z || ZAdd(z, m, sc)[i] == Entry(m, sc)
  {
    var w := Without(z, m);
    var r := InsertByScore(Entry(m, sc), w);
    assert w == Filter(z, (e: Entry<M>) => e.member != m);
    assert r == ZAdd(z, m, sc);
    forall i | 0 <= i < |r| ensures r[i] in z || r[i] == Entry(m, sc) {
      assert r[i] in multiset(r);
      if r[i] != Entry(m, sc) {
        assert r[i] in multiset(w);
        assert r[i] in w;
      }
    }
  }

  /** ZREMRANGEBYRANK key 0 -(n+1): keep only the `n` highest-scored entries. */
  function KeepTop<M>(z: seq<Entry<M>>, n: nat): seq<Entry<M>>
  {
    if |z| <= n then z else z[|z| - n..]
  }

  /** Trimming keeps the last `n` entries, or all of them when there are no
      more than `n`. */
  lemma KeepTopSuffix<M>(z: seq<Entry<M>>, n: nat)
    ensures |KeepTop(z, n)| == if |z| <= n then |z| else n
    ensures KeepTop(z, n) == z[|z| - |KeepTop(z, n)|..]
  {
  }

  /** Trimming keeps the set well formed, and no dropped entry outscores a kept one. */
  lemma KeepTopSpec<M>(z: seq<Entry<M>>, n: nat)
    requires Valid(z)
    ensures Valid(KeepTop(z, n))
    ensures forall i, j :: 0 <= i < |z| - |KeepTop(z, n)| <= j < |z| ==> z[i].score <= z[j].score
  {
    KeepTopSuffix(z, n);
    var r := KeepTop(z, n);
    var d := |z| - |r|;
    assert forall i :: 0 <= i < |r| ==> r[i] == z[d + i];
    assert Ordered(r) by {
      forall i, j | 0 <= i < j < |r| ensures r[i].score <= r[j].score {
        assert r[i] == z[d + i] && r[j] == z[d + j];
      }
    }
    assert UniqueMembers(r) by {
      forall i, j | 0 <= i < j < |r| ensures r[i].member != r[j].member {
        assert r[i] == z[d + i] && r[j] == z[d + j];
      }
    }
  }

  /** An entry the trim drops scores no higher than any entry it keeps. */
  lemma KeepTopDrops<M>(z: seq<Entry<M>>, n: nat)
    requires Valid(z)
    ensures forall e, k :: e in z && e !in KeepTop(z, n) && k in KeepTop(z, n) ==> e.score <= k.score
  {
    KeepTopSuffix(z, n);
    KeepTopSpec(z, n);
    var r := KeepTop(z, n);
    var d := |z| - |r|;
    forall e, k | e in z && e !in r && k in r ensures e.score <= k.score {
      var i :| 0 <= i < |z| && z[i] == e;
      var j :| 0 <= j < |r| && r[j] == k;
      assert r[j] == z[d + j];
    }
  }

  /** The entries with `lo <= score <= hi`, in order (ZRANGEBYSCORE). */
  function RangeByScore<M>(z: seq<Entry<M>>, lo: real, hi: real): (r: seq<Entry<M>>)
    ensures forall i :: 0 <= i < |r| ==> r[i] in z && lo <= r[i].score <= hi
    ensures forall i :: 0 <= i < |z| && lo <= z[i].score <= hi ==> z[i] in r
  {
    Filter(z, (e: Entry<M>) => lo <= e.score <= hi)
  }

  /** LIMIT 0 count: a negative count keeps everything. */
  function Limit<T>(s: seq<T>, count: int): (r: seq<T>)
    ensures count >= 0 ==> |r| == if count < |s| then count else |s|
    ensures count < 0 ==> r == s
    ensures r <= s
  {
    if count < 0 || count >= |s| then s else s[..count]
  }

  /** The entries scored outside `[lo, hi]`, in order. */
  function Outside<M>(z: seq<Entry<M>>, lo: real, hi: real): (r: seq<Entry<M>>)
    ensures |r| <= |z|
  {
    if z == [] then []
    else
      var e := z[|z| - 1];
      Outside(z[..|z| - 1], lo, hi) + (if lo <= e.score <= hi then [] else [e])
  }

  /** ZREMRANGEBYSCORE: the remaining entries and the number removed. */
  function RemoveRangeByScore<M>(z: seq<Entry<M>>, lo: real, hi: real): (seq<Entry<M>>, nat)
  {
    var rest := Outside(z, lo, hi);
    (rest, |z| - |rest|)
  }

  /** `Outside` keeps exactly the entries a filter on the score keeps. */
  lemma {:induction false} OutsideIsFilter<M>(z: seq<Entry<M>>, lo: real, hi: real)
    ensures Outside(z, lo, hi) == Filter(z, (e: Entry<M>) => !(lo <= e.score <= hi))
  {
    if z != [] {
      var init := z[..|z| - 1];
      assert z == init + [z[|z| - 1]];
      OutsideIsFilter(init, lo, hi);
      FilterAppend(init, z[|z| - 1], (e: Entry<M>) => !(lo <= e.score <= hi));
    }
  }

  lemma {:induction false} CountSplit<T>(s: seq<T>, p: T -> bool, q: T -> bool)
    requires forall x :: p(x) <==> !q(x)
    ensures CountWhere(s, p) + CountWhere(s, q) == |s|
  {
    if s != [] {
      CountSplit(s[..|s| - 1], p, q);
    }
  }

  /** The removed count is the number of entries in the range. */
  lemma RemoveRangeByScoreCount<M>(z: seq<Entry<M>>, lo: real, hi: real)
    ensures RemoveRangeByScore(z, lo, hi).1 == |RangeByScore(z, lo, hi)|
  {
    OutsideIsFilter(z, lo, hi);
    var p := (e: Entry<M>) => !(lo <= e.score <= hi);
    var q := (e: Entry<M>) => lo <= e.score <= hi;
    CountSplit(z, p, q);
  }

  /** The entries that remain are those outside the range. */
  lemma RemoveRangeByScoreEntries<M>(z: seq<Entry<M>>, lo: real, hi: real)
    ensures forall i :: 0 <= i < |RemoveRangeByScore(z, lo, hi).0| ==>
      RemoveRangeByScore(z, lo, hi).0[i] in z && !(lo <= RemoveRangeByScore(z, lo, hi).0[i].score <= hi)
    ensures forall i :: 0 <= i < |z| && !(lo <= z[i].score <= hi) ==> z[i] in RemoveRangeByScore(z, lo, hi).0
  {
    OutsideIsFilter(z, lo, hi);
  }

  /** Removal keeps the set well formed. */
  lemma RemoveRangeByScoreValid<M>(z: seq<Entry<M>>, lo: real, hi: real)
    requires Valid(z)
    ensures Valid(RemoveRangeByScore(z, lo, hi).0)
  {
    OutsideIsFilter(z, lo, hi);
    var p := (e: Entry<M>) => !(lo <= e.score <= hi);
    FilterOrdered(z, p);
    FilterUnique(z, p);
  }
}
