/** Ordering by score, highest first, as the server's stream pipelines sort
    map entries. The sort is stable: entries with equal scores keep their
    input order, which for a hash map is itself unspecified. */
module Ranking {
  datatype Entry = Entry(key: string, score: real)

  predicate SortedDesc(s: seq<Entry>) {
    forall i, j :: 0 <= i < j < |s| ==> s[i].score >= s[j].score
  }

  function Keys(s: seq<Entry>): (r: seq<string>)
    ensures |r| == |s|
    ensures forall i :: 0 <= i < |s| ==> r[i] == s[i].key
  {
    if s == [] then [] else Keys(s[..|s| - 1]) + [s[|s| - 1].key]
  }

  /** Where `e` goes in a sorted list: after every entry scoring at least
      as much. */
  function Position(e: Entry, s: seq<Entry>): (k: nat)
    requires SortedDesc(s)
    ensures k <= |s|
    ensures forall i :: 0 <= i < k ==> s[i].score >= e.score
    ensures forall i :: k <= i < |s| ==> s[i].score < e.score
  {
    if s == [] || e.score > s[0].score then 0 else 1 + Position(e, s[1..])
  }

  function Insert(e: Entry, s: seq<Entry>): (r: seq<Entry>)
    requires SortedDesc(s)
    ensures SortedDesc(r)
    ensures multiset(r) == multiset(s) + multiset{e}
    ensures |r| == |s| + 1
  {
    var k := Position(e, s);
    assert s == s[..k] + s[k..];
    s[..k] + [e] + s[k..]
  }

  /** `sorted((a, b) -> b.score compared to a.score)`. */
  function SortDesc(s: seq<Entry>): (r: seq<Entry>)
    ensures SortedDesc(r)
    ensures multiset(r) == multiset(s)
    ensures |r| == |s|
  {
    if s == [] then []
    else
      var init := s[..|s| - 1];
      assert s == init + [s[|s| - 1]];
      Insert(s[|s| - 1], SortDesc(init))
  }

  /** A stream's `limit(n)`: the first `n` elements, or all of them. */
  function Take<T>(s: seq<T>, n: nat): (r: seq<T>)
    ensures |r| == if |s| < n then |s| else n
    ensures r == s[..|r|]
  {
    if |s| <= n then s else s[..n]
  }

  /** `skip(max(0, size - n))`: the last `n` entries, or all of them. */
  function TakeLast(s: seq<Entry>, n: nat): (r: seq<Entry>)
    ensures |r| == if |s| < n then |s| else n
    ensures r == s[|s| - |r|..]
  {
    if |s| <= n then s else s[|s| - n..]
  }

  /** Every entry of a sorted list's first `n` scores at least as much as
      any entry outside them. */
  lemma TakeDominates(s: seq<Entry>, n: nat)
    requires SortedDesc(s)
    ensures forall i, j :: 0 <= i < |Take(s, n)| <= j < |s| ==> Take(s, n)[i].score >= s[j].score
  {
  }

  /** With fewer than six entries the first three and the last three share
      an entry. */
  lemma TopAndBottomOverlap(s: seq<Entry>)
    requires 0 < |s| < 6
    ensures exists i, j :: 0 <= i < |Take(s, 3)| && 0 <= j < |TakeLast(s, 3)| && Take(s, 3)[i] == TakeLast(s, 3)[j]
  {
    var t := Take(s, 3);
    var b := TakeLast(s, 3);
    if |s| <= 3 {
      assert t[0] == b[0];
    } else {
      assert t[2] == b[2 - (|s| - 3)];
    }
  }

  predicate DistinctKeys(s: seq<Entry>) {
    forall i, j :: 0 <= i < j < |s| ==> s[i].key != s[j].key
  }

  /** Inserting an entry whose key is new keeps the keys distinct. */
  lemma InsertKeepsDistinctKeys(e: Entry, s: seq<Entry>)
    requires SortedDesc(s) && DistinctKeys(s)
    requires forall i :: 0 <= i < |s| ==> s[i].key != e.key
    ensures DistinctKeys(Insert(e, s))
  {
    var k := Position(e, s);
    var r := Insert(e, s);
    forall i, j | 0 <= i < j < |r|
      ensures r[i].key != r[j].key
    {
      if i == k { assert r[j] == s[j - 1]; }
      else if j == k { assert r[i] == s[i]; }
      else if j < k { assert r[i] == s[i] && r[j] == s[j]; }
      else if i < k { assert r[i] == s[i] && r[j] == s[j - 1]; }
      else { assert r[i] == s[i - 1] && r[j] == s[j - 1]; }
    }
  }

  /** Distinct keys stay distinct through sorting. */
  lemma {:induction false} SortKeepsDistinctKeys(s: seq<Entry>)
    requires DistinctKeys(s)
    ensures DistinctKeys(SortDesc(s))
  {
    if s != [] {
      var init := s[..|s| - 1];
      var e := s[|s| - 1];
      assert s == init + [e];
      SortKeepsDistinctKeys(init);
      var sorted := SortDesc(init);
      forall i | 0 <= i < |sorted|
        ensures sorted[i].key != e.key
      {
        assert sorted[i] in multiset(init);
      }
      InsertKeepsDistinctKeys(e, sorted);
    }
  }

  /** The entries of a hash map in its iteration order, which is not
      specified: each key once, with its value. */
  method EntriesOf(m: map<string, real>) returns (s: seq<Entry>)
    ensures DistinctKeys(s)
    ensures |s| == |m|
    ensures forall i :: 0 <= i < |s| ==> s[i].key in m && s[i].score == m[s[i].key]
    ensures forall k :: k in m ==> exists i :: 0 <= i < |s| && s[i].key == k
  {
    s := [];
    var remaining := m.Keys;
    while remaining != {}
      invariant remaining <= m.Keys
      invariant DistinctKeys(s)
      invariant |s| + |remaining| == |m|
      invariant forall i :: 0 <= i < |s| ==> s[i].key in m && s[i].key !in remaining && s[i].score == m[s[i].key]
      invariant forall k :: k in m && k !in remaining ==> exists i :: 0 <= i < |s| && s[i].key == k
      decreases |remaining|
    {
      var k :| k in remaining;
      ghost var before := s;
      s := s + [Entry(k, m[k])];
      remaining := remaining - {k};
      forall k' | k' in m && k' !in remaining
        ensures exists i :: 0 <= i < |s| && s[i].key == k'
      {
        if k' == k {
          assert s[|s| - 1].key == k';
        } else {
          var i :| 0 <= i < |before| && before[i].key == k';
          assert s[i].key == k';
        }
      }
    }
  }

  /** `r` lists the entries of `m` once each, highest score first. */
  predicate RanksAll(r: seq<Entry>, m: map<string, real>) {
    && SortedDesc(r) && DistinctKeys(r) && |r| == |m|
    && (forall i :: 0 <= i < |r| ==> r[i].key in m && r[i].score == m[r[i].key])
    && (forall k :: k in m ==> exists i :: 0 <= i < |r| && r[i].key == k)
  }

  /** `entrySet().stream().sorted(by value, descending)`. */
  method RankScores(m: map<string, real>) returns (r: seq<Entry>)
    ensures RanksAll(r, m)
  {
    var entries := EntriesOf(m);
    r := SortDesc(entries);
    SortKeepsDistinctKeys(entries);
    forall i | 0 <= i < |r|
      ensures r[i].key in m && r[i].score == m[r[i].key]
    {
      assert r[i] in multiset(entries);
      var j :| 0 <= j < |entries| && entries[j] == r[i];
    }
    forall k | k in m
      ensures exists i :: 0 <= i < |r| && r[i].key == k
    {
      var j :| 0 <= j < |entries| && entries[j].key == k;
      assert entries[j] in multiset(r);
      var i :| 0 <= i < |r| && r[i] == entries[j];
    }
  }
}
