/** The `ORDER BY` clauses of the queue's queries.

    Every query orders rows by at most three integer columns, the last one being the
    job id (or another key), which is unique. A `Rank` holds those columns, smaller
    ranks come first, and `Sorted` lists a finite set of ranks in that order. */
module Ordering {

  datatype Rank = Rank(major: int, minor: int, id: int) {
    predicate Less(other: Rank) {
      || major < other.major
      || (major == other.major && minor < other.minor)
      || (major == other.major && minor == other.minor && id < other.id)
    }
  }

  ghost predicate Increasing(s: seq<Rank>) {
    forall i, j :: 0 <= i < j < |s| ==> s[i].Less(s[j])
  }

  /** `s` is the answer of a query selecting `ranks`, in order. */
  ghost predicate Lists(s: seq<Rank>, ranks: set<Rank>) {
    Increasing(s) && forall r :: r in s <==> r in ranks
  }

  ghost predicate IsLeast(r: Rank, ranks: set<Rank>) {
    r in ranks && forall x :: x in ranks && x != r ==> r.Less(x)
  }

  lemma {:induction false} LeastExists(ranks: set<Rank>)
    requires ranks != {}
    ensures exists r :: IsLeast(r, ranks)
    decreases |ranks|
  {
    var x :| x in ranks;
    var rest := ranks - {x};
    assert forall r :: r in ranks <==> r in rest || r == x;
    if rest == {} {
      assert IsLeast(x, ranks);
    } else {
      LeastExists(rest);
      var y :| IsLeast(y, rest);
      assert IsLeast(if x.Less(y) then x else y, ranks);
    }
  }

  ghost function Least(ranks: set<Rank>): (r: Rank)
    requires ranks != {}
    ensures IsLeast(r, ranks)
  {
    LeastExists(ranks);
    var r :| IsLeast(r, ranks);
    r
  }

  ghost function Sorted(ranks: set<Rank>): (s: seq<Rank>)
    ensures |s| == |ranks|
    decreases |ranks|
  {
    if ranks == {} then [] else [Least(ranks)] + Sorted(ranks - {Least(ranks)})
  }

  lemma {:induction false} SortedLists(ranks: set<Rank>)
    ensures Lists(Sorted(ranks), ranks)
    decreases |ranks|
  {
    if ranks != {} {
      var r := Least(ranks);
      var s, rest := Sorted(ranks), Sorted(ranks - {r});
      SortedLists(ranks - {r});
      assert s == [r] + rest;
      forall i, j | 0 <= i < j < |s| ensures s[i].Less(s[j]) {
        assert s[j] == rest[j - 1] && s[j] in rest;
        if i > 0 {
          assert s[i] == rest[i - 1];
        }
      }
    }
  }

  lemma InSorted(ranks: set<Rank>, r: Rank)
    ensures r in Sorted(ranks) <==> r in ranks
  {
    SortedLists(ranks);
  }

  /** A query has one answer. */
  lemma {:induction false} ListsUnique(s: seq<Rank>, t: seq<Rank>, ranks: set<Rank>)
    requires Lists(s, ranks) && Lists(t, ranks)
    ensures s == t
    decreases |s|
  {
    assert |t| > 0 ==> t[0] in ranks;
    if s != [] {
      assert s[0] in ranks && s[0] in t;
      assert t[0] in s;
      assert s[0] == t[0];
      var rest := ranks - {s[0]};
      assert Lists(s[1..], rest) by { TailLists(s, ranks); }
      assert Lists(t[1..], rest) by { TailLists(t, ranks); }
      ListsUnique(s[1..], t[1..], rest);
      assert s == [s[0]] + s[1..] && t == [t[0]] + t[1..];
    }
  }

  lemma TailLists(s: seq<Rank>, ranks: set<Rank>)
    requires Lists(s, ranks) && s != []
    ensures Lists(s[1..], ranks - {s[0]})
  {
    var rest := ranks - {s[0]};
    forall r ensures r in s[1..] <==> r in rest {
      if r in rest {
        var i :| 0 <= i < |s| && s[i] == r;
        assert s[1..][i - 1] == r;
      }
      if r in s[1..] {
        var i :| 0 <= i < |s[1..]| && s[1..][i] == r;
        assert s[i + 1] == r && s[0].Less(r);
      }
    }
  }

  lemma SortedIs(s: seq<Rank>, ranks: set<Rank>)
    requires Lists(s, ranks)
    ensures Sorted(ranks) == s
  {
    SortedLists(ranks);
    ListsUnique(s, Sorted(ranks), ranks);
  }

  /** Removing the first row of an answer leaves the rest of the answer. */
  lemma SortedWithoutFirst(ranks: set<Rank>)
    requires ranks != {}
    ensures IsLeast(Sorted(ranks)[0], ranks)
    ensures Sorted(ranks - {Sorted(ranks)[0]}) == Sorted(ranks)[1..]
  {
    SortedLists(ranks);
    TailLists(Sorted(ranks), ranks);
    SortedIs(Sorted(ranks)[1..], ranks - {Sorted(ranks)[0]});
  }

  lemma LeastIsFirst(r: Rank, ranks: set<Rank>)
    requires IsLeast(r, ranks)
    ensures Sorted(ranks)[0] == r
  {
    SortedLists(ranks);
    assert r in Sorted(ranks);
    assert Sorted(ranks)[0] in ranks;
  }

  /** Two answers one after the other are the answer for both sets together. */
  lemma SortedAppend(a: set<Rank>, b: set<Rank>)
    requires forall x, y :: x in a && y in b ==> x.Less(y)
    ensures Sorted(a + b) == Sorted(a) + Sorted(b)
  {
    var s, t := Sorted(a), Sorted(b);
    SortedLists(a);
    SortedLists(b);
    var both: seq<Rank> := s + t;
    forall i, j | 0 <= i < j < |both| ensures both[i].Less(both[j]) {
      if i < |s| <= j {
        assert s[i] in a && t[j - |s|] in b;
      }
    }
    SortedIs(both, a + b);
  }

  /** The answer with a `LIMIT`. */
  ghost function First(ranks: set<Rank>, limit: nat): (s: seq<Rank>)
    ensures |s| == if limit <= |ranks| then limit else |ranks|
  {
    if limit <= |ranks| then Sorted(ranks)[..limit] else Sorted(ranks)
  }

  lemma FirstAreRanks(ranks: set<Rank>, limit: nat, r: Rank)
    requires r in First(ranks, limit)
    ensures r in ranks
  {
    InSorted(ranks, r);
  }

  /** What is left out comes after everything that is in. */
  lemma FirstIsFirst(ranks: set<Rank>, limit: nat, r: Rank, x: Rank)
    requires r in First(ranks, limit) && x in ranks && x !in First(ranks, limit)
    ensures r.Less(x) && |First(ranks, limit)| == limit
  {
    SortedLists(ranks);
    var s, first := Sorted(ranks), First(ranks, limit);
    var i :| 0 <= i < |first| && first[i] == r;
    var j :| 0 <= j < |s| && s[j] == x;
    assert forall k :: 0 <= k < |first| ==> first[k] == s[k];
  }

  ghost predicate DistinctIds(s: seq<Rank>) {
    forall a, b :: 0 <= a < b < |s| ==> s[a].id != s[b].id
  }

  function Ids(s: seq<Rank>): set<nat> {
    set r | r in s && r.id >= 0 :: r.id
  }

  lemma {:induction false} IdsSize(s: seq<Rank>)
    requires DistinctIds(s) && forall r :: r in s ==> r.id >= 0
    ensures |Ids(s)| == |s|
  {
    if s == [] {
      assert Ids(s) == {};
    } else {
      var last := |s| - 1;
      var init := s[..last];
      assert s == init + [s[last]];
      IdsSize(init);
      assert s[last].id !in Ids(init);
      assert Ids(s) == Ids(init) + {s[last].id};
    }
  }

  method FindLeast(ranks: set<Rank>) returns (r: Rank)
    requires ranks != {}
    ensures IsLeast(r, ranks)
  {
    r :| r in ranks;
    var rest := ranks - {r};
    while rest != {}
      invariant rest <= ranks - {r} && r in ranks
      invariant forall x :: x in ranks && x !in rest && x != r ==> r.Less(x)
      decreases rest
    {
      var x :| x in rest;
      rest := rest - {x};
      if x.Less(r) {
        r := x;
      }
    }
  }

  /** Running a query with `ORDER BY` and `LIMIT`. */
  method Select(ranks: set<Rank>, limit: nat) returns (s: seq<Rank>)
    ensures s == First(ranks, limit)
  {
    s := [];
    var rest := ranks;
    ghost var all := Sorted(ranks);
    while rest != {} && |s| < limit
      invariant |s| <= limit && |s| + |rest| == |all|
      invariant s == all[..|s|] && Sorted(rest) == all[|s|..]
      decreases rest
    {
      var r := FindLeast(rest);
      SortedWithoutFirst(rest);
      LeastIsFirst(r, rest);
      assert r == all[|s|] && all[|s|..][1..] == all[|s| + 1..];
      s := s + [r];
      rest := rest - {r};
    }
  }
}
