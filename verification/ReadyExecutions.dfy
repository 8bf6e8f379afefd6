/** Claiming ready jobs: the worker's loop over its queues is one sort with a limit. */
module ReadyExecutions {
  import opened Tables
  import opened Ordering
  import opened ClaimedExecutions
  import opened QueueSelector
  import opened Lifecycle
  import opened Operations

  type Ready = map<JobId, ReadyRow>

  /** The rows that a relation selects and nobody holds locked, as `in_order()` ranks them:
      priority, higher before lower, then job id. */
  function Candidates(ready: Ready, relation: Relation, locked: set<JobId>): set<Rank> {
    set j | j in ready && relation.Selects(ready[j].queue) && j !in locked :: Rank(0, -ready[j].priority, j)
  }

  function JobsOf(ranks: seq<Rank>): (jobs: seq<int>)
    ensures |jobs| == |ranks|
  {
    seq(|ranks|, i requires 0 <= i < |ranks| => ranks[i].id)
  }

  datatype Claimed = Claimed(db: Db, jobs: seq<int>, ok: bool)

  /** `select_and_lock`, one transaction; it fails on a job that is claimed already and on a
      process that is not registered any more. */
  ghost function SelectAndLock(db: Db, relation: Relation, limit: int, p: ProcessId, locked: set<JobId>): (r: Claimed) {
    if limit <= 0 then Claimed(db, [], true)
    else
      var rows := First(Candidates(db.ready, relation, locked), limit);
      if rows == [] then Claimed(db, [], true)
      else if Ids(rows) !! db.claimed.Keys && p in db.processes then
        Claimed(ClaimRows(db, Ids(rows), p), JobsOf(rows), true)
      else Claimed(db, [], false)
  }

  /** `claim` over the relations, with nobody in between. */
  ghost function Claim(db: Db, relations: seq<Relation>, limit: int, p: ProcessId, locked: set<JobId>): Claimed
    decreases |relations|
  {
    if relations == [] then Claimed(db, [], true)
    else
      var first := SelectAndLock(db, relations[0], limit, p, locked);
      if !first.ok then first
      else Both(first, Claim(first.db, relations[1..], limit - |first.jobs|, p, locked))
  }

  function Both(first: Claimed, others: Claimed): Claimed {
    Claimed(others.db, first.jobs + others.jobs, others.ok)
  }

  // ----- One sort -----

  function FirstRelation(relations: seq<Relation>, queue: string): (n: nat)
    ensures n <= |relations|
  {
    if relations == [] || relations[0].Selects(queue) then 0 else 1 + FirstRelation(relations[1..], queue)
  }

  /** The rows that some relation selects, ranked by the first one that does, then as before. */
  ghost function Ranked(ready: Ready, relations: seq<Relation>, locked: set<JobId>): set<Rank> {
    set j | j in ready && j !in locked && FirstRelation(relations, ready[j].queue) < |relations| ::
      Rank(FirstRelation(relations, ready[j].queue), -ready[j].priority, j)
  }

  ghost predicate IsRanked(ready: Ready, relations: seq<Relation>, locked: set<JobId>, r: Rank) {
    && r.id >= 0 && r.id in ready && r.id !in locked
    && r.major == FirstRelation(relations, ready[r.id].queue) < |relations| && r.minor == -ready[r.id].priority
  }

  lemma RankedAre(ready: Ready, relations: seq<Relation>, locked: set<JobId>, r: Rank)
    ensures r in Ranked(ready, relations, locked) <==> IsRanked(ready, relations, locked, r)
  {
  }

  lemma CandidatesAre(ready: Ready, relation: Relation, locked: set<JobId>, r: Rank)
    ensures r in Candidates(ready, relation, locked) <==>
              && r.major == 0 && r.id >= 0 && r.id in ready && r.id !in locked
              && relation.Selects(ready[r.id].queue) && r.minor == -ready[r.id].priority
  {
  }

  /** The same ranks with a gap at `k`: those from `k` on are one place further back. */
  function Apart(r: Rank, k: int): Rank {
    r.(major := if r.major < k then r.major else r.major + 1)
  }

  function Spread(ranks: set<Rank>, k: int): set<Rank> {
    set r | r in ranks :: Apart(r, k)
  }

  lemma SpreadAre(ranks: set<Rank>, k: int, r: Rank)
    ensures r in Spread(ranks, k) <==>
              r.major != k && r.(major := if r.major < k then r.major else r.major - 1) in ranks
  {
    var x := r.(major := if r.major < k then r.major else r.major - 1);
    assert r.major != k ==> Apart(x, k) == r;
  }

  lemma SpreadSorted(ranks: set<Rank>, k: int)
    ensures JobsOf(Sorted(Spread(ranks, k))) == JobsOf(Sorted(ranks))
  {
    var s := Sorted(ranks);
    var t := seq(|s|, i requires 0 <= i < |s| => Apart(s[i], k));
    SortedLists(ranks);
    forall r ensures r in t <==> r in Spread(ranks, k) {
      if r in Spread(ranks, k) {
        var x :| x in ranks && Apart(x, k) == r;
        var i :| 0 <= i < |s| && s[i] == x;
        assert t[i] == r;
      }
      if r in t {
        var i :| 0 <= i < |t| && t[i] == r;
        assert s[i] in s;
      }
    }
    SortedIs(t, Spread(ranks, k));
  }

  function Later(ranks: set<Rank>): set<Rank> {
    Spread(ranks, 0)
  }

  lemma CandidateIds(ready: Ready, relation: Relation, locked: set<JobId>, j: JobId)
    ensures j in Ids(Sorted(Candidates(ready, relation, locked))) <==>
              j in ready && j !in locked && relation.Selects(ready[j].queue)
  {
    var ranks := Candidates(ready, relation, locked);
    if j in ready {
      CandidatesAre(ready, relation, locked, Rank(0, -ready[j].priority, j));
      InSorted(ranks, Rank(0, -ready[j].priority, j));
    }
    if j in Ids(Sorted(ranks)) {
      var r :| r in Sorted(ranks) && r.id == j;
      InSorted(ranks, r);
      CandidatesAre(ready, relation, locked, r);
    }
  }

  lemma RankedSplitsAt(ready: Ready, relations: seq<Relation>, locked: set<JobId>, rest: Ready, r: Rank)
    requires relations != []
    requires rest == ready - Ids(Sorted(Candidates(ready, relations[0], locked)))
    ensures r in Ranked(ready, relations, locked) <==>
              r in Candidates(ready, relations[0], locked) || r in Later(Ranked(rest, relations[1..], locked))
  {
    var x := r.(major := r.major - 1);
    RankedAre(ready, relations, locked, r);
    CandidatesAre(ready, relations[0], locked, r);
    SpreadAre(Ranked(rest, relations[1..], locked), 0, r);
    RankedAre(rest, relations[1..], locked, x);
    if r.id >= 0 {
      CandidateIds(ready, relations[0], locked, r.id);
    }
  }

  /** The first relation's candidates come first, then what the other relations rank. */
  lemma RankedSplits(ready: Ready, relations: seq<Relation>, locked: set<JobId>, rest: Ready)
    requires relations != []
    requires rest == ready - Ids(Sorted(Candidates(ready, relations[0], locked)))
    ensures Sorted(Ranked(ready, relations, locked))
            == Sorted(Candidates(ready, relations[0], locked)) + Sorted(Later(Ranked(rest, relations[1..], locked)))
  {
    var a, b := Candidates(ready, relations[0], locked), Later(Ranked(rest, relations[1..], locked));
    forall r ensures r in Ranked(ready, relations, locked) <==> r in a + b {
      RankedSplitsAt(ready, relations, locked, rest, r);
    }
    assert Ranked(ready, relations, locked) == a + b;
    forall x, y | x in a && y in b ensures x.Less(y) {
      LaterIsLater(ready, relations, locked, rest, x, y);
    }
    SortedAppend(a, b);
  }

  lemma LaterIsLater(ready: Ready, relations: seq<Relation>, locked: set<JobId>, rest: Ready, x: Rank, y: Rank)
    requires relations != [] && x in Candidates(ready, relations[0], locked)
    requires y in Later(Ranked(rest, relations[1..], locked))
    ensures x.Less(y)
  {
    CandidatesAre(ready, relations[0], locked, x);
    SpreadAre(Ranked(rest, relations[1..], locked), 0, y);
    RankedAre(rest, relations[1..], locked, y.(major := y.major - 1));
  }

  /** The first `n` of a sequence, or all of it. */
  function Upto<T>(s: seq<T>, n: nat): seq<T> {
    if n <= |s| then s[..n] else s
  }

  lemma JobsOfFirst(ranks: set<Rank>, limit: nat)
    ensures JobsOf(First(ranks, limit)) == Upto(JobsOf(Sorted(ranks)), limit)
  {
  }

  lemma JobsOfSum(s: seq<Rank>, t: seq<Rank>)
    ensures JobsOf(s + t) == JobsOf(s) + JobsOf(t)
  {
  }

  lemma UptoSum<T>(s: seq<T>, t: seq<T>, n: nat)
    ensures |s| <= n ==> Upto(s + t, n) == s + Upto(t, n - |s|)
    ensures n <= |s| ==> Upto(s + t, n) == Upto(s, n)
  {
  }

  /** Limits of an answer in two parts, the second one place further back. */
  lemma FirstSplits(all: set<Rank>, a: set<Rank>, b: set<Rank>, limit: nat)
    requires Sorted(all) == Sorted(a) + Sorted(Later(b))
    ensures limit <= |a| ==> JobsOf(First(all, limit)) == JobsOf(First(a, limit))
    ensures |a| <= limit ==> JobsOf(First(all, limit)) == JobsOf(Sorted(a)) + JobsOf(First(b, limit - |a|))
  {
    var s, t := JobsOf(Sorted(a)), JobsOf(Sorted(b));
    SpreadSorted(b, 0);
    JobsOfSum(Sorted(a), Sorted(Later(b)));
    JobsOfFirst(all, limit);
    JobsOfFirst(a, limit);
    UptoSum(s, t, limit);
    if |a| <= limit {
      JobsOfFirst(b, limit - |a|);
    }
  }

  lemma IdsAreJobs(s: seq<Rank>, jobs: seq<int>, j: nat)
    requires jobs == JobsOf(s)
    ensures j in Ids(s) <==> j in jobs
  {
    if j in Ids(s) {
      var r :| r in s && r.id == j;
      var i :| 0 <= i < |s| && s[i] == r;
      assert jobs[i] == j;
    }
    if j in jobs {
      var i :| 0 <= i < |jobs| && jobs[i] == j;
      assert s[i] in s;
    }
  }

  lemma {:induction false} ClaimNothing(db: Db, relations: seq<Relation>, limit: int, p: ProcessId, locked: set<JobId>)
    requires limit <= 0
    ensures Claim(db, relations, limit, p, locked) == Claimed(db, [], true)
    decreases |relations|
  {
    if relations != [] {
      ClaimNothing(db, relations[1..], limit, p, locked);
    }
  }

  lemma ClaimTwice(db: Db, x: set<JobId>, y: set<JobId>, p: ProcessId)
    requires p in db.processes && x !! db.claimed.Keys && y !! db.claimed.Keys && x !! y
    ensures ClaimRows(ClaimRows(db, x, p), y, p) == ClaimRows(db, x + y, p)
  {
    var mid := ClaimRows(db, x, p);
    assert mid == db.(claimed := mid.claimed, ready := db.ready - x) && mid.claimed.Keys == db.claimed.Keys + x;
    assert db.ready - x - y == db.ready - (x + y);
    TwoMaps(db.claimed, x, y, p);
  }

  lemma TwoMaps(claimed: map<JobId, Option<ProcessId>>, x: set<JobId>, y: set<JobId>, p: ProcessId)
    ensures claimed + (map j | j in x :: Some(p)) + (map j | j in y :: Some(p))
            == claimed + map j | j in x + y :: Some(p)
  {
  }

  lemma ClaimNoRows(db: Db, p: ProcessId)
    ensures ClaimRows(db, {}, p) == db
  {
    assert ClaimRows(db, {}, p).claimed == db.claimed && ClaimRows(db, {}, p).ready == db.ready;
  }

  /** Ready jobs are not claimed, and the process is registered. */
  ghost predicate CanClaim(db: Db, p: ProcessId) {
    p in db.processes && db.ready.Keys !! db.claimed.Keys
  }

  lemma CandidatesCanBeClaimed(db: Db, relation: Relation, limit: nat, p: ProcessId, locked: set<JobId>)
    requires CanClaim(db, p)
    ensures var rows := First(Candidates(db.ready, relation, locked), limit);
            && Ids(rows) <= db.ready.Keys
            && SelectAndLock(db, relation, limit, p, locked) == Claimed(ClaimRows(db, Ids(rows), p), JobsOf(rows), true)
            && CanClaim(ClaimRows(db, Ids(rows), p), p)
  {
    var rows := First(Candidates(db.ready, relation, locked), limit);
    FirstAreReady(db.ready, relation, limit, locked);
    if rows == [] {
      assert Ids(rows) == {};
      ClaimNoRows(db, p);
    }
  }

  /** Exactly these rows are claimed, in this order. */
  ghost predicate Takes(db: Db, r: Claimed, rows: seq<Rank>, p: ProcessId) {
    r.ok && r.jobs == JobsOf(rows) && r.db == ClaimRows(db, Ids(rows), p)
  }

  ghost predicate ClaimsFirst(
      db: Db, r: Claimed, relations: seq<Relation>, limit: nat, p: ProcessId, locked: set<JobId>)
  {
    Takes(db, r, First(Ranked(db.ready, relations, locked), limit), p)
  }

  lemma {:induction false} ClaimIsOneSort(
      db: Db, relations: seq<Relation>, limit: nat, p: ProcessId, locked: set<JobId>)
    requires CanClaim(db, p)
    ensures ClaimsFirst(db, Claim(db, relations, limit, p, locked), relations, limit, p, locked)
    decreases |relations|
  {
    hide *;
    if relations == [] {
      NothingRanked(db, limit, p, locked);
    } else {
      var n := |Candidates(db.ready, relations[0], locked)|;
      if limit <= n {
        EnoughCandidates(db, relations, limit, p, locked);
      } else {
        var first := SelectAndLock(db, relations[0], limit, p, locked);
        AllAreClaimed(db, relations[0], limit, p, locked, first);
        ClaimIsOneSort(first.db, relations[1..], limit - n, p, locked);
        AllCandidates(db, relations, limit, p, locked, first, Claim(first.db, relations[1..], limit - n, p, locked));
      }
    }
  }

  lemma NothingRanked(db: Db, limit: nat, p: ProcessId, locked: set<JobId>)
    ensures ClaimsFirst(db, Claim(db, [], limit, p, locked), [], limit, p, locked)
  {
    assert Ranked(db.ready, [], locked) == {};
    assert First(Ranked(db.ready, [], locked), limit) == [];
    assert Ids([]) == {};
    ClaimNoRows(db, p);
  }

  lemma RanksInParts(ready: Ready, relations: seq<Relation>, locked: set<JobId>, limit: nat, a: set<Rank>, rest: Ready)
    requires relations != [] && a == Candidates(ready, relations[0], locked) && rest == ready - Ids(Sorted(a))
    ensures var jobs := JobsOf(First(Ranked(ready, relations, locked), limit));
            && (limit <= |a| ==> jobs == JobsOf(First(a, limit)))
            && (|a| <= limit ==>
                  jobs == JobsOf(Sorted(a)) + JobsOf(First(Ranked(rest, relations[1..], locked), limit - |a|)))
  {
    RankedSplits(ready, relations, locked, rest);
    FirstSplits(Ranked(ready, relations, locked), a, Ranked(rest, relations[1..], locked), limit);
  }

  lemma {:induction false} ClaimUnfolds(
      db: Db, relations: seq<Relation>, limit: int, p: ProcessId, locked: set<JobId>, first: Claimed, others: Claimed)
    requires relations != [] && first == SelectAndLock(db, relations[0], limit, p, locked) && first.ok
    requires others == Claim(first.db, relations[1..], limit - |first.jobs|, p, locked)
    ensures Claim(db, relations, limit, p, locked) == Both(first, others)
  {
    hide SelectAndLock, Both;
  }

  lemma {:induction false} EnoughCandidates(
      db: Db, relations: seq<Relation>, limit: nat, p: ProcessId, locked: set<JobId>)
    requires CanClaim(db, p) && relations != [] && limit <= |Candidates(db.ready, relations[0], locked)|
    ensures ClaimsFirst(db, Claim(db, relations, limit, p, locked), relations, limit, p, locked)
  {
    var a := Candidates(db.ready, relations[0], locked);
    var rows, some := First(Ranked(db.ready, relations, locked), limit), First(a, limit);
    var first := Claimed(ClaimRows(db, Ids(some), p), JobsOf(some), true);
    assert JobsOf(rows) == JobsOf(some) by {
      RanksInParts(db.ready, relations, locked, limit, a, db.ready - Ids(Sorted(a)));
    }
    SameIds(rows, some);
    CandidatesCanBeClaimed(db, relations[0], limit, p, locked);
    ClaimNothing(first.db, relations[1..], 0, p, locked);
    ClaimUnfolds(db, relations, limit, p, locked, first, Claimed(first.db, [], true));
    assert JobsOf(some) + [] == JobsOf(some);
  }

  lemma SameIds(s: seq<Rank>, t: seq<Rank>)
    requires JobsOf(s) == JobsOf(t)
    ensures Ids(s) == Ids(t)
  {
    forall j: nat ensures j in Ids(s) <==> j in Ids(t) {
      IdsAreJobs(s, JobsOf(s), j);
      IdsAreJobs(t, JobsOf(t), j);
    }
  }

  lemma {:induction false} AllCandidates(
      db: Db, relations: seq<Relation>, limit: nat, p: ProcessId, locked: set<JobId>, first: Claimed, others: Claimed)
    requires CanClaim(db, p) && relations != [] && |Candidates(db.ready, relations[0], locked)| < limit
    requires first == SelectAndLock(db, relations[0], limit, p, locked)
    requires var n := limit - |Candidates(db.ready, relations[0], locked)|;
             && others == Claim(first.db, relations[1..], n, p, locked)
             && ClaimsFirst(first.db, others, relations[1..], n, p, locked)
    ensures ClaimsFirst(db, Claim(db, relations, limit, p, locked), relations, limit, p, locked)
  {
    hide SelectAndLock, Claim, First, Candidates, Ranked, ClaimRows, Ids, JobsOf, Both, Takes, CanClaim;
    var a := Candidates(db.ready, relations[0], locked);
    var rows := First(Ranked(db.ready, relations, locked), limit);
    var more := First(Ranked(first.db.ready, relations[1..], locked), limit - |a|);
    AllAreClaimed(db, relations[0], limit, p, locked, first);
    assert JobsOf(rows) == JobsOf(Sorted(a)) + JobsOf(more) by {
      RanksInParts(db.ready, relations, locked, limit, a, first.db.ready);
    }
    MoreCanBeClaimed(first.db, relations[1..], limit - |a|, locked);
    ClaimUnfolds(db, relations, limit, p, locked, first, others);
    BothTake(db, first, others, rows, Sorted(a), more, p);
  }

  lemma BothTake(
      db: Db, first: Claimed, others: Claimed, all: seq<Rank>, rows: seq<Rank>, more: seq<Rank>, p: ProcessId)
    requires CanClaim(db, p) && Takes(db, first, rows, p) && Takes(first.db, others, more, p)
    requires JobsOf(all) == JobsOf(rows) + JobsOf(more)
    requires Ids(rows) <= db.ready.Keys && Ids(more) <= first.db.ready.Keys
    ensures Takes(db, Both(first, others), all, p)
  {
    SplitIds(all, rows, more);
    assert first.db.ready == db.ready - Ids(rows);
    ClaimTwice(db, Ids(rows), Ids(more), p);
  }

  lemma AllAreClaimed(db: Db, relation: Relation, limit: nat, p: ProcessId, locked: set<JobId>, first: Claimed)
    requires CanClaim(db, p) && |Candidates(db.ready, relation, locked)| < limit
    requires first == SelectAndLock(db, relation, limit, p, locked)
    ensures var rows := Sorted(Candidates(db.ready, relation, locked));
            && first == Claimed(ClaimRows(db, Ids(rows), p), JobsOf(rows), true)
            && Ids(rows) <= db.ready.Keys && first.db.ready == db.ready - Ids(rows) && CanClaim(first.db, p)
  {
    CandidatesCanBeClaimed(db, relation, limit, p, locked);
    assert First(Candidates(db.ready, relation, locked), limit) == Sorted(Candidates(db.ready, relation, locked));
  }

  lemma SplitIds(s: seq<Rank>, t: seq<Rank>, u: seq<Rank>)
    requires JobsOf(s) == JobsOf(t) + JobsOf(u)
    ensures Ids(s) == Ids(t) + Ids(u)
  {
    forall j: nat ensures j in Ids(s) <==> j in Ids(t) + Ids(u) {
      IdsAreJobs(s, JobsOf(s), j);
      IdsAreJobs(t, JobsOf(t), j);
      IdsAreJobs(u, JobsOf(u), j);
    }
  }

  lemma MoreCanBeClaimed(db: Db, relations: seq<Relation>, limit: nat, locked: set<JobId>)
    ensures Ids(First(Ranked(db.ready, relations, locked), limit)) <= db.ready.Keys
  {
    var rows := First(Ranked(db.ready, relations, locked), limit);
    forall j | j in Ids(rows) ensures j in db.ready {
      var r :| r in rows && r.id == j;
      FirstAreRanks(Ranked(db.ready, relations, locked), limit, r);
      RankedAre(db.ready, relations, locked, r);
    }
  }

  // ----- How much is claimed, and from which relations -----

  lemma {:induction false} SelectedHasFirst(relations: seq<Relation>, queue: string)
    ensures Selected(relations, queue) <==> FirstRelation(relations, queue) < |relations|
    ensures forall m :: 0 <= m < |relations| && relations[m].Selects(queue) ==> FirstRelation(relations, queue) <= m
    decreases |relations|
  {
    if relations == [] {
    } else if relations[0].Selects(queue) {
      assert Selected(relations, queue);
    } else {
      SelectedHasFirst(relations[1..], queue);
      forall m | 0 <= m < |relations| && relations[m].Selects(queue)
        ensures FirstRelation(relations, queue) <= m && Selected(relations[1..], queue)
      {
        assert relations[1..][m - 1].Selects(queue);
      }
      if k :| 0 <= k < |relations[1..]| && relations[1..][k].Selects(queue) {
        assert relations[k + 1].Selects(queue);
      }
    }
  }

  /** The unlocked ready rows that some relation selects. */
  ghost function Eligible(ready: Ready, relations: seq<Relation>, locked: set<JobId>): set<JobId> {
    set j | j in ready && j !in locked && Selected(relations, ready[j].queue)
  }

  lemma RankedIds(ready: Ready, relations: seq<Relation>, locked: set<JobId>)
    ensures Ids(Sorted(Ranked(ready, relations, locked))) == Eligible(ready, relations, locked)
  {
    var ranks := Ranked(ready, relations, locked);
    forall j: nat ensures j in Ids(Sorted(ranks)) <==> j in Eligible(ready, relations, locked) {
      if j in ready {
        var r := Rank(FirstRelation(relations, ready[j].queue), -ready[j].priority, j);
        SelectedHasFirst(relations, ready[j].queue);
        RankedAre(ready, relations, locked, r);
        InSorted(ranks, r);
      }
      if j in Ids(Sorted(ranks)) {
        var r :| r in Sorted(ranks) && r.id == j;
        InSorted(ranks, r);
        RankedAre(ready, relations, locked, r);
      }
    }
  }

  lemma RankedDistinct(ready: Ready, relations: seq<Relation>, locked: set<JobId>)
    ensures var s := Sorted(Ranked(ready, relations, locked)); DistinctIds(s) && forall r :: r in s ==> r.id >= 0
  {
    var ranks := Ranked(ready, relations, locked);
    var s := Sorted(ranks);
    SortedLists(ranks);
    forall r | r in s ensures r.id >= 0 {
      RankedAre(ready, relations, locked, r);
    }
    forall a, b | 0 <= a < b < |s| ensures s[a].id != s[b].id {
      assert s[a] in s && s[b] in s && s[a].Less(s[b]);
      RankedAre(ready, relations, locked, s[a]);
      RankedAre(ready, relations, locked, s[b]);
    }
  }

  lemma RankedSize(ready: Ready, relations: seq<Relation>, locked: set<JobId>)
    ensures |Ranked(ready, relations, locked)| == |Eligible(ready, relations, locked)|
  {
    var s := Sorted(Ranked(ready, relations, locked));
    RankedIds(ready, relations, locked);
    RankedDistinct(ready, relations, locked);
    IdsSize(s);
  }

  /** A claim takes as many of the eligible jobs as the limit allows: the first ones by the
      first relation that selects them, then by priority, then by job id. It moves exactly
      them from the ready to the claimed table, for the given process. */
  lemma {:induction false} ClaimTakesFirst(
      db: Db, relations: seq<Relation>, limit: nat, p: ProcessId, locked: set<JobId>)
    requires CanClaim(db, p)
    ensures var r := Claim(db, relations, limit, p, locked);
            var eligible := Eligible(db.ready, relations, locked);
            && r.ok && |r.jobs| == (if limit <= |eligible| then limit else |eligible|)
            && r.jobs == JobsOf(First(Ranked(db.ready, relations, locked), limit))
            && r.db == ClaimRows(db, Ids(First(Ranked(db.ready, relations, locked), limit)), p)
  {
    ClaimIsOneSort(db, relations, limit, p, locked);
    RankedSize(db.ready, relations, locked);
  }

  lemma {:induction false} InsertedRelation(relations: seq<Relation>, k: nat, x: Relation, queue: string)
    requires k <= |relations| && (x.Selects(queue) ==> FirstRelation(relations, queue) < k)
    ensures var n := FirstRelation(relations, queue);
            FirstRelation(relations[..k] + [x] + relations[k..], queue) == if n < k then n else n + 1
    decreases k
  {
    var more := relations[..k] + [x] + relations[k..];
    if k == 0 {
      assert more[1..] == relations;
    } else if !relations[0].Selects(queue) {
      assert more[1..] == relations[1..][..k - 1] + [x] + relations[1..][k - 1..];
      InsertedRelation(relations[1..], k - 1, x, queue);
    }
  }

  /** Repeating an earlier relation changes nothing about what is claimed. */
  lemma RepeatsDoNotMatter(
      db: Db, relations: seq<Relation>, m: nat, k: nat, limit: nat, p: ProcessId, locked: set<JobId>)
    requires m < k <= |relations| && CanClaim(db, p)
    ensures Claim(db, relations[..k] + [relations[m]] + relations[k..], limit, p, locked)
            == Claim(db, relations, limit, p, locked)
  {
    var more := relations[..k] + [relations[m]] + relations[k..];
    var a, b := Ranked(db.ready, relations, locked), Ranked(db.ready, more, locked);
    forall r ensures r in b <==> r in Spread(a, k) {
      RepeatedRank(db.ready, relations, m, k, locked, r);
    }
    assert b == Spread(a, k);
    SpreadSorted(a, k);
    JobsOfFirst(a, limit);
    JobsOfFirst(b, limit);
    SameIds(First(a, limit), First(b, limit));
    ClaimIsOneSort(db, relations, limit, p, locked);
    ClaimIsOneSort(db, more, limit, p, locked);
  }

  lemma RepeatedRank(ready: Ready, relations: seq<Relation>, m: nat, k: nat, locked: set<JobId>, r: Rank)
    requires m < k <= |relations|
    ensures r in Ranked(ready, relations[..k] + [relations[m]] + relations[k..], locked) <==>
            r in Spread(Ranked(ready, relations, locked), k)
  {
    var more := relations[..k] + [relations[m]] + relations[k..];
    var x := r.(major := if r.major < k then r.major else r.major - 1);
    SpreadAre(Ranked(ready, relations, locked), k, r);
    RankedAre(ready, relations, locked, x);
    RankedAre(ready, more, locked, r);
    if r.id >= 0 && r.id in ready {
      SelectedHasFirst(relations, ready[r.id].queue);
      InsertedRelation(relations, k, relations[m], ready[r.id].queue);
    }
  }

  // ----- Claims and the rest of the queue -----

  lemma RowsKeepSane(lim: Limits, db: Db, rows: set<JobId>, p: ProcessId)
    requires Sane(lim, db) && IsWorker(db.processes, p) && rows <= db.ready.Keys
    ensures Sane(lim, ClaimRows(db, rows, p)) && ClaimRows(db, rows, p).processes == db.processes
  {
    ClaimRuns(lim, Idle(db), p, rows);
    RunKeepsSane(lim, db, ClaimRows(db, rows, p));
  }

  lemma FirstAreReady(ready: Ready, relation: Relation, limit: nat, locked: set<JobId>)
    ensures Ids(First(Candidates(ready, relation, locked), limit)) <= ready.Keys
  {
    var rows := First(Candidates(ready, relation, locked), limit);
    forall j | j in Ids(rows) ensures j in ready {
      var r :| r in rows && r.id == j;
      FirstAreRanks(Candidates(ready, relation, locked), limit, r);
      CandidatesAre(ready, relation, locked, r);
    }
  }

  lemma SelectKeepsSane(lim: Limits, db: Db, relation: Relation, limit: int, p: ProcessId, locked: set<JobId>)
    requires Sane(lim, db) && IsWorker(db.processes, p)
    ensures Sane(lim, SelectAndLock(db, relation, limit, p, locked).db)
    ensures SelectAndLock(db, relation, limit, p, locked).db.processes == db.processes
  {
    if limit > 0 {
      FirstAreReady(db.ready, relation, limit, locked);
      RowsKeepSane(lim, db, Ids(First(Candidates(db.ready, relation, locked), limit)), p);
    }
  }

  /** A worker's claim keeps every job in one place and every token accounted for. */
  lemma {:induction false} ClaimKeepsSane(
      lim: Limits, db: Db, relations: seq<Relation>, limit: int, p: ProcessId, locked: set<JobId>)
    requires Sane(lim, db) && IsWorker(db.processes, p)
    ensures Sane(lim, Claim(db, relations, limit, p, locked).db)
    decreases |relations|
  {
    hide SelectAndLock, Sane;
    if relations != [] {
      var first := SelectAndLock(db, relations[0], limit, p, locked);
      SelectKeepsSane(lim, db, relations[0], limit, p, locked);
      ClaimKeepsSane(lim, first.db, relations[1..], limit - |first.jobs|, p, locked);
    }
  }

  // ----- The same operations on the database -----

  method SelectAndLockRows(database: Database, relation: Relation, limit: int, p: ProcessId, locked: set<JobId>)
    returns (jobs: seq<int>, ok: bool)
    modifies database
    ensures var r := SelectAndLock(old(database.db), relation, limit, p, locked);
            database.db == r.db && jobs == r.jobs && ok == r.ok
  {
    if limit <= 0 {
      return [], true;
    }
    var rows := Select(Candidates(database.db.ready, relation, locked), limit);
    if rows == [] {
      return [], true;
    }
    var ids := Ids(rows);
    if !(ids !! database.db.claimed.Keys && p in database.db.processes) {
      return [], false;
    }
    Claiming(database, ids, p);
    return JobsOf(rows), true;
  }

  /** One round of the loop. */
  method ClaimNext(
      database: Database, relations: seq<Relation>, i: nat, claimed: seq<int>, left: int, p: ProcessId,
      locked: set<JobId>, ghost whole: Claimed)
    returns (claimed': seq<int>, left': int, ok: bool)
    requires i < |relations| && Continues(whole, relations, i, claimed, database.db, left, p, locked)
    modifies database
    ensures if ok then Continues(whole, relations, i + 1, claimed', database.db, left', p, locked)
            else whole.db == database.db && !whole.ok
  {
    hide SelectAndLock, Continues, Claim;
    ghost var mid := database.db;
    var jobs;
    jobs, ok := SelectAndLockRows(database, relations[i], left, p, locked);
    ClaimContinues(whole, relations, i, claimed, mid, left, p, locked, Claimed(database.db, jobs, ok));
    claimed', left' := claimed + jobs, left - |jobs|;
  }

  /** `claim`: a worker that is not registered claims nothing. `relations` are the selector's. */
  method ClaimJobs(
      database: Database, relations: seq<Relation>, limit: int, process: Option<ProcessId>, locked: set<JobId>)
    returns (claimed: seq<int>, ok: bool)
    modifies database
    ensures process.None? ==> database.db == old(database.db) && claimed == [] && ok
    ensures process.Some? ==>
              var r := Claim(old(database.db), relations, limit, process.value, locked);
              database.db == r.db && ok == r.ok && (ok ==> claimed == r.jobs)
  {
    if process.None? {
      return [], true;
    }
    ghost var whole := Claim(database.db, relations, limit, process.value, locked);
    claimed := [];
    var left := limit;
    ClaimStarts(whole, database.db, relations, limit, process.value, locked);
    for i := 0 to |relations|
      invariant Continues(whole, relations, i, claimed, database.db, left, process.value, locked)
    {
      claimed, left, ok := ClaimNext(database, relations, i, claimed, left, process.value, locked, whole);
      if !ok {
        return claimed, false;
      }
    }
    ClaimEnds(whole, relations, claimed, database.db, left, process.value, locked);
    ok := true;
  }

  /** What is left to do after `i` relations completes the whole claim. */
  ghost predicate Continues(
      whole: Claimed, relations: seq<Relation>, i: nat, claimed: seq<int>, db: Db, left: int, p: ProcessId,
      locked: set<JobId>)
    requires i <= |relations|
  {
    var rest := Claim(db, relations[i..], left, p, locked);
    whole.db == rest.db && whole.ok == rest.ok && (rest.ok ==> whole.jobs == claimed + rest.jobs)
  }

  lemma {:induction false} ClaimStarts(
      whole: Claimed, db: Db, relations: seq<Relation>, limit: int, p: ProcessId, locked: set<JobId>)
    requires whole == Claim(db, relations, limit, p, locked)
    ensures Continues(whole, relations, 0, [], db, limit, p, locked)
  {
    assert relations[0..] == relations && [] + whole.jobs == whole.jobs;
  }

  lemma {:induction false} ClaimEnds(
      whole: Claimed, relations: seq<Relation>, claimed: seq<int>, db: Db, left: int, p: ProcessId, locked: set<JobId>)
    requires Continues(whole, relations, |relations|, claimed, db, left, p, locked)
    ensures whole == Claimed(db, claimed, true)
  {
    assert relations[|relations|..] == [] && claimed + [] == claimed;
  }

  lemma {:induction false} ClaimContinues(
      whole: Claimed, relations: seq<Relation>, i: nat, claimed: seq<int>, mid: Db, left: int, p: ProcessId,
      locked: set<JobId>, first: Claimed)
    requires i < |relations| && first == SelectAndLock(mid, relations[i], left, p, locked)
    requires Continues(whole, relations, i, claimed, mid, left, p, locked)
    ensures if first.ok then
              Continues(whole, relations, i + 1, claimed + first.jobs, first.db, left - |first.jobs|, p, locked)
            else whole.db == first.db && !whole.ok
  {
    assert relations[i..][0] == relations[i] && relations[i..][1..] == relations[i + 1..];
    if first.ok {
      var others := Claim(first.db, relations[i + 1..], left - |first.jobs|, p, locked);
      ClaimUnfolds(mid, relations[i..], left, p, locked, first, others);
      assert claimed + (first.jobs + others.jobs) == claimed + first.jobs + others.jobs;
    } else {
      ClaimStops(mid, relations[i..], left, p, locked, first);
    }
  }

  lemma {:induction false} ClaimStops(
      db: Db, relations: seq<Relation>, limit: int, p: ProcessId, locked: set<JobId>, first: Claimed)
    requires relations != [] && first == SelectAndLock(db, relations[0], limit, p, locked) && !first.ok
    ensures Claim(db, relations, limit, p, locked) == first
  {
  }
}
