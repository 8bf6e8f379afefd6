/** From the raw list of queues to the order in which a worker claims jobs. */
module QueueOrder {
  import opened Tables
  import opened Ordering
  import opened QueueSelector
  import opened ReadyExecutions

  // ----- The names that are read -----

  lemma NameMatches(raw: string, q: string)
    requires IsExact(raw)
    ensures Matches(raw, q) <==> q == raw
  {
  }

  /** Putting the first raw entry, a name, in front keeps the order. */
  lemma ConsFollows(raws: seq<string>, names: seq<string>)
    requires raws != [] && IsExact(raws[0]) && FollowsRaw(raws[1..], names)
    ensures FollowsRaw(raws, [raws[0]] + names)
  {
    hide Matches;
    var all := [raws[0]] + names;
    forall b, q | 0 <= b < |all| && all[b] !in all[..b] && q in all[..b]
      ensures FirstMatch(raws, q) <= FirstMatch(raws, all[b])
    {
      NameMatches(raws[0], q);
      NameMatches(raws[0], all[b]);
      if q != raws[0] {
        LaterInOthers([raws[0]], names, b, q);
      }
    }
  }

  /** An entry that matches nothing makes no difference. */
  lemma SkipFollows(raws: seq<string>, names: seq<string>)
    requires raws != [] && !IsExact(raws[0]) && !IsPrefixed(raws[0]) && FollowsRaw(raws[1..], names)
    ensures FollowsRaw(raws, names)
  {
    forall b, q | 0 <= b < |names| && names[b] !in names[..b] && q in names[..b]
      ensures FirstMatch(raws, q) <= FirstMatch(raws, names[b])
    {
      assert FirstMatch(raws[1..], q) <= FirstMatch(raws[1..], names[b]);
    }
  }

  /** Without prefixes, the exact names are in the order of the raw entries. */
  lemma {:induction false} ExactFollowRaw(raws: seq<string>)
    requires !HasPrefixes(raws)
    ensures FollowsRaw(raws, ExactNames(raws))
    decreases |raws|
  {
    hide FollowsRaw, HasPrefixes;
    if raws == [] {
      NoNameFollows(raws);
    } else {
      TailHasNoPrefixes(raws);
      ExactFollowRaw(raws[1..]);
      if IsExact(raws[0]) {
        ConsFollows(raws, ExactNames(raws[1..]));
      } else {
        assert ExactNames(raws) == ExactNames(raws[1..]);
        SkipFollows(raws, ExactNames(raws[1..]));
      }
    }
  }

  lemma NoNameFollows(raws: seq<string>)
    ensures FollowsRaw(raws, [])
  {
  }

  lemma TailHasNoPrefixes(raws: seq<string>)
    requires raws != [] && !HasPrefixes(raws)
    ensures !IsPrefixed(raws[0]) && !HasPrefixes(raws[1..])
  {
    assert raws[0] in raws && forall raw :: raw in raws[1..] ==> raw in raws;
  }

  lemma NoPrefixNoNames(raws: seq<string>, table: set<string>, prefixed: seq<string>)
    requires IsPrefixedNames(raws, table, prefixed) && !HasPrefixes(raws)
    ensures ExactNames(raws) + prefixed == ExactNames(raws)
  {
    forall q ensures multiset(prefixed)[q] == 0 {
      assert q in prefixed ==> AnyPrefix(raws, q);
    }
    assert multiset(prefixed) == multiset{};
    assert |multiset(prefixed)| == 0;
  }

  /** Without `*`, the names that a worker reads first appear in the order of the raw entries
      that match them. */
  lemma {:induction false} NamesFollowRaw(
      raws: seq<string>, table: set<string>, listed: seq<string>, prefixed: seq<string>, paused: set<string>)
    requires "*" !in raws && IsPrefixedNames(raws, table, prefixed)
    requires QueueNames(raws, listed, prefixed, paused).Some?
    ensures FollowsRaw(raws, QueueNames(raws, listed, prefixed, paused).value)
  {
    hide FollowsRaw;
    var names := ExactNames(raws) + prefixed;
    RawOrderPermutes(raws, table, prefixed);
    if !HasPrefixes(raws) {
      NoPrefixNoNames(raws, table, prefixed);
      ExactFollowRaw(raws);
    } else if |names| == 1 {
      OneNameFollows(raws, names);
    }
    WithoutFollows(raws, RawOrder(raws, names).value, paused);
  }

  lemma OneNameFollows(raws: seq<string>, names: seq<string>)
    requires |names| == 1
    ensures FollowsRaw(raws, names)
  {
  }

  // ----- Claims -----

  /** The first place of the name. */
  lemma {:induction false} FirstPlace(names: seq<string>, q: string)
    requires q in names
    ensures var n := FirstRelation(Queued(names), q);
            n < |names| && names[n] == q && q !in names[..n]
  {
    var relations := Queued(names);
    QueuedSelects(names, q);
    SelectedHasFirst(relations, q);
    FirstSelects(relations, q);
    var n := FirstRelation(relations, q);
    forall m | 0 <= m < n ensures names[m] != q {
      assert relations[m].Selects(q) <==> names[m] == q;
    }
  }

  lemma {:induction false} FirstSelects(relations: seq<Relation>, q: string)
    requires FirstRelation(relations, q) < |relations|
    ensures relations[FirstRelation(relations, q)].Selects(q)
    decreases |relations|
  {
    if !relations[0].Selects(q) {
      FirstSelects(relations[1..], q);
    }
  }

  lemma EarlierMatchEarlierRelation(raws: seq<string>, names: seq<string>, q: string, r: string)
    requires FollowsRaw(raws, names) && q in names && r in names && FirstMatch(raws, q) < FirstMatch(raws, r)
    ensures FirstRelation(Queued(names), q) < FirstRelation(Queued(names), r)
  {
    FirstPlace(names, q);
    FirstPlace(names, r);
    var n, m := FirstRelation(Queued(names), q), FirstRelation(Queued(names), r);
    NotEarlier(raws, names, n, r);
  }

  lemma NotEarlier(raws: seq<string>, names: seq<string>, n: nat, r: string)
    requires FollowsRaw(raws, names) && n < |names| && names[n] !in names[..n]
    requires FirstMatch(raws, names[n]) < FirstMatch(raws, r)
    ensures forall k :: 0 <= k < n ==> names[k] != r
  {
    forall k | 0 <= k < n ensures names[k] != r {
      assert names[k] in names[..n];
    }
  }

  /** Jobs `i` and `j` are in the list, `i` before `j`. */
  ghost predicate Before(jobs: seq<int>, i: int, j: int) {
    exists a, b :: 0 <= a < b < |jobs| && jobs[a] == i && jobs[b] == j
  }

  lemma EarlierIsIn(ranks: set<Rank>, limit: nat, x: Rank, y: Rank)
    requires x in ranks && y in First(ranks, limit) && x.Less(y)
    ensures x in First(ranks, limit)
  {
    hide First;
    if x !in First(ranks, limit) {
      FirstIsFirst(ranks, limit, y, x);
    }
  }

  lemma FirstIncreases(ranks: set<Rank>, limit: nat)
    ensures Increasing(First(ranks, limit))
  {
    SortedLists(ranks);
  }

  lemma IncreasingBefore(s: seq<Rank>, x: Rank, y: Rank)
    requires Increasing(s) && x in s && y in s && x.Less(y)
    ensures Before(JobsOf(s), x.id, y.id)
  {
    var a :| 0 <= a < |s| && s[a] == x;
    var b :| 0 <= b < |s| && s[b] == y;
    assert JobsOf(s)[a] == x.id && JobsOf(s)[b] == y.id;
  }

  lemma RankedBefore(ranks: set<Rank>, limit: nat, x: Rank, y: Rank)
    requires x in ranks && y in First(ranks, limit) && x.Less(y)
    ensures Before(JobsOf(First(ranks, limit)), x.id, y.id)
  {
    EarlierIsIn(ranks, limit, x, y);
    FirstIncreases(ranks, limit);
    IncreasingBefore(First(ranks, limit), x, y);
  }

  function QueuesOf(ready: Ready): set<string> {
    set j | j in ready :: ready[j].queue
  }

  lemma EligibleRank(ready: Ready, relations: seq<Relation>, locked: set<JobId>, limit: nat, j: JobId)
    requires j in JobsOf(First(Ranked(ready, relations, locked), limit))
    ensures j in ready && j !in locked && FirstRelation(relations, ready[j].queue) < |relations|
    ensures var r := Rank(FirstRelation(relations, ready[j].queue), -ready[j].priority, j);
            r in First(Ranked(ready, relations, locked), limit)
  {
    hide Ranked, First;
    var first := First(Ranked(ready, relations, locked), limit);
    var jobs := JobsOf(first);
    var k :| 0 <= k < |jobs| && jobs[k] == j;
    var r := first[k];
    assert r in first && r.id == j;
    FirstAreRanks(Ranked(ready, relations, locked), limit, r);
    RankedAre(ready, relations, locked, r);
    assert r == Rank(FirstRelation(relations, ready[j].queue), -ready[j].priority, j);
  }

  lemma ClaimedByRank(
      db: Db, relations: seq<Relation>, limit: nat, p: ProcessId, locked: set<JobId>, i: JobId, j: JobId)
    requires CanClaim(db, p) && i in db.ready && i !in locked && j in db.ready
    requires var m, n := FirstRelation(relations, db.ready[i].queue), FirstRelation(relations, db.ready[j].queue);
             Rank(m, -db.ready[i].priority, i).Less(Rank(n, -db.ready[j].priority, j))
    ensures var jobs := Claim(db, relations, limit, p, locked).jobs; j in jobs ==> Before(jobs, i, j)
  {
    hide Ranked, First, Claim, Before, JobsOf, FirstRelation;
    ClaimTakesFirst(db, relations, limit, p, locked);
    var ranks := Ranked(db.ready, relations, locked);
    if j in JobsOf(First(ranks, limit)) {
      EligibleRank(db.ready, relations, locked, limit, j);
      var x := Rank(FirstRelation(relations, db.ready[i].queue), -db.ready[i].priority, i);
      var y := Rank(FirstRelation(relations, db.ready[j].queue), -db.ready[j].priority, j);
      RankedAre(db.ready, relations, locked, x);
      RankedBefore(ranks, limit, x, y);
    }
  }

  /** The higher priority, or of equal ones the older job. */
  ghost predicate ComesFirst(ready: Ready, i: JobId, j: JobId)
    requires i in ready && j in ready
  {
    ready[i].priority > ready[j].priority || (ready[i].priority == ready[j].priority && i < j)
  }

  /** Whatever a worker reads, within a queue the higher priority is claimed first, and of equal
      ones the older job. */
  lemma SameQueueByPriority(
      db: Db, relations: seq<Relation>, limit: nat, p: ProcessId, locked: set<JobId>, i: JobId, j: JobId)
    requires CanClaim(db, p) && i in db.ready && i !in locked && j in db.ready
    requires db.ready[i].queue == db.ready[j].queue && ComesFirst(db.ready, i, j)
    ensures var jobs := Claim(db, relations, limit, p, locked).jobs; j in jobs ==> Before(jobs, i, j)
  {
    ClaimedByRank(db, relations, limit, p, locked, i, j);
  }

  lemma OnlySelectedAreClaimed(db: Db, relations: seq<Relation>, limit: nat, p: ProcessId, locked: set<JobId>, j: JobId)
    requires CanClaim(db, p) && j in Claim(db, relations, limit, p, locked).jobs
    ensures j in db.ready && Selected(relations, db.ready[j].queue)
  {
    ClaimTakesFirst(db, relations, limit, p, locked);
    EligibleRank(db.ready, relations, locked, limit, j);
    SelectedHasFirst(relations, db.ready[j].queue);
  }

  /** Queues are served in the order of the list, whatever the priorities: without `*` in
      the list, if the first entry matching job `i`'s queue comes before the first one
      matching job `j`'s, then `j` is claimed only together with `i` and after it, unless
      `i` is locked, its queue is paused, or its queue name is empty. */
  lemma ClaimedInListOrder(
      raws: seq<string>, listed: seq<string>, prefixed: seq<string>, paused: set<string>,
      db: Db, limit: nat, p: ProcessId, locked: set<JobId>, i: JobId, j: JobId)
    requires "*" !in raws && IsPrefixedNames(raws, QueuesOf(db.ready), prefixed)
    requires ScopedRelations(raws, listed, prefixed, paused).Some? && CanClaim(db, p)
    requires i in db.ready && i !in locked && db.ready[i].queue !in paused && db.ready[i].queue != ""
    requires j in db.ready && FirstMatch(raws, db.ready[i].queue) < FirstMatch(raws, db.ready[j].queue)
    ensures var jobs := Claim(db, ScopedRelations(raws, listed, prefixed, paused).value, limit, p, locked).jobs;
            j in jobs ==> Before(jobs, i, j)
  {
    var q, r := db.ready[i].queue, db.ready[j].queue;
    var names := QueueNames(raws, listed, prefixed, paused).value;
    var relations := ScopedRelations(raws, listed, prefixed, paused).value;
    if j in Claim(db, relations, limit, p, locked).jobs {
      OnlySelectedAreClaimed(db, relations, limit, p, locked, j);
      QueuedSelects(names, r);
      MatchIsRead(raws, QueuesOf(db.ready), listed, prefixed, paused, q);
      NamesFollowRaw(raws, QueuesOf(db.ready), listed, prefixed, paused);
      EarlierMatchEarlierRelation(raws, names, q, r);
      ClaimedByRank(db, relations, limit, p, locked, i, j);
    }
  }

  lemma MatchIsRead(
      raws: seq<string>, table: set<string>, listed: seq<string>, prefixed: seq<string>, paused: set<string>, q: string)
    requires "*" !in raws && IsPrefixedNames(raws, table, prefixed) && q in table && q != "" && q !in paused
    requires QueueNames(raws, listed, prefixed, paused).Some? && FirstMatch(raws, q) < |raws|
    ensures q in QueueNames(raws, listed, prefixed, paused).value
  {
    SelectedNames(raws, table, listed, prefixed, paused, q);
    MatchedNames(raws, q);
    assert Matches(raws[FirstMatch(raws, q)], q);
  }

  // ----- All queues -----

  lemma EverythingIsEligible(ready: Ready, locked: set<JobId>)
    ensures Eligible(ready, [AllRows], locked) == ready.Keys - locked
  {
    forall j ensures j in Eligible(ready, [AllRows], locked) <==> j in ready.Keys - locked {
      if j in ready {
        assert [AllRows][0].Selects(ready[j].queue);
        assert Selected([AllRows], ready[j].queue);
      }
    }
  }

  /** With `*` in the list and nothing paused, all queues are one: as many unlocked jobs are
      claimed as the limit allows, and one with a higher priority, or of equal priority and
      older, is claimed first whatever the queues. */
  lemma StarByPriority(
      raws: seq<string>, listed: seq<string>, prefixed: seq<string>,
      db: Db, limit: nat, p: ProcessId, locked: set<JobId>, i: JobId, j: JobId)
    requires "*" in raws && CanClaim(db, p)
    requires i in db.ready && i !in locked && j in db.ready && ComesFirst(db.ready, i, j)
    ensures ScopedRelations(raws, listed, prefixed, {}).Some?
    ensures var jobs := Claim(db, ScopedRelations(raws, listed, prefixed, {}).value, limit, p, locked).jobs;
            var unlocked := |db.ready.Keys - locked|;
            && |jobs| == (if limit <= unlocked then limit else unlocked)
            && (j in jobs ==> Before(jobs, i, j))
  {
    hide Claim, Eligible, Before;
    EverythingIsEligible(db.ready, locked);
    ClaimTakesFirst(db, [AllRows], limit, p, locked);
    ClaimedByRank(db, [AllRows], limit, p, locked, i, j);
  }

  ghost predicate AllDiffer(names: seq<string>) {
    forall a, b :: 0 <= a < b < |names| ==> names[a] != names[b]
  }

  ghost predicate Earlier(names: seq<string>, q: string, r: string) {
    exists c, d :: 0 <= c < d < |names| && names[c] == q && names[d] == r
  }

  lemma EarlierSnoc(names: seq<string>, x: string, q: string, r: string)
    ensures Earlier(names, q, r) ==> Earlier(names + [x], q, r)
    ensures q in names ==> Earlier(names + [x], q, x)
  {
    var more := names + [x];
    if c, d :| 0 <= c < d < |names| && names[c] == q && names[d] == r {
      assert more[c] == q && more[d] == r;
    }
    if q in names {
      var c :| 0 <= c < |names| && names[c] == q;
      assert more[c] == q && more[|names|] == x;
    }
  }

  /** Leaving names out keeps the order of the others. */
  lemma {:induction false} WithoutKeepsOrder(names: seq<string>, dropped: set<string>, a: nat, b: nat)
    requires a < b < |names| && names[a] !in dropped && names[b] !in dropped
    ensures Earlier(Without(names, dropped), names[a], names[b])
    decreases |names|
  {
    hide Earlier, Without;
    var last := |names| - 1;
    var init := names[..last];
    WithoutLast(names, dropped);
    EarlierSnoc(Without(init, dropped), names[last], names[a], names[b]);
    if b < last {
      WithoutKeepsOrder(init, dropped, a, b);
    } else {
      assert init[a] in init;
      assert Without(names, dropped) == Without(init, dropped) + [names[last]];
    }
  }

  lemma {:induction false} WithoutDiffers(names: seq<string>, dropped: set<string>)
    requires AllDiffer(names)
    ensures AllDiffer(Without(names, dropped))
    decreases |names|
  {
    if names == [] {
      assert Without(names, dropped) == [];
    } else {
      var init := names[..|names| - 1];
      WithoutLast(names, dropped);
      WithoutDiffers(init, dropped);
      forall q | q in init ensures q != names[|names| - 1] {
      }
      var rest := Without(init, dropped);
      forall k | 0 <= k < |rest| ensures rest[k] != names[|names| - 1] {
        assert rest[k] in rest;
      }
    }
  }

  lemma PlaceInDifferent(names: seq<string>, c: nat)
    requires AllDiffer(names) && c < |names|
    ensures FirstRelation(Queued(names), names[c]) == c
  {
    FirstPlace(names, names[c]);
  }

  /** With `*` in the list and some queues paused, the others are served one after the other,
      in the order in which the query lists the ready table's names. */
  lemma StarInListedOrder(
      raws: seq<string>, listed: seq<string>, prefixed: seq<string>, paused: set<string>, a: nat, b: nat,
      db: Db, limit: nat, p: ProcessId, locked: set<JobId>, i: JobId, j: JobId)
    requires "*" in raws && paused != {} && CanClaim(db, p) && AllDiffer(listed) && a < b < |listed|
    requires i in db.ready && i !in locked && db.ready[i].queue == listed[a] && listed[a] !in paused
    requires j in db.ready && db.ready[j].queue == listed[b]
    ensures ScopedRelations(raws, listed, prefixed, paused).Some?
    ensures var jobs := Claim(db, ScopedRelations(raws, listed, prefixed, paused).value, limit, p, locked).jobs;
            j in jobs ==> Before(jobs, i, j)
  {
    hide Claim, Before, AllDiffer;
    var names := Without(listed, paused);
    var relations := ScopedRelations(raws, listed, prefixed, paused).value;
    if j in Claim(db, relations, limit, p, locked).jobs {
      OnlySelectedAreClaimed(db, relations, limit, p, locked, j);
      QueuedSelects(names, listed[b]);
      WithoutKeepsOrder(listed, paused, a, b);
      var c, d :| 0 <= c < d < |names| && names[c] == listed[a] && names[d] == listed[b];
      WithoutDiffers(listed, paused);
      PlaceInDifferent(names, c);
      PlaceInDifferent(names, d);
      ClaimedByRank(db, relations, limit, p, locked, i, j);
    }
  }
}
