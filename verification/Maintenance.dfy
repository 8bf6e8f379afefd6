/** The dispatcher's concurrency maintenance: deleting expired semaphores and unblocking the
    keys whose blocked jobs have waited too long. */
module Maintenance {
  import opened Tables
  import opened Ordering
  import opened Semaphores
  import opened BlockedExecutions
  import opened BlockedQueues
  import opened Lifecycle

  /** `expire_semaphores` over a table. */
  function Unexpired(semaphores: Table, now: Time): Table {
    map k | k in semaphores && semaphores[k].expiresAt > now :: semaphores[k]
  }

  /** The distinct keys with an expired blocked row, as ranks in key order. */
  function ExpiredKeys(blocked: map<JobId, BlockedRow>, now: Time): set<Rank> {
    set j | j in blocked && blocked[j].expiresAt <= now :: Rank(0, 0, blocked[j].key)
  }

  ghost predicate HasExpired(blocked: map<JobId, BlockedRow>, key: Key, now: Time) {
    exists j :: j in blocked && blocked[j].key == key && blocked[j].expiresAt <= now
  }

  lemma ExpiredKeysAre(blocked: map<JobId, BlockedRow>, now: Time, r: Rank)
    ensures r in ExpiredKeys(blocked, now) <==> r == Rank(0, 0, r.id) && HasExpired(blocked, r.id, now)
  {
    if r == Rank(0, 0, r.id) && HasExpired(blocked, r.id, now) {
      var j :| j in blocked && blocked[j].key == r.id && blocked[j].expiresAt <= now;
    }
  }

  /** The first `limit` of those keys. */
  ghost function KeysToUnblock(blocked: map<JobId, BlockedRow>, now: Time, limit: nat): seq<Rank> {
    First(ExpiredKeys(blocked, now), limit)
  }

  datatype Unblocked = Unblocked(db: Db, count: nat)

  /** `release_many`. */
  ghost function ReleaseMany(lim: Limits, db: Db, keys: seq<Rank>, now: Time): (r: Unblocked)
    requires db.blocked.Keys <= db.jobs.Keys
    ensures r.db.jobs == db.jobs && r.db.blocked.Keys <= db.blocked.Keys
    decreases |keys|
  {
    if keys == [] then Unblocked(db, 0)
    else
      var one := ReleaseOne(lim, db, keys[0].id, now);
      var rest := ReleaseMany(lim, one.db, keys[1..], now);
      Unblocked(rest.db, One(one.ok) + rest.count)
  }

  /** A key served by the pass: it has a blocked job and a free token, or no semaphore. */
  ghost predicate Serves(lim: Limits, db: Db, key: Key) {
    Queue(db, key) != [] && 1 <= Free(Limit(lim, key), db.semaphores, key)
  }

  ghost predicate Listed(keys: seq<Rank>, key: Key) {
    exists i :: 0 <= i < |keys| && keys[i].id == key
  }

  ghost function CountServed(lim: Limits, db: Db, keys: seq<Rank>): nat {
    if keys == [] then 0 else One(Serves(lim, db, keys[0].id)) + CountServed(lim, db, keys[1..])
  }

  lemma ListedTail(keys: seq<Rank>, key: Key)
    requires keys != [] && DistinctIds(keys)
    ensures Listed(keys, key) <==> keys[0].id == key || Listed(keys[1..], key)
    ensures Listed(keys[1..], key) ==> key != keys[0].id
  {
    if Listed(keys, key) && keys[0].id != key {
      var i :| 0 <= i < |keys| && keys[i].id == key;
      assert keys[1..][i - 1].id == key;
    }
    if Listed(keys[1..], key) {
      var i :| 0 <= i < |keys[1..]| && keys[1..][i].id == key;
      assert keys[i + 1].id == key;
    }
  }

  lemma ReleaseOneKeepsSound(lim: Limits, db: Db, k: Key, now: Time)
    requires BlockedRowsSound(db) && db.blocked.Keys <= db.jobs.Keys
    ensures var mid := ReleaseOne(lim, db, k, now).db;
            BlockedRowsSound(mid) && mid.blocked.Keys <= mid.jobs.Keys && OnlyPromotes(db, mid)
  {
    var mid := ReleaseOne(lim, db, k, now).db;
    assert mid.jobs == db.jobs;
    ReleaseOneEffect(lim, db, k, now, k);
    OnlyPromotesKeepsSound(db, mid);
  }

  lemma OnlyPromotesKeepsSound(db: Db, after: Db)
    requires BlockedRowsSound(db) && OnlyPromotes(db, after) && after.jobs == db.jobs
    ensures BlockedRowsSound(after)
  {
  }

  /** Releasing one key leaves what the others are served. */
  lemma ServesElsewhere(lim: Limits, db: Db, mid: Db, k: Key, now: Time, key: Key)
    requires BlockedRowsSound(db) && db.blocked.Keys <= db.jobs.Keys && key != k
    requires mid == ReleaseOne(lim, db, k, now).db
    ensures Serves(lim, mid, key) <==> Serves(lim, db, key)
  {
    ReleaseOneEffect(lim, db, k, now, key);
    assert Queue(mid, key) == Queue(db, key);
    assert Free(Limit(lim, key), mid.semaphores, key) == Free(Limit(lim, key), db.semaphores, key);
  }

  lemma {:induction false} CountElsewhere(lim: Limits, db: Db, k: Key, now: Time, keys: seq<Rank>)
    requires BlockedRowsSound(db) && db.blocked.Keys <= db.jobs.Keys && !Listed(keys, k)
    ensures CountServed(lim, ReleaseOne(lim, db, k, now).db, keys) == CountServed(lim, db, keys)
    decreases |keys|
  {
    if keys != [] {
      assert keys[0].id != k;
      ServesElsewhere(lim, db, ReleaseOne(lim, db, k, now).db, k, now, keys[0].id);
      forall i | 0 <= i < |keys[1..]| ensures keys[1..][i].id != k {
        assert keys[i + 1].id != k;
      }
      CountElsewhere(lim, db, k, now, keys[1..]);
    }
  }

  lemma {:induction false} ReleaseManyPromotes(lim: Limits, db: Db, keys: seq<Rank>, now: Time)
    requires BlockedRowsSound(db) && db.blocked.Keys <= db.jobs.Keys
    ensures OnlyPromotes(db, ReleaseMany(lim, db, keys, now).db)
    decreases |keys|
  {
    if keys != [] {
      var mid := ReleaseOne(lim, db, keys[0].id, now).db;
      ReleaseOneKeepsSound(lim, db, keys[0].id, now);
      ReleaseManyPromotes(lim, mid, keys[1..], now);
      OnlyPromotesTransitive(db, mid, ReleaseMany(lim, mid, keys[1..], now).db);
    }
  }

  lemma {:induction false} ReleaseManyCounts(lim: Limits, db: Db, keys: seq<Rank>, now: Time)
    requires BlockedRowsSound(db) && db.blocked.Keys <= db.jobs.Keys && DistinctIds(keys)
    ensures ReleaseMany(lim, db, keys, now).count == CountServed(lim, db, keys)
    decreases |keys|
  {
    if keys != [] {
      var k := keys[0].id;
      var mid := ReleaseOne(lim, db, k, now).db;
      ReleaseOneKeepsSound(lim, db, k, now);
      ReleaseManyCounts(lim, mid, keys[1..], now);
      ListedTail(keys, k);
      CountElsewhere(lim, db, k, now, keys[1..]);
      ReleaseOneEffect(lim, db, k, now, k);
    }
  }

  lemma HeadQueue(lim: Limits, db: Db, mid: Db, k: Key, now: Time, key: Key, later: bool)
    requires BlockedRowsSound(db) && db.blocked.Keys <= db.jobs.Keys && mid == ReleaseOne(lim, db, k, now).db
    requires later ==> key != k
    ensures Drop(Queue(mid, key), One(later && Serves(lim, mid, key)))
            == Drop(Queue(db, key), One((key == k || later) && Serves(lim, db, key)))
  {
    ReleaseOneEffect(lim, db, k, now, key);
    if later {
      ServesElsewhere(lim, db, mid, k, now, key);
    }
  }

  /** `release_many` over distinct keys: exactly the keys that can be served lose the head of
      their queue, to the ready table. */
  lemma {:induction false} ReleaseManyExact(lim: Limits, db: Db, keys: seq<Rank>, now: Time, key: Key)
    requires BlockedRowsSound(db) && db.blocked.Keys <= db.jobs.Keys && DistinctIds(keys)
    ensures Queue(ReleaseMany(lim, db, keys, now).db, key)
            == Drop(Queue(db, key), One(Listed(keys, key) && Serves(lim, db, key)))
    decreases |keys|
  {
    if keys != [] {
      var k := keys[0].id;
      var mid := ReleaseOne(lim, db, k, now).db;
      ReleaseOneKeepsSound(lim, db, k, now);
      ListedTail(keys, key);
      ReleaseManyExact(lim, mid, keys[1..], now, key);
      HeadQueue(lim, db, mid, k, now, key, Listed(keys[1..], key));
    }
  }

  // ----- The whole pass -----

  lemma KeysAreDistinct(blocked: map<JobId, BlockedRow>, now: Time, limit: nat)
    ensures DistinctIds(KeysToUnblock(blocked, now, limit))
  {
    var keys, all := KeysToUnblock(blocked, now, limit), Sorted(ExpiredKeys(blocked, now));
    SortedLists(ExpiredKeys(blocked, now));
    forall a, b | 0 <= a < b < |keys| ensures keys[a].id != keys[b].id {
      assert keys[a] == all[a] && keys[b] == all[b] && all[a].Less(all[b]);
      assert keys[a] in all && keys[b] in all;
      ExpiredKeysAre(blocked, now, keys[a]);
      ExpiredKeysAre(blocked, now, keys[b]);
    }
  }

  /** The pass serves keys with an expired blocked row only, the smallest keys first, and
      leaves one out only when it has served its fill. */
  lemma KeysAreFirst(blocked: map<JobId, BlockedRow>, now: Time, limit: nat, key: Key)
    ensures Listed(KeysToUnblock(blocked, now, limit), key) ==> HasExpired(blocked, key, now)
    ensures HasExpired(blocked, key, now) && !Listed(KeysToUnblock(blocked, now, limit), key) ==>
              var keys := KeysToUnblock(blocked, now, limit);
              |keys| == limit && forall i :: 0 <= i < |keys| ==> keys[i].id < key
  {
    var ranks, keys := ExpiredKeys(blocked, now), KeysToUnblock(blocked, now, limit);
    if Listed(keys, key) {
      var i :| 0 <= i < |keys| && keys[i].id == key;
      FirstAreRanks(ranks, limit, keys[i]);
      ExpiredKeysAre(blocked, now, keys[i]);
    } else if HasExpired(blocked, key, now) {
      var x := Rank(0, 0, key);
      ExpiredKeysAre(blocked, now, x);
      assert x !in keys;
      InSorted(ranks, x);
      forall i | 0 <= i < |keys| ensures keys[i].id < key {
        FirstAreRanks(ranks, limit, keys[i]);
        ExpiredKeysAre(blocked, now, keys[i]);
        FirstIsFirst(ranks, limit, keys[i], x);
      }
      assert x in Sorted(ranks);
    }
  }

  ghost function Pass(lim: Limits, db: Db, limit: nat, now: Time): Unblocked
    requires db.blocked.Keys <= db.jobs.Keys
  {
    var open := db.(semaphores := Unexpired(db.semaphores, now));
    ReleaseMany(lim, open, KeysToUnblock(open.blocked, now, limit), now)
  }

  /** A key whose semaphore is missing, expired or open when the pass starts. */
  predicate Releasable(semaphores: Table, key: Key, now: Time) {
    key !in semaphores || semaphores[key].expiresAt <= now || semaphores[key].value > 0
  }

  lemma ReleasableIsFree(lim: Limits, semaphores: Table, key: Key, now: Time)
    ensures Releasable(semaphores, key, now) <==> 1 <= Free(Limit(lim, key), Unexpired(semaphores, now), key)
  {
  }

  /** One maintenance pass promotes exactly one job, the first in order among all blocked
      jobs of its key, for each of the first `limit` keys with an expired blocked row whose
      semaphore is missing, expired or open, and none for any other key. */
  lemma {:induction false} PassIsExact(lim: Limits, db: Db, limit: nat, now: Time, key: Key)
    requires BlockedRowsSound(db) && db.blocked.Keys <= db.jobs.Keys
    ensures var r := Pass(lim, db, limit, now);
            Queue(r.db, key)
               == var listed := Listed(KeysToUnblock(db.blocked, now, limit), key);
                  Drop(Queue(db, key), One(listed && Releasable(db.semaphores, key, now)))
  {
    var open := db.(semaphores := Unexpired(db.semaphores, now));
    var keys := KeysToUnblock(db.blocked, now, limit);
    KeysAreDistinct(db.blocked, now, limit);
    assert BlockedRowsSound(open) && Queue(open, key) == Queue(db, key);
    ReleaseManyExact(lim, open, keys, now, key);
    ReleasableIsFree(lim, db.semaphores, key, now);
    assert Pass(lim, db, limit, now) == ReleaseMany(lim, open, keys, now);
    if Listed(keys, key) {
      KeysAreFirst(db.blocked, now, limit, key);
      QueueNonEmpty(db, key, now);
    }
  }

  /** The semaphore of the key is the same in both tables, or missing in both. */
  ghost predicate SameRow(before: Table, after: Table, key: Key) {
    (key in after <==> key in before) && (key in before && key in after ==> after[key] == before[key])
  }

  /** The head of the key's queue takes a token of it, for its own duration. */
  ghost predicate HeadTakes(lim: Limits, db: Db, after: Table, key: Key, now: Time)
    requires Queue(db, key) != [] && db.blocked.Keys <= db.jobs.Keys
  {
    QueueHead(db, key);
    var head := Next(db.blocked, key, {}).value;
    && key in after
    && after[key] == Semaphore(Free(Limit(lim, key), db.semaphores, key) - 1, now + db.jobs[head].duration)
  }

  ghost predicate Written(lim: Limits, db: Db, after: Table, served: bool, key: Key, now: Time)
    requires db.blocked.Keys <= db.jobs.Keys
  {
    if served && Serves(lim, db, key) then HeadTakes(lim, db, after, key, now) else SameRow(db.semaphores, after, key)
  }

  lemma OneWritten(lim: Limits, db: Db, k: Key, now: Time, key: Key)
    requires BlockedRowsSound(db) && db.blocked.Keys <= db.jobs.Keys
    ensures Written(lim, db, ReleaseOne(lim, db, k, now).db.semaphores, key == k, key, now)
  {
    hide ReleaseOne, Next, Queue, BlockedRowsSound;
    QueueHead(db, k);
    ReleaseOneWrites(lim, db, k, now);
  }

  lemma ReleasedElsewhere(lim: Limits, db: Db, k: Key, now: Time, key: Key)
    requires BlockedRowsSound(db) && db.blocked.Keys <= db.jobs.Keys && key != k
    ensures var mid := ReleaseOne(lim, db, k, now).db;
            Queue(mid, key) == Queue(db, key) && SameRow(db.semaphores, mid.semaphores, key)
  {
    hide Queue;
    ReleaseOneEffect(lim, db, k, now, key);
  }

  /** What is written for a key depends on its queue and its row only. */
  lemma WrittenAlike(lim: Limits, db: Db, mid: Db, after: Table, served: bool, key: Key, now: Time)
    requires db.blocked.Keys <= db.jobs.Keys && mid.blocked.Keys <= mid.jobs.Keys && mid.jobs == db.jobs
    requires Queue(mid, key) == Queue(db, key) && SameRow(db.semaphores, mid.semaphores, key)
    requires Written(lim, mid, after, served, key, now)
    ensures Written(lim, db, after, served, key, now)
  {
    hide Queue, Next;
    QueueHead(db, key);
    QueueHead(mid, key);
  }

  lemma {:induction false} ReleaseManyWrites(lim: Limits, db: Db, keys: seq<Rank>, now: Time, key: Key)
    requires BlockedRowsSound(db) && db.blocked.Keys <= db.jobs.Keys && DistinctIds(keys)
    ensures Written(lim, db, ReleaseMany(lim, db, keys, now).db.semaphores, Listed(keys, key), key, now)
    decreases |keys|
  {
    hide Written, ReleaseOne;
    if keys == [] {
      NothingWritten(lim, db, key, now);
    } else {
      var k := keys[0].id;
      var mid := ReleaseOne(lim, db, k, now).db;
      ReleaseOneKeepsSound(lim, db, k, now);
      ListedTail(keys, key);
      ReleaseManyWrites(lim, mid, keys[1..], now, key);
      var after := ReleaseMany(lim, db, keys, now).db.semaphores;
      if key == k {
        OneWritten(lim, db, k, now, key);
        NotServedAgain(lim, db, mid, after, key, now);
      } else {
        ReleasedElsewhere(lim, db, k, now, key);
        WrittenAlike(lim, db, mid, after, Listed(keys[1..], key), key, now);
      }
    }
  }

  lemma NothingWritten(lim: Limits, db: Db, key: Key, now: Time)
    requires db.blocked.Keys <= db.jobs.Keys
    ensures Written(lim, db, db.semaphores, false, key, now)
  {
  }

  lemma NotServedAgain(lim: Limits, db: Db, mid: Db, after: Table, key: Key, now: Time)
    requires db.blocked.Keys <= db.jobs.Keys && mid.blocked.Keys <= mid.jobs.Keys
    requires Written(lim, db, mid.semaphores, true, key, now) && Written(lim, mid, after, false, key, now)
    ensures Written(lim, db, after, true, key, now)
  {
  }

  /** What a pass writes to the semaphores, to the date: the promoted job of a key takes a
      token, from the old row or from a new one, for its own duration; expired rows that no
      job was promoted for are gone, and all others as before. */
  lemma PassWrites(lim: Limits, db: Db, limit: nat, now: Time, key: Key)
    requires BlockedRowsSound(db) && db.blocked.Keys <= db.jobs.Keys
    ensures var r := Pass(lim, db, limit, now).db.semaphores; var before := db.semaphores;
            var next := Next(db.blocked, key, {});
            if Listed(KeysToUnblock(db.blocked, now, limit), key) && Releasable(before, key, now) then
              && next.Some? && key in r && r[key].expiresAt == now + db.jobs[next.value].duration
              && r[key].value + 1
                 == if key in before && now < before[key].expiresAt then before[key].value else Limit(lim, key)
            else
              && (key in r <==> key in before && now < before[key].expiresAt)
              && (key in r && key in before ==> r[key] == before[key])
  {
    hide ReleaseMany, Next;
    var open := db.(semaphores := Unexpired(db.semaphores, now));
    var keys := KeysToUnblock(db.blocked, now, limit);
    KeysAreDistinct(db.blocked, now, limit);
    assert BlockedRowsSound(open) && Queue(open, key) == Queue(db, key);
    ReleaseManyWrites(lim, open, keys, now, key);
    ReleasableIsFree(lim, db.semaphores, key, now);
    assert Pass(lim, db, limit, now) == ReleaseMany(lim, open, keys, now);
    if Listed(keys, key) {
      KeysAreFirst(db.blocked, now, limit, key);
      QueueNonEmpty(db, key, now);
      QueueHead(db, key);
    }
  }

  lemma QueueNonEmpty(db: Db, key: Key, now: Time)
    requires HasExpired(db.blocked, key, now)
    ensures Queue(db, key) != []
  {
    QueueHead(db, key);
  }

  /** Whatever leaves the blocked table in the pass becomes ready, and nothing else moves. */
  lemma PassOnlyPromotes(lim: Limits, db: Db, limit: nat, now: Time)
    requires BlockedRowsSound(db) && db.blocked.Keys <= db.jobs.Keys
    ensures OnlyPromotes(db, Pass(lim, db, limit, now).db)
  {
    var open := db.(semaphores := Unexpired(db.semaphores, now));
    var keys := KeysToUnblock(db.blocked, now, limit);
    assert BlockedRowsSound(open);
    ReleaseManyPromotes(lim, open, keys, now);
    assert Pass(lim, db, limit, now) == ReleaseMany(lim, open, keys, now);
  }

  ghost function CountReleasable(semaphores: Table, keys: seq<Rank>, now: Time): nat {
    if keys == [] then 0 else One(Releasable(semaphores, keys[0].id, now)) + CountReleasable(semaphores, keys[1..], now)
  }

  lemma {:induction false} ServedAreReleasable(lim: Limits, db: Db, semaphores: Table, keys: seq<Rank>, now: Time)
    requires db.semaphores == Unexpired(semaphores, now)
    requires forall i :: 0 <= i < |keys| ==> Queue(db, keys[i].id) != []
    ensures CountServed(lim, db, keys) == CountReleasable(semaphores, keys, now)
    decreases |keys|
  {
    if keys != [] {
      ReleasableIsFree(lim, semaphores, keys[0].id, now);
      assert Queue(db, keys[0].id) != [];
      assert forall i :: 0 <= i < |keys[1..]| ==> keys[1..][i] == keys[i + 1];
      ServedAreReleasable(lim, db, semaphores, keys[1..], now);
    }
  }

  lemma KeysHaveQueues(db: Db, now: Time, limit: nat)
    ensures var keys := KeysToUnblock(db.blocked, now, limit);
            forall i :: 0 <= i < |keys| ==> Queue(db, keys[i].id) != []
  {
    var keys := KeysToUnblock(db.blocked, now, limit);
    forall i | 0 <= i < |keys| ensures Queue(db, keys[i].id) != [] {
      FirstAreRanks(ExpiredKeys(db.blocked, now), limit, keys[i]);
      ExpiredKeysAre(db.blocked, now, keys[i]);
      QueueNonEmpty(db, keys[i].id, now);
    }
  }

  /** The pass returns the number of jobs it promoted. */
  lemma PassCounts(lim: Limits, db: Db, limit: nat, now: Time)
    requires BlockedRowsSound(db) && db.blocked.Keys <= db.jobs.Keys
    ensures Pass(lim, db, limit, now).count
            == CountReleasable(db.semaphores, KeysToUnblock(db.blocked, now, limit), now)
  {
    var open := db.(semaphores := Unexpired(db.semaphores, now));
    var keys := KeysToUnblock(db.blocked, now, limit);
    KeysAreDistinct(db.blocked, now, limit);
    assert BlockedRowsSound(open);
    ReleaseManyCounts(lim, open, keys, now);
    KeysHaveQueues(open, now, limit);
    ServedAreReleasable(lim, open, db.semaphores, keys, now);
    assert Pass(lim, db, limit, now) == ReleaseMany(lim, open, keys, now);
  }

  // ----- The same operations on the database -----

  lemma AllUnexpired(semaphores: Table, now: Time)
    requires forall k :: k in semaphores ==> semaphores[k].expiresAt > now
    ensures Unexpired(semaphores, now) == semaphores
  {
    assert forall k :: k in semaphores <==> k in Unexpired(semaphores, now);
    assert Unexpired(semaphores, now).Keys == semaphores.Keys;
  }

  /** `expire_semaphores`, in the order the query happens to give. */
  method ExpireSemaphores(database: Database, now: Time)
    modifies database
    ensures database.db == old(database.db).(semaphores := Unexpired(old(database.db).semaphores, now))
    ensures forall k :: k in database.db.semaphores <==>
              k in old(database.db).semaphores && now < old(database.db).semaphores[k].expiresAt
    ensures forall k :: k in database.db.semaphores ==> database.db.semaphores[k] == old(database.db).semaphores[k]
  {
    ghost var before := database.db;
    var rest := database.db.semaphores.Items;
    while rest != {}
      invariant database.db == before.(semaphores := database.db.semaphores)
      invariant rest <= database.db.semaphores.Items
      invariant Unexpired(database.db.semaphores, now) == Unexpired(before.semaphores, now)
      invariant forall item :: item in database.db.semaphores.Items && item !in rest ==> item.1.expiresAt > now
      decreases rest
    {
      var row :| row in rest;
      rest := rest - {row};
      forall item | item in rest ensures item.0 != row.0 {
        assert item in database.db.semaphores.Items && item == (item.0, item.1) && item != row;
      }
      if row.1.expiresAt <= now {
        database.db := database.db.(semaphores := database.db.semaphores - {row.0});
      }
    }
    assert forall k :: k in database.db.semaphores ==> (k, database.db.semaphores[k]) in database.db.semaphores.Items;
    AllUnexpired(database.db.semaphores, now);
  }

  /** What is left to do after `i` keys completes the whole. */
  ghost predicate Releasing(lim: Limits, whole: Unblocked, db: Db, keys: seq<Rank>, i: nat, count: nat, now: Time)
    requires i <= |keys|
  {
    && db.blocked.Keys <= db.jobs.Keys
    && var rest := ReleaseMany(lim, db, keys[i..], now); whole == Unblocked(rest.db, count + rest.count)
  }

  lemma ReleasingMore(lim: Limits, whole: Unblocked, db: Db, db': Db, keys: seq<Rank>, i: nat, count: nat, now: Time)
    requires i < |keys| && Releasing(lim, whole, db, keys, i, count, now)
             && db' == ReleaseOne(lim, db, keys[i].id, now).db
    ensures Releasing(lim, whole, db', keys, i + 1, count + One(ReleaseOne(lim, db, keys[i].id, now).ok), now)
  {
    assert keys[i..][1..] == keys[i + 1..] && keys[i..][0] == keys[i];
  }

  method UnblockKeys(database: Database, lim: Limits, keys: seq<Rank>, now: Time) returns (count: nat)
    requires database.db.blocked.Keys <= database.db.jobs.Keys
    modifies database
    ensures var r := ReleaseMany(lim, old(database.db), keys, now);
            database.db == r.db && count == r.count
  {
    ghost var whole := ReleaseMany(lim, database.db, keys, now);
    count := 0;
    assert keys[0..] == keys;
    for i := 0 to |keys|
      invariant Releasing(lim, whole, database.db, keys, i, count, now)
    {
      hide ReleaseOne, ReleaseMany;
      ghost var mid := database.db;
      var ok := ReleaseOneBlocked(database, lim, keys[i].id, now);
      ReleasingMore(lim, whole, mid, database.db, keys, i, count, now);
      if ok {
        count := count + 1;
      }
    }
    assert keys[|keys|..] == [];
  }

  /** `ConcurrencyMaintenance.run`. */
  method Run(database: Database, lim: Limits, batchSize: nat, now: Time) returns (count: nat)
    requires database.db.blocked.Keys <= database.db.jobs.Keys
    modifies database
    ensures var r := Pass(lim, old(database.db), batchSize, now);
            database.db == r.db && count == r.count
  {
    ExpireSemaphores(database, now);
    var keys := Select(ExpiredKeys(database.db.blocked, now), batchSize);
    count := UnblockKeys(database, lim, keys, now);
  }
}
