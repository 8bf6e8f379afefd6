/** Counting semaphores kept as rows, one per concurrency key.

    `wait` runs up to three statements: a read, a create-if-absent and a guarded
    update. Another connection may run between any two of them, so what `wait` has
    still to do is a program counter of its own, `WaitPc`. */
module Semaphores {
  import opened Tables

  type Table = map<Key, Semaphore>

  datatype WaitPc = Creating | Decrementing | Acquired | Refused

  datatype Waited = Waited(semaphores: Table, pc: WaitPc)
  datatype Signalled = Signalled(semaphores: Table, ok: bool)

  /** The tokens that can still be taken. A missing row would be created full. */
  function Free(limit: nat, semaphores: Table, key: Key): int {
    if key in semaphores then semaphores[key].value else limit
  }

  /** The row exists and no token is left in it. */
  predicate Exhausted(semaphores: Table, key: Key) {
    key in semaphores && semaphores[key].value <= 0
  }

  /** Only the token count of `key` may differ, and it grows by `delta`. */
  ghost predicate Moves(limit: nat, before: Table, after: Table, key: Key, delta: int) {
    && Free(limit, after, key) == Free(limit, before, key) + delta
    && forall k :: k != key ==> (k in after <==> k in before) && (k in before ==> after[k] == before[k])
  }

  /** The row read at the start of `wait`. */
  function Observe(semaphores: Table, key: Key): (pc: WaitPc)
    ensures pc != Acquired
  {
    if key !in semaphores then Creating
    else if semaphores[key].value > 0 then Decrementing
    else Refused
  }

  /** One further statement of `wait`. It takes a token exactly when it ends `Acquired`,
      whatever happened to the row since it was read, and never one that is not there. */
  function WaitStatement(limit: nat, semaphores: Table, key: Key, expiresAt: Time, pc: WaitPc): (r: Waited)
    requires 1 <= limit && pc != Acquired
    ensures r.pc.Acquired? ==> Moves(limit, semaphores, r.semaphores, key, -1) && 1 <= Free(limit, semaphores, key)
    ensures r.pc.Acquired? ==> key in r.semaphores && r.semaphores[key].expiresAt == expiresAt
    ensures !r.pc.Acquired? ==> r.semaphores == semaphores
  {
    match pc
    case Creating =>
      if key !in semaphores then
        Waited(semaphores[key := Semaphore(limit - 1, expiresAt)], Acquired)
      else
        Waited(semaphores, if limit == 1 then Refused else Decrementing)
    case Decrementing =>
      if key in semaphores && semaphores[key].value > 0 then
        Waited(semaphores[key := Semaphore(semaphores[key].value - 1, expiresAt)], Acquired)
      else
        Waited(semaphores, Refused)
    case Refused => Waited(semaphores, Refused)
  }

  /** The rest of `wait` with nobody in between, from what its read showed. */
  function WaitFrom(limit: nat, semaphores: Table, key: Key, expiresAt: Time, seen: WaitPc): (r: Waited)
    requires 1 <= limit && seen != Acquired
    ensures r.pc.Acquired? || r.pc.Refused?
    ensures r.pc.Acquired? ==> Moves(limit, semaphores, r.semaphores, key, -1) && 1 <= Free(limit, semaphores, key)
    ensures r.pc.Acquired? ==> key in r.semaphores && r.semaphores[key].expiresAt == expiresAt
    ensures !r.pc.Acquired? ==> r.semaphores == semaphores
  {
    var first := WaitStatement(limit, semaphores, key, expiresAt, seen);
    if first.pc.Decrementing? then
      WaitStatement(limit, first.semaphores, key, expiresAt, Decrementing)
    else
      first
  }

  /** `wait` with nobody in between takes a token if and only if one is free. */
  function Wait(limit: nat, semaphores: Table, key: Key, expiresAt: Time): (r: Waited)
    requires 1 <= limit
    ensures r.pc.Acquired? || r.pc.Refused?
    ensures r.pc.Acquired? <==> 1 <= Free(limit, semaphores, key)
    ensures r.pc.Acquired? ==> Moves(limit, semaphores, r.semaphores, key, -1)
    ensures r.pc.Acquired? ==> key in r.semaphores && r.semaphores[key].expiresAt == expiresAt
    ensures !r.pc.Acquired? ==> r.semaphores == semaphores
  {
    WaitFrom(limit, semaphores, key, expiresAt, Observe(semaphores, key))
  }

  /** The table with one token of `key` less and a new expiry date. */
  function OneTaken(limit: nat, semaphores: Table, key: Key, expiresAt: Time): Table {
    semaphores[key := Semaphore(Free(limit, semaphores, key) - 1, expiresAt)]
  }

  /** The single statements of `wait`. The creation succeeds exactly if there is no row; if the
      race for it is lost, a limit of one gives up and any other limit goes on to decrement.
      The decrement succeeds exactly if there is a row with a positive value. */
  lemma StatementOutcome(limit: nat, semaphores: Table, key: Key, expiresAt: Time)
    requires 1 <= limit
    ensures var r := WaitStatement(limit, semaphores, key, expiresAt, Creating);
            && (r.pc == Acquired <==> key !in semaphores)
            && (r.pc == Refused <==> key in semaphores && limit == 1)
            && (r.pc == Decrementing <==> key in semaphores && limit != 1)
            && r.semaphores == if key in semaphores then semaphores else OneTaken(limit, semaphores, key, expiresAt)
    ensures var r := WaitStatement(limit, semaphores, key, expiresAt, Decrementing);
            var taken := key in semaphores && semaphores[key].value > 0;
            && r.pc == (if taken then Acquired else Refused)
            && r.semaphores == if taken then OneTaken(limit, semaphores, key, expiresAt) else semaphores
  {
  }

  /** When the rest of `wait` gets a token, by what its read showed. */
  predicate Granted(limit: nat, semaphores: Table, key: Key, seen: WaitPc) {
    match seen
    case Creating => key !in semaphores || (limit != 1 && semaphores[key].value > 0)
    case Decrementing => key in semaphores && semaphores[key].value > 0
    case _ => false
  }

  /** The rest of `wait` from a read without a row gets a token exactly if there still is no
      row, or the limit is not one and the row has a token; from a read with a positive value,
      exactly if the row is there and has one; otherwise never. */
  lemma RestOutcome(limit: nat, semaphores: Table, key: Key, expiresAt: Time, seen: WaitPc)
    requires 1 <= limit && seen != Acquired
    ensures var r := WaitFrom(limit, semaphores, key, expiresAt, seen);
            && r.pc == (if Granted(limit, semaphores, key, seen) then Acquired else Refused)
            && r.semaphores == if r.pc == Acquired then OneTaken(limit, semaphores, key, expiresAt) else semaphores
  {
  }

  /** `signal`: a single guarded update. It returns a token exactly when the row exists
      and holds no more than `limit`, so it may leave one more than `limit`. */
  function Signal(limit: nat, semaphores: Table, key: Key, expiresAt: Time): (r: Signalled)
    ensures r.ok <==> key in semaphores && semaphores[key].value <= limit
    ensures r.ok ==> key in r.semaphores && r.semaphores[key].expiresAt == expiresAt
    ensures r.ok ==> Moves(limit, semaphores, r.semaphores, key, 1) && Free(limit, r.semaphores, key) <= limit + 1
    ensures !r.ok ==> r.semaphores == semaphores
  {
    if key in semaphores && semaphores[key].value <= limit then
      Signalled(semaphores[key := Semaphore(semaphores[key].value + 1, expiresAt)], true)
    else
      Signalled(semaphores, false)
  }

  /** A token returned can be taken again, and one taken can be returned. */
  lemma SignalThenWait(limit: nat, semaphores: Table, key: Key, e: Time, e': Time)
    requires 1 <= limit && key in semaphores && 0 <= semaphores[key].value <= limit
    ensures var back := Signal(limit, semaphores, key, e).semaphores;
            var again := Wait(limit, back, key, e');
            again.pc.Acquired? && again.semaphores == semaphores[key := Semaphore(semaphores[key].value, e')]
  {
  }

  // ----- The statements and `wait` and `signal` themselves, on the database -----

  method AttemptDecrement(database: Database, key: Key, expiresAt: Time) returns (updated: bool)
    modifies database
    ensures updated <==> key in old(database.db).semaphores && old(database.db).semaphores[key].value > 0
    ensures database.db == old(database.db).(semaphores :=
              if updated then
                old(database.db).semaphores[key := Semaphore(old(database.db).semaphores[key].value - 1, expiresAt)]
              else old(database.db).semaphores)
  {
    updated := key in database.db.semaphores && database.db.semaphores[key].value > 0;
    if updated {
      var semaphore := Semaphore(database.db.semaphores[key].value - 1, expiresAt);
      database.db := database.db.(semaphores := database.db.semaphores[key := semaphore]);
    }
  }

  method AttemptIncrement(database: Database, lim: Limits, key: Key, expiresAt: Time) returns (updated: bool)
    modifies database
    ensures var r := Signal(Limit(lim, key), old(database.db).semaphores, key, expiresAt);
            updated == r.ok && database.db == old(database.db).(semaphores := r.semaphores)
  {
    updated := key in database.db.semaphores && database.db.semaphores[key].value <= Limit(lim, key);
    if updated {
      var semaphore := Semaphore(database.db.semaphores[key].value + 1, expiresAt);
      database.db := database.db.(semaphores := database.db.semaphores[key := semaphore]);
    }
  }

  method AttemptCreation(database: Database, lim: Limits, key: Key, expiresAt: Time) returns (acquired: bool)
    modifies database
    ensures var r := WaitFrom(Limit(lim, key), old(database.db).semaphores, key, expiresAt, Creating);
            acquired == r.pc.Acquired? && database.db == old(database.db).(semaphores := r.semaphores)
    ensures acquired <==>
              var before := old(database.db).semaphores;
              key !in before || (Limit(lim, key) != 1 && before[key].value > 0)
    ensures var before := old(database.db).semaphores;
            database.db.semaphores == if acquired then OneTaken(Limit(lim, key), before, key, expiresAt) else before
  {
    RestOutcome(Limit(lim, key), database.db.semaphores, key, expiresAt, Creating);
    if key !in database.db.semaphores {
      var semaphore := Semaphore(Limit(lim, key) - 1, expiresAt);
      database.db := database.db.(semaphores := database.db.semaphores[key := semaphore]);
      return true;
    }
    if Limit(lim, key) == 1 {
      return false;
    }
    acquired := AttemptDecrement(database, key, expiresAt);
  }

  /** `Semaphore.Proxy.wait`, started from a read that may be out of date. */
  method WaitSeeing(database: Database, lim: Limits, key: Key, expiresAt: Time, seen: WaitPc) returns (acquired: bool)
    requires seen != Acquired
    modifies database
    ensures var r := WaitFrom(Limit(lim, key), old(database.db).semaphores, key, expiresAt, seen);
            acquired == r.pc.Acquired? && database.db == old(database.db).(semaphores := r.semaphores)
    ensures seen == Creating ==>
              var before := old(database.db).semaphores;
              acquired <==> key !in before || (Limit(lim, key) != 1 && before[key].value > 0)
    ensures seen == Decrementing ==>
              var before := old(database.db).semaphores;
              acquired <==> key in before && before[key].value > 0
    ensures seen == Refused ==> !acquired
    ensures var before := old(database.db).semaphores;
            database.db.semaphores == if acquired then OneTaken(Limit(lim, key), before, key, expiresAt) else before
  {
    RestOutcome(Limit(lim, key), database.db.semaphores, key, expiresAt, seen);
    match seen
    case Creating => acquired := AttemptCreation(database, lim, key, expiresAt);
    case Decrementing => acquired := AttemptDecrement(database, key, expiresAt);
    case Refused => acquired := false;
  }

  method AcquireToken(database: Database, lim: Limits, key: Key, expiresAt: Time) returns (acquired: bool)
    modifies database
    ensures var r := Wait(Limit(lim, key), old(database.db).semaphores, key, expiresAt);
            acquired == r.pc.Acquired? && database.db == old(database.db).(semaphores := r.semaphores)
  {
    acquired := WaitSeeing(database, lim, key, expiresAt, Observe(database.db.semaphores, key));
  }
}
