/**
 A worker's `process` call from message to acknowledgement, with others at work on
 the database between its statements.
 */
module Worker {
  import opened Domain
  import opened Tables
  import opened StreamLog
  import opened Machine
  import opened Backoff
  import opened Repository
  import opened Columns
  import opened RedisStreams

  /** Whatever other processes do to the database in the meantime. */
  type Others = Db -> Db

  /** A decoded stream entry; `malformed` is a decode error. */
  datatype Delivery = Delivery(message: StreamId, execution: int, malformed: bool)

  /**
   Errors of the two statements of Claim; when only the SELECT fails, or the UPDATE goes
   unreported, the row stays claimed.
   */
  datatype ClaimFault = NoFault | UpdateFails | ReadFails

  /** One tick of the heartbeat goroutine: what others did before it, its clock, how the statement goes. */
  datatype Beat = Beat(others: Others, at: Time, fault: Fault)

  /** Everything a call meets from outside. */
  datatype Circumstances = Circumstances(
    tokenFails: bool,         // no random bytes for the run token
    startedAt: Time,
    fault: ClaimFault,
    between: Others,          // between UPDATE and SELECT
    decodes: bool,            // the request snapshot is valid JSON
    beats: seq<Beat>,         // while the callback runs
    code: int,                // the callback's response code, 0 without a response
    failed: bool,             // the callback returned an error
    before: Others,           // before the result is written
    finishedAt: Time,
    storing: Fault,           // of the result's transaction
    ackFails: bool)           // XACK fails

  datatype Ending =
    | Malformed               // to be acknowledged
    | Faulted                 // left for redelivery
    | Missing                 // to be acknowledged
    | NotClaimed(done: bool)  // to be acknowledged if nothing is left to do
    | LeaseLost               // left for redelivery
    | NotStored               // left for redelivery
    | Stored(result: Result)  // to be acknowledged

  datatype Result = Successful | Failing(retryScheduled: bool)

  predicate Acknowledges(ending: Ending) {
    ending.Malformed? || ending.Missing? || (ending.NotClaimed? && ending.done) || ending.Stored?
  }

  // ------------------------------------------------------------------ heartbeat

  /** The heartbeat loop on the database; true when the lease was lost. */
  function Beaten(db: Db, e: nat, owner: Owner, token: Token, beats: seq<Beat>, ttl: nat): (Db, bool)
    decreases |beats|
  {
    if beats == [] then (db, false)
    else
      var db1 := beats[0].others(db);
      if beats[0].fault.Refused? || e !in db1.executions || !Holds(db1.executions[e], owner, token) then (db1, true)
      else if beats[0].fault.Unreported? then (Renewed(db1, e, beats[0].at + ttl), true)
      else Beaten(Renewed(db1, e, beats[0].at + ttl), e, owner, token, beats[1..], ttl)
  }

  function Renewed(db: Db, e: nat, leaseUntil: Time): Db
    requires e in db.executions
  {
    db.(executions := db.executions[e := db.executions[e].(leaseUntil := Some(leaseUntil))])
  }

  /** Nobody interferes and nothing fails. */
  ghost predicate Undisturbed(beat: Beat) {
    beat.fault.Fine? && forall db :: beat.others(db) == db
  }

  /** Left alone, heartbeats never lose the lease, and only move it. */
  lemma {:induction false} HeartbeatsHold(db: Db, e: nat, owner: Owner, token: Token, beats: seq<Beat>, ttl: nat)
    requires e in db.executions && Holds(db.executions[e], owner, token)
    requires forall beat :: beat in beats ==> Undisturbed(beat)
    ensures Beaten(db, e, owner, token, beats, ttl) ==
              (if beats == [] then db else Renewed(db, e, beats[|beats| - 1].at + ttl), false)
    decreases |beats|
  {
    if beats != [] {
      var db1 := Renewed(db, e, beats[0].at + ttl);
      assert Undisturbed(beats[0]) && beats[0].others(db) == db;
      HeartbeatsHold(db1, e, owner, token, beats[1..], ttl);
      assert db1.executions[e := db1.executions[e].(leaseUntil := Some(beats[|beats| - 1].at + ttl))]
          == db.executions[e := db.executions[e].(leaseUntil := Some(beats[|beats| - 1].at + ttl))];
    }
  }

  class StreamWorker {
    const db: Database
    const redis: RedisStream
    const owner: Owner
    const leaseTtl: nat
    const retryBase: Int64
    const retryMax: Int64

    constructor (db: Database, redis: RedisStream, owner: Owner, leaseTtl: nat, retryBase: Int64, retryMax: Int64)
      ensures this.db == db && this.redis == redis && this.owner == owner && this.leaseTtl == leaseTtl
      ensures this.retryBase == retryBase && this.retryMax == retryMax
    {
      this.db, this.redis, this.owner, this.leaseTtl := db, redis, owner, leaseTtl;
      this.retryBase, this.retryMax := retryBase, retryMax;
    }

    method Heartbeats(e: nat, token: Token, beats: seq<Beat>) returns (lost: bool)
      modifies db
      ensures (db.View(), lost) == Beaten(old(db.View()), e, owner, token, beats, leaseTtl)
    {
      var i := 0;
      while i < |beats|
        invariant 0 <= i <= |beats|
        invariant Beaten(db.View(), e, owner, token, beats[i..], leaseTtl) == Beaten(old(db.View()), e, owner, token,
            beats, leaseTtl)
      {
        assert beats[i..][0] == beats[i] && beats[i..][1..] == beats[i + 1..];
        db.Restore(beats[i].others(db.View()));
        if beats[i].fault.Refused? { return true; }
        var renewed := db.Heartbeat(e, owner, token, beats[i].at + leaseTtl);
        if beats[i].fault.Unreported? || !renewed { return true; }
        i := i + 1;
      }
      lost := false;
    }

    /** finishFailure up to the acknowledgement. */
    method StoreFailure(e: nat, snapshot: Execution, token: Token, finishedAt: Time, retryable: bool, fault: Fault)
      returns (ending: Ending)
      modifies db
      ensures var retryAt := RetryAt(snapshot, finishedAt);
        var committed := FailureCommit(old(db.View()), e, snapshot, owner, token, finishedAt, retryAt, retryable);
        if !fault.Refused? && committed.1.Some? && committed.1.value.updated
        then db.View() == committed.0 && ending == if fault.Fine? then Stored(Failing(committed.1.value.retryScheduled))
          else NotStored
        else db.View() == old(db.View()) && ending == NotStored
    {
      if fault.Refused? { return NotStored; }
      var retryAt := finishedAt + Nanoseconds(RetrySeconds(retryBase, retryMax, snapshot.attempt));
      var result := db.CompleteFailure(e, snapshot, owner, token, finishedAt, retryAt, retryable);
      if fault.Unreported? || result == None || !result.value.updated { return NotStored; }
      ending := Stored(Failing(result.value.retryScheduled));
    }

    function RetryAt(snapshot: Execution, finishedAt: Time): Time {
      finishedAt + Nanoseconds(RetrySeconds(retryBase, retryMax, snapshot.attempt))
    }

    /** The result a call wants to store, decided on the row it read. */
    function Wanted(snapshot: Execution, c: Circumstances): Result {
      if c.decodes && !c.failed then Successful
      else Failing(SchedulesRetry(snapshot, c.decodes && IsRetryable(c.code)))
    }

    lemma WantedMeans(snapshot: Execution, c: Circumstances)
      ensures Wanted(snapshot, c) == Successful <==> c.decodes && !c.failed
      ensures Wanted(snapshot, c) == Failing(true) <==>
        && c.decodes && c.failed && snapshot.attempt < snapshot.maxAttempts
        && (c.code == 0 || c.code == 408 || c.code == 425 || c.code == 429 || 500 <= c.code)
    {
    }

    /** In columns: the row with its result, and with the retry event when another attempt follows the back-off. */
    predicate Leaves(db: Db, db': Db, e: nat, snapshot: Execution, c: Circumstances, result: Result)
      requires e in db.executions
    {
      var row, retryAt := db.executions[e],
          c.finishedAt + Nanoseconds(RetrySeconds(retryBase, retryMax, snapshot.attempt));
      match result
      case Successful => db' == db.(executions := db.executions[e := FinishedRow(row, Success, None, c.finishedAt)])
      case Failing(false) => db' == db.(executions := db.executions[e := FinishedRow(row, Failed, None, c.finishedAt)])
      case Failing(true) =>
        db' == db.(executions := db.executions[e := FinishedRow(row, RetryWait, Some(retryAt), c.finishedAt)],
                   outbox := db.outbox[Retry(e, snapshot.attempt) :=
                     OutboxEvent(db.nextRow, retryAt, None, None, 0, None, NOBODY, None)],
                   nextRow := db.nextRow + 1)
    }

    lemma StorableLeaves(db: Db, e: nat, snapshot: Execution, token: Token, c: Circumstances)
      ensures Storable(db, e, snapshot, token, Wanted(snapshot, c)) ==>
        && e in db.executions
        && Leaves(db, Outcome(db, e, snapshot, c, Wanted(snapshot, c)), e, snapshot, c, Wanted(snapshot, c))
    {
      hide Wanted, RetrySeconds, Nanoseconds;
    }

    /** Can it be stored: is the row still this call's, and its retry event new? */
    predicate Storable(db: Db, e: nat, snapshot: Execution, token: Token, result: Result) {
      && e in db.executions && Holds(db.executions[e], owner, token)
      && (result == Failing(true) ==> Retry(e, snapshot.attempt) !in db.outbox)
    }

    /** The database after a stored result. */
    function Outcome(db: Db, e: nat, snapshot: Execution, c: Circumstances, result: Result): Db
      requires e in db.executions
    {
      match result
      case Successful => db.(executions := db.executions[e := SucceedRow(db.executions[e], c.finishedAt)])
      case Failing(false) => db.(executions := db.executions[e := FailRow(db.executions[e], c.finishedAt)])
      case Failing(true) =>
        var retryAt := RetryAt(snapshot, c.finishedAt);
        AddEvent(db.(executions := db.executions[e := RetryRow(db.executions[e], c.finishedAt, retryAt)]),
                 Retry(e, snapshot.attempt), retryAt)
    }

    /** The database the heartbeats leave while the callback runs, and whether they lost the lease. */
    function WhileRunning(db: Db, e: nat, token: Token, c: Circumstances): (Db, bool) {
      if c.decodes then Beaten(db, e, owner, token, c.beats, leaseTtl) else (db, false)
    }

    /** From the claimed row to the stored result: callback with heartbeats, then the fenced write. */
    method Execute(e: nat, row: Execution, token: Token, c: Circumstances) returns (ending: Ending, ghost atFinish: Db)
      modifies db
      ensures atFinish == c.before(WhileRunning(old(db.View()), e, token, c).0)
      ensures
        if WhileRunning(old(db.View()), e, token, c).1 then
          ending == LeaseLost && db.View() == WhileRunning(old(db.View()), e, token, c).0
        else if !c.storing.Refused? && Storable(atFinish, e, row, token, Wanted(row, c)) then
          && ending == (if c.storing.Fine? then Stored(Wanted(row, c)) else NotStored)
          && db.View() == Outcome(atFinish, e, row, c, Wanted(row, c))
        else
          ending == NotStored && db.View() == atFinish
      ensures (db.View(), ending) == Executed(old(db.View()), e, row, token, c)
      // which results there are, and what they leave in columns
      ensures ending.Stored? ==>
        && (ending.result == Successful <==> c.decodes && !c.failed)
        && (ending.result == Failing(true) <==>
              && c.decodes && c.failed && row.attempt < row.maxAttempts
              && (c.code == 0 || c.code == 408 || c.code == 425 || c.code == 429 || 500 <= c.code))
        && e in atFinish.executions && Leaves(atFinish, db.View(), e, row, c, ending.result)
    {
      atFinish := c.before(WhileRunning(db.View(), e, token, c).0);
      WantedMeans(row, c);
      StorableLeaves(atFinish, e, row, token, c);
      hide Beaten, ClaimRow, RetrySeconds, Nanoseconds, Leaves;
      if !c.decodes {
        db.Restore(c.before(db.View()));
        ending := StoreFailure(e, row, token, c.finishedAt, false, c.storing);
        return;
      }
      var lost := Heartbeats(e, token, c.beats);
      if lost { return LeaseLost, atFinish; }
      db.Restore(c.before(db.View()));
      if c.failed {
        ending := StoreFailure(e, row, token, c.finishedAt, IsRetryable(c.code), c.storing);
      } else if c.storing.Refused? {
        ending := NotStored;
      } else {
        var updated := db.CompleteSuccess(e, owner, token, c.finishedAt);
        ending := if updated && c.storing.Fine? then Stored(Successful) else NotStored;
      }
    }

    /** What `Execute` comes to. */
    function Executed(db: Db, e: nat, row: Execution, token: Token, c: Circumstances): (Db, Ending) {
      var (beaten, lost) := WhileRunning(db, e, token, c);
      if lost then (beaten, LeaseLost)
      else
        var atFinish := c.before(beaten);
        if !c.storing.Refused? && Storable(atFinish, e, row, token, Wanted(row, c)) then
          (Outcome(atFinish, e, row, c, Wanted(row, c)), if c.storing.Fine? then Stored(Wanted(row, c)) else NotStored)
        else (atFinish, NotStored)
    }

    /** What `Process` comes to, given a well-formed message. */
    function Processed(db: Db, e: nat, token: Token, c: Circumstances): (Db, Ending) {
      if c.tokenFails || c.fault.UpdateFails? then (db, Faulted)
      else
        var updated := AfterUpdate(db, e, token, c);
        if c.fault.ReadFails? then (updated, Faulted)
        else
          var read := c.between(updated);
          if e !in read.executions then (read, Missing)
          else if Wins(db, e, c) then Executed(read, e, read.executions[e], token, c)
          else
            var status := read.executions[e].status;
            (read, NotClaimed(Terminal(status) || status.RetryWait?))
    }

    /** Did the UPDATE of Claim win the row? */
    predicate Wins(db: Db, e: nat, c: Circumstances) {
      e in db.executions && ClaimMatches(db.executions[e], c.startedAt)
    }

    function AfterUpdate(db: Db, e: nat, token: Token, c: Circumstances): Db {
      if Wins(db, e, c) then db.(executions := db.executions[e := ClaimRow(db.executions[e], owner, token, c.startedAt,
          leaseTtl)]) else db
    }

    /** `atRead` and `atFinish` are what the SELECT of Claim and the result transaction met. */
    method Process(delivery: Delivery, token: Token, c: Circumstances)
      returns (ending: Ending, ghost atRead: Db, ghost atFinish: Db)
      modifies db, redis
      // acknowledged by these endings alone
      ensures redis.View() ==
        if Acknowledges(ending) && !c.ackFails then Acknowledge(old(redis.View()), delivery.message)
          else old(redis.View())
      ensures redis.pending ==
        if !c.ackFails && (ending.Malformed? || ending.Missing? || ending == NotClaimed(true) || ending.Stored?)
        then old(redis.pending) - {delivery.message} else old(redis.pending)
      ensures ending.Malformed? <==> delivery.malformed || delivery.execution < 1
      ensures !ending.Malformed? ==> (db.View(), ending) == Processed(old(db.View()), delivery.execution, token, c)
      ensures ending.Malformed? ==> db.View() == old(db.View())
      ensures !ending.Malformed? ==> var e := delivery.execution;
        && (ending.Faulted? <==> c.tokenFails || !c.fault.NoFault?)
        && (ending.Faulted? ==>
              db.View() == if c.tokenFails || c.fault.UpdateFails? then old(db.View())
                else AfterUpdate(old(db.View()), e, token, c))
        && (!ending.Faulted? ==>
              && atRead == c.between(AfterUpdate(old(db.View()), e, token, c))
              && (ending.Missing? <==> e !in atRead.executions)
              && (ending.NotClaimed? <==> e in atRead.executions && !Wins(old(db.View()), e, c))
              && (ending.Missing? || ending.NotClaimed? ==> db.View() == atRead))
      // nothing left to do: finished, or waiting for the retry event
      ensures ending.NotClaimed? ==>
        && delivery.execution in atRead.executions
        && var status := atRead.executions[delivery.execution].status;
        ending.done <==> status.Success? || status.Failed? || status.Cancelled? || status.RetryWait?
      // a lost lease stores nothing
      ensures ending.LeaseLost? ==> db.View() == WhileRunning(atRead, delivery.execution, token, c).0
      // a result is stored exactly when the row still carries this call's token, decided on the row it read,
      // and reported exactly when nothing failed
      ensures ending.NotStored? || ending.Stored? ==>
        && delivery.execution in atRead.executions
        && var snapshot := atRead.executions[delivery.execution];
        && var storable := !c.storing.Refused? && Storable(atFinish, delivery.execution, snapshot, token,
                                                           Wanted(snapshot, c));
        && atFinish == c.before(WhileRunning(atRead, delivery.execution, token, c).0)
        && (ending.Stored? <==> storable && c.storing.Fine?)
        && (ending.Stored? ==> ending.result == Wanted(snapshot, c))
        && (storable ==> Leaves(atFinish, db.View(), delivery.execution, snapshot, c, Wanted(snapshot, c)))
        // success is a callback without error; another attempt follows an error without response, or with one of the
        // codes 408, 425, 429 and from 500 on, if there are attempts left; everything else is final
        && (Wanted(snapshot, c) == Successful <==> c.decodes && !c.failed)
        && (Wanted(snapshot, c) == Failing(true) <==>
              && c.decodes && c.failed && snapshot.attempt < snapshot.maxAttempts
              && (c.code == 0 || c.code == 408 || c.code == 425 || c.code == 429 || 500 <= c.code))
        && db.View() == if storable then Outcome(atFinish, delivery.execution, snapshot, c, Wanted(snapshot, c))
            else atFinish
    {
      hide Beaten, ClaimRow, Outcome, Storable, WhileRunning, ClaimMatches, Leaves, Wanted, Executed, DueForClaim;
      atRead, atFinish := db.View(), db.View();
      if delivery.malformed || delivery.execution < 1 {
        AckMessage(delivery.message, c.ackFails);
        return Malformed, atRead, atFinish;
      }
      var e := delivery.execution;
      if c.tokenFails { return Faulted, atRead, atFinish; }
      if c.fault.UpdateFails? { return Faulted, atRead, atFinish; }
      var won := db.ClaimUpdate(e, owner, token, c.startedAt, leaseTtl);
      assert db.View() == AfterUpdate(old(db.View()), e, token, c);
      if c.fault.ReadFails? { return Faulted, atRead, atFinish; }
      db.Restore(c.between(db.View()));
      atRead := db.View();
      var row := db.Read(e);
      if row == None {
        AckMessage(delivery.message, c.ackFails);
        return Missing, atRead, atFinish;
      }
      if !won {
        if Terminal(row.value.status) || row.value.status == RetryWait {
          AckMessage(delivery.message, c.ackFails);
          return NotClaimed(true), atRead, atFinish;
        }
        return NotClaimed(false), atRead, atFinish;
      }
      ending, atFinish := Execute(e, row.value, token, c);
      WantedMeans(row.value, c);
      StorableLeaves(atFinish, e, row.value, token, c);
      if ending.Stored? { AckMessage(delivery.message, c.ackFails); }
    }

    /** ack: an error is logged and the message stays pending. */
    method AckMessage(message: StreamId, fails: bool)
      modifies redis
      ensures redis.View() == if fails then old(redis.View()) else Acknowledge(old(redis.View()), message)
    {
      if !fails { redis.Ack(message); }
    }
  }
}
