/**
 The journal of claims, recoveries and results: who may commit, how often, and
 how long an execution can live.
 */
module Journal {
  import opened Domain
  import opened Tables
  import opened Pipeline
  import opened Invariants
  import opened KeepsCore

  // ------------------------------------------------------- reading the journal

  function LastOf(log: seq<Entry>, e: nat): Option<Entry> {
    if log == [] then None
    else if log[|log| - 1].execution == e then Some(log[|log| - 1])
    else LastOf(log[..|log| - 1], e)
  }

  function Count(log: seq<Entry>, e: nat, kind: Entry -> bool): nat {
    if log == [] then 0
    else Count(log[..|log| - 1], e, kind) + if log[|log| - 1].execution == e && kind(log[|log| - 1]) then 1 else 0
  }

  predicate IsTakeover(entry: Entry) { entry.Claimed? && entry.takeover }

  /** A claim of a waiting row. */
  predicate IsClaim(entry: Entry) { entry.Claimed? && !entry.takeover }

  /** The row was put into RETRY_WAIT. */
  predicate IsRetry(entry: Entry) {
    (entry.Recovered? && !entry.final) || (entry.Finished? && entry.outcome.Retrying?)
  }

  /** Every entry but a takeover changes the status column. */
  predicate IsChange(entry: Entry) { !IsTakeover(entry) }

  function Takeovers(log: seq<Entry>, e: nat): nat { Count(log, e, IsTakeover) }

  function Claims(log: seq<Entry>, e: nat): nat { Count(log, e, IsClaim) }

  function Retries(log: seq<Entry>, e: nat): nat { Count(log, e, IsRetry) }

  function Changes(log: seq<Entry>, e: nat): nat { Count(log, e, IsChange) }

  function One(condition: bool): nat { if condition then 1 else 0 }

  lemma Appended(log: seq<Entry>, entry: Entry, e: nat)
    ensures LastOf(log + [entry], e) == if entry.execution == e then Some(entry) else LastOf(log, e)
    ensures Takeovers(log + [entry], e) == Takeovers(log, e) + One(entry.execution == e && IsTakeover(entry))
    ensures Claims(log + [entry], e) == Claims(log, e) + One(entry.execution == e && IsClaim(entry))
    ensures Retries(log + [entry], e) == Retries(log, e) + One(entry.execution == e && IsRetry(entry))
    ensures Changes(log + [entry], e) == Changes(log, e) + One(entry.execution == e && IsChange(entry))
  {
    assert (log + [entry])[..|log|] == log;
  }

  // ------------------------------------------------------------------ invariant

  /** The status column tells what the last entry about the execution was. */
  predicate StatusFits(row: Execution, last: Option<Entry>) {
    match row.status
    case Pending => last.None?
    case Running => last.Some? && last.value.Claimed? && last.value.token == row.runToken
    case RetryWait => last.Some? && IsRetry(last.value)
    case Success => last.Some? && last.value.Finished? && last.value.outcome.Succeeded?
    case Failed => last.Some? && ((last.value.Finished? && last.value.outcome.GaveUp?)
                                  || (last.value.Recovered? && last.value.final))
    case Cancelled => false
  }

  predicate CountsFit(row: Execution, log: seq<Entry>, e: nat) {
    var retries := Retries(log, e);
    && row.maxAttempts == MAX_ATTEMPTS
    && row.attempt == Claims(log, e) + Takeovers(log, e)
    && (row.status.Pending? ==> retries == 0 && Claims(log, e) == 0 && Changes(log, e) == 0 && row.nextAttemptAt.None?)
    && (row.status.Running? ==>
          Claims(log, e) == retries + 1 && Changes(log, e) == 2 * retries + 1
            && (row.nextAttemptAt.Some? <==> retries > 0))
    && (row.status.RetryWait? ==>
          Claims(log, e) == retries && Changes(log, e) == 2 * retries && retries > 0 && row.nextAttemptAt.Some?)
    && (Terminal(row.status) ==> Claims(log, e) == retries + 1 && Changes(log, e) == 2 * retries + 2)
  }

  /** Bounds that outlive the row itself. */
  predicate Bounded(log: seq<Entry>, e: nat) {
    Retries(log, e) < MAX_ATTEMPTS && Changes(log, e) <= 2 * MAX_ATTEMPTS
  }

  /** A result was committed under the token of the last claim, with nothing in between. */
  predicate Commits(log: seq<Entry>, entry: Entry) {
    entry.Finished? ==>
      var last := LastOf(log, entry.execution);
      last.Some? && last.value.Claimed? && last.value.token == entry.token
  }

  ghost predicate Fenceds(log: seq<Entry>) {
    forall j :: 0 <= j < |log| ==> Commits(log[..j], log[j])
  }

  ghost predicate ClaimedOnce(log: seq<Entry>) {
    forall i, j :: 0 <= i < j < |log| && log[i].Claimed? && log[j].Claimed? ==> log[i].token != log[j].token
  }

  ghost predicate Journaled(s: State) {
    var log := s.history.log;
    && (forall e :: e in s.db.executions ==>
          StatusFits(s.db.executions[e], LastOf(log, e)) && CountsFit(s.db.executions[e], log, e))
    && (forall e: nat :: s.db.nextExecution <= e ==> LastOf(log, e).None? && Count0(log, e))
    && (forall e: nat :: Bounded(log, e))
    && Fenceds(log)
    && ClaimedOnce(log)
    && (forall j :: 0 <= j < |log| && log[j].Claimed? ==> log[j].token in s.history.used)
  }

  predicate Count0(log: seq<Entry>, e: nat) {
    Takeovers(log, e) == 0 && Claims(log, e) == 0 && Retries(log, e) == 0 && Changes(log, e) == 0
  }

  // ---------------------------------------------------------------- preservation

  /** The journal and the statuses it records are untouched. */
  ghost predicate Unrecorded(s: State, s': State) {
    && s'.history.log == s.history.log
    && s.history.used <= s'.history.used
    && s.db.nextExecution <= s'.db.nextExecution
    && (forall e :: e in s'.db.executions ==>
          if e in s.db.executions then SameRecord(s.db.executions[e], s'.db.executions[e])
          else s.db.nextExecution <= e && s'.db.executions[e].status.Pending? && s'.db.executions[e].attempt == 0
               && s'.db.executions[e].maxAttempts == MAX_ATTEMPTS && s'.db.executions[e].nextAttemptAt.None?)
  }

  predicate SameRecord(row: Execution, row': Execution) {
    && row'.status == row.status && row'.runToken == row.runToken
    && row'.attempt == row.attempt && row'.maxAttempts == row.maxAttempts && row'.nextAttemptAt == row.nextAttemptAt
  }

  lemma UnrecordedKeepsJournal(s: State, s': State)
    requires Journaled(s) && Unrecorded(s, s')
    ensures Journaled(s')
  {
  }

  /** One entry about `e` was written, and row `e` changed to match. */
  ghost predicate Records(s: State, s': State, entry: Entry) {
    var e := entry.execution;
    && s'.history.log == s.history.log + [entry]
    && s.history.used <= s'.history.used
    && s'.db.nextExecution == s.db.nextExecution
    && e in s.db.executions && e in s'.db.executions && e < s.db.nextExecution
    && s'.db.executions == s.db.executions[e := s'.db.executions[e]]
    && s'.db.executions[e].maxAttempts == s.db.executions[e].maxAttempts
    && (entry.Claimed? ==> entry.token in s'.history.used && entry.token !in s.history.used)
  }

  /** The status moves the journal allows. */
  predicate Moves(row: Execution, row': Execution, entry: Entry) {
    match entry
    case Claimed(_, token, takeover) =>
      && row'.status.Running? && row'.runToken == token && row'.attempt == row.attempt + 1
      && row'.nextAttemptAt == row.nextAttemptAt
      && (if takeover then row.status.Running? else row.status.Pending? || row.status.RetryWait?)
    case Recovered(_, final) =>
      && row.status.Running? && row'.attempt == row.attempt
      && (if final then row'.status.Failed? else row'.status.RetryWait? && row'.nextAttemptAt.Some?)
    case Finished(_, token, outcome) =>
      && row.status.Running? && row.runToken == token && row'.attempt == row.attempt
      && (match outcome
          case Succeeded => row'.status.Success?
          case Retrying => row'.status.RetryWait? && row'.nextAttemptAt.Some?
          case GaveUp => row'.status.Failed?)
  }

  lemma EntryFits(s: State, s': State, entry: Entry)
    requires Journaled(s) && Records(s, s', entry)
    requires Moves(s.db.executions[entry.execution], s'.db.executions[entry.execution], entry)
    requires s'.db.executions[entry.execution].status.RetryWait? ==>
               s'.db.executions[entry.execution].attempt < s'.db.executions[entry.execution].maxAttempts
    ensures var e := entry.execution;
      && StatusFits(s'.db.executions[e], LastOf(s'.history.log, e))
      && CountsFit(s'.db.executions[e], s'.history.log, e)
      && Bounded(s'.history.log, e)
  {
    Appended(s.history.log, entry, entry.execution);
    assert Bounded(s.history.log, entry.execution);
  }

  lemma FencesKept(log: seq<Entry>, entry: Entry)
    requires Fenceds(log) && ClaimedOnce(log) && Commits(log, entry)
    requires entry.Claimed? ==> forall j :: 0 <= j < |log| && log[j].Claimed? ==> log[j].token != entry.token
    ensures Fenceds(log + [entry]) && ClaimedOnce(log + [entry])
  {
    var log' := log + [entry];
    forall j | 0 <= j < |log'| ensures Commits(log'[..j], log'[j]) {
      assert log'[..j] == log[..j];
    }
  }

  lemma RecordKeepsJournal(s: State, s': State, entry: Entry)
    requires Journaled(s) && Records(s, s', entry)
    requires Moves(s.db.executions[entry.execution], s'.db.executions[entry.execution], entry)
    requires s'.db.executions[entry.execution].status.RetryWait? ==>
               s'.db.executions[entry.execution].attempt < s'.db.executions[entry.execution].maxAttempts
    ensures Journaled(s')
  {
    EntryFits(s, s', entry);
    OthersKept(s.history.log, entry);
    forall e: nat ensures Bounded(s'.history.log, e) {
      if e != entry.execution { assert Bounded(s.history.log, e); }
    }
    FencesKept(s.history.log, entry);
  }

  lemma OthersKept(log: seq<Entry>, entry: Entry)
    ensures forall e: nat :: e != entry.execution ==> Sameness(log, log + [entry], e)
  {
    forall e: nat | e != entry.execution ensures Sameness(log, log + [entry], e) { Appended(log, entry, e); }
  }

  /** Nothing new was written about `e`. */
  predicate Sameness(log: seq<Entry>, log': seq<Entry>, e: nat) {
    && LastOf(log', e) == LastOf(log, e)
    && Takeovers(log', e) == Takeovers(log, e) && Claims(log', e) == Claims(log, e)
    && Retries(log', e) == Retries(log, e) && Changes(log', e) == Changes(log, e)
  }

  // ------------------------------------------------------------- step by step

  lemma ClaimUpdateKeepsJournal(s: State, w: nat, ttl: nat)
    requires Core(s) && Journaled(s)
    requires w in s.workers && s.workers[w].phase.Begun?
    ensures Journaled(ClaimUpdate(s, w, ttl))
  {
    var s' := ClaimUpdate(s, w, ttl);
    var e := s.workers[w].execution;
    assert TokenFits(s, w);
    if s'.workers[w].phase.Won? {
      assert RowFits(s, e);
      RecordKeepsJournal(s, s', Claimed(e, s.workers[w].phase.token, s.db.executions[e].status.Running?));
    } else {
      UnrecordedKeepsJournal(s, s');
    }
  }

  lemma FinishKeepsJournal(s: State, w: nat, at: Time, delay: nat, retryable: bool)
    requires Core(s) && Journaled(s)
    requires w in s.workers && s.workers[w].phase.Executing?
    ensures Journaled(FinishSuccess(s, w, at)) && Journaled(FinishFailure(s, w, at, delay, retryable))
  {
    if Fenced(s, w) {
      var e, token := s.workers[w].execution, s.workers[w].phase.token;
      assert RowFits(s, e);
      RetryIsFresh(s, w);
      RecordKeepsJournal(s, FinishSuccess(s, w, at), Finished(e, token, Succeeded));
      if SchedulesRetry(s.workers[w].phase.snapshot, retryable) {
        RecordKeepsJournal(s, FinishFailure(s, w, at, delay, retryable), Finished(e, token, Retrying));
      } else {
        RecordKeepsJournal(s, FinishFailure(s, w, at, delay, retryable), Finished(e, token, GaveUp));
      }
    } else {
      UnrecordedKeepsJournal(s, DropWorker(s, w));
    }
  }

  lemma RecoverIsRecorded(s: State, e: nat, at: Time)
    requires e in s.db.executions && e < s.db.nextExecution && RowShape(s.db.executions[e])
    requires GivesUp(s.db.executions[e]) || Recovery(e, at) !in s.db.outbox
    ensures var s', row := Recover(s, e, at), s.db.executions[e];
      if row.status.Running? then Records(s, s', Recovered(e, GivesUp(row)))
        && Moves(row, s'.db.executions[e], Recovered(e, GivesUp(row)))
      else Unrecorded(s, s')
  {
  }

  lemma RecoverKeepsJournal(s: State, e: nat, at: Time, staleBefore: Time)
    requires Core(s) && Journaled(s)
    requires e in s.db.executions && RecoverEligible(s.db.executions[e], at, staleBefore)
    ensures Journaled(Recover(s, e, at))
  {
    hide Journaled, Records, Unrecorded;
    assert RowFits(s, e);
    if GivesUp(s.db.executions[e]) || Recovery(e, at) !in s.db.outbox {
      RecoverIsRecorded(s, e, at);
      if s.db.executions[e].status.Running? {
        RecordKeepsJournal(s, Recover(s, e, at), Recovered(e, GivesUp(s.db.executions[e])));
      } else {
        UnrecordedKeepsJournal(s, Recover(s, e, at));
      }
    }
  }

  lemma FireOneKeepsJournal(s: State, t: nat, at: Time, now: Time)
    requires Core(s) && Journaled(s)
    ensures Journaled(FireOne(s, t, at, now))
  {
    FireOneCases(s, t, at, now);
    UnrecordedKeepsJournal(s, FireOne(s, t, at, now));
  }

  // ------------------------------------------------------- what the journal says

  /** Where the last entry about `e` stands. */
  lemma LastStands(log: seq<Entry>, e: nat)
    ensures match LastOf(log, e)
            case None => forall i :: 0 <= i < |log| ==> log[i].execution != e
            case Some(entry) => exists k :: 0 <= k < |log| && LastAt(log, e, k) && log[k] == entry
  {
    if log != [] {
      var n := |log| - 1;
      if log[n].execution == e {
        assert LastAt(log, e, n);
      } else {
        LastStands(log[..n], e);
        if LastOf(log[..n], e).Some? {
          var k :| 0 <= k < n && LastAt(log[..n], e, k) && log[..n][k] == LastOf(log[..n], e).value;
          assert LastAt(log, e, k);
        }
      }
    }
  }

  ghost predicate LastAt(log: seq<Entry>, e: nat, k: int)
    requires 0 <= k < |log|
  {
    log[k].execution == e && forall i :: k < i < |log| ==> log[i].execution != e
  }

  /** Entry `k` is the claim behind the result `j`, and nothing happened to the execution in between. */
  ghost predicate ClaimBehind(log: seq<Entry>, k: int, j: int)
    requires 0 <= k < j < |log|
  {
    && log[k].Claimed? && log[j].Finished?
    && log[k].execution == log[j].execution && log[k].token == log[j].token
    && forall i :: k < i < j ==> log[i].execution != log[j].execution
  }

  lemma CommitHasClaim(log: seq<Entry>, j: int) returns (k: int)
    requires Fenceds(log) && 0 <= j < |log| && log[j].Finished?
    ensures 0 <= k < j && ClaimBehind(log, k, j)
  {
    assert Commits(log[..j], log[j]);
    LastStands(log[..j], log[j].execution);
    k :| 0 <= k < j && LastAt(log[..j], log[j].execution, k) && log[..j][k] == LastOf(log[..j], log[j].execution).value;
    assert forall i :: k < i < j ==> log[..j][i] == log[i];
  }

  /** No run token commits twice. */
  lemma CommitsOnce(log: seq<Entry>, i: int, j: int)
    requires Fenceds(log) && ClaimedOnce(log) && 0 <= i < j < |log| && log[i].Finished? && log[j].Finished?
    ensures log[i].token != log[j].token
  {
    var a := CommitHasClaim(log, i);
    var b := CommitHasClaim(log, j);
  }
}
