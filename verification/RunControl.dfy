/**
  The worker that drives one claimed run to its end (internal/platform/service/worker.go) and the
  operator commands on runs (internal/platform/service/run_commands.go, command.go).
*/
module RunControl {
  import opened Identifiers
  import opened MatchResults
  import opened RunTypes
  import opened RunQueue
  import opened QueueInvariants
  import opened Ranking
  import opened RankingLifecycle

  // ----- One worker pass -----

  // What the runner and the persister come back with. An empty match id stands for no record.
  datatype Execution = Execution(summary: Summary, runFailed: bool, persisted: bool)

  // Some other completed run of the match is official already, or the run is a rerun: no promotion.
  predicate AutoPromotes(records: map<Id, QueueRecord>, s: Submission) {
    && !s.runKind.Rerun?
    && forall id | id in records :: !BlocksPromotion(records[id], s)
  }

  predicate BlocksPromotion(other: QueueRecord, s: Submission) {
    && other.submission.matchID == s.matchID && other.submission.runID != s.runID
    && other.state.Completed? && other.submission.official
  }

  predicate Usable(s: Submission, x: Execution) {
    x.summary.matchID != NO_ID && x.summary.matchID == s.matchID && x.persisted
  }

  // The record of a run that persisted its terminal artifacts.
  function Finished(record: QueueRecord, summary: Summary, records: map<Id, QueueRecord>): QueueRecord {
    var s := record.submission;
    record.(state := Completed, terminal := Some(summary),
            submission := s.(official := if summary.status.MatchCompleted? then AutoPromotes(records, s) else s.official))
  }

  function Ended(record: QueueRecord, x: Execution, records: map<Id, QueueRecord>): QueueRecord {
    if Usable(record.submission, x) then Finished(record, x.summary, records) else record.(state := Failed)
  }

  // Claim the first waiting run and leave it completed or failed.
  function Driven(q: Queue, workerID: Id, claimedAt: int, endedAt: int, x: Execution): (Queue, Outcome<QueueRecord>) {
    var (q1, claimed) := Claimed(q, workerID, claimedAt);
    match claimed
    case Err(e) => (q1, Err(e))
    case Ok(record) =>
      var next := Ended(record, x, q1.records);
      (q1.(records := q1.records[record.submission.runID := Stamped(record, next, endedAt)]), Ok(next))
  }

  function CreditEnded(standings: Standings, ended: Outcome<QueueRecord>): (Standings, bool) {
    if ended.Ok? && ended.value.state.Completed? && ended.value.terminal.Some?
       && ended.value.terminal.value.status.MatchCompleted? && ended.value.submission.official
    then
      var (next, r) := CreditRun(standings, ended.value.submission, ended.value.terminal.value);
      (next, r.Ok?)
    else (standings, true)
  }

  class Worker {
    const queue: InMemoryQueueStore
    const rankings: RankingService?

    constructor (queue: InMemoryQueueStore, rankings: RankingService?)
      ensures this.queue == queue && this.rankings == rankings
    {
      this.queue, this.rankings := queue, rankings;
    }

    /** internal/platform/service/worker.go:146-166 */
    method ShouldAutoPromote(record: QueueRecord) returns (official: bool)
      requires Indexed(queue.State())
      ensures official <==> AutoPromotes(queue.records, record.submission)
    {
      if record.submission.runKind.Rerun? { return false; }
      var records := queue.List();
      ListedIsRecords(queue.all, queue.records);
      for i := 0 to |records|
        invariant forall j | 0 <= j < i :: !BlocksPromotion(records[j], record.submission)
      {
        var current := records[i];
        if current.submission.matchID != record.submission.matchID { continue; }
        if current.submission.runID == record.submission.runID { continue; }
        if current.state.Completed? && current.submission.official {
          assert BlocksPromotion(current, record.submission);
          assert current in records;
          ghost var id :| id in queue.records && queue.records[id] == current;
          return false;
        }
      }
      forall id | id in queue.records ensures !BlocksPromotion(queue.records[id], record.submission) {
        assert queue.records[id] in records;
      }
      return true;
    }

    /** internal/platform/service/worker.go:44-122 */
    method ProcessNext(workerID: Id, claimedAt: int, endedAt: int, x: Execution)
        returns (r: Outcome<QueueRecord>, clean: bool)
      requires Indexed(queue.State())
      requires rankings != null ==> rankings.Valid()
      modifies queue, rankings
      ensures (queue.State(), r) == Driven(old(queue.State()), workerID, claimedAt, endedAt, x)
      ensures Indexed(queue.State())
      ensures rankings != null ==>
                var (standings, credited) := CreditEnded(old(rankings.Standings()), r);
                && rankings.Valid() && Ledger(rankings.Standings()) == Ledger(standings)
                && (clean <==> r.Ok? && r.value.state.Completed? && !x.runFailed && credited)
      ensures rankings != null && old(rankings.Keyed()) && (r.Ok? ==> TrimmedPlayers(r.value.submission.players)) ==>
                rankings.Keyed() && rankings.Standings() == CreditEnded(old(rankings.Standings()), r).0
      ensures rankings == null ==> (clean <==> r.Ok? && r.value.state.Completed? && !x.runFailed)
    {
      hide Id.Blank, CreditEnded, CreditRun, TrimmedPlayers, AutoPromotes, Indexed, Claimed, Updated, Stamped, Driven, Ended;
      hide Ledger, StandingsOf, KeyedIn;
      ghost var start := queue.State();
      var claim := queue.Claim(workerID, claimedAt);
      ClaimIndexed(start, workerID, claimedAt);
      if claim.Err? {
        DrivenNowhere(start, workerID, claimedAt, endedAt, x);
        return claim, false;
      }
      var record := claim.value;
      ghost var q, leased := queue.State(), record;
      ClaimedRecord(start, workerID, claimedAt);
      DrivenFrom(start, workerID, claimedAt, endedAt, x);

      Rewritten(q, leased, leased, Running, endedAt);
      record := record.(state := Running);
      var _ := queue.Update(record, endedAt);
      if record.submission.matchID != x.summary.matchID || x.summary.matchID == NO_ID {
        Rewritten(q, leased, record, Failed, endedAt);
        record := record.(state := Failed);
        var _ := queue.Update(record, endedAt);
        EndedStamp(leased, x, q.records, endedAt);
        return Ok(record), false;
      }
      Rewritten(q, leased, record, Persisting, endedAt);
      record := record.(state := Persisting);
      var _ := queue.Update(record, endedAt);
      if !x.persisted {
        Rewritten(q, leased, record, Failed, endedAt);
        record := record.(state := Failed);
        var _ := queue.Update(record, endedAt);
        EndedStamp(leased, x, q.records, endedAt);
        return Ok(record), false;
      }
      ghost var persisting := record;
      record := record.(state := Completed, terminal := Some(x.summary));
      if x.summary.status.MatchCompleted? {
        var official := ShouldAutoPromote(record);
        OwnRecordIsIgnored(q, leased, persisting);
        record := record.(submission := record.submission.(official := official));
      }
      FinalWrite(q, leased, persisting, record, endedAt);
      var _ := queue.Update(record, endedAt);
      EndedCompleted(leased, x, q.records);
      var credited := CreditRecord(record);
      return Ok(record), credited && !x.runFailed;
    }

    // The end of a completed pass (internal/platform/service/worker.go:113-117).
    method CreditRecord(record: QueueRecord) returns (credited: bool)
      requires record.state.Completed? && record.terminal.Some?
      requires rankings != null ==> rankings.Valid()
      modifies rankings
      ensures rankings != null ==>
                && rankings.Valid() && credited == CreditEnded(old(rankings.Standings()), Ok(record)).1
                && Ledger(rankings.Standings()) == Ledger(CreditEnded(old(rankings.Standings()), Ok(record)).0)
      ensures rankings != null && old(rankings.Keyed()) && TrimmedPlayers(record.submission.players) ==>
                rankings.Keyed() && rankings.Standings() == CreditEnded(old(rankings.Standings()), Ok(record)).0
      ensures rankings == null ==> credited
    {
      hide CreditRun, TrimmedPlayers, Ledger, StandingsOf, KeyedIn;
      var summary := record.terminal.value;
      if rankings != null && summary.status.MatchCompleted? && record.submission.official {
        var credit := rankings.ApplyCompleted(record.submission, summary);
        return credit.Ok?;
      }
      return true;
    }
  }

  lemma DrivenNowhere(q: Queue, workerID: Id, claimedAt: int, endedAt: int, x: Execution)
    ensures var (q1, claimed) := Claimed(q, workerID, claimedAt);
            claimed.Err? ==>
              && Driven(q, workerID, claimedAt, endedAt, x) == (q1, claimed)
              && forall standings :: CreditEnded(standings, claimed) == (standings, true)
  {
    hide Claimed;
  }

  lemma DrivenFrom(q: Queue, workerID: Id, claimedAt: int, endedAt: int, x: Execution)
    ensures var (q1, claimed) := Claimed(q, workerID, claimedAt);
            claimed.Ok? ==>
              var next := Ended(claimed.value, x, q1.records);
              Driven(q, workerID, claimedAt, endedAt, x) == (Written(q1, Stamped(claimed.value, next, endedAt)), Ok(next))
  {
    hide Claimed;
  }

  lemma EndedCompleted(leased: QueueRecord, x: Execution, records: map<Id, QueueRecord>)
    requires Usable(leased.submission, x)
    ensures var s := leased.submission;
            Ended(leased, x, records) ==
            leased.(state := Completed, terminal := Some(x.summary), submission :=
                      if x.summary.status.MatchCompleted? then s.(official := AutoPromotes(records, s)) else s)
  {
    hide AutoPromotes, CreditRun;
  }

  function Written(q: Queue, record: QueueRecord): Queue {
    q.(records := q.records[record.submission.runID := record])
  }

  lemma ClaimedRecord(q: Queue, workerID: Id, now: int)
    requires Indexed(q) && Claimed(q, workerID, now).1.Ok?
    ensures var (q', r) := Claimed(q, workerID, now);
            && r.value.state.Leased? && r.value.submission.runID in q'.records
            && q'.records[r.value.submission.runID] == r.value
            && q'.records.Keys == q.records.Keys
  {
    hide Id.Blank;
    FirstWaitingQueued(q.order, q.records);
  }

  // One stage of a pass: the worker's copy, moved on to the next state, replaces the stored record.
  lemma Rewritten(q: Queue, leased: QueueRecord, record: QueueRecord, to: State, now: int)
    requires Indexed(q) && leased.submission.runID in q.records && q.records[leased.submission.runID] == leased
    requires record == leased.(state := record.state) && !leased.state.Completed?
    requires ValidTransition(record.state, to) && !to.Completed? && !to.Queued?
    ensures Updated(Written(q, record), record.(state := to), now) == Ok(Written(q, record.(state := to)))
    ensures Written(q, leased) == q
    ensures Indexed(Written(q, record.(state := to)))
  {
    assert q.records[leased.submission.runID := leased] == q.records;
    var next := record.(state := to);
    assert Stamped(record, next, now) == next;
    assert Written(Written(q, record), next) == Written(q, next);
  }

  lemma FinalWrite(q: Queue, leased: QueueRecord, persisting: QueueRecord, next: QueueRecord, now: int)
    requires Indexed(q) && leased.submission.runID in q.records && q.records[leased.submission.runID] == leased
    requires persisting == leased.(state := Persisting)
    requires next.state.Completed? && next.submission.runID == leased.submission.runID
    ensures Updated(Written(q, persisting), next, now) == Ok(Written(q, Stamped(leased, next, now)))
    ensures Indexed(Written(q, Stamped(leased, next, now)))
  {
    var stamped := Stamped(leased, next, now);
    assert Stamped(persisting, next, now) == stamped;
    assert Written(Written(q, persisting), stamped) == Written(q, stamped);
  }

  lemma EndedStamp(leased: QueueRecord, x: Execution, records: map<Id, QueueRecord>, now: int)
    requires !Usable(leased.submission, x) && !leased.state.Completed?
    ensures Stamped(leased, Ended(leased, x, records), now) == Ended(leased, x, records) == leased.(state := Failed)
    ensures forall standings :: CreditEnded(standings, Ok(leased.(state := Failed))) == (standings, true)
  {
  }

  lemma OwnRecordIsIgnored(q: Queue, leased: QueueRecord, record: QueueRecord)
    requires Indexed(q) && leased.submission.runID in q.records && q.records[leased.submission.runID] == leased
    requires record == leased.(state := record.state)
    ensures AutoPromotes(Written(q, record).records, leased.submission) == AutoPromotes(q.records, leased.submission)
  {
    var w := Written(q, record).records;
    assert forall id | id in q.records && id != leased.submission.runID :: w[id] == q.records[id];
  }

  // Listing visits every record.
  lemma {:induction false} ListedIsRecords(all: seq<Id>, records: map<Id, QueueRecord>)
    ensures forall r :: r in Listed(all, records) <==> exists id :: id in all && id in records && records[id] == r
  {
    if all != [] { ListedIsRecords(all[1..], records); }
  }

  // ----- Draining the line -----

  datatype Pass = Pass(claimedAt: int, endedAt: int, x: Execution)

  function Drained(q: Queue, workerID: Id, passes: seq<Pass>): Queue
    decreases passes
  {
    if passes == [] then q
    else Drained(Driven(q, workerID, passes[0].claimedAt, passes[0].endedAt, passes[0].x).0, workerID, passes[1..])
  }

  lemma DrivenFirst(q: Queue, workerID: Id, pass: Pass)
    requires Line(q) && Indexed(q) && !workerID.Blank() && q.order != []
    ensures var q', id := Driven(q, workerID, pass.claimedAt, pass.endedAt, pass.x).0, q.order[0];
            && id in q.records && id in q'.records && q'.order == q.order[1..]
            && q'.records == q.records[id := q'.records[id]]
            && q'.records[id].state == (if Usable(q.records[id].submission, pass.x) then Completed else Failed)
            && Line(q') && Indexed(q')
  {
    hide Id.Blank;
    hide Claimed, Driven, AutoPromotes;
    ClaimTakesFirst(q, workerID, pass.claimedAt);
    ClaimIndexed(q, workerID, pass.claimedAt);
    ClaimLine(q, workerID, pass.claimedAt);
    ClaimedRecord(q, workerID, pass.claimedAt);
    DrivenFrom(q, workerID, pass.claimedAt, pass.endedAt, pass.x);
  }

  // As many passes as there are waiting runs leave none waiting: the i-th in line is completed or
  // failed by what the i-th pass came back with, and no other run changes.
  lemma {:induction false} PassesDrainTheLine(q: Queue, workerID: Id, passes: seq<Pass>)
    requires Line(q) && Indexed(q) && !workerID.Blank() && |passes| == |q.order|
    ensures var q' := Drained(q, workerID, passes);
            && q'.order == [] && q'.records.Keys == q.records.Keys
            && (forall i | 0 <= i < |q.order| :: q.order[i] in q.records && q'.records[q.order[i]].state ==
                  (if Usable(q.records[q.order[i]].submission, passes[i].x) then Completed else Failed))
            && (forall id | id in q.records && id !in q.order :: q'.records[id] == q.records[id])
    decreases passes
  {
    hide Usable, Id.Blank, Driven, Line, Indexed;
    if passes != [] {
      var q1, id := Driven(q, workerID, passes[0].claimedAt, passes[0].endedAt, passes[0].x).0, q.order[0];
      DrivenFirst(q, workerID, passes[0]);
      PassesDrainTheLine(q1, workerID, passes[1..]);
      assert q.order == [id] + q.order[1..];
      FirstIsOnce(q);
      var q' := Drained(q, workerID, passes);
      assert q'.records[id] == q1.records[id];
      forall i | 0 < i < |q.order|
        ensures q.order[i] in q.records && q'.records[q.order[i]].state ==
                (if Usable(q.records[q.order[i]].submission, passes[i].x) then Completed else Failed)
      {
        assert q1.order[i - 1] == q.order[i] && passes[1..][i - 1] == passes[i];
        assert q.order[i] != id by { assert q.order[i] in q.order[1..]; }
      }
    }
  }

  lemma FirstIsOnce(q: Queue)
    requires Line(q) && q.order != []
    ensures q.order[0] !in q.order[1..]
  {
  }

  // ----- Operator commands -----

  function FollowUp(s: Submission, kind: RunKind, newRunID: Id): Submission {
    s.(runID := newRunID, attemptCount := s.attemptCount + 1, parentRunID := s.runID, runKind := kind, official := false)
  }

  // admitted is the verdict of the checks that need the artifacts themselves.
  ghost function Submitted(q: Queue, s: Submission, admitted: bool): (Queue, Outcome<QueueRecord>) {
    if !WellFormed(s) || !admitted then (q, Err(BadRequest))
    else if s.runID in q.records then (q, Err(Conflict))
    else (Enqueued(q, s), Ok(QueueRecord(s, Queued, None, None, None)))
  }

  ghost function FollowedUp(q: Queue, runID: Id, kind: RunKind, newRunID: Id, admitted: bool)
      : (Queue, Outcome<QueueRecord>)
  {
    var id := runID.Trimming();
    if id !in q.records then (q, Err(NotFound))
    else if q.records[id].state != (if kind.Retry? then Failed else Completed) then (q, Err(Conflict))
    else Submitted(q, FollowUp(q.records[id].submission, kind, newRunID), admitted)
  }

  class RunCommandService {
    const queue: InMemoryQueueStore
    const rankings: RankingService?

    constructor (queue: InMemoryQueueStore, rankings: RankingService?)
      ensures this.queue == queue && this.rankings == rankings
    {
      this.queue, this.rankings := queue, rankings;
    }

    /** internal/platform/service/command.go:31-46 */
    method Submit(s: Submission, admitted: bool) returns (r: Outcome<QueueRecord>)
      modifies queue
      ensures (queue.State(), r) == Submitted(old(queue.State()), s, admitted)
    {
      hide Id.Blank;
      var valid := ValidateSubmission(s);
      if !valid || !admitted { return Err(BadRequest); }
      r := queue.Enqueue(s);
      if r.Err? { return Err(Conflict); }
    }

    /** internal/platform/service/run_commands.go:36-51 */
    method Retry(runID: Id, newRunID: Id, admitted: bool) returns (r: Outcome<QueueRecord>)
      modifies queue
      ensures (queue.State(), r) == FollowedUp(old(queue.State()), runID, RunKind.Retry, newRunID, admitted)
    {
      hide Id.Trimming, WellFormed;
      var record := queue.Get(runID.Trimming());
      if record.Err? { return record; }
      if !record.value.state.Failed? { return Err(Conflict); }
      var next := record.value.submission;
      next := next.(runID := newRunID, attemptCount := next.attemptCount + 1, parentRunID := record.value.submission.runID,
                    runKind := RunKind.Retry, official := false);
      r := Submit(next, admitted);
    }

    /** internal/platform/service/run_commands.go:54-69 */
    method Rerun(runID: Id, newRunID: Id, admitted: bool) returns (r: Outcome<QueueRecord>)
      modifies queue
      ensures (queue.State(), r) == FollowedUp(old(queue.State()), runID, RunKind.Rerun, newRunID, admitted)
    {
      hide Id.Trimming, WellFormed;
      var record := queue.Get(runID.Trimming());
      if record.Err? { return record; }
      if !record.value.state.Completed? { return Err(Conflict); }
      var next := record.value.submission;
      next := next.(runID := newRunID, attemptCount := next.attemptCount + 1, parentRunID := record.value.submission.runID,
                    runKind := RunKind.Rerun, official := false);
      r := Submit(next, admitted);
    }

    /** internal/platform/service/run_commands.go:72-84 */
    method Promote(runID: Id) returns (r: Outcome<QueueRecord>)
      requires rankings != null ==> rankings.Valid() && rankings.queue == queue
      modifies queue, rankings
      ensures match Promoted(old(queue.State()), runID.Trimming())
              case Err(e) => r == Err(e) && queue.State() == old(queue.State())
                             && (rankings != null ==> rankings.Standings() == old(rankings.Standings()))
              case Ok(q) =>
                var target := q.records[runID.Trimming()];
                && queue.State() == q
                && (rankings == null ==> r == Ok(target))
                && (rankings != null && target.terminal.None? ==>
                      r == Err(BadRequest) && rankings.Standings() == old(rankings.Standings()))
                && (rankings != null && target.terminal.Some? ==>
                      var (standings, refreshed) := RefreshScope(old(rankings.Standings()), q, target.terminal.value.game);
                      && rankings.Valid() && Ledger(rankings.Standings()) == Ledger(standings)
                      && (old(rankings.Keyed()) && TrimmedQueue(old(queue.State())) ==>
                            rankings.Keyed() && rankings.Standings() == standings)
                      && r == match refreshed case Ok(_) => Ok(target) case Err(e) => Err(e))
    {
      hide Id.Trimming, RefreshScope, TrimmedPlayers, Ledger, StandingsOf, KeyedIn;
      ghost var before := queue.State();
      var target := queue.Promote(runID.Trimming());
      if target.Err? { return target; }
      PromotedTrimmed(before, runID.Trimming());
      if rankings != null {
        var refreshed := rankings.RefreshCompletedRun(target.value);
        if refreshed.Err? { return Err(refreshed.error); }
      }
      return target;
    }
  }

  lemma PromotedTrimmed(q: Queue, runID: Id)
    ensures Promoted(q, runID).Ok? && TrimmedQueue(q) ==> TrimmedQueue(Promoted(q, runID).value)
  {
    hide TrimmedPlayers;
  }
}
