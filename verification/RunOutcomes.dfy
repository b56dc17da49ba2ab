/**
  What becomes of a run, told from the stored records and from what its execution came back with: one
  whole pass of a worker, its credit, and the commands that submit runs
  (internal/platform/service/worker.go:44-166, run_commands.go:36-69, command.go:31-46).
*/
module RunOutcomes {
  import opened Identifiers
  import opened MatchResults
  import opened RunTypes
  import opened RunQueue
  import opened QueueInvariants
  import opened Ranking
  import opened RankingLifecycle
  import opened RunControl
  import opened RunLeases
  import opened RankedBots

  // ----- A pass -----

  // The execution tells of the match of the run, and its artifacts are stored.
  ghost predicate Succeeds(s: Submission, x: Execution) {
    x.persisted && x.summary.matchID == s.matchID && s.matchID != NO_ID
  }

  // Another completed run of the match is official.
  ghost predicate Taken(records: map<Id, QueueRecord>, s: Submission) {
    exists id :: id in records && records[id].state == Completed && records[id].submission.official
      && records[id].submission.matchID == s.matchID && records[id].submission.runID != s.runID
  }

  // What a pass leaves of the run that it claimed.
  ghost predicate Leaves(before: QueueRecord, records: map<Id, QueueRecord>, x: Execution, workerID: Id, from: int, to: int,
                         after: QueueRecord)
  {
    var s := before.submission;
    && after.lease == Some(Lease(workerID, from + 30, from))
    && if !Succeeds(s, x) then
         after.state == Failed && after.submission == s && after.terminal == before.terminal
         && after.completedAt == before.completedAt
       else
         && after.state == Completed && after.terminal == Some(x.summary)
         && after.completedAt == (if before.completedAt.Some? then before.completedAt else Some(to))
         && after.submission.(official := s.official) == s
         && after.submission.official
              == if x.summary.status == MatchCompleted then s.runKind != RunKind.Rerun && !Taken(records, s) else s.official
  }

  /**
    One whole pass: nothing is waiting or the worker has no name, or the first waiting run is taken out of the
    line and is completed or failed by what its execution came back with; a won match makes it official
    unless it is a rerun or the match has an official run; and no other run changes.
  */
  lemma PassVerdict(q: Queue, workerID: Id, from: int, to: int, x: Execution)
    requires Indexed(q)
    ensures var (q', r) := Driven(q, workerID, from, to, x);
            && (r.Err? <==> workerID.Blank() || forall id | id in q.order :: !Waits(q, id))
            && (r.Err? ==> q'.records == q.records && q'.all == q.all)
            && (r.Ok? ==> exists k :: FirstWaits(q, k) && PassedAt(q, k, workerID, from, to, x, q', r.value))
  {
    hide Id.Blank, Leaves, Claimed, Driven, Ended, Stamped, FirstWaits, Indexed;
    DrivenNowhere(q, workerID, from, to, x);
    DrivenFrom(q, workerID, from, to, x);
    ClaimVerdict(q, workerID, from);
    if Claimed(q, workerID, from).1.Ok? {
      var k := ClaimedFirst(q, workerID, from);
      WaitsAt(q, k);
      var id, leased := q.order[k], Claimed(q, workerID, from).1.value;
      EndLeaves(q, id, leased, workerID, from, to, x);
      var (q', r) := Driven(q, workerID, from, to, x);
      assert q'.records == q.records[id := leased][id := Stamped(leased, r.value, to)];
      assert q'.records.Keys == q.records.Keys;
      assert PassedAt(q, k, workerID, from, to, x, q', r.value);
    }
  }

  ghost predicate FirstWaits(q: Queue, k: int) {
    0 <= k < |q.order| && Waits(q, q.order[k]) && forall i | 0 <= i < k :: !Waits(q, q.order[i])
  }

  lemma WaitsAt(q: Queue, k: int)
    requires FirstWaits(q, k)
    ensures 0 <= k < |q.order| && Waits(q, q.order[k])
  {
  }

  lemma ClaimedFirst(q: Queue, workerID: Id, from: int) returns (k: nat)
    requires Claimed(q, workerID, from).1.Ok?
    ensures var (q', r) := Claimed(q, workerID, from);
            && FirstWaits(q, k)
            && r.value == q.records[q.order[k]].(state := Leased, lease := Some(Lease(workerID, from + 30, from)))
            && q' == Queue(q.all, q.order[k + 1..], q.records[q.order[k] := r.value])
  {
    hide Claimed, Id.Blank;
    ClaimVerdict(q, workerID, from);
    var (q', r) := Claimed(q, workerID, from);
    k :| 0 <= k < |q.order| && Waits(q, q.order[k]) && (forall i | 0 <= i < k :: !Waits(q, q.order[i]))
         && r.value == q.records[q.order[k]].(state := Leased, lease := Some(Lease(workerID, from + 30, from)))
         && q' == Queue(q.all, q.order[k + 1..], q.records[q.order[k] := r.value]);
  }

  ghost predicate PassedAt(
      q: Queue, k: int, workerID: Id, from: int, to: int, x: Execution, q': Queue, ended: QueueRecord)
    requires FirstWaits(q, k)
  {
    var id := q.order[k];
    && q'.all == q.all && q'.order == q.order[k + 1..] && q'.records.Keys == q.records.Keys
    && (forall other | other in q.records && other != id :: q'.records[other] == q.records[other])
    && Leaves(q.records[id], q.records, x, workerID, from, to, q'.records[id])
    && ended == q'.records[id].(completedAt := q.records[id].completedAt)
  }

  lemma EndLeaves(q: Queue, id: Id, leased: QueueRecord, workerID: Id, from: int, to: int, x: Execution)
    requires Indexed(q) && Waits(q, id)
    requires leased == q.records[id].(state := Leased, lease := Some(Lease(workerID, from + 30, from)))
    ensures var ended := Ended(leased, x, q.records[id := leased]);
            && Leaves(q.records[id], q.records, x, workerID, from, to, Stamped(leased, ended, to))
            && ended == Stamped(leased, ended, to).(completedAt := q.records[id].completedAt)
            && Stamped(leased, ended, to).submission.runID == id
  {
    var s, records := leased.submission, q.records[id := leased];
    assert AutoPromotes(records, s) <==> s.runKind != RunKind.Rerun && !Taken(q.records, s) by {
      forall other | other in q.records ensures records[other] == q.records[other] || records[other].submission.runID == s.runID {}
    }
    hide AutoPromotes, Taken;
  }

  /**
    The credit of a pass: exactly a run that it completed as a won match of bots and made official changes
    the ranking, in the scope of its game alone; the credit fails exactly if such a run cannot be ranked.
  */
  lemma PassIsCredited(
      q: Queue, standings: Standings, workerID: Id, from: int, to: int, x: Execution, standings': Standings, credited: bool)
    requires (standings', credited) == CreditEnded(standings, Driven(q, workerID, from, to, x).1)
    ensures var r, scope := Driven(q, workerID, from, to, x).1,
                            GameKey(x.summary.game.gameID.Trimming(), x.summary.game.gameVersion.Trimming(),
                                    x.summary.game.rulesetVersion.Trimming());
            var counts := r.Ok? && r.value.state == Completed && x.summary.status == MatchCompleted
                          && r.value.submission.official && PlayedByBots(r.value.submission);
            && (credited <==> counts ==> Rankable(r.value.submission, x.summary))
            && (counts && credited ==>
                  CreditedIn(standings, standings', scope, r.value.submission.runID, x.summary.matchID))
            && (!counts || !credited ==> standings' == standings)
  {
    hide Claimed, Id.Blank, Id.Trimming, Rankable, PlayedByBots, CreditedIn, CreditRun, AutoPromotes, Driven, Ended;
    DrivenNowhere(q, workerID, from, to, x);
    DrivenFrom(q, workerID, from, to, x);
    var r := Driven(q, workerID, from, to, x).1;
    if r.Ok? {
      assert Claimed(q, workerID, from).1.Ok?;
      EndedTerminal(Claimed(q, workerID, from).1.value, x, Claimed(q, workerID, from).0.records);
      assert r.value.state == Completed ==> r.value.terminal == Some(x.summary);
      var s := r.value.submission;
      CreditVerdict(standings, s, x.summary);
      if r.value.state == Completed && x.summary.status == MatchCompleted && s.official {
        var (next, credit) := CreditRun(standings, s, x.summary);
        assert standings' == next && credited == credit.Ok?;
      } else {
        assert standings' == standings && credited;
      }
    }
  }

  lemma EndedTerminal(record: QueueRecord, x: Execution, records: map<Id, QueueRecord>)
    ensures Ended(record, x, records).state == Completed ==> Ended(record, x, records).terminal == Some(x.summary)
  {
  }

  // ----- Commands -----

  // The submission waits at the end of the line, and nothing else changes.
  ghost predicate Joined(q: Queue, q': Queue, s: Submission) {
    && s.runID !in q.records && q'.all == q.all + [s.runID] && q'.order == q.order + [s.runID]
    && q'.records.Keys == q.records.Keys + {s.runID}
    && q'.records[s.runID] == QueueRecord(s, Queued, None, None, None)
    && forall id | id in q.records :: q'.records[id] == q.records[id]
  }

  /** Exactly a well-formed, admitted submission of a run that is not known joins the line. */
  lemma SubmitVerdict(q: Queue, s: Submission, admitted: bool)
    ensures var (q', r) := Submitted(q, s, admitted);
            && (r == Err(BadRequest) <==> !WellFormed(s) || !admitted)
            && (r == Err(Conflict) <==> WellFormed(s) && admitted && s.runID in q.records)
            && (r.Err? ==> q' == q && r.error in {BadRequest, Conflict})
            && (r.Ok? ==> Joined(q, q', s) && r.value == QueueRecord(s, Queued, None, None, None))
  {
    hide WellFormed;
    if s.runID !in q.records { EnqueuedWaits(q, s); }
  }

  // The same match, game and players again, one attempt later under the run followed, and not official.
  ghost predicate Follows(s: Submission, parent: Submission, kind: RunKind, runID: Id) {
    && s.runID == runID && s.parentRunID == parent.runID && s.attemptCount == parent.attemptCount + 1
    && s.runKind == kind && !s.official
    && s.matchID == parent.matchID && s.game == parent.game && s.players == parent.players && s.outputDir == parent.outputDir
  }

  /** A retry follows exactly a failed run and a rerun exactly a completed one, if its submission is let through. */
  lemma FollowUpVerdict(q: Queue, runID: Id, kind: RunKind, newRunID: Id, admitted: bool)
    requires kind != RunKind.Initial
    ensures var (q', r) := FollowedUp(q, runID, kind, newRunID, admitted);
            var id, ends := runID.Trimming(), if kind == RunKind.Retry then Failed else Completed;
            && (r == Err(NotFound) <==> id !in q.records)
            && (r.Err? ==> q' == q && r.error in {NotFound, BadRequest, Conflict})
            && (r.Ok? ==> id in q.records && q.records[id].state == ends
                          && Follows(r.value.submission, q.records[id].submission, kind, newRunID)
                          && Joined(q, q', r.value.submission))
            && (id in q.records && q.records[id].submission.runID == id && WellFormed(q.records[id].submission) ==>
                  (r.Ok? <==> q.records[id].state == ends && admitted && !newRunID.Blank() && newRunID !in q.records))
  {
    hide Joined, Id.Trimming, Submitted;
    var id := runID.Trimming();
    if id in q.records {
      var parent := q.records[id].submission;
      SubmitVerdict(q, FollowUp(parent, kind, newRunID), admitted);
    }
  }
}
