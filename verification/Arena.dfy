/**
  The whole arena at work: any number of worker passes, operator commands, lease recoveries and
  ranking calls, interleaved call by call over one queue, one artifact store and one ranking store
  (internal/platform/service/worker.go, run_commands.go, ranking.go, store_memory.go).

  Each action is one call of one of the three stores, with two exceptions: a worker's decision to
  promote and the update that records it are one action, and so are reading the run that a retry or
  rerun follows and enqueueing it, between which nothing that is copied can change. This module has what
  holds of every run; ArenaRanking adds the ranking cache.
*/
module Arena {
  import opened Identifiers
  import opened MatchResults
  import opened RunTypes
  import opened RunQueue
  import opened QueueInvariants
  import opened Ranking
  import opened RankingLifecycle
  import opened RunControl

  // A completed official run whose update its worker has yet to write to the ranking; once it has
  // read the stored standing it holds what it read.
  datatype Credit = Credit(s: Submission, summary: Summary, read: Option<Standing>)

  // A refresh after a promotion: it reads the run's own summary, then lists the queue, then reads the
  // summaries of the listed runs one by one, and then writes the standing they add up to.
  datatype Refresh =
    | Awaited(runID: Id)
    | Scoped(scope: GameKey)
    | Counting(scope: GameKey, left: seq<QueueRecord>, st: Standing)

  // jobs holds each live pass's own copy of the run it claimed, results the summaries of those that
  // have persisted theirs. files holds the summary files, one per run, which every pass of the run
  // writes; the terminal of a completed record is what its file holds.
  datatype System = System(
    q: Queue,
    jobs: map<Id, QueueRecord>,
    results: map<Id, Summary>,
    files: map<Id, Summary>,
    credits: seq<Credit>,
    refreshes: seq<Refresh>,
    standings: Standings)

  const START := System(EMPTY, map[], map[], map[], [], [], map[])

  datatype Action =
    | Submit(s: Submission)
    | Follow(runID: Id, kind: RunKind, newRunID: Id)
    | Cancel(runID: Id)
    | Claim(job: Id, workerID: Id, now: int)
    | Advance(job: Id, to: State, now: int)
    | Persist(job: Id, summary: Summary)
    | Complete(job: Id, now: int)
    | Crash(job: Id)
    | Heartbeat(runID: Id, workerID: Id, now: int)
    | Recover(now: int, runIDs: seq<Id>)
    | Promote(runID: Id)
    | ReadRanking(at: nat)
    | WriteRanking(at: nat)
    | ReadScope(at: nat)
    | List(at: nat)
    | ReadNext(at: nat)
    | Refresh(at: nat)
    | LoseCredit(at: nat)
    | LoseRefresh(at: nat)

  // Only these credits get as far as the ranking store.
  predicate Worth(c: Credit) { c.s.official && HasBotIdentity(c.s) && BuiltUpdate(c.s, c.summary).Ok? }

  function FileScope(files: map<Id, Summary>, runID: Id): GameKey {
    NormalizeScope(if runID in files then files[runID].game else GameKey(NO_ID, NO_ID, NO_ID))
  }

  function Dropped<T>(s: seq<T>, at: nat): seq<T>
    requires at < |s|
  {
    s[..at] + s[at + 1..]
  }

  // A pass writes the summary file of its run, which a completed record refers to already.
  function Refiled(q: Queue, id: Id, summary: Summary): Queue {
    if id in q.records && q.records[id].state.Completed?
    then q.(records := q.records[id := q.records[id].(terminal := Some(summary))]) else q
  }

  // A record as its file has it now.
  function Filing(r: QueueRecord, files: map<Id, Summary>): QueueRecord {
    if r.terminal.Some? && r.submission.runID in files then r.(terminal := Some(files[r.submission.runID])) else r
  }

  function CreditWritten(standings: Standings, c: Credit): Standings {
    if Worth(c) && c.read.Some? then Put(standings, Applied(c.read.value, BuiltUpdate(c.s, c.summary).value)) else standings
  }

  // What becomes of the refresh that reads the next listed run; an update that cannot be built ends it.
  function RefreshesAfter(refreshes: seq<Refresh>, at: nat, files: map<Id, Summary>): seq<Refresh>
    requires at < |refreshes| && refreshes[at].Counting? && refreshes[at].left != []
  {
    var c := refreshes[at];
    match RecomputeStep(c.st, Filing(c.left[0], files))
    case Err(_) => Dropped(refreshes, at)
    case Ok(st) => refreshes[at := Counting(c.scope, c.left[1..], st)]
  }

  // The calls of the ranking service.
  ghost predicate RankingAllowed(a: System, act: Action) {
    match act
    case ReadRanking(at) => at < |a.credits| && Worth(a.credits[at]) && a.credits[at].read.None?
    case WriteRanking(at) => at < |a.credits| && (Worth(a.credits[at]) ==> a.credits[at].read.Some?)
    case ReadScope(at) => at < |a.refreshes| && a.refreshes[at].Awaited?
    case List(at) => at < |a.refreshes| && a.refreshes[at].Scoped?
    case ReadNext(at) => at < |a.refreshes| && a.refreshes[at].Counting? && a.refreshes[at].left != []
    case Refresh(at) => at < |a.refreshes| && a.refreshes[at].Counting? && a.refreshes[at].left == []
    case LoseCredit(at) => at < |a.credits|
    case LoseRefresh(at) => at < |a.refreshes|
    case _ => false
  }

  // What the surroundings may do: submissions come unofficial, passes have names of their own and go
  // through their stages in order, and recovery takes exactly the expired runs. A credit that cannot
  // change a ranking ends without reading one; credits and refreshes are lost with their process.
  ghost predicate Allowed(a: System, act: Action) {
    match act
    case Submit(s) => s.runKind.Initial? && !s.official
    case Follow(_, kind, _) => !kind.Initial?
    case Claim(job, _, _) => job !in a.jobs
    case Advance(job, to, _) =>
      job in a.jobs && if a.jobs[job].state.Leased? then to.Running?
                       else to.Failed? || (a.jobs[job].state.Running? && to.Persisting?)
    case Persist(job, summary) =>
      && job in a.jobs && a.jobs[job].state.Persisting?
      && summary.matchID == a.jobs[job].submission.matchID
    case Complete(job, _) => job in a.jobs && a.jobs[job].state.Persisting? && job in a.results
    case Recover(now, runIDs) => ListsRecoverable(a.q, now, runIDs)
    case Crash(_) => true
    case Heartbeat(_, _, _) => true
    case Cancel(_) => true
    case Promote(_) => true
    case _ => RankingAllowed(a, act)
  }

  ghost function RankingStep(a: System, act: Action): (b: System)
    requires RankingAllowed(a, act)
    ensures b.q == a.q && b.jobs == a.jobs && b.results == a.results && b.files == a.files
  {
    match act
    case ReadRanking(at) =>
      var c := a.credits[at];
      a.(credits := a.credits[at := c.(read := Some(StandingAt(a.standings, NormalizeScope(c.summary.game))))])
    case WriteRanking(at) =>
      a.(standings := CreditWritten(a.standings, a.credits[at]), credits := Dropped(a.credits, at))
    case ReadScope(at) =>
      a.(refreshes := a.refreshes[at := Scoped(FileScope(a.files, a.refreshes[at].runID))])
    case List(at) =>
      var scope := a.refreshes[at].scope;
      a.(refreshes := if ValidScope(scope)
                      then a.refreshes[at := Counting(scope, Listed(a.q.all, a.q.records), NewStanding(scope))]
                      else Dropped(a.refreshes, at))
    case ReadNext(at) => a.(refreshes := RefreshesAfter(a.refreshes, at, a.files))
    case Refresh(at) => a.(standings := Put(a.standings, a.refreshes[at].st), refreshes := Dropped(a.refreshes, at))
    case LoseCredit(at) => a.(credits := Dropped(a.credits, at))
    case LoseRefresh(at) => a.(refreshes := Dropped(a.refreshes, at))
  }

  ghost function Step(a: System, act: Action): System
    requires Allowed(a, act)
  {
    match act
    case Submit(s) => a.(q := Submitted(a.q, s, true).0)
    case Follow(runID, kind, newRunID) => a.(q := FollowedUp(a.q, runID, kind, newRunID, true).0)
    case Cancel(runID) => a.(q := After(a.q, Cancelled(a.q, runID)))
    case Claim(job, workerID, now) =>
      var (q, r) := Claimed(a.q, workerID, now);
      a.(q := q, jobs := if r.Ok? then a.jobs[job := r.value] else a.jobs, results := a.results - {job})
    case Advance(job, to, now) =>
      var next := a.jobs[job].(state := to);
      var r := Updated(a.q, next, now);
      a.(q := After(a.q, r), jobs := if r.Ok? && !to.Failed? then a.jobs[job := next] else a.jobs - {job})
    case Persist(job, summary) =>
      var id := a.jobs[job].submission.runID;
      a.(q := Refiled(a.q, id, summary), results := a.results[job := summary], files := a.files[id := summary])
    case Complete(job, now) =>
      var next := Finished(a.jobs[job], a.results[job], a.q.records);
      var r := Updated(a.q, Filing(next, a.files), now);
      a.(q := After(a.q, r), jobs := a.jobs - {job},
         credits := if r.Ok? && a.results[job].status.MatchCompleted? && next.submission.official
                    then a.credits + [Credit(next.submission, a.results[job], None)] else a.credits)
    case Crash(job) => a.(jobs := a.jobs - {job})
    case Heartbeat(runID, workerID, now) => a.(q := After(a.q, Renewed(a.q, runID, workerID, now)))
    case Recover(_, runIDs) => a.(q := Recovered(a.q, runIDs))
    case Promote(runID) =>
      var r := Promoted(a.q, runID);
      a.(q := After(a.q, r),
         refreshes := if r.Ok? && r.value.records[runID].terminal.Some?
                      then a.refreshes + [Awaited(runID)] else a.refreshes)
    case _ => RankingStep(a, act)
  }

  // The state after a list of actions, each allowed where it happens.
  ghost predicate Run(acts: seq<Action>)
    decreases |acts|, 0
  {
    acts == [] || (Run(acts[..|acts| - 1]) && Allowed(Reached(acts[..|acts| - 1]), acts[|acts| - 1]))
  }

  ghost function Reached(acts: seq<Action>): System
    requires Run(acts)
    decreases |acts|, 1
  {
    if acts == [] then START else Step(Reached(acts[..|acts| - 1]), acts[|acts| - 1])
  }

  // ----- How records change -----

  predicate SameRun(s: Submission, t: Submission) { s.(official := false) == t.(official := false) }

  predicate StampedWhenCompleted(r: QueueRecord) { r.completedAt.Some? <==> r.state.Completed? }

  // A run stays the run it is; a terminal state and a completion time are final.
  predicate Evolves(before: QueueRecord, after: QueueRecord) {
    && SameRun(before.submission, after.submission)
    && (before.state.Terminal() ==> after.state == before.state)
    && (before.completedAt.Some? ==> after.completedAt == before.completedAt)
    && (StampedWhenCompleted(before) ==> StampedWhenCompleted(after))
  }

  // The parent of a follow-up run: one attempt earlier, the same match, game and players, and
  // failed under a retry or completed under a rerun. An initial run is the first attempt.
  ghost predicate Rooted(records: map<Id, QueueRecord>, s: Submission) {
    if s.runKind.Initial? then s.attemptCount == 1
    else
      && s.parentRunID in records
      && var parent := records[s.parentRunID];
         && FollowUp(parent.submission, s.runKind, s.runID) == s.(official := false)
         && parent.state == (if s.runKind.Retry? then Failed else Completed)
  }

  ghost predicate Newborn(q: Queue, id: Id)
    requires id in q.records
  {
    && q.records[id].state.Queued? && q.records[id].completedAt.None? && !q.records[id].submission.official
    && q.records[id].submission.attemptCount > 0 && Rooted(q.records, q.records[id].submission)
  }

  ghost predicate Grows(q: Queue, q': Queue) {
    && (forall id | id in q.records :: id in q'.records && Evolves(q.records[id], q'.records[id]))
    && (forall id | id in q'.records && id !in q.records :: Newborn(q', id))
  }

  ghost predicate Lifecycle(q: Queue) {
    forall id | id in q.records ::
      && StampedWhenCompleted(q.records[id])
      && q.records[id].submission.attemptCount > 0
      && Rooted(q.records, q.records[id].submission)
  }

  // At most one official run per match, and only completed runs are official.
  ghost predicate Officials(q: Queue) {
    && (forall id | id in q.records && q.records[id].submission.official :: q.records[id].state.Completed?)
    && (forall id, other | id in q.records && other in q.records
          && q.records[id].submission.official && q.records[other].submission.official
          && q.records[id].submission.matchID == q.records[other].submission.matchID :: id == other)
  }

  // Each live pass holds a copy of an unofficial run of the queue, in a stage of its work.
  ghost predicate JobsKnown(q: Queue, jobs: map<Id, QueueRecord>) {
    forall job | job in jobs ::
      && jobs[job].submission.runID in q.records
      && SameRun(jobs[job].submission, q.records[jobs[job].submission.runID].submission)
      && !jobs[job].submission.official
      && jobs[job].state in {Leased, Running, Persisting}
  }

  // A completed record refers to its summary file; a file is of the match of its run, and so is what
  // a pass has persisted.
  ghost predicate Filed(q: Queue, jobs: map<Id, QueueRecord>, results: map<Id, Summary>, files: map<Id, Summary>) {
    && (forall id | id in q.records && q.records[id].state.Completed? ::
          id in files && q.records[id].terminal == Some(files[id]))
    && (forall id | id in files :: id in q.records && files[id].matchID == q.records[id].submission.matchID)
    && (forall job | job in jobs && job in results ::
          jobs[job].submission.runID in files && results[job].matchID == jobs[job].submission.matchID)
  }

  ghost predicate Sound(a: System) {
    && Indexed(a.q) && Line(a.q) && Lifecycle(a.q) && Officials(a.q) && JobsKnown(a.q, a.jobs)
    && Filed(a.q, a.jobs, a.results, a.files)
  }

  // ----- Each store call as a change of records -----

  lemma GrowsKeepsLifecycle(q: Queue, q': Queue)
    requires Grows(q, q') && Lifecycle(q)
    ensures Lifecycle(q')
  {
    hide StampedWhenCompleted;
    forall id | id in q'.records
      ensures StampedWhenCompleted(q'.records[id])
      ensures q'.records[id].submission.attemptCount > 0 && Rooted(q'.records, q'.records[id].submission)
    {
      if id in q.records { RootedStays(q, q', id); } else { NewbornStamped(q', id); }
    }
  }

  lemma NewbornStamped(q: Queue, id: Id)
    requires id in q.records && Newborn(q, id)
    ensures StampedWhenCompleted(q.records[id])
  {
  }

  lemma RootedStays(q: Queue, q': Queue, id: Id)
    requires Grows(q, q') && id in q.records && Rooted(q.records, q.records[id].submission)
    ensures Rooted(q'.records, q'.records[id].submission)
  {
    var s, s' := q.records[id].submission, q'.records[id].submission;
    assert SameRun(s, s');
    if !s.runKind.Initial? {
      assert Evolves(q.records[s.parentRunID], q'.records[s.parentRunID]);
    }
  }

  lemma SubmitGrows(q: Queue, s: Submission)
    requires s.runKind.Initial? && !s.official
    ensures Grows(q, Submitted(q, s, true).0)
  {
    hide Id.Blank;
  }

  lemma FollowGrows(q: Queue, runID: Id, kind: RunKind, newRunID: Id)
    requires Indexed(q) && Lifecycle(q) && !kind.Initial?
    ensures Grows(q, FollowedUp(q, runID, kind, newRunID, true).0)
  {
    hide Id.Blank, Id.Trimming;
    var q' := FollowedUp(q, runID, kind, newRunID, true).0;
    if q' != q { FollowNewborn(q, runID.Trimming(), FollowUp(q.records[runID.Trimming()].submission, kind, newRunID)); }
  }

  lemma FollowNewborn(q: Queue, id: Id, s: Submission)
    requires Indexed(q) && id in q.records && s.runID !in q.records && !s.runKind.Initial?
    requires s == FollowUp(q.records[id].submission, s.runKind, s.runID) && s.attemptCount > 0
    requires q.records[id].state == if s.runKind.Retry? then Failed else Completed
    ensures Newborn(Enqueued(q, s), s.runID)
  {
    assert Enqueued(q, s).records[id] == q.records[id];
  }

  lemma ClaimGrows(q: Queue, workerID: Id, now: int)
    ensures Grows(q, Claimed(q, workerID, now).0)
  {
    hide Id.Blank;
    FirstWaitingQueued(q.order, q.records);
  }

  lemma UpdateGrows(q: Queue, next: QueueRecord, now: int)
    requires next.submission.runID in q.records
    requires SameRun(next.submission, q.records[next.submission.runID].submission)
    ensures Grows(q, After(q, Updated(q, next, now)))
  {
  }

  lemma RenewGrows(q: Queue, runID: Id, workerID: Id, now: int)
    ensures Grows(q, After(q, Renewed(q, runID, workerID, now)))
  {
  }

  lemma RecoverGrows(q: Queue, now: int, runIDs: seq<Id>)
    requires ListsRecoverable(q, now, runIDs)
    ensures Grows(q, Recovered(q, runIDs))
  {
  }

  lemma PromoteGrows(q: Queue, runID: Id)
    ensures Grows(q, After(q, Promoted(q, runID)))
  {
  }

  lemma RefiledGrows(q: Queue, id: Id, summary: Summary)
    ensures Grows(q, Refiled(q, id, summary))
  {
  }

  lemma CancelGrows(q: Queue, runID: Id)
    ensures Grows(q, After(q, Cancelled(q, runID)))
  {
  }

  lemma StepGrows(a: System, act: Action)
    requires Sound(a) && Allowed(a, act)
    ensures Grows(a.q, Step(a, act).q)
  {
    hide Submitted, FollowedUp, Claimed, Updated, Renewed, Recovered, Promoted, Cancelled, Grows, Evolves, Rooted;
    hide Indexed, Line, Lifecycle, Officials, Filed, JobsKnown, Refiled, RankingStep, RankingAllowed, Finished, Filing;
    match act
    case Submit(s) => SubmitGrows(a.q, s);
    case Follow(runID, kind, newRunID) => FollowGrows(a.q, runID, kind, newRunID);
    case Cancel(runID) => CancelGrows(a.q, runID);
    case Claim(_, workerID, now) => ClaimGrows(a.q, workerID, now);
    case Advance(job, to, now) => AdvanceGrows(a, job, to, now);
    case Persist(job, summary) => RefiledGrows(a.q, a.jobs[job].submission.runID, summary);
    case Complete(job, now) => CompleteGrows(a, job, now);
    case Heartbeat(runID, workerID, now) => RenewGrows(a.q, runID, workerID, now);
    case Recover(now, runIDs) => RecoverGrows(a.q, now, runIDs);
    case Promote(runID) => PromoteGrows(a.q, runID);
    case _ => GrowsSelf(a.q);
  }

  lemma AdvanceGrows(a: System, job: Id, to: State, now: int)
    requires JobsKnown(a.q, a.jobs) && job in a.jobs
    ensures Grows(a.q, After(a.q, Updated(a.q, a.jobs[job].(state := to), now)))
  {
    hide Updated, Grows;
    UpdateGrows(a.q, a.jobs[job].(state := to), now);
  }

  lemma CompleteGrows(a: System, job: Id, now: int)
    requires JobsKnown(a.q, a.jobs) && job in a.jobs && job in a.results
    ensures var next := Filing(Finished(a.jobs[job], a.results[job], a.q.records), a.files);
            Grows(a.q, After(a.q, Updated(a.q, next, now)))
  {
    hide Updated, Grows, Finished, Filing, JobsKnown, SameRun;
    FilingSameRun(a, job);
    UpdateGrows(a.q, Filing(Finished(a.jobs[job], a.results[job], a.q.records), a.files), now);
  }

  lemma FilingSameRun(a: System, job: Id)
    requires JobsKnown(a.q, a.jobs) && job in a.jobs && job in a.results
    ensures var next := Filing(Finished(a.jobs[job], a.results[job], a.q.records), a.files);
            && next.submission.runID in a.q.records
            && SameRun(next.submission, a.q.records[next.submission.runID].submission)
  {
    hide AutoPromotes;
  }

  lemma GrowsSelf(q: Queue)
    ensures Grows(q, q)
  {
  }

  // ----- Official runs -----

  // No run becomes official, and official runs stay completed.
  ghost predicate NoNewOfficials(q: Queue, q': Queue) {
    forall id | id in q'.records && q'.records[id].submission.official ::
      && id in q.records && q.records[id].submission.official
      && q'.records[id].submission.matchID == q.records[id].submission.matchID
      && (q.records[id].state.Completed? ==> q'.records[id].state.Completed?)
  }

  lemma NoNewOfficialsKeeps(q: Queue, q': Queue)
    requires Officials(q) && NoNewOfficials(q, q')
    ensures Officials(q')
  {
  }

  lemma SubmitOfficials(q: Queue, s: Submission)
    requires !s.official
    ensures NoNewOfficials(q, Submitted(q, s, true).0)
  {
    hide Id.Blank;
  }

  lemma FollowOfficials(q: Queue, runID: Id, kind: RunKind, newRunID: Id)
    ensures NoNewOfficials(q, FollowedUp(q, runID, kind, newRunID, true).0)
  {
    hide Id.Blank, Id.Trimming, WellFormed;
  }

  lemma ClaimOfficials(q: Queue, workerID: Id, now: int)
    ensures NoNewOfficials(q, Claimed(q, workerID, now).0)
  {
    hide Id.Blank;
    FirstWaitingQueued(q.order, q.records);
  }

  lemma AdvanceOfficials(q: Queue, next: QueueRecord, now: int)
    requires !next.submission.official
    ensures NoNewOfficials(q, After(q, Updated(q, next, now)))
  {
  }

  lemma LeaseOfficials(q: Queue, c: Call)
    requires Possible(q, c) && (c.Heartbeat? || c.Recover? || c.Cancel?)
    ensures NoNewOfficials(q, Call1(q, c))
  {
  }

  lemma CompleteOfficials(q: Queue, next: QueueRecord, now: int)
    requires Officials(q) && Indexed(q) && next.submission.runID in q.records && next.state.Completed?
    requires next.submission.matchID == q.records[next.submission.runID].submission.matchID
    requires next.submission.official ==> AutoPromotes(q.records, next.submission)
    ensures Officials(After(q, Updated(q, next, now)))
  {
    var q', id := After(q, Updated(q, next, now)), next.submission.runID;
    if next.submission.official {
      forall other | other in q.records && other != id && q.records[other].submission.official
        ensures q.records[other].submission.matchID != next.submission.matchID
      {
        assert !BlocksPromotion(q.records[other], next.submission);
      }
    }
  }

  // Outside the one-step decision: an update that makes a run official on an earlier decision keeps
  // the match to one official run exactly when by then no other run of the match has become official.
  lemma LateDecisionIsSafeIff(q: Queue, next: QueueRecord, now: int)
    requires Officials(q) && Indexed(q) && next.submission.runID in q.records && next.state.Completed?
    requires next.submission.official && q.records[next.submission.runID].state.Persisting?
    requires next.submission.matchID == q.records[next.submission.runID].submission.matchID
    ensures Officials(After(q, Updated(q, next, now)))
       <==> forall id | id in q.records :: !BlocksPromotion(q.records[id], next.submission)
  {
    var q', id := After(q, Updated(q, next, now)), next.submission.runID;
    assert q'.records[id].submission == next.submission;
    forall other | other in q.records && BlocksPromotion(q.records[other], next.submission) ensures !Officials(q') {
      assert other != id && q'.records[other] == q.records[other];
    }
    if forall other | other in q.records :: !BlocksPromotion(q.records[other], next.submission) {
      forall other | other in q.records && other != id && q.records[other].submission.official
        ensures q.records[other].submission.matchID != next.submission.matchID
      {
        assert !BlocksPromotion(q.records[other], next.submission);
      }
    }
  }

  lemma RefiledOfficials(q: Queue, id: Id, summary: Summary)
    ensures NoNewOfficials(q, Refiled(q, id, summary))
  {
  }

  lemma PromoteOfficials(q: Queue, runID: Id)
    requires Officials(q)
    ensures Officials(After(q, Promoted(q, runID)))
  {
  }

  lemma StepOfficials(a: System, act: Action)
    requires Sound(a) && Allowed(a, act)
    ensures Officials(Step(a, act).q)
  {
    hide Submitted, FollowedUp, Claimed, Updated, Renewed, Recovered, Promoted, Cancelled, Officials, NoNewOfficials;
    hide Indexed, Line, Lifecycle, JobsKnown, Finished, Filed, Refiled, RankingStep, RankingAllowed;
    var q' := Step(a, act).q;
    match act {
      case Submit(s) => SubmitOfficials(a.q, s);
      case Follow(runID, kind, newRunID) => FollowOfficials(a.q, runID, kind, newRunID);
      case Cancel(runID) => LeaseOfficials(a.q, Call.Cancel(runID));
      case Claim(_, workerID, now) => ClaimOfficials(a.q, workerID, now);
      case Advance(job, to, now) =>
        JobKnown(a.q, a.jobs, job);
        AdvanceOfficials(a.q, a.jobs[job].(state := to), now);
      case Persist(job, summary) => RefiledOfficials(a.q, a.jobs[job].submission.runID, summary);
      case Complete(job, now) =>
        FinishedDecides(a, job, a.results[job]);
        CompleteOfficials(a.q, Filing(Finished(a.jobs[job], a.results[job], a.q.records), a.files), now);
      case Heartbeat(runID, workerID, now) => LeaseOfficials(a.q, Call.Heartbeat(runID, workerID, now));
      case Recover(now, runIDs) => LeaseOfficials(a.q, Call.Recover(now, runIDs));
      case Promote(runID) => PromoteOfficials(a.q, runID);
      case _ => NoChangeOfficials(a.q);
    }
    if !(act.Complete? || act.Promote?) { NoNewOfficialsKeeps(a.q, q'); }
  }

  lemma NoChangeOfficials(q: Queue)
    ensures NoNewOfficials(q, q)
  {
  }

  // The decision is the one of the run's own submission.
  lemma FinishedDecides(a: System, job: Id, summary: Summary)
    requires JobsKnown(a.q, a.jobs) && job in a.jobs
    ensures var next := Finished(a.jobs[job], summary, a.q.records);
            && next.submission.runID in a.q.records && next.state.Completed?
            && next.submission.matchID == a.q.records[next.submission.runID].submission.matchID
            && (next.submission.official ==> AutoPromotes(a.q.records, next.submission))
  {
  }

  // ----- Passes -----

  lemma GrowsKeepsJobs(q: Queue, q': Queue, jobs: map<Id, QueueRecord>)
    requires Grows(q, q') && JobsKnown(q, jobs)
    ensures JobsKnown(q', jobs)
  {
  }

  lemma ClaimedJob(q: Queue, workerID: Id, now: int)
    requires Indexed(q) && Officials(q) && Claimed(q, workerID, now).1.Ok?
    ensures var (q', r) := Claimed(q, workerID, now);
            && r.value.submission.runID in q'.records && q'.records[r.value.submission.runID] == r.value
            && r.value.state.Leased? && !r.value.submission.official
  {
    hide Id.Blank;
    FirstWaitingQueued(q.order, q.records);
  }

  lemma StepJobs(a: System, act: Action)
    requires Sound(a) && Allowed(a, act)
    ensures JobsKnown(Step(a, act).q, Step(a, act).jobs)
  {
    hide Claimed, Grows, Line, Lifecycle, Officials, Indexed, Updated, Submitted, FollowedUp, Finished, JobsKnown, Filed;
    hide RankingStep, RankingAllowed;
    var a' := Step(a, act);
    StepGrows(a, act);
    GrowsKeepsJobs(a.q, a'.q, a.jobs);
    match act
    case Claim(job, workerID, now) =>
      if Claimed(a.q, workerID, now).1.Ok? {
        ClaimedJob(a.q, workerID, now);
        JobAdded(a'.q, a.jobs, job, Claimed(a.q, workerID, now).1.value);
      }
    case Advance(job, to, _) =>
      JobDropped(a'.q, a.jobs, job);
      if !to.Failed? {
        JobKnown(a'.q, a.jobs, job);
        JobAdded(a'.q, a.jobs, job, a.jobs[job].(state := to));
      }
    case Complete(job, _) => JobDropped(a'.q, a.jobs, job);
    case Crash(job) => JobDropped(a'.q, a.jobs, job);
    case _ =>
  }

  lemma JobKnown(q: Queue, jobs: map<Id, QueueRecord>, job: Id)
    requires JobsKnown(q, jobs) && job in jobs
    ensures jobs[job].submission.runID in q.records && !jobs[job].submission.official
    ensures SameRun(jobs[job].submission, q.records[jobs[job].submission.runID].submission)
  {
  }

  lemma JobAdded(q: Queue, jobs: map<Id, QueueRecord>, job: Id, r: QueueRecord)
    requires JobsKnown(q, jobs) && r.submission.runID in q.records && !r.submission.official
    requires SameRun(r.submission, q.records[r.submission.runID].submission)
    requires r.state in {Leased, Running, Persisting}
    ensures JobsKnown(q, jobs[job := r])
  {
    hide SameRun;
  }

  lemma JobDropped(q: Queue, jobs: map<Id, QueueRecord>, job: Id)
    requires JobsKnown(q, jobs)
    ensures JobsKnown(q, jobs - {job})
  {
    hide SameRun;
  }

  // ----- Summary files -----

  // Completed runs keep their summaries, and none is new.
  ghost predicate KeepsTerminals(q: Queue, q': Queue) {
    && (forall id | id in q.records ::
          id in q'.records && q'.records[id].submission.matchID == q.records[id].submission.matchID)
    && (forall id | id in q'.records && q'.records[id].state.Completed? ::
          id in q.records && q.records[id].state.Completed? && q'.records[id].terminal == q.records[id].terminal)
  }

  lemma SubmittedTerminals(q: Queue, s: Submission)
    ensures KeepsTerminals(q, Submitted(q, s, true).0)
  {
    hide WellFormed, Id.Blank;
  }

  lemma FollowedTerminals(q: Queue, runID: Id, kind: RunKind, newRunID: Id)
    ensures KeepsTerminals(q, FollowedUp(q, runID, kind, newRunID, true).0)
  {
    hide WellFormed, Id.Trimming, Id.Blank;
  }

  lemma ClaimedTerminals(q: Queue, workerID: Id, now: int)
    ensures KeepsTerminals(q, Claimed(q, workerID, now).0)
  {
    hide Id.Blank;
    FirstWaitingQueued(q.order, q.records);
  }

  lemma CallTerminals(q: Queue, c: Call)
    requires Possible(q, c) && (c.Heartbeat? || c.Recover? || c.Cancel?)
    ensures KeepsTerminals(q, Call1(q, c))
  {
  }

  lemma PromoteTerminals(q: Queue, runID: Id)
    ensures KeepsTerminals(q, After(q, Promoted(q, runID)))
  {
  }

  lemma AdvancedTerminals(q: Queue, next: QueueRecord, now: int)
    requires !next.state.Completed? && next.submission.runID in q.records
    requires next.submission.matchID == q.records[next.submission.runID].submission.matchID
    ensures KeepsTerminals(q, After(q, Updated(q, next, now)))
  {
  }

  lemma SelfTerminals(q: Queue)
    ensures KeepsTerminals(q, q)
  {
  }

  lemma StepTerminals(a: System, act: Action)
    requires Sound(a) && Allowed(a, act) && !(act.Persist? || act.Complete?)
    ensures KeepsTerminals(a.q, Step(a, act).q)
  {
    hide Submitted, FollowedUp, Claimed, Updated, Renewed, Recovered, Promoted, Cancelled, KeepsTerminals, Filed;
    hide Indexed, Line, Lifecycle, Officials, RankingStep, RankingAllowed, Finished, Filing, Refiled;
    match act
    case Submit(s) => SubmittedTerminals(a.q, s);
    case Follow(runID, kind, newRunID) => FollowedTerminals(a.q, runID, kind, newRunID);
    case Cancel(runID) => CallTerminals(a.q, Call.Cancel(runID));
    case Claim(_, workerID, now) => ClaimedTerminals(a.q, workerID, now);
    case Advance(job, to, now) => AdvancedTerminals(a.q, a.jobs[job].(state := to), now);
    case Heartbeat(runID, workerID, now) => CallTerminals(a.q, Call.Heartbeat(runID, workerID, now));
    case Recover(now, runIDs) => CallTerminals(a.q, Call.Recover(now, runIDs));
    case Promote(runID) => PromoteTerminals(a.q, runID);
    case _ => SelfTerminals(a.q);
  }

  lemma KeptFiled(
      q: Queue, q': Queue, jobs: map<Id, QueueRecord>, jobs': map<Id, QueueRecord>,
      results: map<Id, Summary>, results': map<Id, Summary>, files: map<Id, Summary>)
    requires Filed(q, jobs, results, files) && KeepsTerminals(q, q')
    requires forall job | job in jobs' && job in results' ::
               job in jobs && job in results && results'[job] == results[job]
               && SameRun(jobs'[job].submission, jobs[job].submission)
    ensures Filed(q', jobs', results', files)
  {
    hide SameRun;
    forall job | job in jobs' && job in results'
      ensures jobs'[job].submission.runID in files && results'[job].matchID == jobs'[job].submission.matchID
    {
      SameRunIds(jobs'[job].submission, jobs[job].submission);
    }
  }

  lemma SameRunIds(s: Submission, t: Submission)
    requires SameRun(s, t)
    ensures s.runID == t.runID && s.matchID == t.matchID
  {
    assert s.(official := false).runID == t.(official := false).runID;
    assert s.(official := false).matchID == t.(official := false).matchID;
  }

  lemma RefiledFiled(a: System, job: Id, summary: Summary)
    requires JobsKnown(a.q, a.jobs) && Filed(a.q, a.jobs, a.results, a.files)
    requires job in a.jobs && summary.matchID == a.jobs[job].submission.matchID
    ensures var id := a.jobs[job].submission.runID;
            Filed(Refiled(a.q, id, summary), a.jobs, a.results[job := summary], a.files[id := summary])
  {
    JobKnown(a.q, a.jobs, job);
    SameRunIds(a.jobs[job].submission, a.q.records[a.jobs[job].submission.runID].submission);
  }

  lemma CompletedFiled(a: System, job: Id, now: int)
    requires JobsKnown(a.q, a.jobs) && Filed(a.q, a.jobs, a.results, a.files) && Allowed(a, Complete(job, now))
    ensures var q' := Step(a, Complete(job, now)).q; Filed(q', a.jobs - {job}, a.results, a.files)
  {
    hide AutoPromotes, RankingStep;
    JobKnown(a.q, a.jobs, job);
    SameRunIds(a.jobs[job].submission, a.q.records[a.jobs[job].submission.runID].submission);
  }

  lemma StepFiles(a: System, act: Action)
    requires Sound(a) && Allowed(a, act)
    ensures var a' := Step(a, act); Filed(a'.q, a'.jobs, a'.results, a'.files)
  {
    hide Submitted, FollowedUp, Claimed, Updated, Renewed, Recovered, Promoted, Cancelled, KeepsTerminals, Filed, Refiled;
    hide Indexed, Line, Lifecycle, Officials, JobsKnown, Finished, RankingStep, RankingAllowed;
    if act.Persist? { RefiledFiled(a, act.job, act.summary); }
    else if act.Complete? { CompletedFiled(a, act.job, act.now); }
    else {
      var a' := Step(a, act);
      StepTerminals(a, act);
      KeptFiled(a.q, a'.q, a.jobs, a'.jobs, a.results, a'.results, a.files);
    }
  }

  // ----- Every run -----

  lemma StepIndex(a: System, act: Action)
    requires Sound(a) && Allowed(a, act)
    ensures Indexed(Step(a, act).q) && Line(Step(a, act).q)
  {
    hide Indexed, Line, Lifecycle, Officials, Call1, JobsKnown, Filed, Refiled, RankingStep, RankingAllowed;
    hide Submitted, FollowedUp, Claimed, Updated, Renewed, Recovered, Promoted, Cancelled;
    match act
    case Submit(s) => EnqueueIndex(a.q, s);
    case Follow(runID, kind, newRunID) => FollowIndex(a.q, runID, kind, newRunID);
    case Cancel(runID) => OneCall(a.q, Call.Cancel(runID));
    case Claim(_, workerID, now) => OneCall(a.q, Call.Claim(workerID, now));
    case Advance(job, to, now) => OneCall(a.q, Call.Update(a.jobs[job].(state := to), now));
    case Persist(job, summary) => RefiledIndex(a.q, a.jobs[job].submission.runID, summary);
    case Complete(job, now) =>
      OneCall(a.q, Call.Update(Filing(Finished(a.jobs[job], a.results[job], a.q.records), a.files), now));
    case Heartbeat(runID, workerID, now) => OneCall(a.q, Call.Heartbeat(runID, workerID, now));
    case Recover(now, runIDs) => OneCall(a.q, Call.Recover(now, runIDs));
    case Promote(runID) => OneCall(a.q, Call.Promote(runID));
    case _ =>
  }

  lemma RefiledIndex(q: Queue, id: Id, summary: Summary)
    requires Indexed(q) && Line(q)
    ensures Indexed(Refiled(q, id, summary)) && Line(Refiled(q, id, summary))
  {
  }

  lemma OneCall(q: Queue, c: Call)
    requires Indexed(q) && Line(q) && Possible(q, c) && WorkerCall(c)
    ensures Indexed(Call1(q, c)) && Line(Call1(q, c))
    ensures Call1(q, c) == match c
                           case Claim(w, t) => Claimed(q, w, t).0
                           case Update(next, t) => After(q, Updated(q, next, t))
                           case Cancel(id) => After(q, Cancelled(q, id))
                           case Heartbeat(id, w, t) => After(q, Renewed(q, id, w, t))
                           case Recover(_, ids) => Recovered(q, ids)
                           case Promote(id) => After(q, Promoted(q, id))
                           case Enqueue(s) => if s.runID.Blank() || s.runID in q.records then q else Enqueued(q, s)
  {
    hide Claimed, Updated, Cancelled, Renewed, Recovered, Promoted, Enqueued, Id.Blank, Indexed, Line;
    CallKeepsIndexed(q, c);
    CallKeepsLine(q, c);
  }

  lemma EnqueueIndex(q: Queue, s: Submission)
    requires Indexed(q) && Line(q)
    ensures Indexed(Submitted(q, s, true).0) && Line(Submitted(q, s, true).0)
  {
    hide Indexed, Line, Id.Blank;
    OneCall(q, Call.Enqueue(s));
  }

  lemma FollowIndex(q: Queue, runID: Id, kind: RunKind, newRunID: Id)
    requires Indexed(q) && Line(q)
    ensures Indexed(FollowedUp(q, runID, kind, newRunID, true).0) && Line(FollowedUp(q, runID, kind, newRunID, true).0)
  {
    hide Indexed, Line, Submitted, Id.Trimming;
    if runID.Trimming() in q.records {
      EnqueueIndex(q, FollowUp(q.records[runID.Trimming()].submission, kind, newRunID));
    }
  }

  lemma StepKeepsSound(a: System, act: Action)
    requires Sound(a) && Allowed(a, act)
    ensures Sound(Step(a, act))
  {
    hide Indexed, Line, Lifecycle, Officials, JobsKnown, Filed, Grows, Step, Allowed;
    StepFiles(a, act);
    StepIndex(a, act);
    StepGrows(a, act);
    StepOfficials(a, act);
    StepJobs(a, act);
    GrowsKeepsLifecycle(a.q, Step(a, act).q);
  }

  lemma {:induction false} RunIsSound(acts: seq<Action>)
    requires Run(acts)
    ensures Sound(Reached(acts))
  {
    hide Step, Allowed;
    if acts == [] {
      StartIsSound();
    } else {
      RunIsSound(acts[..|acts| - 1]);
      StepKeepsSound(Reached(acts[..|acts| - 1]), acts[|acts| - 1]);
    }
  }

  lemma StartIsSound()
    ensures Sound(START)
  {
  }

  // Safety of every run: no two runs of a match are official, every official run is completed, the
  // line holds exactly the waiting runs, each once, and the insertion index lists every run once.
  lemma OneOfficialAndExactLine(acts: seq<Action>)
    requires Run(acts)
    ensures var q := Reached(acts).q;
            && (forall id | id in q.records && q.records[id].submission.official :: q.records[id].state.Completed?)
            && (forall id, other | id in q.records && other in q.records
                  && q.records[id].submission.official && q.records[other].submission.official
                  && q.records[id].submission.matchID == q.records[other].submission.matchID :: id == other)
            && Distinct(q.order) && Distinct(q.all)
            && (forall id :: id in q.order <==> id in q.records && q.records[id].state.Queued?)
            && (forall id :: id in q.all <==> id in q.records)
  {
    hide Reached, Run;
    RunIsSound(acts);
  }

  function Ancestor(records: map<Id, QueueRecord>, id: Id, n: nat): Id
    decreases n
  {
    if n == 0 || id !in records then id else Ancestor(records, records[id].submission.parentRunID, n - 1)
  }

  predicate SameMatch(s: Submission, t: Submission) {
    s.matchID == t.matchID && s.game == t.game && s.players == t.players
  }

  // The k-th ancestor is a run of the same match, and the initial one exactly when k is the last.
  ghost predicate Descends(records: map<Id, QueueRecord>, id: Id, k: nat)
    requires id in records
  {
    var s, up := records[id].submission, Ancestor(records, id, k);
    up in records && SameMatch(records[up].submission, s)
    && (records[up].submission.runKind.Initial? <==> k == s.attemptCount - 1)
  }

  lemma ParentOf(q: Queue, id: Id)
    requires Lifecycle(q) && id in q.records
    ensures var s := q.records[id].submission;
            if s.runKind.Initial? then s.attemptCount == 1
            else
              && s.parentRunID in q.records && SameMatch(q.records[s.parentRunID].submission, s)
              && s.attemptCount == q.records[s.parentRunID].submission.attemptCount + 1 >= 2
  {
    var s := q.records[id].submission;
    assert Rooted(q.records, s);
    if !s.runKind.Initial? {
      assert FollowUp(q.records[s.parentRunID].submission, s.runKind, s.runID) == s.(official := false);
      assert q.records[s.parentRunID].submission.attemptCount > 0;
    }
  }

  lemma {:induction false} ParentsLeadToRoot(q: Queue, id: Id, k: nat)
    requires Lifecycle(q) && id in q.records && k < q.records[id].submission.attemptCount
    ensures Descends(q.records, id, k)
    decreases k
  {
    hide Lifecycle;
    ParentOf(q, id);
    if k > 0 { ParentsLeadToRoot(q, q.records[id].submission.parentRunID, k - 1); }
  }

  // In every run, following parents from a run reaches an initial run in exactly attemptCount - 1
  // steps, through runs of the same match, game and players.
  lemma RunTree(acts: seq<Action>, id: Id)
    requires Run(acts) && id in Reached(acts).q.records
    ensures Reached(acts).q.records[id].submission.attemptCount >= 1
    ensures forall k: nat | k < Reached(acts).q.records[id].submission.attemptCount ::
              Descends(Reached(acts).q.records, id, k)
  {
    hide Run, Reached, Descends, Rooted;
    RunIsSound(acts);
    var q := Reached(acts).q;
    forall k: nat | k < q.records[id].submission.attemptCount ensures Descends(q.records, id, k) {
      ParentsLeadToRoot(q, id, k);
    }
  }

  lemma {:induction false} RunPrefix(acts: seq<Action>, n: nat)
    requires Run(acts) && n <= |acts|
    ensures Run(acts[..n])
  {
    if n == |acts| {
      assert acts[..n] == acts;
    } else {
      assert acts[..|acts| - 1][..n] == acts[..n];
      RunPrefix(acts[..|acts| - 1], n);
    }
  }

  lemma {:induction false} RecordsEvolve(acts: seq<Action>, n: nat, id: Id)
    requires Run(acts) && n <= |acts| && Run(acts[..n]) && id in Reached(acts[..n]).q.records
    ensures id in Reached(acts).q.records
    ensures Evolves(Reached(acts[..n]).q.records[id], Reached(acts).q.records[id])
  {
    hide Step, Allowed, Sound;
    if n == |acts| {
      assert acts[..n] == acts;
    } else {
      var front := acts[..|acts| - 1];
      assert front[..n] == acts[..n];
      RecordsEvolve(front, n, id);
      RunIsSound(front);
      StepGrows(Reached(front), acts[|acts| - 1]);
    }
  }

  // From any moment of a run on: a terminal run keeps its state, a completion time is set exactly
  // on completed runs and never changes, and a retry's parent stays failed, a rerun's completed.
  lemma TerminalIsFinal(acts: seq<Action>, n: nat, id: Id)
    requires Run(acts) && n <= |acts| && Run(acts[..n]) && id in Reached(acts[..n]).q.records
    ensures id in Reached(acts).q.records
    ensures var before, now := Reached(acts[..n]).q.records[id], Reached(acts).q.records[id];
            && SameRun(before.submission, now.submission)
            && (before.state.Terminal() ==> now.state == before.state && now.completedAt == before.completedAt)
            && (now.completedAt.Some? <==> now.state.Completed?)
    ensures var s := Reached(acts[..n]).q.records[id].submission;
            !s.runKind.Initial? ==>
              && s.parentRunID in Reached(acts).q.records
              && Reached(acts).q.records[s.parentRunID].state == if s.runKind.Retry? then Failed else Completed
  {
    hide Run, Reached, Indexed, Line, Officials, JobsKnown;
    RecordsEvolve(acts, n, id);
    RunIsSound(acts);
    RunIsSound(acts[..n]);
    var before, now := Reached(acts[..n]).q.records, Reached(acts).q.records;
    assert StampedWhenCompleted(before[id]) && StampedWhenCompleted(now[id]);
    assert Rooted(now, now[id].submission) && Rooted(before, before[id].submission);
  }
}
