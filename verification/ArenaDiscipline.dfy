/**
  What the service around the queue does to meet the conditions of RankingCache by itself: one worker
  loop that recovers leases between its own passes (internal/platform/service/worker_loop.go), runners
  that report the game they were asked to run, and matches whose submissions agree. What it does not
  do by itself stays a condition: ranking calls of one scope come one after the other, and none is lost.
*/
module ArenaDiscipline {
  import opened Identifiers
  import opened RunTypes
  import opened RunQueue
  import opened QueueInvariants
  import opened Ranking
  import opened RankingLifecycle
  import opened RunControl
  import opened Arena
  import opened RankedRuns
  import opened RankingCache
  import opened ArenaRanking

  // Two submissions of one match are ranked in one scope, or not at all.
  predicate Peers(s: Submission, t: Submission) {
    NormalizeScope(s.game) == NormalizeScope(t.game) && (HasBotIdentity(s) <==> HasBotIdentity(t))
  }

  // Nothing the queue knows about the match contradicts the submission.
  ghost predicate JoinsPeers(q: Queue, s: Submission) {
    forall id | id in q.records && q.records[id].submission.matchID == s.matchID :: Peers(q.records[id].submission, s)
  }

  ghost predicate Disciplined(a: System, act: Action) {
    && Allowed(a, act)
    && match act
       case Submit(s) => JoinsPeers(a.q, s) && TrimmedPlayers(s.players)
       case Persist(job, summary) => NormalizeScope(summary.game) == NormalizeScope(a.jobs[job].submission.game)
       case Recover(_, _) => a.jobs == map[]
       case ReadRanking(at) => Free(a, CreditScope(a.credits[at]))
       case List(at) => Free(a, a.refreshes[at].scope)
       case LoseCredit(_) => false
       case LoseRefresh(_) => false
       case _ => true
  }

  ghost predicate DisciplinedRun(acts: seq<Action>)
    decreases acts
  {
    Run(acts) && (acts == []
                  || (DisciplinedRun(acts[..|acts| - 1]) && Disciplined(Reached(acts[..|acts| - 1]), acts[|acts| - 1])))
  }

  // ----- The invariant -----

  // No two passes hold one run, and the queue agrees on how far each pass has come.
  ghost predicate Held(q: Queue, jobs: map<Id, QueueRecord>) {
    && (forall job | job in jobs ::
          && jobs[job].submission.runID in q.records
          && q.records[jobs[job].submission.runID].state == jobs[job].state)
    && (forall job, other | job in jobs && other in jobs
          && jobs[job].submission.runID == jobs[other].submission.runID :: job == other)
  }

  ghost predicate Homogeneous(q: Queue) {
    forall id, other | id in q.records && other in q.records
      && q.records[id].submission.matchID == q.records[other].submission.matchID ::
        Peers(q.records[id].submission, q.records[other].submission)
  }

  // Every summary file names the game its run was asked to play, and is the one its pass persisted.
  ghost predicate OwnGames(q: Queue, files: map<Id, Summary>) {
    forall id | id in files ::
      id in q.records && NormalizeScope(files[id].game) == NormalizeScope(q.records[id].submission.game)
  }

  ghost predicate OwnFiles(jobs: map<Id, QueueRecord>, results: map<Id, Summary>, files: map<Id, Summary>) {
    forall job | job in jobs && job in results ::
      jobs[job].submission.runID in files && files[jobs[job].submission.runID] == results[job]
  }

  ghost predicate Tended(a: System) {
    Held(a.q, a.jobs) && Homogeneous(a.q) && OwnGames(a.q, a.files) && OwnFiles(a.jobs, a.results, a.files)
  }

  // ----- Matches stay homogeneous -----

  lemma SameRunPeers(s: Submission, t: Submission)
    requires SameRun(s, t)
    ensures Peers(s, t) && s.matchID == t.matchID && s.game == t.game
  {
    var s', t' := s.(official := false), t.(official := false);
    assert s'.matchID == t'.matchID && s'.players == t'.players && s'.game == t'.game;
  }

  lemma PeersOfPeers(s: Submission, s': Submission, t: Submission, t': Submission)
    requires Peers(s, t) && SameRun(s, s') && SameRun(t, t')
    ensures Peers(s', t')
  {
    SameRunPeers(s, s');
    SameRunPeers(t, t');
  }

  lemma SamePeers(q: Queue, q': Queue)
    requires SameRuns(q, q') && Homogeneous(q) && q'.records.Keys == q.records.Keys
    ensures Homogeneous(q')
  {
    hide Peers, SameRun;
    forall id, other | id in q'.records && other in q'.records
      && q'.records[id].submission.matchID == q'.records[other].submission.matchID
      ensures Peers(q'.records[id].submission, q'.records[other].submission)
    {
      SameRunPeers(q.records[id].submission, q'.records[id].submission);
      SameRunPeers(q.records[other].submission, q'.records[other].submission);
      PeersOfPeers(q.records[id].submission, q'.records[id].submission,
                   q.records[other].submission, q'.records[other].submission);
    }
  }

  lemma EnqueuedPeers(q: Queue, s: Submission)
    requires Homogeneous(q) && JoinsPeers(q, s)
    ensures Homogeneous(Enqueued(q, s))
  {
    assert forall t: Submission, u: Submission :: Peers(t, u) ==> Peers(u, t);
    assert Peers(s, s);
    hide Peers;
  }

  lemma FollowedPeers(q: Queue, runID: Id, kind: RunKind, newRunID: Id)
    requires Homogeneous(q)
    ensures Homogeneous(FollowedUp(q, runID, kind, newRunID, true).0)
  {
    hide WellFormed, Id.Trimming, Homogeneous;
    var q' := FollowedUp(q, runID, kind, newRunID, true).0;
    if q' != q {
      var s := FollowUp(q.records[runID.Trimming()].submission, kind, newRunID);
      FollowerJoins(q, runID.Trimming(), s);
      EnqueuedPeers(q, s);
    }
  }

  lemma FollowerJoins(q: Queue, id: Id, s: Submission)
    requires Homogeneous(q) && id in q.records && SameMatch(s, q.records[id].submission)
    ensures JoinsPeers(q, s)
  {
    hide NormalizeScope;
    forall other | other in q.records && q.records[other].submission.matchID == s.matchID
      ensures Peers(q.records[other].submission, s)
    {
      assert Peers(q.records[other].submission, q.records[id].submission);
    }
  }

  lemma SubmittedPeers(q: Queue, s: Submission)
    requires Homogeneous(q) && JoinsPeers(q, s)
    ensures Homogeneous(Submitted(q, s, true).0)
  {
    hide WellFormed, Homogeneous, JoinsPeers;
    EnqueuedPeers(q, s);
  }

  lemma StepHomogeneous(a: System, act: Action)
    requires Sound(a) && Homogeneous(a.q) && Disciplined(a, act)
    ensures Homogeneous(Step(a, act).q)
  {
    hide Submitted, FollowedUp, Claimed, Updated, Renewed, Recovered, Promoted, Cancelled, Grows, Homogeneous, JoinsPeers;
    hide Sound, Finished, NormalizeScope, SameRuns, RankingStep, RankingAllowed, Refiled, Filing, Free;
    if act.Submit? { SubmittedPeers(a.q, act.s); }
    else if act.Follow? { FollowedPeers(a.q, act.runID, act.kind, act.newRunID); }
    else {
      StepGrows(a, act);
      StepKeys(a, act);
      hide Step;
      GrowsSameRuns(a.q, Step(a, act).q);
      SamePeers(a.q, Step(a, act).q);
    }
  }

  // ----- Passes keep their runs -----

  // Runs in a stage of work keep their state.
  ghost predicate Undisturbed(q: Queue, q': Queue, runs: set<Id>) {
    forall id | id in runs && id in q.records && q.records[id].state in {Leased, Running, Persisting} ::
      id in q'.records && q'.records[id].state == q.records[id].state
  }

  ghost function RunsHeld(jobs: map<Id, QueueRecord>): set<Id> { set job | job in jobs :: jobs[job].submission.runID }

  lemma UndisturbedHeld(q: Queue, q': Queue, jobs: map<Id, QueueRecord>)
    requires Held(q, jobs) && JobsKnown(q, jobs) && Undisturbed(q, q', RunsHeld(jobs))
    ensures Held(q', jobs)
  {
    forall job | job in jobs
      ensures jobs[job].submission.runID in q'.records && q'.records[jobs[job].submission.runID].state == jobs[job].state
    {
      assert jobs[job].submission.runID in RunsHeld(jobs);
    }
  }

  lemma EnqueuedUndisturbed(q: Queue, s: Submission, runs: set<Id>)
    ensures Undisturbed(q, Submitted(q, s, true).0, runs)
  {
    hide WellFormed;
  }

  lemma FollowedUndisturbed(q: Queue, runID: Id, kind: RunKind, newRunID: Id, runs: set<Id>)
    ensures Undisturbed(q, FollowedUp(q, runID, kind, newRunID, true).0, runs)
  {
    hide WellFormed, Id.Trimming;
  }

  lemma CallUndisturbed(q: Queue, c: Call, runs: set<Id>)
    requires c.Heartbeat? || c.Cancel? || c.Promote? || (c.Recover? && forall id | id in runs :: id !in c.runIDs)
    ensures Undisturbed(q, Call1(q, c), runs)
  {
  }

  lemma ClaimHeld(q: Queue, workerID: Id, now: int, jobs: map<Id, QueueRecord>, job: Id)
    requires Indexed(q) && Officials(q) && Held(q, jobs) && JobsKnown(q, jobs) && job !in jobs
    ensures var (q', r) := Claimed(q, workerID, now);
            Held(q', if r.Ok? then jobs[job := r.value] else jobs)
  {
    hide Claimed, Indexed, Officials, Held, JobsKnown;
    ClaimChanges(q, workerID, now);
    var (q', r) := Claimed(q, workerID, now);
    if r.Ok? { TakenHeld(q, q', jobs, job, r.value); } else { SameHeld(q, q', jobs); }
  }

  lemma TakenHeld(q: Queue, q': Queue, jobs: map<Id, QueueRecord>, job: Id, record: QueueRecord)
    requires Held(q, jobs) && JobsKnown(q, jobs) && job !in jobs
    requires record.submission.runID in q.records && q.records[record.submission.runID].state.Queued?
    requires q'.records == q.records[record.submission.runID := record]
    ensures Held(q', jobs[job := record])
  {
  }

  lemma SameHeld(q: Queue, q': Queue, jobs: map<Id, QueueRecord>)
    requires Held(q, jobs) && q'.records == q.records
    ensures Held(q', jobs)
  {
  }

  lemma ClaimChanges(q: Queue, workerID: Id, now: int)
    requires Indexed(q)
    ensures var (q', r) := Claimed(q, workerID, now);
            if r.Err? then q'.records == q.records
            else
              var id := r.value.submission.runID;
              && id in q.records && q.records[id].state.Queued? && r.value.state.Leased?
              && q'.records == q.records[id := r.value]
  {
    hide Id.Blank;
    FirstWaitingQueued(q.order, q.records);
  }

  // One pass writes its own run; the runs of the others are other runs.
  lemma UpdateHeld(q: Queue, jobs: map<Id, QueueRecord>, job: Id, next: QueueRecord, now: int)
    requires Held(q, jobs) && JobsKnown(q, jobs) && job in jobs
    requires next.submission.runID == jobs[job].submission.runID
    ensures Held(After(q, Updated(q, next, now)), jobs - {job})
    ensures Updated(q, next, now).Ok? ==> Held(After(q, Updated(q, next, now)), jobs[job := next])
  {
  }

  lemma DropHeld(q: Queue, jobs: map<Id, QueueRecord>, job: Id)
    requires Held(q, jobs)
    ensures Held(q, jobs - {job})
  {
  }

  lemma RefiledUndisturbed(q: Queue, id: Id, summary: Summary, runs: set<Id>)
    ensures Undisturbed(q, Refiled(q, id, summary), runs)
  {
  }

  // The actions of a pass on its own run.
  predicate OfPass(act: Action) { act.Claim? || act.Advance? || act.Complete? || act.Crash? }

  lemma StepHeld(a: System, act: Action)
    requires Sound(a) && Held(a.q, a.jobs) && Disciplined(a, act)
    ensures Held(Step(a, act).q, Step(a, act).jobs)
  {
    hide Held, Sound, Disciplined, Step, Allowed;
    DisciplinedIsAllowed(a, act);
    if OfPass(act) { PassHeld(a, act); } else { CallHeld(a, act); }
  }

  lemma PassHeld(a: System, act: Action)
    requires Sound(a) && Held(a.q, a.jobs) && Allowed(a, act) && OfPass(act)
    ensures Held(Step(a, act).q, Step(a, act).jobs)
  {
    hide Claimed, Updated, Held, Finished, Filing, Indexed, Line, Lifecycle, Officials, JobsKnown, Filed, RankingStep;
    hide RankingAllowed;
    match act
    case Claim(job, workerID, now) => ClaimHeld(a.q, workerID, now, a.jobs, job);
    case Advance(job, to, now) => UpdateHeld(a.q, a.jobs, job, a.jobs[job].(state := to), now);
    case Complete(job, now) => CompletedHeld(a, job, now);
    case Crash(job) => DropHeld(a.q, a.jobs, job);
    case _ =>
  }

  lemma CallHeld(a: System, act: Action)
    requires Sound(a) && Held(a.q, a.jobs) && Disciplined(a, act) && !OfPass(act)
    ensures Held(Step(a, act).q, Step(a, act).jobs)
  {
    hide Submitted, FollowedUp, Renewed, Recovered, Promoted, Cancelled, Held, Refiled;
    hide Indexed, Line, Lifecycle, Officials, JobsKnown, Undisturbed, Filed, RankingStep, RankingAllowed, Free, JoinsPeers;
    var q, runs := a.q, RunsHeld(a.jobs);
    match act {
      case Submit(s) => EnqueuedUndisturbed(q, s, runs);
      case Follow(runID, kind, newRunID) => FollowedUndisturbed(q, runID, kind, newRunID, runs);
      case Cancel(runID) => CallUndisturbed(q, Call.Cancel(runID), runs);
      case Persist(job, summary) => RefiledUndisturbed(q, a.jobs[job].submission.runID, summary, runs);
      case Heartbeat(runID, workerID, now) => CallUndisturbed(q, Call.Heartbeat(runID, workerID, now), runs);
      case Recover(now, runIDs) => CallUndisturbed(q, Call.Recover(now, runIDs), runs);
      case Promote(runID) => CallUndisturbed(q, Call.Promote(runID), runs);
      case _ => SelfUndisturbed(q, runs);
    }
    UndisturbedHeld(q, Step(a, act).q, a.jobs);
  }

  lemma SelfUndisturbed(q: Queue, runs: set<Id>)
    ensures Undisturbed(q, q, runs)
  {
  }

  lemma CompletedHeld(a: System, job: Id, now: int)
    requires Held(a.q, a.jobs) && JobsKnown(a.q, a.jobs) && job in a.jobs && job in a.results
    ensures Held(After(a.q, Updated(a.q, Filing(Finished(a.jobs[job], a.results[job], a.q.records), a.files), now)),
                 a.jobs - {job})
  {
    hide Updated, Finished, Filing, Held, JobsKnown;
    FinishedRun(a.jobs[job], a.results[job], a.q.records, a.files);
    UpdateHeld(a.q, a.jobs, job, Filing(Finished(a.jobs[job], a.results[job], a.q.records), a.files), now);
  }

  lemma FinishedRun(record: QueueRecord, summary: Summary, records: map<Id, QueueRecord>, files: map<Id, Summary>)
    ensures Filing(Finished(record, summary, records), files).submission.runID == record.submission.runID
  {
  }

  // ----- Summary files -----

  lemma GrownGames(q: Queue, q': Queue, files: map<Id, Summary>)
    requires Grows(q, q') && OwnGames(q, files)
    ensures OwnGames(q', files)
  {
    hide NormalizeScope, Newborn;
    forall id | id in files ensures id in q'.records && q'.records[id].submission.game == q.records[id].submission.game {
      assert Evolves(q.records[id], q'.records[id]);
      SameRunPeers(q.records[id].submission, q'.records[id].submission);
    }
  }

  lemma StepGames(a: System, act: Action)
    requires Sound(a) && OwnGames(a.q, a.files) && Disciplined(a, act)
    ensures OwnGames(Step(a, act).q, Step(a, act).files)
  {
    hide OwnGames, NormalizeScope, Grows, Finished, Filing, Refiled, Updated, RankingStep, RankingAllowed, Claimed;
    hide Indexed, Line, Lifecycle, Officials, Filed, JoinsPeers, Submitted, FollowedUp, Recovered, Promoted, Free;
    StepGrows(a, act);
    GrownGames(a.q, Step(a, act).q, a.files);
    if act.Persist? { PersistedGame(a, act); }
  }

  lemma PersistedGame(a: System, act: Action)
    requires Sound(a) && Disciplined(a, act) && act.Persist? && OwnGames(Step(a, act).q, a.files)
    ensures OwnGames(Step(a, act).q, Step(a, act).files)
  {
    hide NormalizeScope, Indexed, Line, Lifecycle, Officials, Filed;
    var s := a.jobs[act.job].submission;
    JobKnown(a.q, a.jobs, act.job);
    SameRunPeers(s, a.q.records[s.runID].submission);
  }

  // A pass persists the file of its own run only.
  lemma StepFilesOwn(a: System, act: Action)
    requires Held(a.q, a.jobs) && OwnFiles(a.jobs, a.results, a.files) && Allowed(a, act)
    ensures OwnFiles(Step(a, act).jobs, Step(a, act).results, Step(a, act).files)
  {
    hide Submitted, FollowedUp, Claimed, Updated, Renewed, Recovered, Promoted, Cancelled, Finished, Filing, Refiled;
    hide RankingStep, RankingAllowed, Held, OwnFiles;
    if act.Persist? {
      PersistedOwn(a, act.job, act.summary);
    } else {
      KeptOwn(a.jobs, Step(a, act).jobs, a.results, Step(a, act).results, a.files);
    }
  }

  lemma PersistedOwn(a: System, job: Id, summary: Summary)
    requires Held(a.q, a.jobs) && OwnFiles(a.jobs, a.results, a.files) && job in a.jobs
    ensures OwnFiles(a.jobs, a.results[job := summary], a.files[a.jobs[job].submission.runID := summary])
  {
  }

  lemma KeptOwn(
      jobs: map<Id, QueueRecord>, jobs': map<Id, QueueRecord>, results: map<Id, Summary>, results': map<Id, Summary>,
      files: map<Id, Summary>)
    requires OwnFiles(jobs, results, files)
    requires forall job | job in jobs' && job in results' ::
               job in jobs && job in results && results'[job] == results[job]
               && jobs'[job].submission.runID == jobs[job].submission.runID
    ensures OwnFiles(jobs', results', files)
  {
  }

  // ----- Disciplined runs are orderly -----

  lemma StepKeepsTended(a: System, act: Action)
    requires Sound(a) && Tended(a) && Disciplined(a, act)
    ensures Tended(Step(a, act))
  {
    hide Sound, Disciplined, Held, Homogeneous, OwnGames, OwnFiles, Step;
    DisciplinedIsAllowed(a, act);
    StepHomogeneous(a, act);
    StepHeld(a, act);
    StepGames(a, act);
    StepFilesOwn(a, act);
  }

  lemma DisciplinedIsAllowed(a: System, act: Action)
    requires Disciplined(a, act)
    ensures Allowed(a, act)
  {
  }

  lemma DisciplinedIsOrderly(a: System, act: Action)
    requires Sound(a) && Tended(a) && Disciplined(a, act)
    ensures Orderly(a, act)
  {
    hide Sound, Tended, PromotesAlike, PersistsAlike, RepeatsAlike, TrimmedPlayers, Free, NormalizeScope;
    DisciplinedIsAllowed(a, act);
    if act.Promote? { PromotesPeers(a, act.runID); }
    if act.Persist? { PersistsFirst(a, act.job, act.summary); }
    if act.Complete? { CompletesFirst(a, act.job); }
  }

  lemma PromotesPeers(a: System, runID: Id)
    requires Sound(a) && Tended(a)
    ensures PromotesAlike(a, runID)
  {
    hide NormalizeScope, HasBotIdentity, CreditDue, Indexed, Line, Lifecycle, Officials, JobsKnown, Held, OwnFiles;
    forall id | Demotes(a.q, runID, id) && HasBotIdentity(a.q.records[id].submission)
      ensures SameScope(a.q.records[id], a.q.records[runID]) && HasBotIdentity(a.q.records[runID].submission)
    {
      assert Peers(a.q.records[id].submission, a.q.records[runID].submission);
      OfficialCompleted(a.q, id);
      ReportsOwnGame(a, id);
      ReportsOwnGame(a, runID);
    }
  }

  lemma OfficialCompleted(q: Queue, id: Id)
    requires Officials(q) && id in q.records && q.records[id].submission.official
    ensures q.records[id].state.Completed?
  {
  }

  lemma ReportsOwnGame(a: System, id: Id)
    requires Filed(a.q, a.jobs, a.results, a.files) && OwnGames(a.q, a.files)
    requires id in a.q.records && a.q.records[id].state.Completed?
    ensures var r := a.q.records[id];
            r.terminal.Some? && NormalizeScope(r.terminal.value.game) == NormalizeScope(r.submission.game)
  {
    hide NormalizeScope;
  }

  // No pass persists or completes a run that is completed already.
  lemma PersistsFirst(a: System, job: Id, summary: Summary)
    requires Tended(a) && job in a.jobs && a.jobs[job].state.Persisting?
    ensures PersistsAlike(a.q, a.refreshes, a.jobs[job].submission.runID, summary)
  {
    hide Alike, HasBotIdentity, Homogeneous, OwnGames, OwnFiles;
  }

  lemma CompletesFirst(a: System, job: Id)
    requires Tended(a) && job in a.jobs && a.jobs[job].state.Persisting? && job in a.results
    ensures RepeatsAlike(a.q, a.jobs[job], a.results[job], a.files)
  {
    hide Alike, HasBotIdentity, Homogeneous, OwnGames, AutoPromotes;
    var next := Finished(a.jobs[job], a.results[job], a.q.records);
    assert next.terminal == Some(a.results[job]) && next.submission.runID == a.jobs[job].submission.runID;
    assert Filing(next, a.files) == next;
    UntouchedAlike(next);
  }

  lemma {:induction false} DisciplinedRunIsTended(acts: seq<Action>)
    requires DisciplinedRun(acts)
    ensures OrderlyRun(acts) && Tended(Reached(acts))
  {
    hide Step, Orderly, Disciplined, Tended, Sound, Allowed;
    if acts == [] {
      assert Tended(START) by { StartIsTended(); }
    } else {
      var front, act := acts[..|acts| - 1], acts[|acts| - 1];
      DisciplinedRunIsTended(front);
      RunIsSound(front);
      StepKeepsTended(Reached(front), act);
      DisciplinedIsOrderly(Reached(front), act);
    }
  }

  lemma StartIsTended()
    ensures Tended(START)
  {
  }

  /**
    With one worker loop, runners that report the game they were asked to run, submissions that agree
    with what is known of their match, and ranking calls of one scope one after the other, the stored
    ranking is what a recompute gives.
  */
  lemma DisciplinedRankingIsRecomputed(acts: seq<Action>, scope: GameKey)
    requires DisciplinedRun(acts) && scope == NormalizeScope(scope) && Quiet(Reached(acts), scope)
    ensures Faithful(Reached(acts), scope)
  {
    hide DisciplinedRun, OrderlyRun, Reached, Run, Tended, Quiet, Faithful, NormalizeScope;
    DisciplinedRunIsTended(acts);
    StoredRankingIsRecomputed(acts, scope);
  }
}
