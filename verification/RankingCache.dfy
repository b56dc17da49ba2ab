/**
  The stored ranking as a cache of the queue: the conditions under which it stays one, the invariant,
  and why every step that changes the queue keeps it (internal/platform/service/ranking.go, worker.go,
  run_commands.go). ArenaRanking adds the steps of the ranking calls and the theorem.
*/
module RankingCache {
  import opened Identifiers
  import opened MatchResults
  import opened RunTypes
  import opened RunQueue
  import opened QueueInvariants
  import opened Ranking
  import opened RankingLifecycle
  import opened RunControl
  import opened Arena
  import opened RankedRuns

  // ----- The conditions -----

  // Promoting runID takes the official mark from id.
  ghost predicate Demotes(q: Queue, runID: Id, id: Id) {
    && runID in q.records && q.records[runID].state.Completed?
    && id in q.records && id != runID && q.records[id].submission.official
    && q.records[id].submission.matchID == q.records[runID].submission.matchID
  }

  // Crediting can change a standing.
  predicate Live(c: Credit) { HasBotIdentity(c.s) }

  ghost predicate CreditDue(credits: seq<Credit>, matchID: Id) {
    exists i :: 0 <= i < |credits| && credits[i].s.matchID == matchID && Live(credits[i])
  }

  // A ranked run gives way only to a run of its own scope, and to a run that is not ranked only
  // when no credit for the match is still due.
  ghost predicate PromotesAlike(a: System, runID: Id) {
    forall id | Demotes(a.q, runID, id) && HasBotIdentity(a.q.records[id].submission) ::
      && SameScope(a.q.records[id], a.q.records[runID])
      && (HasBotIdentity(a.q.records[runID].submission) || !CreditDue(a.credits, a.q.records[runID].submission.matchID))
  }

  predicate RankedThen(r: QueueRecord) { r.state.Completed? && r.submission.official && HasBotIdentity(r.submission) }

  ghost predicate Ranked(q: Queue, id: Id) { id in q.records && RankedThen(q.records[id]) }

  // A refresh has still to read the summary file of the run.
  ghost predicate Watches(r: Refresh, id: Id) {
    match r
    case Awaited(runID) => runID == id
    case Scoped(_) => false
    case Counting(_, left, _) => exists j :: 0 <= j < |left| && left[j].submission.runID == id
  }

  ghost predicate Watched(q: Queue, refreshes: seq<Refresh>, id: Id) {
    && id in q.records && q.records[id].state.Completed?
    && exists k :: 0 <= k < |refreshes| && Watches(refreshes[k], id)
  }

  // A pass that writes the summary of a run which is ranked, or about to be read, leaves it counted alike.
  ghost predicate PersistsAlike(q: Queue, refreshes: seq<Refresh>, id: Id, summary: Summary) {
    Ranked(q, id) || Watched(q, refreshes, id) ==> Alike(q.records[id], q.records[id].(terminal := Some(summary)))
  }

  // A pass that completes a run which is ranked already leaves it official, and what it credits is
  // counted like the run's summary file.
  ghost predicate RepeatsAlike(q: Queue, job: QueueRecord, summary: Summary, files: map<Id, Summary>) {
    var id, next := job.submission.runID, Finished(job, summary, q.records);
    && (Ranked(q, id) ==> next.submission.official)
    && (next.submission.official && HasBotIdentity(next.submission) ==> Alike(next, Filing(next, files)))
  }

  function CreditScope(c: Credit): GameKey { NormalizeScope(c.summary.game) }

  // The calls of the scope that have read and not yet written.
  ghost predicate CreditOpen(credits: seq<Credit>, i: int, scope: GameKey) {
    0 <= i < |credits| && credits[i].read.Some? && CreditScope(credits[i]) == scope
  }

  ghost predicate CountOpen(refreshes: seq<Refresh>, k: int, scope: GameKey) {
    0 <= k < |refreshes| && refreshes[k].Counting? && refreshes[k].scope == scope
  }

  // No ranking call of the scope is between its reading and its writing.
  ghost predicate Free(a: System, scope: GameKey) {
    (forall i :: !CreditOpen(a.credits, i, scope)) && (forall k :: !CountOpen(a.refreshes, k, scope))
  }

  ghost predicate Orderly(a: System, act: Action) {
    && Allowed(a, act)
    && match act
       case Submit(s) => TrimmedPlayers(s.players)
       case Promote(runID) => PromotesAlike(a, runID)
       case Persist(job, summary) => PersistsAlike(a.q, a.refreshes, a.jobs[job].submission.runID, summary)
       case Complete(job, _) => RepeatsAlike(a.q, a.jobs[job], a.results[job], a.files)
       case ReadRanking(at) => Free(a, CreditScope(a.credits[at]))
       case List(at) => Free(a, a.refreshes[at].scope)
       case LoseCredit(_) => false
       case LoseRefresh(_) => false
       case _ => true
  }

  ghost predicate OrderlyRun(acts: seq<Action>)
    decreases acts
  {
    Run(acts) && (acts == [] || (OrderlyRun(acts[..|acts| - 1]) && Orderly(Reached(acts[..|acts| - 1]), acts[|acts| - 1])))
  }

  // ----- The invariant -----

  function CreditedRecord(c: Credit): QueueRecord { QueueRecord(c.s, Completed, None, None, Some(c.summary)) }

  // Behind a credit that can change a standing there is a ranked run of its match and scope.
  ghost predicate Due(q: Queue, c: Credit) {
    && c.s.official && c.s.runID in q.records && SameRun(c.s, q.records[c.s.runID].submission)
    && c.summary.matchID == c.s.matchID
    && (Live(c) ==> exists id :: Elig(q, CreditScope(c), id) && q.records[id].submission.matchID == c.s.matchID)
  }

  ghost predicate Owed(q: Queue, credits: seq<Credit>) { forall i | 0 <= i < |credits| :: Due(q, credits[i]) }

  // The run is about to be credited as the queue has it, and no other run of its match is.
  ghost predicate Expected(q: Queue, credits: seq<Credit>, id: Id) {
    && id in q.records
    && (exists i :: 0 <= i < |credits| && credits[i].s.runID == id)
    && (forall i | 0 <= i < |credits| && Live(credits[i]) && credits[i].s.matchID == q.records[id].submission.matchID ::
          credits[i].s.runID == id && Alike(CreditedRecord(credits[i]), q.records[id]))
  }

  // A listed run that was ranked when it was listed, and is yet to be read.
  ghost predicate Ahead(left: seq<QueueRecord>, id: Id) {
    exists j :: 0 <= j < |left| && left[j].submission.runID == id && RankedThen(left[j])
  }

  // Unless a recompute would fail: the standing adds up to its runs, which a recompute reads, and
  // every other run that a recompute reads is about to be read or to be credited.
  ghost predicate Sync(q: Queue, credits: seq<Credit>, left: seq<QueueRecord>, st: Standing, scope: GameKey) {
    AllBuilt(q, scope) ==>
      && Shape(q, st)
      && (forall id | id in st.runs :: Elig(q, scope, id))
      && (forall id | Elig(q, scope, id) :: id in st.runs || Expected(q, credits, id) || Ahead(left, id))
  }

  // A run that was ranked when it was listed is ranked still, in the scope that its file names.
  ghost predicate Head(q: Queue, files: map<Id, Summary>, r: QueueRecord, scope: GameKey) {
    && r.submission.runID in q.records && SameRun(r.submission, q.records[r.submission.runID].submission)
    && (RankedThen(r) ==> r.terminal.Some? && q.records[r.submission.runID].state.Completed?)
    && (RankedThen(r) && FileScope(files, r.submission.runID) == scope ==> Elig(q, scope, r.submission.runID))
  }

  ghost predicate Heads(q: Queue, files: map<Id, Summary>, left: seq<QueueRecord>, scope: GameKey) {
    forall j | 0 <= j < |left| :: Head(q, files, left[j], scope)
  }

  ghost predicate Stored(standings: Standings) {
    && (forall scope | scope in standings :: ValidScope(scope))
    && (forall scope :: StandingAt(standings, scope).scope == scope)
  }

  // A refresh of the scope has yet to list the queue.
  ghost predicate Exempts(r: Refresh, files: map<Id, Summary>, scope: GameKey) {
    (r.Awaited? && FileScope(files, r.runID) == scope) || (r.Scoped? && r.scope == scope)
  }

  ghost predicate Exempt(refreshes: seq<Refresh>, files: map<Id, Summary>, scope: GameKey) {
    exists k :: 0 <= k < |refreshes| && Exempts(refreshes[k], files, scope)
  }

  ghost predicate Proper(q: Queue, r: Refresh) {
    match r
    case Awaited(runID) => runID in q.records && q.records[runID].state.Completed?
    case Scoped(scope) => scope == NormalizeScope(scope)
    case Counting(scope, _, st) => scope == NormalizeScope(scope) && ValidScope(scope) && st.scope == scope
  }

  // What a refresh that counts the scope has read so far is in step with the queue, and otherwise
  // the stored standing is.
  ghost predicate InStep(a: System, scope: GameKey) {
    && (forall k | CountOpen(a.refreshes, k, scope) ::
          && Sync(a.q, a.credits, a.refreshes[k].left, a.refreshes[k].st, scope)
          && Heads(a.q, a.files, a.refreshes[k].left, scope))
    && ((forall k :: !CountOpen(a.refreshes, k, scope)) ==>
          Sync(a.q, a.credits, [], StandingAt(a.standings, scope), scope))
  }

  ghost predicate InSync(a: System) {
    && (forall k | 0 <= k < |a.refreshes| :: Proper(a.q, a.refreshes[k]))
    && (forall scope | !Exempt(a.refreshes, a.files, scope) :: InStep(a, scope))
  }

  // Of one scope at most one call has read and not yet written; a credit has read what is stored.
  ghost predicate Apart(credits: seq<Credit>, refreshes: seq<Refresh>, standings: Standings) {
    && (forall k, l, scope | CountOpen(refreshes, k, scope) && CountOpen(refreshes, l, scope) :: k == l)
    && (forall i, k, scope | CreditOpen(credits, i, scope) :: !CountOpen(refreshes, k, scope))
    && (forall i, j, scope | CreditOpen(credits, i, scope) && CreditOpen(credits, j, scope) :: i == j)
    && (forall i, scope | CreditOpen(credits, i, scope) :: credits[i].read.value == StandingAt(standings, scope))
  }

  ghost predicate Cached(a: System) {
    Owed(a.q, a.credits) && Stored(a.standings) && InSync(a) && Apart(a.credits, a.refreshes, a.standings)
  }

  lemma SoundTerminals(a: System)
    requires Sound(a)
    ensures Terminals(a.q)
  {
    hide Indexed, Line, Lifecycle, Officials, JobsKnown;
  }

  // ----- Changes that leave the ranked runs of a scope alone -----

  ghost predicate Steady(q: Queue, q': Queue, scope: GameKey) {
    forall id | Elig(q, scope, id) :: Elig(q', scope, id) && Alike(q.records[id], q'.records[id])
  }

  ghost predicate SameRuns(q: Queue, q': Queue) {
    forall id | id in q.records :: id in q'.records && SameRun(q.records[id].submission, q'.records[id].submission)
  }

  lemma GrowsSameRuns(q: Queue, q': Queue)
    requires Grows(q, q')
    ensures SameRuns(q, q')
  {
    hide SameRun, Newborn;
  }

  lemma SameRunFields(s: Submission, t: Submission)
    requires SameRun(s, t)
    ensures s.runID == t.runID && s.matchID == t.matchID && s.players == t.players && s.runKind == t.runKind
    ensures HasBotIdentity(s) <==> HasBotIdentity(t)
  {
    var s', t' := s.(official := false), t.(official := false);
    assert s'.runID == t'.runID && s'.matchID == t'.matchID && s'.players == t'.players && s'.runKind == t'.runKind;
  }

  lemma EligSettles(q: Queue, scope: GameKey, id: Id)
    requires Elig(q, scope, id) && Built(q.records[id])
    ensures Settles(q, id)
  {
    hide Built, NormalizeScope, HasBotIdentity;
  }

  // A match has one ranked run.
  lemma OneRanked(q: Queue, scope: GameKey, id: Id, scope': GameKey, id': Id)
    requires Officials(q) && Elig(q, scope, id) && Elig(q, scope', id')
    requires q.records[id].submission.matchID == q.records[id'].submission.matchID
    ensures id == id'
  {
    hide NormalizeScope, HasBotIdentity;
  }

  lemma SyncStays(
      q: Queue, q': Queue, credits: seq<Credit>, credits': seq<Credit>, left: seq<QueueRecord>, st: Standing, scope: GameKey)
    requires Sync(q, credits, left, st, scope) && Steady(q, q', scope)
    requires forall id | Elig(q', scope, id) && !Elig(q, scope, id) :: Expected(q', credits', id)
    requires forall id | Elig(q, scope, id) && Expected(q, credits, id) :: Expected(q', credits', id)
    ensures Sync(q', credits', left, st, scope)
  {
    hide Ahead, Built, Shape, Expected, Settles, UpdatesAlike, SameScope, Eligible;
    if AllBuilt(q', scope) {
      forall id | Elig(q, scope, id) ensures Built(q.records[id]) {
        assert Elig(q', scope, id) && Alike(q.records[id], q'.records[id]);
      }
      forall id | id in st.runs ensures Settles(q', id) && Alike(q.records[id], q'.records[id]) {
        EligSettles(q', scope, id);
      }
      AlikeShape(q, q', st);
    }
  }

  lemma OwedStays(q: Queue, q': Queue, credits: seq<Credit>)
    requires Owed(q, credits) && SameRuns(q, q') && forall scope :: Steady(q, q', scope)
    ensures Owed(q', credits)
  {
    hide NormalizeScope, Eligible, Alike;
    forall i | 0 <= i < |credits| ensures Due(q', credits[i]) { DueStays(q, q', credits[i]); }
  }

  lemma DueStays(q: Queue, q': Queue, c: Credit)
    requires Due(q, c) && SameRuns(q, q') && Steady(q, q', CreditScope(c))
    ensures Due(q', c)
  {
    hide Eligible, Alike, NormalizeScope, HasBotIdentity, SameRun, CreditScope;
    SameRunTwice(c.s, q.records[c.s.runID].submission, q'.records[c.s.runID].submission);
    if Live(c) {
      var id :| Elig(q, CreditScope(c), id) && q.records[id].submission.matchID == c.s.matchID;
      SameRunFields(q.records[id].submission, q'.records[id].submission);
      assert Elig(q', CreditScope(c), id);
    }
  }

  lemma SameRunTwice(s: Submission, t: Submission, u: Submission)
    requires SameRun(s, t) && SameRun(t, u)
    ensures SameRun(s, u)
  {
  }

  lemma AlikeTwice(r: QueueRecord, s: QueueRecord, t: QueueRecord)
    requires Alike(r, s) && Alike(s, t)
    ensures Alike(r, t)
  {
    hide Built, UpdateOf, NormalizeScope, Points;
  }

  lemma ExpectedStays(q: Queue, q': Queue, credits: seq<Credit>, id: Id)
    requires Expected(q, credits, id) && id in q'.records && Alike(q.records[id], q'.records[id])
    requires q.records[id].submission.matchID == q'.records[id].submission.matchID
    ensures Expected(q', credits, id)
  {
    hide Alike, HasBotIdentity, CreditedRecord;
    forall i | 0 <= i < |credits| && Live(credits[i]) && credits[i].s.matchID == q'.records[id].submission.matchID
      ensures credits[i].s.runID == id && Alike(CreditedRecord(credits[i]), q'.records[id])
    {
      AlikeTwice(CreditedRecord(credits[i]), q.records[id], q'.records[id]);
    }
  }

  lemma ExpectedSnoc(q: Queue, credits: seq<Credit>, c: Credit, id: Id)
    requires Expected(q, credits, id)
    requires Live(c) && c.s.matchID == q.records[id].submission.matchID ==>
               c.s.runID == id && Alike(CreditedRecord(c), q.records[id])
    ensures Expected(q, credits + [c], id)
  {
    hide Alike, HasBotIdentity, CreditedRecord;
    var i :| 0 <= i < |credits| && credits[i].s.runID == id;
    assert (credits + [c])[i].s.runID == id;
  }

  lemma ExpectedRest(q: Queue, credits: seq<Credit>, at: nat, id: Id)
    requires Expected(q, credits, id) && at < |credits| && credits[at].s.runID != id
    ensures Expected(q, Dropped(credits, at), id)
  {
    hide Alike, HasBotIdentity, CreditedRecord;
    var rest := Dropped(credits, at);
    var i :| 0 <= i < |credits| && credits[i].s.runID == id;
    assert rest[if i < at then i else i - 1].s.runID == id;
    assert forall j | 0 <= j < |rest| :: rest[j] == credits[if j < at then j else j + 1];
  }

  lemma HeadsStay(q: Queue, q': Queue, files: map<Id, Summary>, files': map<Id, Summary>, left: seq<QueueRecord>, scope: GameKey)
    requires Heads(q, files, left, scope) && Grows(q, q') && Steady(q, q', scope)
    requires forall j | 0 <= j < |left| && RankedThen(left[j]) ::
               FileScope(files', left[j].submission.runID) == FileScope(files, left[j].submission.runID)
    ensures Heads(q', files', left, scope)
  {
    hide RankedThen, Eligible, Alike, FileScope, Newborn, SameRun;
    forall j | 0 <= j < |left| ensures Head(q', files', left[j], scope) {
      var id := left[j].submission.runID;
      assert Head(q, files, left[j], scope) && Evolves(q.records[id], q'.records[id]);
      SameRunTwice(left[j].submission, q.records[id].submission, q'.records[id].submission);
    }
  }

  // A step of the queue leaves the ranking calls alone: it is enough that it keeps each scope in step.
  lemma QueueKeeps(a: System, a': System)
    requires Cached(a) && Owed(a'.q, a'.credits) && Grows(a.q, a'.q)
    requires a'.refreshes == a.refreshes && a'.standings == a.standings && a'.files == a.files
    requires a'.credits == a.credits || (|a'.credits| == |a.credits| + 1 && a'.credits[..|a.credits|] == a.credits
                                         && a'.credits[|a.credits|].read.None?)
    requires forall scope | !Exempt(a.refreshes, a.files, scope) ::
               Steady(a.q, a'.q, scope)
               && forall left, st | Sync(a.q, a.credits, left, st, scope) :: Sync(a'.q, a'.credits, left, st, scope)
    ensures Cached(a')
  {
    hide Owed, Stored, Sync, StandingAt, Steady, FileScope, Heads;
    ProperStays(a.q, a'.q, a.refreshes);
    OpenStays(a.credits, a'.credits);
    forall scope | !Exempt(a.refreshes, a.files, scope) ensures InStep(a', scope) {
      assert InStep(a, scope);
      forall k | CountOpen(a.refreshes, k, scope) ensures Heads(a'.q, a.files, a.refreshes[k].left, scope) {
        HeadsStay(a.q, a'.q, a.files, a.files, a.refreshes[k].left, scope);
      }
    }
  }

  lemma ProperStays(q: Queue, q': Queue, refreshes: seq<Refresh>)
    requires Grows(q, q') && forall k | 0 <= k < |refreshes| :: Proper(q, refreshes[k])
    ensures forall k | 0 <= k < |refreshes| :: Proper(q', refreshes[k])
  {
    hide NormalizeScope, ValidScope, Newborn, SameRun;
  }

  lemma OpenStays(credits: seq<Credit>, credits': seq<Credit>)
    requires credits' == credits || (|credits'| == |credits| + 1 && credits'[..|credits|] == credits
                                     && credits'[|credits|].read.None?)
    ensures forall i, scope :: CreditOpen(credits', i, scope) <==> CreditOpen(credits, i, scope)
    ensures forall i, scope | CreditOpen(credits, i, scope) :: credits'[i] == credits[i]
  {
    hide CreditScope;
  }

  // ----- Steps that neither persist nor complete nor promote -----

  // Nothing changes about completed runs, not even which there are.
  ghost predicate Calm(q: Queue, q': Queue) {
    && (forall id | id in q.records && q.records[id].state.Completed? ::
          && id in q'.records && q'.records[id].state.Completed?
          && q.records[id].submission == q'.records[id].submission
          && q'.records[id].terminal == q.records[id].terminal)
    && (forall id | id in q'.records && q'.records[id].state.Completed? ::
          id in q.records && q.records[id].state.Completed?)
  }

  lemma SubmittedCalm(q: Queue, s: Submission)
    ensures Calm(q, Submitted(q, s, true).0)
  {
    hide WellFormed;
  }

  lemma FollowedCalm(q: Queue, runID: Id, kind: RunKind, newRunID: Id)
    ensures Calm(q, FollowedUp(q, runID, kind, newRunID, true).0)
  {
    hide WellFormed, Id.Trimming;
  }

  lemma ClaimedCalm(q: Queue, workerID: Id, now: int)
    ensures Calm(q, Claimed(q, workerID, now).0)
  {
    hide Id.Blank;
    FirstWaitingQueued(q.order, q.records);
  }

  lemma LeasesCalm(q: Queue, c: Call)
    requires Possible(q, c) && (c.Heartbeat? || c.Recover? || c.Cancel?)
    ensures Calm(q, Call1(q, c))
  {
  }

  lemma AdvancedCalm(q: Queue, next: QueueRecord, now: int)
    requires !next.state.Completed?
    ensures Calm(q, After(q, Updated(q, next, now)))
  {
  }

  lemma StepCalm(a: System, act: Action)
    requires Allowed(a, act) && !(act.Persist? || act.Complete? || act.Promote?)
    ensures Calm(a.q, Step(a, act).q)
  {
    hide Submitted, FollowedUp, Claimed, Updated, Renewed, Recovered, Cancelled, Calm, RankingStep, RankingAllowed;
    match act
    case Submit(s) => SubmittedCalm(a.q, s);
    case Follow(runID, kind, newRunID) => FollowedCalm(a.q, runID, kind, newRunID);
    case Cancel(runID) => LeasesCalm(a.q, Call.Cancel(runID));
    case Claim(_, workerID, now) => ClaimedCalm(a.q, workerID, now);
    case Advance(job, to, now) => AdvancedCalm(a.q, a.jobs[job].(state := to), now);
    case Heartbeat(runID, workerID, now) => LeasesCalm(a.q, Call.Heartbeat(runID, workerID, now));
    case Recover(now, runIDs) => LeasesCalm(a.q, Call.Recover(now, runIDs));
    case _ => SelfCalm(a.q);
  }

  lemma SelfCalm(q: Queue)
    ensures Calm(q, q)
  {
  }

  lemma CalmSteady(q: Queue, q': Queue, scope: GameKey)
    requires Calm(q, q')
    ensures Steady(q, q', scope) && forall id | Elig(q', scope, id) :: Elig(q, scope, id)
  {
    hide NormalizeScope, HasBotIdentity, Alike;
    forall id | Elig(q, scope, id) ensures Elig(q', scope, id) && Alike(q.records[id], q'.records[id]) {
      SameTerminalAlike(q.records[id], q'.records[id]);
    }
  }

  lemma CalmSync(q: Queue, q': Queue, credits: seq<Credit>, left: seq<QueueRecord>, st: Standing, scope: GameKey)
    requires Calm(q, q') && SameRuns(q, q') && Sync(q, credits, left, st, scope)
    ensures Sync(q', credits, left, st, scope)
  {
    hide Calm, Eligible, Alike, Expected, Sync, SameRun;
    CalmSteady(q, q', scope);
    forall id | Elig(q, scope, id) && Expected(q, credits, id) ensures Expected(q', credits, id) {
      SameRunFields(q.records[id].submission, q'.records[id].submission);
      ExpectedStays(q, q', credits, id);
    }
    SyncStays(q, q', credits, credits, left, st, scope);
  }

  lemma CalmKeeps(a: System, a': System)
    requires Cached(a) && Calm(a.q, a'.q) && Grows(a.q, a'.q)
    requires a'.credits == a.credits && a'.refreshes == a.refreshes && a'.standings == a.standings && a'.files == a.files
    ensures Cached(a')
  {
    hide Calm, SameRuns, Owed, Stored, Sync, StandingAt, Steady, NormalizeScope, Grows, InSync, Apart;
    GrowsSameRuns(a.q, a'.q);
    forall scope ensures Steady(a.q, a'.q, scope) { CalmSteady(a.q, a'.q, scope); }
    OwedStays(a.q, a'.q, a.credits);
    forall scope, left, st | Sync(a.q, a.credits, left, st, scope) ensures Sync(a'.q, a'.credits, left, st, scope) {
      CalmSync(a.q, a'.q, a.credits, left, st, scope);
    }
    QueueKeeps(a, a');
  }

  // ----- Persisting a summary -----

  // Whatever is ranked stays so, counted alike, and nothing becomes ranked.
  lemma RefiledSteady(q: Queue, refreshes: seq<Refresh>, id: Id, summary: Summary, scope: GameKey)
    requires PersistsAlike(q, refreshes, id, summary)
    ensures var q' := Refiled(q, id, summary);
            Steady(q, q', scope) && forall other | Elig(q', scope, other) :: Elig(q, scope, other)
  {
    hide NormalizeScope, HasBotIdentity, Alike, Watched;
    var q' := Refiled(q, id, summary);
    forall other | Elig(q, scope, other) ensures Elig(q', scope, other) && Alike(q.records[other], q'.records[other]) {
      if other == id { AlikeScopes(q.records[id], q'.records[id]); } else { UntouchedAlike(q.records[other]); }
    }
    forall other | Elig(q', scope, other) ensures Elig(q, scope, other) {
      if other == id { AlikeScopes(q.records[id], q'.records[id]); }
    }
  }

  lemma AlikeScopes(r: QueueRecord, s: QueueRecord)
    requires Alike(r, s)
    ensures SameScope(r, s)
  {
    hide Built, UpdatesAlike, UpdateOf;
  }

  lemma UntouchedAlike(r: QueueRecord)
    requires r.terminal.Some?
    ensures Alike(r, r)
  {
    hide Alike;
    SelfRun(r.submission);
    SameTerminalAlike(r, r);
  }

  lemma SelfRun(s: Submission)
    ensures SameRun(s, s)
  {
  }

  lemma RefiledSync(q: Queue, refreshes: seq<Refresh>, id: Id, summary: Summary, credits: seq<Credit>,
                    left: seq<QueueRecord>, st: Standing, scope: GameKey)
    requires PersistsAlike(q, refreshes, id, summary) && Sync(q, credits, left, st, scope)
    ensures Sync(Refiled(q, id, summary), credits, left, st, scope)
  {
    hide PersistsAlike, Eligible, Alike, Expected, Sync;
    var q' := Refiled(q, id, summary);
    RefiledSteady(q, refreshes, id, summary, scope);
    forall other | Elig(q, scope, other) && Expected(q, credits, other) ensures Expected(q', credits, other) {
      ExpectedStays(q, q', credits, other);
    }
    hide Refiled;
    SyncStays(q, q', credits, credits, left, st, scope);
  }

  // The scopes that refreshes are about to read in the file of the run stay as they are.
  lemma RefiledScope(a: System, id: Id, summary: Summary)
    requires Filed(a.q, a.jobs, a.results, a.files) && PersistsAlike(a.q, a.refreshes, id, summary)
    requires Watched(a.q, a.refreshes, id) || Ranked(a.q, id)
    ensures FileScope(a.files[id := summary], id) == FileScope(a.files, id)
  {
    hide NormalizeScope, HasBotIdentity, Alike;
    AlikeScopes(a.q.records[id], a.q.records[id].(terminal := Some(summary)));
  }

  lemma OtherScope(files: map<Id, Summary>, id: Id, summary: Summary, other: Id)
    requires other != id
    ensures FileScope(files[id := summary], other) == FileScope(files, other)
  {
  }

  lemma PersistKeeps(a: System, act: Action)
    requires Sound(a) && Cached(a) && Orderly(a, act) && act.Persist?
    ensures Cached(Step(a, act))
  {
    hide Indexed, Line, Lifecycle, Officials, JobsKnown, Filed, Owed, Stored, Sync, StandingAt, Refiled, Apart, Grows;
    hide PersistsAlike, Steady, FileScope, Heads, SameRuns;
    var id, summary, a' := a.jobs[act.job].submission.runID, act.summary, Step(a, act);
    RefiledGrows(a.q, id, summary);
    ProperStays(a.q, a'.q, a.refreshes);
    forall scope ensures Steady(a.q, a'.q, scope) { RefiledSteady(a.q, a.refreshes, id, summary, scope); }
    GrowsSameRuns(a.q, a'.q);
    OwedStays(a.q, a'.q, a.credits);
    RefiledExempt(a, id, summary);
    forall scope | !Exempt(a'.refreshes, a'.files, scope) ensures InStep(a', scope) {
      assert InStep(a, scope);
      RefiledInStep(a, act, scope);
    }
  }

  lemma RefiledExempt(a: System, id: Id, summary: Summary)
    requires Filed(a.q, a.jobs, a.results, a.files) && PersistsAlike(a.q, a.refreshes, id, summary)
    requires forall k | 0 <= k < |a.refreshes| :: Proper(a.q, a.refreshes[k])
    ensures forall scope :: Exempt(a.refreshes, a.files[id := summary], scope) <==> Exempt(a.refreshes, a.files, scope)
  {
    hide Filed, PersistsAlike, FileScope, NormalizeScope, ValidScope;
    forall k, scope | 0 <= k < |a.refreshes|
      ensures Exempts(a.refreshes[k], a.files[id := summary], scope) <==> Exempts(a.refreshes[k], a.files, scope)
    {
      var r := a.refreshes[k];
      if r.Awaited? {
        assert Proper(a.q, r);
        if r.runID == id {
          assert Watches(r, id);
          RefiledScope(a, id, summary);
        } else {
          OtherScope(a.files, id, summary, r.runID);
        }
      }
    }
    forall scope ensures Exempt(a.refreshes, a.files[id := summary], scope) <==> Exempt(a.refreshes, a.files, scope) {
      if k :| 0 <= k < |a.refreshes| && Exempts(a.refreshes[k], a.files, scope) {
        assert Exempts(a.refreshes[k], a.files[id := summary], scope);
      }
      if k :| 0 <= k < |a.refreshes| && Exempts(a.refreshes[k], a.files[id := summary], scope) {
        assert Exempts(a.refreshes[k], a.files, scope);
      }
    }
  }

  lemma RefiledInStep(a: System, act: Action, scope: GameKey)
    requires Sound(a) && Orderly(a, act) && act.Persist? && InStep(a, scope)
    ensures InStep(Step(a, act), scope)
  {
    hide Indexed, Line, Lifecycle, Officials, JobsKnown, Filed, Sync, StandingAt, Refiled, Grows, PersistsAlike, FileScope, Heads;
    var id, summary, a' := a.jobs[act.job].submission.runID, act.summary, Step(a, act);
    forall k | CountOpen(a.refreshes, k, scope)
      ensures Sync(a'.q, a'.credits, a.refreshes[k].left, a.refreshes[k].st, scope)
      ensures Heads(a'.q, a'.files, a.refreshes[k].left, scope)
    {
      RefiledSync(a.q, a.refreshes, id, summary, a.credits, a.refreshes[k].left, a.refreshes[k].st, scope);
      RefiledHeads(a, id, summary, k, scope);
    }
    if forall k :: !CountOpen(a.refreshes, k, scope) {
      RefiledSync(a.q, a.refreshes, id, summary, a.credits, [], StandingAt(a.standings, scope), scope);
    }
  }

  lemma RefiledHeads(a: System, id: Id, summary: Summary, k: nat, scope: GameKey)
    requires Filed(a.q, a.jobs, a.results, a.files) && PersistsAlike(a.q, a.refreshes, id, summary)
    requires CountOpen(a.refreshes, k, scope) && Heads(a.q, a.files, a.refreshes[k].left, scope)
    ensures Heads(Refiled(a.q, id, summary), a.files[id := summary], a.refreshes[k].left, scope)
  {
    hide Filed, PersistsAlike, FileScope, Steady, Grows, Refiled, RankedThen, Eligible, SameRun;
    var left := a.refreshes[k].left;
    RefiledGrows(a.q, id, summary);
    RefiledSteady(a.q, a.refreshes, id, summary, scope);
    forall j | 0 <= j < |left| && RankedThen(left[j])
      ensures FileScope(a.files[id := summary], left[j].submission.runID) == FileScope(a.files, left[j].submission.runID)
    {
      assert Head(a.q, a.files, left[j], scope);
      if left[j].submission.runID == id {
        assert Watches(a.refreshes[k], id);
        RefiledScope(a, id, summary);
      } else {
        OtherScope(a.files, id, summary, left[j].submission.runID);
      }
    }
    HeadsStay(a.q, Refiled(a.q, id, summary), a.files, a.files[id := summary], left, scope);
  }

  // ----- Completing a run -----

  function Completion(q: Queue, job: QueueRecord, summary: Summary, files: map<Id, Summary>, now: int): Outcome<Queue> {
    Updated(q, Filing(Finished(job, summary, q.records), files), now)
  }

  function CreditsAfter(credits: seq<Credit>, next: QueueRecord, summary: Summary): seq<Credit> {
    if summary.status.MatchCompleted? && next.submission.official
    then credits + [Credit(next.submission, summary, None)] else credits
  }

  // The queue's record of a pass about to complete, the summary it credits, and the queue after that:
  // exactly this run changes, its summary is what its file holds, and it is official only when no
  // other run of the match is.
  ghost predicate Completes(q: Queue, q': Queue, job: QueueRecord, summary: Summary, files: map<Id, Summary>) {
    var id, next := job.submission.runID, Finished(job, summary, q.records);
    && id in q.records && SameRun(job.submission, q.records[id].submission) && !job.submission.official
    && id in files && summary.matchID == job.submission.matchID == files[id].matchID
    && (q.records[id].state.Completed? ==> q.records[id].terminal == Some(files[id]))
    && id in q'.records && q'.records == q.records[id := q'.records[id]]
    && q'.records[id].state.Completed? && q'.records[id].terminal == Some(files[id])
    && q'.records[id].submission == next.submission && SameRun(next.submission, job.submission)
    && (next.submission.official ==> summary.status.MatchCompleted? && AutoPromotes(q.records, next.submission))
  }

  lemma CompletingNow(a: System, act: Action)
    requires JobsKnown(a.q, a.jobs) && Filed(a.q, a.jobs, a.results, a.files) && Allowed(a, act) && act.Complete?
    requires Completion(a.q, a.jobs[act.job], a.results[act.job], a.files, act.now).Ok?
    ensures Completes(a.q, Completion(a.q, a.jobs[act.job], a.results[act.job], a.files, act.now).value,
                      a.jobs[act.job], a.results[act.job], a.files)
  {
    hide AutoPromotes, RankingAllowed, JobsKnown, Filed;
    var job, id := a.jobs[act.job], a.jobs[act.job].submission.runID;
    JobKnown(a.q, a.jobs, act.job);
    JobFiled(a, act.job);
    AutoPromotesAlike(a.q.records, job.submission, Finished(job, a.results[act.job], a.q.records).submission);
  }

  lemma JobFiled(a: System, job: Id)
    requires JobsKnown(a.q, a.jobs) && Filed(a.q, a.jobs, a.results, a.files) && job in a.jobs && job in a.results
    ensures var s, id := a.jobs[job].submission, a.jobs[job].submission.runID;
            && id in a.q.records && id in a.files && a.results[job].matchID == s.matchID == a.files[id].matchID
            && (a.q.records[id].state.Completed? ==> a.q.records[id].terminal == Some(a.files[id]))
  {
    hide SameRun;
    SameRunIds(a.jobs[job].submission, a.q.records[a.jobs[job].submission.runID].submission);
  }

  lemma AutoPromotesAlike(records: map<Id, QueueRecord>, s: Submission, t: Submission)
    requires SameRun(s, t)
    ensures AutoPromotes(records, s) <==> AutoPromotes(records, t)
  {
    assert s.runID == t.runID && s.matchID == t.matchID && s.runKind == t.runKind;
    forall r: QueueRecord ensures BlocksPromotion(r, s) <==> BlocksPromotion(r, t) {}
  }

  // A run that may be promoted belongs to a match without another official run.
  lemma Unopposed(q: Queue, s: Submission, scope: GameKey, id: Id)
    requires AutoPromotes(q.records, s) && Elig(q, scope, id) && q.records[id].submission.matchID == s.matchID
    requires Indexed(q)
    ensures id == s.runID
  {
    hide NormalizeScope, HasBotIdentity;
    assert !BlocksPromotion(q.records[id], s);
  }

  lemma CompletedSteady(q: Queue, q': Queue, job: QueueRecord, summary: Summary, files: map<Id, Summary>, scope: GameKey)
    requires Completes(q, q', job, summary, files) && RepeatsAlike(q, job, summary, files)
    ensures Steady(q, q', scope)
    ensures forall id | Elig(q', scope, id) && !Elig(q, scope, id) ::
              id == job.submission.runID && !Ranked(q, id) && q'.records[id].submission.official
  {
    var id, next := job.submission.runID, Finished(job, summary, q.records);
    SameRunFields(job.submission, q.records[id].submission);
    SameRunFields(next.submission, job.submission);
    hide Finished, Filing, AutoPromotes, NormalizeScope, HasBotIdentity, Alike;
    forall other | Elig(q, scope, other) ensures Elig(q', scope, other) && Alike(q.records[other], q'.records[other]) {
      if other != id { UntouchedAlike(q.records[other]); } else { SameTerminalAlike(q.records[id], q'.records[id]); }
    }
  }

  // What the completion credits is counted like what its file holds.
  lemma CreditIsFiled(q: Queue, q': Queue, job: QueueRecord, summary: Summary, files: map<Id, Summary>)
    requires Completes(q, q', job, summary, files) && RepeatsAlike(q, job, summary, files)
    requires q'.records[job.submission.runID].submission.official && HasBotIdentity(job.submission)
    ensures Alike(CreditedRecord(Credit(Finished(job, summary, q.records).submission, summary, None)),
                  q'.records[job.submission.runID])
  {
    var next := Finished(job, summary, q.records);
    SameRunFields(next.submission, job.submission);
    SelfRun(next.submission);
    hide AutoPromotes, NormalizeScope, HasBotIdentity, Alike, SameRun;
    var c := Credit(next.submission, summary, None);
    assert next.terminal == Some(summary) && Filing(next, files).terminal == Some(files[job.submission.runID]);
    SameTerminalAlike(CreditedRecord(c), next);
    SameTerminalAlike(Filing(next, files), q'.records[job.submission.runID]);
    AlikeTwice(CreditedRecord(c), next, Filing(next, files));
    AlikeTwice(CreditedRecord(c), Filing(next, files), q'.records[job.submission.runID]);
  }

  lemma NewlyExpected(q: Queue, q': Queue, credits: seq<Credit>, job: QueueRecord, summary: Summary, files: map<Id, Summary>)
    requires Completes(q, q', job, summary, files) && RepeatsAlike(q, job, summary, files)
    requires Officials(q) && Indexed(q) && Owed(q, credits)
    requires !Ranked(q, job.submission.runID) && Ranked(q', job.submission.runID)
    ensures Expected(q', CreditsAfter(credits, Finished(job, summary, q.records), summary), job.submission.runID)
  {
    hide Finished, Filing, AutoPromotes, NormalizeScope, HasBotIdentity, SameRun, Due, Indexed, RepeatsAlike;
    hide Alike;
    var id, next := job.submission.runID, Finished(job, summary, q.records);
    SameRunFields(job.submission, q.records[id].submission);
    SameRunFields(next.submission, job.submission);
    var c := Credit(next.submission, summary, None);
    var credits' := credits + [c];
    assert credits'[|credits|].s.runID == id;
    CreditIsFiled(q, q', job, summary, files);
    forall i | 0 <= i < |credits| && Live(credits[i]) ensures credits[i].s.matchID != next.submission.matchID {
      assert Due(q, credits[i]);
      NoLiveCredit(q, credits[i], next.submission);
    }
  }

  lemma NoLiveCredit(q: Queue, c: Credit, s: Submission)
    requires Due(q, c) && Live(c) && AutoPromotes(q.records, s) && Indexed(q)
    requires s.runID in q.records && !q.records[s.runID].submission.official
    ensures c.s.matchID != s.matchID
  {
    hide AutoPromotes, NormalizeScope, HasBotIdentity, Indexed;
    var id :| Elig(q, CreditScope(c), id) && q.records[id].submission.matchID == c.s.matchID;
    if c.s.matchID == s.matchID { Unopposed(q, s, CreditScope(c), id); }
  }

  lemma StillExpected(q: Queue, q': Queue, credits: seq<Credit>, job: QueueRecord, summary: Summary,
                      files: map<Id, Summary>, scope: GameKey, id: Id)
    requires Completes(q, q', job, summary, files) && RepeatsAlike(q, job, summary, files) && Indexed(q)
    requires Elig(q, scope, id) && Expected(q, credits, id)
    ensures Expected(q', CreditsAfter(credits, Finished(job, summary, q.records), summary), id)
  {
    hide Finished, Filing, AutoPromotes, SameRun, Eligible, Expected, HasBotIdentity, Indexed, Alike, RepeatsAlike;
    var next := Finished(job, summary, q.records);
    CompletedSteady(q, q', job, summary, files, scope);
    SameRunFields(job.submission, q.records[job.submission.runID].submission);
    SameRunFields(next.submission, job.submission);
    ExpectedStays(q, q', credits, id);
    if next.submission.official {
      var c := Credit(next.submission, summary, None);
      if Live(c) && q'.records[id].submission.matchID == c.s.matchID {
        Unopposed(q, next.submission, scope, id);
        CreditIsFiled(q, q', job, summary, files);
      }
      ExpectedSnoc(q', credits, c, id);
    }
  }

  lemma CompletedSync(
      q: Queue, q': Queue, credits: seq<Credit>, job: QueueRecord, summary: Summary, files: map<Id, Summary>,
      left: seq<QueueRecord>, st: Standing, scope: GameKey)
    requires Completes(q, q', job, summary, files) && RepeatsAlike(q, job, summary, files)
    requires Officials(q) && Indexed(q) && Owed(q, credits) && Sync(q, credits, left, st, scope)
    ensures Sync(q', CreditsAfter(credits, Finished(job, summary, q.records), summary), left, st, scope)
  {
    var credits' := CreditsAfter(credits, Finished(job, summary, q.records), summary);
    CompletedSteady(q, q', job, summary, files, scope);
    hide Completes, RepeatsAlike, Finished, CreditsAfter, Officials, Indexed, Owed, Expected, Sync, Steady;
    forall id | Elig(q', scope, id) && !Elig(q, scope, id) ensures Expected(q', credits', id) {
      NewlyExpected(q, q', credits, job, summary, files);
    }
    hide Eligible, Ranked;
    forall id | Elig(q, scope, id) && Expected(q, credits, id) ensures Expected(q', credits', id) {
      StillExpected(q, q', credits, job, summary, files, scope, id);
    }
    SyncStays(q, q', credits, credits', left, st, scope);
  }

  lemma CompletedOwed(q: Queue, q': Queue, credits: seq<Credit>, job: QueueRecord, summary: Summary, files: map<Id, Summary>)
    requires Completes(q, q', job, summary, files) && RepeatsAlike(q, job, summary, files)
    requires SameRuns(q, q') && Owed(q, credits)
    ensures Owed(q', CreditsAfter(credits, Finished(job, summary, q.records), summary))
  {
    hide Finished, Filing, AutoPromotes, SameRuns, Steady, RepeatsAlike, NormalizeScope;
    forall scope ensures Steady(q, q', scope) { CompletedSteady(q, q', job, summary, files, scope); }
    OwedStays(q, q', credits);
    var id, next := job.submission.runID, Finished(job, summary, q.records);
    SameRunFields(job.submission, q.records[id].submission);
    SameRunFields(next.submission, job.submission);
    if next.submission.official {
      SelfRun(next.submission);
      hide SameRun;
      var c := Credit(next.submission, summary, None);
      if Live(c) {
        CreditIsFiled(q, q', job, summary, files);
        AlikeScopes(CreditedRecord(c), q'.records[id]);
        assert Elig(q', CreditScope(c), id);
      }
      assert Due(q', c);
      hide Due, Completes;
    }
  }

  lemma CompleteStep(a: System, act: Action)
    requires Allowed(a, act) && act.Complete?
    ensures var a', job, summary := Step(a, act), a.jobs[act.job], a.results[act.job];
            var r := Completion(a.q, job, summary, a.files, act.now);
            && a'.refreshes == a.refreshes && a'.standings == a.standings && a'.files == a.files && a'.results == a.results
            && if r.Err? then a'.q == a.q && a'.credits == a.credits
               else a'.q == r.value && a'.credits == CreditsAfter(a.credits, Finished(job, summary, a.q.records), summary)
  {
    hide Updated, Finished, Filing, RankingStep, RankingAllowed;
  }

  lemma CompleteKeeps(a: System, act: Action)
    requires Sound(a) && Cached(a) && Orderly(a, act) && act.Complete?
    ensures Cached(Step(a, act))
  {
    hide Step, Completion, Finished, Owed, Stored, Sync, StandingAt, Completes, CreditsAfter, Grows, Steady, InSync, Apart;
    hide Indexed, Line, Lifecycle, Officials, JobsKnown, Filed, RepeatsAlike, SameRuns, RankingAllowed;
    var job, summary, a' := a.jobs[act.job], a.results[act.job], Step(a, act);
    CompleteStep(a, act);
    if Completion(a.q, job, summary, a.files, act.now).Ok? {
      CompletingNow(a, act);
      StepGrows(a, act);
      GrowsSameRuns(a.q, a'.q);
      CompletedOwed(a.q, a'.q, a.credits, job, summary, a.files);
      CreditsSnoc(a.credits, Finished(job, summary, a.q.records), summary);
      forall scope ensures Steady(a.q, a'.q, scope) { CompletedSteady(a.q, a'.q, job, summary, a.files, scope); }
      forall scope, left, st | Sync(a.q, a.credits, left, st, scope) ensures Sync(a'.q, a'.credits, left, st, scope) {
        CompletedSync(a.q, a'.q, a.credits, job, summary, a.files, left, st, scope);
      }
      QueueKeeps(a, a');
    } else {
      SameKeeps(a, a');
    }
  }

  lemma CreditsSnoc(credits: seq<Credit>, next: QueueRecord, summary: Summary)
    ensures var credits' := CreditsAfter(credits, next, summary);
            credits' == credits || (|credits'| == |credits| + 1 && credits'[..|credits|] == credits
                                    && credits'[|credits|].read.None?)
  {
  }

  lemma SameKeeps(a: System, a': System)
    requires Cached(a) && a'.q == a.q && a'.credits == a.credits && a'.refreshes == a.refreshes
    requires a'.standings == a.standings && a'.files == a.files
    ensures Cached(a')
  {
    hide Owed, Stored, Sync, StandingAt, Heads, Apart, CountOpen, Exempt, Proper;
    forall scope | !Exempt(a.refreshes, a.files, scope) ensures InStep(a', scope) { assert InStep(a, scope); }
  }

  // ----- Promoting a run -----

  lemma NotDemoted(a: System, runID: Id, scope: GameKey, id: Id)
    requires Promoted(a.q, runID).Ok? && Terminals(a.q) && PromotesAlike(a, runID) && Elig(a.q, scope, id)
    requires NormalizeScope(a.q.records[runID].terminal.value.game) != scope
    ensures a.q.records[id].submission.matchID != a.q.records[runID].submission.matchID
  {
    hide NormalizeScope, HasBotIdentity, CreditDue;
    assert id != runID;
    assert Demotes(a.q, runID, id) ==> SameScope(a.q.records[id], a.q.records[runID]);
  }

  // Outside the scope of the promoted run nothing becomes or stops being ranked.
  lemma PromotedSteady(a: System, runID: Id, scope: GameKey)
    requires Promoted(a.q, runID).Ok? && Terminals(a.q) && PromotesAlike(a, runID)
    requires NormalizeScope(a.q.records[runID].terminal.value.game) != scope
    ensures var q' := Promoted(a.q, runID).value;
            Steady(a.q, q', scope) && forall id | Elig(q', scope, id) :: Elig(a.q, scope, id)
  {
    hide NormalizeScope, HasBotIdentity, Alike, CreditDue;
    var q, q' := a.q, Promoted(a.q, runID).value;
    forall id | Elig(q, scope, id) ensures Elig(q', scope, id) && Alike(q.records[id], q'.records[id]) {
      NotDemoted(a, runID, scope, id);
      SameTerminalAlike(q.records[id], q'.records[id]);
    }
  }

  lemma PromotedSync(a: System, runID: Id, left: seq<QueueRecord>, st: Standing, scope: GameKey)
    requires Promoted(a.q, runID).Ok? && Terminals(a.q) && PromotesAlike(a, runID)
    requires NormalizeScope(a.q.records[runID].terminal.value.game) != scope
    requires Sync(a.q, a.credits, left, st, scope)
    ensures Sync(Promoted(a.q, runID).value, a.credits, left, st, scope)
  {
    PromotedSteady(a, runID, scope);
    hide PromotesAlike, Eligible, Alike, Expected, Sync, Terminals, NormalizeScope;
    var q' := Promoted(a.q, runID).value;
    forall id | Elig(a.q, scope, id) && Expected(a.q, a.credits, id) ensures Expected(q', a.credits, id) {
      ExpectedStays(a.q, q', a.credits, id);
    }
    hide Promoted;
    SyncStays(a.q, q', a.credits, a.credits, left, st, scope);
  }

  // The promoted run takes the place of the ranked run it demotes.
  lemma PromotedInherits(a: System, runID: Id, scope: GameKey, id: Id)
    requires Promoted(a.q, runID).Ok? && Terminals(a.q) && PromotesAlike(a, runID) && Elig(a.q, scope, id)
    requires a.q.records[id].submission.matchID == a.q.records[runID].submission.matchID
    requires CreditDue(a.credits, a.q.records[runID].submission.matchID)
    ensures Elig(Promoted(a.q, runID).value, scope, runID)
  {
    hide NormalizeScope, HasBotIdentity, CreditDue;
    if id != runID { assert Demotes(a.q, runID, id); }
    SameRunFields(a.q.records[runID].submission, Promoted(a.q, runID).value.records[runID].submission);
  }

  lemma PromotedApart(q: Queue, runID: Id, scope: GameKey, id: Id)
    requires Promoted(q, runID).Ok? && Elig(q, scope, id)
    requires q.records[id].submission.matchID != q.records[runID].submission.matchID
    ensures Promoted(q, runID).value.records[id] == q.records[id] && Elig(Promoted(q, runID).value, scope, id)
  {
    hide NormalizeScope, HasBotIdentity;
  }

  lemma PromotedSameRuns(q: Queue, runID: Id)
    requires Promoted(q, runID).Ok?
    ensures SameRuns(q, Promoted(q, runID).value)
  {
  }

  lemma PromotedDue(a: System, runID: Id, c: Credit)
    requires Promoted(a.q, runID).Ok? && Terminals(a.q) && PromotesAlike(a, runID)
    requires Due(a.q, c) && (Live(c) ==> CreditDue(a.credits, c.s.matchID))
    ensures Due(Promoted(a.q, runID).value, c)
  {
    hide Promoted, Terminals, PromotesAlike, CreditDue, Eligible, NormalizeScope, HasBotIdentity, SameRun, CreditScope;
    var q, q', scope := a.q, Promoted(a.q, runID).value, CreditScope(c);
    PromotedSameRuns(q, runID);
    PromotedKnown(q, runID);
    SameRunTwice(c.s, q.records[c.s.runID].submission, q'.records[c.s.runID].submission);
    if Live(c) {
      var id :| Elig(q, scope, id) && q.records[id].submission.matchID == c.s.matchID;
      if c.s.matchID == q.records[runID].submission.matchID {
        PromotedInherits(a, runID, scope, id);
        SameRunFields(q.records[runID].submission, q'.records[runID].submission);
      } else {
        PromotedApart(q, runID, scope, id);
      }
    }
  }

  lemma PromotedKnown(q: Queue, runID: Id)
    requires Promoted(q, runID).Ok?
    ensures runID in q.records
  {
  }

  lemma PromotedTerminals(q: Queue, runID: Id)
    requires Promoted(q, runID).Ok? && Terminals(q)
    ensures Terminals(Promoted(q, runID).value)
  {
  }

  lemma PromoteStep(a: System, act: Action)
    requires Terminals(a.q) && act.Promote?
    ensures var a' := Step(a, act);
            && a'.credits == a.credits && a'.standings == a.standings && a'.files == a.files
            && if Promoted(a.q, act.runID).Err? then a'.q == a.q && a'.refreshes == a.refreshes
               else
                 && act.runID in a.q.records && a.q.records[act.runID].state.Completed?
                 && a.q.records[act.runID].terminal.Some? && a'.q == Promoted(a.q, act.runID).value
                 && a'.refreshes == a.refreshes + [Awaited(act.runID)]
  {
    hide RankingStep;
  }

  lemma PromoteKeeps(a: System, act: Action)
    requires Sound(a) && Cached(a) && Orderly(a, act) && act.Promote?
    ensures Cached(Step(a, act))
  {
    hide Step, Promoted, Terminals, Owed, Stored, Sync, StandingAt, NormalizeScope, PromotesAlike, InStep, Exempt, Apart;
    hide Indexed, Line, Lifecycle, Officials, JobsKnown, Filed, FileScope, RankingAllowed, Proper;
    SoundTerminals(a);
    PromoteStep(a, act);
    var a' := Step(a, act);
    if Promoted(a.q, act.runID).Ok? {
      PromotedOwed(a, act.runID);
      PromotedProper(a, act.runID);
      AwaitedOpen(a.credits, a.refreshes, act.runID, a.standings);
      FiledScope(a, act.runID);
      forall scope | !Exempt(a'.refreshes, a'.files, scope) ensures InStep(a', scope) {
        MoreExempt(a.refreshes, a.files, act.runID, scope);
        PromotedInStep(a, a', act.runID, scope);
      }
    } else {
      SameKeeps(a, a');
    }
  }

  lemma FiledScope(a: System, id: Id)
    requires Filed(a.q, a.jobs, a.results, a.files) && id in a.q.records && a.q.records[id].state.Completed?
    ensures a.q.records[id].terminal.Some?
    ensures FileScope(a.files, id) == NormalizeScope(a.q.records[id].terminal.value.game)
  {
    hide NormalizeScope;
  }

  lemma PromotedProper(a: System, runID: Id)
    requires Promoted(a.q, runID).Ok? && forall k | 0 <= k < |a.refreshes| :: Proper(a.q, a.refreshes[k])
    ensures var refreshes := a.refreshes + [Awaited(runID)];
            forall k | 0 <= k < |refreshes| :: Proper(Promoted(a.q, runID).value, refreshes[k])
  {
    PromoteGrows(a.q, runID);
    ProperStays(a.q, Promoted(a.q, runID).value, a.refreshes);
    hide Grows, NormalizeScope, ValidScope;
  }

  lemma AwaitedOpen(credits: seq<Credit>, refreshes: seq<Refresh>, runID: Id, standings: Standings)
    ensures forall k, scope :: CountOpen(refreshes + [Awaited(runID)], k, scope) <==> CountOpen(refreshes, k, scope)
    ensures forall k, scope | CountOpen(refreshes, k, scope) :: (refreshes + [Awaited(runID)])[k] == refreshes[k]
    ensures Apart(credits, refreshes, standings) ==> Apart(credits, refreshes + [Awaited(runID)], standings)
  {
    hide StandingAt;
  }

  lemma MoreExempt(refreshes: seq<Refresh>, files: map<Id, Summary>, runID: Id, scope: GameKey)
    requires !Exempt(refreshes + [Awaited(runID)], files, scope)
    ensures !Exempt(refreshes, files, scope) && FileScope(files, runID) != scope
  {
    hide FileScope;
    var more := refreshes + [Awaited(runID)];
    assert more[|refreshes|] == Awaited(runID) && !Exempts(more[|refreshes|], files, scope);
    forall k | 0 <= k < |refreshes| ensures !Exempts(refreshes[k], files, scope) { assert more[k] == refreshes[k]; }
  }

  lemma PromotedInStep(a: System, a': System, runID: Id, scope: GameKey)
    requires Promoted(a.q, runID).Ok? && Terminals(a.q) && PromotesAlike(a, runID) && InStep(a, scope)
    requires runID in a.q.records && a.q.records[runID].terminal.Some?
    requires NormalizeScope(a.q.records[runID].terminal.value.game) != scope
    requires a'.q == Promoted(a.q, runID).value && a'.credits == a.credits && a'.standings == a.standings
    requires a'.files == a.files && a'.refreshes == a.refreshes + [Awaited(runID)]
    ensures InStep(a', scope)
  {
    hide Promoted, Terminals, Sync, StandingAt, NormalizeScope, PromotesAlike, Heads, Steady, Grows, FileScope;
    AwaitedOpen(a.credits, a.refreshes, runID, a.standings);
    PromotedSteady(a, runID, scope);
    PromoteGrows(a.q, runID);
    forall k | CountOpen(a.refreshes, k, scope)
      ensures Sync(a'.q, a.credits, a.refreshes[k].left, a.refreshes[k].st, scope)
      ensures Heads(a'.q, a.files, a.refreshes[k].left, scope)
    {
      PromotedSync(a, runID, a.refreshes[k].left, a.refreshes[k].st, scope);
      HeadsStay(a.q, a'.q, a.files, a.files, a.refreshes[k].left, scope);
    }
    if forall k :: !CountOpen(a.refreshes, k, scope) {
      PromotedSync(a, runID, [], StandingAt(a.standings, scope), scope);
    }
  }

  lemma PromotedOwed(a: System, runID: Id)
    requires Promoted(a.q, runID).Ok? && Terminals(a.q) && PromotesAlike(a, runID) && Owed(a.q, a.credits)
    ensures Owed(Promoted(a.q, runID).value, a.credits)
  {
    hide Promoted, Terminals, PromotesAlike, Due;
    forall i | 0 <= i < |a.credits| ensures Due(Promoted(a.q, runID).value, a.credits[i]) {
      assert Live(a.credits[i]) ==> CreditDue(a.credits, a.credits[i].s.matchID);
      PromotedDue(a, runID, a.credits[i]);
    }
  }
}
