/**
  Runs of the arena that leave a stored ranking, or a match, wrong: what ArenaExactness says about
  single steps is reached from the empty system (internal/platform/service/run_commands.go, worker.go,
  ranking.go, store_memory.go, request.go).
*/
module ArenaFailures {
  import opened Identifiers
  import opened MatchResults
  import opened RunTypes
  import opened RunQueue
  import opened QueueInvariants
  import opened Ranking
  import opened RankingLifecycle
  import opened RunControl
  import opened Arena
  import opened RankedRuns
  import opened RankingCache
  import opened ArenaRanking
  import opened ArenaExactness

  // ----- Runs, one action at a time -----

  lemma Next(acts: seq<Action>, act: Action)
    requires OrderlyRun(acts) && Orderly(Reached(acts), act)
    ensures OrderlyRun(acts + [act]) && Reached(acts + [act]) == Step(Reached(acts), act)
  {
    hide Step, Orderly;
    assert (acts + [act])[..|acts|] == acts;
    OrderlyIsAllowed(Reached(acts), act);
  }

  lemma NextRun(acts: seq<Action>, act: Action)
    requires Run(acts) && Allowed(Reached(acts), act)
    ensures Run(acts + [act]) && Reached(acts + [act]) == Step(Reached(acts), act)
  {
    hide Step, Allowed;
    assert (acts + [act])[..|acts|] == acts;
  }

  lemma RankingIsAllowed(a: System, act: Action)
    requires RankingAllowed(a, act)
    ensures Allowed(a, act) && Step(a, act) == RankingStep(a, act)
  {
    hide RankingStep;
  }

  lemma NextCall(acts: seq<Action>, act: Action)
    requires Run(acts) && RankingAllowed(Reached(acts), act)
    ensures Run(acts + [act]) && Reached(acts + [act]) == RankingStep(Reached(acts), act)
  {
    hide Step, Allowed, RankingAllowed, RankingStep, Run, Reached;
    RankingIsAllowed(Reached(acts), act);
    NextRun(acts, act);
  }

  // The calls of refreshes, and those of credits.
  ghost predicate RefreshCalls(acts: seq<Action>, at: nat) {
    && |acts| >= 2 && acts[0] == ReadScope(at) && acts[1] == List(at)
    && forall i | 2 <= i < |acts| :: acts[i].ReadNext? || acts[i].Refresh?
  }

  predicate CreditCall(act: Action) { act.ReadRanking? || act.WriteRanking? }

  lemma NextRead(acts: seq<Action>, at: nat)
    requires OrderlyRun(acts) && Run(acts) && RankingAllowed(Reached(acts), ReadNext(at))
    ensures OrderlyRun(acts + [ReadNext(at)])
  {
    hide Step, OrderlyRun, Run, Reached, RankingAllowed;
    RankingIsAllowed(Reached(acts), ReadNext(at));
    Next(acts, ReadNext(at));
  }

  lemma {:induction false} CountRun(acts: seq<Action>, at: nat) returns (more: seq<Action>)
    requires Run(acts) && at < |Reached(acts).refreshes| && Reached(acts).refreshes[at].Counting?
    ensures Run(acts + more) && Reached(acts + more) == CountedUp(Reached(acts), at)
    ensures (forall i | 0 <= i < |more| :: more[i].ReadNext?) && (OrderlyRun(acts) ==> OrderlyRun(acts + more))
    decreases |Reached(acts).refreshes[at].left|
  {
    hide Run, Reached, OrderlyRun;
    if Reached(acts).refreshes[at].left == [] {
      more := [];
      assert acts + [] == acts;
    } else {
      NextCall(acts, ReadNext(at));
      var next := acts + [ReadNext(at)];
      if OrderlyRun(acts) { NextRead(acts, at); }
      if |Reached(next).refreshes| < |Reached(acts).refreshes| {
        more := [ReadNext(at)];
      } else {
        var rest := CountRun(next, at);
        more := [ReadNext(at)] + rest;
        assert next + rest == acts + more;
      }
    }
  }

  lemma RefreshRun(acts: seq<Action>, at: nat) returns (more: seq<Action>)
    requires Run(acts) && at < |Reached(acts).refreshes| && Reached(acts).refreshes[at].Awaited?
    ensures Run(acts + more) && Reached(acts + more) == RefreshedAt(Reached(acts), at) && RefreshCalls(more, at)
  {
    hide Run, Reached, CountedUp, RankingStep, RankingAllowed;
    ScopeThenList(Reached(acts), at);
    NextCall(acts, ReadScope(at));
    NextCall(acts + [ReadScope(at)], List(at));
    more := [ReadScope(at)] + [List(at)];
    assert acts + more == acts + [ReadScope(at)] + [List(at)];
    var b := Reached(acts + more);
    if |b.refreshes| == |Reached(acts).refreshes| {
      var counted := CountRun(acts + more, at);
      assert acts + more + counted == acts + (more + counted);
      more := more + counted;
      var c := Reached(acts + more);
      if |c.refreshes| == |b.refreshes| && c.refreshes[at].Counting? && c.refreshes[at].left == [] {
        WriteAllowed(c, at);
        NextCall(acts + more, Action.Refresh(at));
        assert acts + more + [Action.Refresh(at)] == acts + (more + [Action.Refresh(at)]);
        more := more + [Action.Refresh(at)];
      }
    }
  }

  lemma ScopeThenList(a: System, at: nat)
    requires at < |a.refreshes| && a.refreshes[at].Awaited?
    ensures RankingAllowed(a, ReadScope(at)) && RankingAllowed(RankingStep(a, ReadScope(at)), List(at))
    ensures var b := RankingStep(RankingStep(a, ReadScope(at)), List(at));
            |b.refreshes| <= |a.refreshes| && (|b.refreshes| == |a.refreshes| ==> b.refreshes[at].Counting?)
  {
    hide FileScope, ValidScope, Listed;
  }

  lemma WriteAllowed(a: System, at: nat)
    requires at < |a.refreshes| && a.refreshes[at].Counting? && a.refreshes[at].left == []
    ensures RankingAllowed(a, Action.Refresh(at))
  {
  }

  lemma CreditRunOf(acts: seq<Action>, at: nat) returns (more: seq<Action>)
    requires Run(acts) && at < |Reached(acts).credits| && Reached(acts).credits[at].read.None?
    ensures Run(acts + more) && Reached(acts + more) == CreditedAt(Reached(acts), at)
    ensures forall i | 0 <= i < |more| :: CreditCall(more[i])
  {
    hide Run, Reached, HasBotIdentity, BuiltUpdate, StandingAt, CreditWritten, NormalizeScope;
    var a := Reached(acts);
    if Worth(a.credits[at]) {
      NextCall(acts, ReadRanking(at));
      NextCall(acts + [ReadRanking(at)], WriteRanking(at));
      more := [ReadRanking(at)] + [WriteRanking(at)];
      assert acts + more == acts + [ReadRanking(at)] + [WriteRanking(at)];
    } else {
      NextCall(acts, WriteRanking(at));
      more := [WriteRanking(at)];
    }
  }

  ghost predicate Fresh(q: Queue, s: Submission) {
    WellFormed(s) && TrimmedPlayers(s.players) && s.runKind.Initial? && !s.official && s.runID !in q.records && q.order == []
  }

  function LeasedRecord(s: Submission, state: State, workerID: Id, now: int): QueueRecord {
    QueueRecord(s, state, None, NewLease(workerID, now), None)
  }

  lemma SubmitStep(a: System, s: Submission)
    requires Fresh(a.q, s)
    ensures Orderly(a, Submit(s)) && Step(a, Submit(s)) == a.(q := Enqueued(a.q, s))
  {
    hide WellFormed, TrimmedPlayers, RankingStep, RankingAllowed;
  }

  lemma ClaimStep(a: System, s: Submission, job: Id, workerID: Id, now: int)
    requires a.q.order == [s.runID] && s.runID in a.q.records && !workerID.Blank() && job !in a.jobs
    requires a.q.records[s.runID] == QueueRecord(s, Queued, None, None, None)
    ensures var act, r := Action.Claim(job, workerID, now), LeasedRecord(s, Leased, workerID, now);
            && Orderly(a, act)
            && Step(a, act) == a.(q := Queue(a.q.all, [], a.q.records[s.runID := r]), jobs := a.jobs[job := r],
                                  results := a.results - {job})
  {
    hide Id.Blank, RankingStep, RankingAllowed;
    assert FirstWaiting(a.q.order, a.q.records) == 0;
    assert a.q.order[1..] == [];
  }

  lemma AdvanceStep(a: System, s: Submission, job: Id, from: State, to: State, workerID: Id, now: int)
    requires job in a.jobs && s.runID in a.q.records && a.jobs[job] == LeasedRecord(s, from, workerID, now)
    requires a.q.records[s.runID] == a.jobs[job]
    requires (from.Leased? && to.Running?) || (from.Running? && to.Persisting?)
    ensures var act, r := Action.Advance(job, to, now), LeasedRecord(s, to, workerID, now);
            && Orderly(a, act)
            && Step(a, act) == a.(q := a.q.(records := a.q.records[s.runID := r]), jobs := a.jobs[job := r])
  {
    hide RankingStep, RankingAllowed;
  }

  // From the line to its last stage.
  lemma Taken(acts: seq<Action>, s: Submission, job: Id, workerID: Id, now: int) returns (more: seq<Action>)
    requires OrderlyRun(acts) && Reached(acts).q.order == [s.runID] && s.runID in Reached(acts).q.records
    requires !workerID.Blank() && job !in Reached(acts).jobs
    requires Reached(acts).q.records[s.runID] == QueueRecord(s, Queued, None, None, None)
    ensures more == acts + [Action.Claim(job, workerID, now), Action.Advance(job, Running, now),
                            Action.Advance(job, Persisting, now)]
    ensures OrderlyRun(more)
    ensures var a, r := Reached(acts), LeasedRecord(s, Persisting, workerID, now);
            Reached(more) == a.(q := Queue(a.q.all, [], a.q.records[s.runID := r]), jobs := a.jobs[job := r],
                                results := a.results - {job})
  {
    hide Step, Orderly, OrderlyRun, Reached, Run, Id.Blank;
    OrderlyIsRun(acts);
    var a := Reached(acts);
    var claim, run, persist := Action.Claim(job, workerID, now), Action.Advance(job, Running, now),
                               Action.Advance(job, Persisting, now);
    ClaimStep(a, s, job, workerID, now);
    Next(acts, claim);
    OrderlyIsRun(acts + [claim]);
    var b := Reached(acts + [claim]);
    AdvanceStep(b, s, job, Leased, Running, workerID, now);
    Next(acts + [claim], run);
    OrderlyIsRun(acts + [claim] + [run]);
    var c := Reached(acts + [claim] + [run]);
    AdvanceStep(c, s, job, Running, Persisting, workerID, now);
    Next(acts + [claim] + [run], persist);
    more := acts + [claim] + [run] + [persist];
    var r1, r2, r3 := LeasedRecord(s, Leased, workerID, now), LeasedRecord(s, Running, workerID, now),
                      LeasedRecord(s, Persisting, workerID, now);
    assert a.q.records[s.runID := r1][s.runID := r2][s.runID := r3] == a.q.records[s.runID := r3];
    assert a.jobs[job := r1][job := r2][job := r3] == a.jobs[job := r3];
    assert more == acts + [claim, run, persist];
  }

  lemma Underway(acts: seq<Action>, s: Submission, job: Id, workerID: Id, now: int) returns (more: seq<Action>)
    requires OrderlyRun(acts) && Fresh(Reached(acts).q, s) && !workerID.Blank() && job !in Reached(acts).jobs
    ensures more == acts + [Action.Submit(s), Action.Claim(job, workerID, now), Action.Advance(job, Running, now),
                            Action.Advance(job, Persisting, now)]
    ensures OrderlyRun(more)
    ensures var a, r := Reached(acts), LeasedRecord(s, Persisting, workerID, now);
            Reached(more) == a.(q := Queue(a.q.all + [s.runID], [], a.q.records[s.runID := r]), jobs := a.jobs[job := r],
                                results := a.results - {job})
  {
    hide Step, Orderly, OrderlyRun, Reached, Run, Id.Blank, WellFormed, TrimmedPlayers;
    OrderlyIsRun(acts);
    var a, submit := Reached(acts), Action.Submit(s);
    SubmitStep(a, s);
    Next(acts, submit);
    more := Taken(acts + [submit], s, job, workerID, now);
    var r0, r := QueueRecord(s, Queued, None, None, None), LeasedRecord(s, Persisting, workerID, now);
    assert a.q.records[s.runID := r0][s.runID := r] == a.q.records[s.runID := r];
  }

  // The last run of the line completes; it is official unless another run of its match is.
  function Ending(s: Submission, summary: Summary, official: bool, workerID: Id, now: int): QueueRecord {
    QueueRecord(s.(official := official), Completed, Some(now), NewLease(workerID, now), Some(summary))
  }

  predicate Wins(records: map<Id, QueueRecord>, s: Submission, summary: Summary) {
    summary.status.MatchCompleted? && AutoPromotes(records, s)
  }

  lemma PersistStep(a: System, s: Submission, job: Id, summary: Summary, workerID: Id, now: int)
    requires job in a.jobs && s.runID in a.q.records && a.jobs[job] == LeasedRecord(s, Persisting, workerID, now)
    requires !a.q.records[s.runID].state.Completed? && summary.matchID == s.matchID
    ensures Orderly(a, Persist(job, summary))
    ensures Step(a, Persist(job, summary))
         == a.(results := a.results[job := summary], files := a.files[s.runID := summary])
  {
    hide RankingStep, RankingAllowed, Alike, HasBotIdentity;
  }

  lemma CompletesStep(a: System, s: Submission, job: Id, summary: Summary, workerID: Id, now: int)
    requires job in a.jobs && s.runID in a.q.records && a.jobs[job] == LeasedRecord(s, Persisting, workerID, now)
    requires a.q.records[s.runID] == a.jobs[job] && !s.official
    requires job in a.results && a.results[job] == summary && s.runID in a.files && a.files[s.runID] == summary
    ensures var act, official := Complete(job, now), Wins(a.q.records, s, summary);
            && Orderly(a, act)
            && Step(a, act) == a.(q := a.q.(records := a.q.records[s.runID := Ending(s, summary, official, workerID, now)]),
                                  jobs := a.jobs - {job},
                                  credits := if official then a.credits + [Credit(s.(official := true), summary, None)]
                                             else a.credits)
  {
    hide AutoPromotes, Alike, RankingStep, RankingAllowed, HasBotIdentity;
    var next := Finished(a.jobs[job], summary, a.q.records);
    assert next.terminal == Some(summary) && Filing(next, a.files) == next;
    UntouchedAlike(next);
  }

  // A pass in its last stage persists its summary and completes its run.
  lemma Ended(acts: seq<Action>, s: Submission, job: Id, summary: Summary, workerID: Id, now: int) returns (more: seq<Action>)
    requires OrderlyRun(acts) && Run(acts) && job in Reached(acts).jobs && s.runID in Reached(acts).q.records
    requires Reached(acts).jobs[job] == LeasedRecord(s, Persisting, workerID, now) && summary.matchID == s.matchID
    requires Reached(acts).q.records[s.runID] == Reached(acts).jobs[job] && !s.official
    ensures more == acts + [Persist(job, summary), Complete(job, now)] && OrderlyRun(more) && Run(more)
    ensures var a, b, official := Reached(acts), Reached(more), Wins(Reached(acts).q.records, s, summary);
            && b.q == a.q.(records := a.q.records[s.runID := Ending(s, summary, official, workerID, now)])
            && b.jobs == a.jobs - {job} && b.results == a.results[job := summary] && b.refreshes == a.refreshes
            && b.files == a.files[s.runID := summary] && b.standings == a.standings
            && b.credits == (if official then a.credits + [Credit(s.(official := true), summary, None)] else a.credits)
  {
    hide Step, Orderly, OrderlyRun, Reached, Run, Ending, Wins;
    var a, persist := Reached(acts), Persist(job, summary);
    PersistStep(a, s, job, summary, workerID, now);
    Next(acts, persist);
    OrderlyIsRun(acts + [persist]);
    CompletesStep(Reached(acts + [persist]), s, job, summary, workerID, now);
    Next(acts + [persist], Complete(job, now));
    more := acts + [persist] + [Complete(job, now)];
    OrderlyIsRun(more);
    assert more == acts + [Persist(job, summary), Complete(job, now)];
  }

  lemma StartIsOrderly()
    ensures OrderlyRun([]) && Run([]) && Reached([]) == START
  {
  }

  // The only credit there is, with no refresh about, is read and written in order.
  lemma CreditedFirst(acts: seq<Action>) returns (more: seq<Action>)
    requires OrderlyRun(acts) && Run(acts) && |Reached(acts).credits| == 1 && Reached(acts).refreshes == []
    requires Worth(Reached(acts).credits[0]) && Reached(acts).credits[0].read.None?
    ensures more == acts + [ReadRanking(0), WriteRanking(0)] && OrderlyRun(more) && Run(more)
    ensures var a, b := Reached(acts), Reached(more);
            b.q == a.q && b.jobs == a.jobs && b.results == a.results && b.files == a.files && b.credits == [] && b.refreshes == []
  {
    hide Step, Orderly, OrderlyRun, Reached, Run, Worth;
    var a := Reached(acts);
    ReadFirst(a);
    Next(acts, ReadRanking(0));
    OrderlyIsRun(acts + [ReadRanking(0)]);
    WriteFirst(Reached(acts + [ReadRanking(0)]));
    Next(acts + [ReadRanking(0)], WriteRanking(0));
    more := acts + [ReadRanking(0)] + [WriteRanking(0)];
    OrderlyIsRun(more);
    assert more == acts + [ReadRanking(0), WriteRanking(0)];
  }

  lemma ReadFirst(a: System)
    requires |a.credits| == 1 && a.refreshes == [] && Worth(a.credits[0]) && a.credits[0].read.None?
    ensures Orderly(a, ReadRanking(0))
    ensures var b, c := Step(a, ReadRanking(0)), a.credits[0];
            b == a.(credits := [c.(read := Some(StandingAt(a.standings, CreditScope(c))))]) && Worth(b.credits[0])
  {
    hide HasBotIdentity, BuiltUpdate, StandingAt, NormalizeScope;
    RankingIsAllowed(a, ReadRanking(0));
    hide Step;
  }

  lemma WriteFirst(a: System)
    requires |a.credits| == 1 && Worth(a.credits[0]) && a.credits[0].read.Some?
    ensures Orderly(a, WriteRanking(0))
    ensures var b := Step(a, WriteRanking(0)); b == a.(standings := b.standings, credits := [])
  {
    hide HasBotIdentity, BuiltUpdate, CreditWritten;
    RankingIsAllowed(a, WriteRanking(0));
    hide Step;
  }

  // A match won: its one run completed, official and credited, and nothing else in the system.
  lemma Won(s: Submission, summary: Summary, job: Id, workerID: Id, now: int) returns (acts: seq<Action>)
    requires Fresh(EMPTY, s) && !workerID.Blank() && summary.matchID == s.matchID && summary.status.MatchCompleted?
    requires HasBotIdentity(s) && BuiltUpdate(s, summary).Ok?
    ensures |acts| == 8 && OrderlyRun(acts) && Run(acts)
    ensures var a := Reached(acts);
            && a.q == Queue([s.runID], [], map[s.runID := Ending(s, summary, true, workerID, now)])
            && a.jobs == map[] && a.credits == [] && a.refreshes == []
  {
    hide Step, Orderly, OrderlyRun, Reached, Run, Id.Blank, WellFormed, TrimmedPlayers, Ending, HasBotIdentity, BuiltUpdate;
    StartIsOrderly();
    acts := Underway([], s, job, workerID, now);
    OrderlyIsRun(acts);
    acts := Ended(acts, s, job, summary, workerID, now);
    WonCredit(s, summary);
    acts := CreditedFirst(acts);
  }

  lemma WonCredit(s: Submission, summary: Summary)
    requires HasBotIdentity(s) && BuiltUpdate(s, summary).Ok?
    ensures Worth(Credit(s.(official := true), summary, None))
  {
    hide HasBotIdentity, BuiltUpdate;
    SameRunFields(s, s.(official := true));
    SameRunBuilds(QueueRecord(s, Completed, None, None, Some(summary)),
                  QueueRecord(s.(official := true), Completed, None, None, Some(summary)));
  }

  // A system at rest counts every scope right.
  lemma RestIsFaithful(acts: seq<Action>, scope: GameKey)
    requires OrderlyRun(acts) && scope == NormalizeScope(scope) && ValidScope(scope)
    requires Run(acts) && Reached(acts).credits == [] && Reached(acts).refreshes == []
    ensures Faithful(Reached(acts), scope) && Sound(Reached(acts)) && Terminals(Reached(acts).q)
    ensures Stored(Reached(acts).standings)
    ensures AllBuilt(Reached(acts).q, scope) ==> Recomputation(Reached(acts).q, scope).Ok?
  {
    hide Reached, Run, NormalizeScope, ValidScope, Faithful, Recomputation, Terminals, Stored, AllBuilt, InSync, Owed, Shape;
    hide Indexed, Officials, Line, Lifecycle, JobsKnown, Filed, Apart;
    StoredRankingIsRecomputed(acts, scope);
    OrderlyRunIsCached(acts);
    RunIsSound(acts);
    SoundTerminals(Reached(acts));
    RecomputedShape(Reached(acts).q, scope);
  }

  // ----- A promotion across scopes -----

  // Two initial submissions of one match: the first with identified bots, the second without.
  ghost predicate Rivals(s: Submission, first: Summary, t: Submission, second: Summary) {
    && Fresh(EMPTY, s) && HasBotIdentity(s) && first.status.MatchCompleted? && BuiltUpdate(s, first).Ok?
    && WellFormed(t) && TrimmedPlayers(t.players) && t.runKind.Initial? && !t.official && t.runID != s.runID
    && t.matchID == s.matchID == first.matchID == second.matchID
  }

  // A ranked run, and a later completed run of its match.
  ghost predicate Rivalry(q: Queue, s: Submission, first: Summary, t: Submission, second: Summary) {
    && s.runID in q.records && t.runID in q.records && t.runID != s.runID
    && q.records.Keys == {s.runID, t.runID}
    && q.records[s.runID].submission == s.(official := true) && q.records[s.runID].state.Completed?
    && q.records[s.runID].terminal == Some(first)
    && q.records[t.runID].submission == t && q.records[t.runID].state.Completed?
    && q.records[t.runID].terminal == Some(second)
  }

  lemma Rivaled(s: Submission, first: Summary, t: Submission, second: Summary, job: Id, workerID: Id) returns (acts: seq<Action>)
    requires Rivals(s, first, t, second) && !workerID.Blank()
    ensures OrderlyRun(acts) && Run(acts) && Reached(acts).credits == [] && Reached(acts).refreshes == []
    ensures Rivalry(Reached(acts).q, s, first, t, second)
  {
    hide Step, Orderly, OrderlyRun, Reached, Run, Id.Blank, WellFormed, TrimmedPlayers, BuiltUpdate, HasBotIdentity;
    acts := Won(s, first, job, workerID, 0);
    acts := Underway(acts, t, job, workerID, 0);
    OrderlyIsRun(acts);
    assert BlocksPromotion(Reached(acts).q.records[s.runID], t);
    acts := Ended(acts, t, job, second, workerID, 0);
  }

  lemma RivalsRanked(q: Queue, s: Submission, first: Summary, t: Submission, second: Summary, scope: GameKey)
    requires Rivalry(q, s, first, t, second) && HasBotIdentity(s) && !t.official && BuiltUpdate(s, first).Ok?
    requires NormalizeScope(first.game) == scope && s.matchID == t.matchID
    ensures forall id :: Elig(q, scope, id) <==> id == s.runID
    ensures AllBuilt(q, scope) && ValidScope(scope)
    ensures Promoted(q, t.runID).Ok? && Demotes(q, t.runID, s.runID) && OwnScope(q, t.runID) == NormalizeScope(second.game)
  {
    hide NormalizeScope, HasBotIdentity, BuiltUpdate, ValidScope, UpdateOf;
    var r := q.records[s.runID];
    assert SameRun(s, r.submission);
    SameRunFields(s, r.submission);
    SameRunBuilds(QueueRecord(s, Completed, None, None, Some(first)), r);
    RunsUpdate(r);
  }

  // A promotion with all the calls of its refresh.
  lemma RefreshedRun(front: seq<Action>, runID: Id) returns (acts: seq<Action>)
    requires Run(front) && Promotable(Reached(front), runID)
    ensures |acts| > |front| && acts[..|front|] == front && acts[|front|] == Action.Promote(runID)
    ensures RefreshCalls(acts[|front| + 1..], |Reached(front).refreshes|)
    ensures Run(acts) && Reached(acts) == Refreshed(Reached(front), runID)
    ensures Reached(acts).refreshes == Reached(front).refreshes && Reached(acts).credits == Reached(front).credits
  {
    hide Reached, Run, Promoted, Sound, Terminals, Stored, RefreshedAt;
    var promote := Action.Promote(runID);
    PromoteStep(Reached(front), promote);
    NextRun(front, promote);
    var more := RefreshRun(front + [promote], |Reached(front).refreshes|);
    RefreshedState(Reached(front), runID);
    acts := front + [promote] + more;
    assert acts[|front| + 1..] == more;
  }

  /**
    The run: the first submission wins its match and is credited, the second is completed for the same
    match and promoted, and its scope refreshed, one call after the other. Nothing is pending, and the
    first scope is counted right if and only if it is the second's as well.
  */
  lemma PromotionAcrossScopes(s: Submission, first: Summary, t: Submission, second: Summary, job: Id, workerID: Id)
      returns (acts: seq<Action>, n: nat)
    requires Rivals(s, first, t, second) && !workerID.Blank()
    ensures n < |acts| && OrderlyRun(acts[..n]) && acts[n] == Action.Promote(t.runID)
    ensures RefreshCalls(acts[n + 1..], 0) && Run(acts) && Quiet(Reached(acts), NormalizeScope(first.game))
    ensures Faithful(Reached(acts), NormalizeScope(first.game)) <==> NormalizeScope(first.game) == NormalizeScope(second.game)
  {
    hide Step, Orderly, OrderlyRun, Reached, Run, WellFormed, BuiltUpdate, HasBotIdentity, NormalizeScope, Faithful, Promoted;
    hide Rivalry, Sound, Terminals, Stored, Eligible, Recomputation, AllBuilt, OwnScope, ValidScope, Refreshed, Fresh, Id.Blank;
    var front := Rivaled(s, first, t, second, job, workerID);
    n := |front|;
    var a, scope, own := Reached(front), NormalizeScope(first.game), NormalizeScope(second.game);
    RivalsRanked(a.q, s, first, t, second, scope);
    NormalizeScopeTwice(first.game);
    RestIsFaithful(front, scope);
    acts := RefreshedRun(front, t.runID);
    if scope != own {
      PromotionSparesScopeIff(a, t.runID, scope);
    } else {
      OwnScopeIsFaithful(a, t.runID);
    }
  }

  lemma OwnScopeIsFaithful(a: System, runID: Id)
    requires Promotable(a, runID)
    ensures Faithful(Refreshed(a, runID), OwnScope(a.q, runID))
  {
    hide Promoted, Recomputation, Refreshed, NormalizeScope, Sound, Terminals, Stored, StandingAt, OwnScope, SameCounts;
    RefreshedState(a, runID);
    var own := OwnScope(a.q, runID);
    var after := Refreshed(a, runID);
    if Recomputation(after.q, own).Ok? { SelfCounts(StandingAt(after.standings, own).table); }
  }

  // ----- A credit overtaken by a promotion -----

  lemma Owing(s: Submission, first: Summary, t: Submission, second: Summary, job: Id, workerID: Id) returns (acts: seq<Action>)
    requires Rivals(s, first, t, second) && !workerID.Blank()
    ensures OrderlyRun(acts) && Run(acts)
    ensures Reached(acts).credits == [Credit(s.(official := true), first, None)] && Reached(acts).refreshes == []
    ensures Reached(acts).standings == map[]
    ensures Rivalry(Reached(acts).q, s, first, t, second)
  {
    hide Step, Orderly, OrderlyRun, Reached, Run, Id.Blank, WellFormed, TrimmedPlayers, BuiltUpdate, HasBotIdentity;
    StartIsOrderly();
    acts := Underway([], s, job, workerID, 0);
    OrderlyIsRun(acts);
    acts := Ended(acts, s, job, first, workerID, 0);
    acts := Underway(acts, t, job, workerID, 0);
    OrderlyIsRun(acts);
    assert BlocksPromotion(Reached(acts).q.records[s.runID], t);
    acts := Ended(acts, t, job, second, workerID, 0);
  }

  /**
    The run: the first submission wins its match and its worker has yet to credit it, the second is
    completed in the same scope and promoted, the scope refreshed, and only then the credit read and
    written. The scope is counted right if and only if the second submission is of identified bots.
  */
  lemma CreditOvertaken(s: Submission, first: Summary, t: Submission, second: Summary, job: Id, workerID: Id)
      returns (acts: seq<Action>, n: nat, m: nat)
    requires Rivals(s, first, t, second) && !workerID.Blank() && NormalizeScope(first.game) == NormalizeScope(second.game)
    requires HasBotIdentity(t) ==> BuiltUpdate(t, second).Ok?
    ensures n < m < |acts| && OrderlyRun(acts[..n]) && acts[n] == Action.Promote(t.runID)
    ensures RefreshCalls(acts[n + 1..m], 0) && forall i | m <= i < |acts| :: CreditCall(acts[i])
    ensures Run(acts) && Quiet(Reached(acts), NormalizeScope(first.game))
    ensures Faithful(Reached(acts), NormalizeScope(first.game)) <==> HasBotIdentity(t)
  {
    hide Step, Orderly, OrderlyRun, Reached, Run, WellFormed, BuiltUpdate, HasBotIdentity, NormalizeScope, Faithful, Promoted;
    hide Rivalry, Sound, Terminals, Stored, Eligible, Recomputation, AllBuilt, OwnScope, ValidScope, Refreshed, Fresh, Id.Blank;
    hide Due, Built, CreditedAt;
    var front := Owing(s, first, t, second, job, workerID);
    n := |front|;
    var a, scope := Reached(front), NormalizeScope(first.game);
    OvertakingReady(front, s, first, t, second);
    acts := RefreshedRun(front, t.runID);
    m := |acts|;
    OvertakenCreditIff(a, t.runID, 0);
    RefreshedState(a, t.runID);
    CreditLeaves(Refreshed(a, t.runID));
    var more := CreditRunOf(acts, 0);
    CreditCalls(acts, more);
    Extended(front, acts, more);
    assert (acts + more)[n + 1..m] == acts[n + 1..];
    acts := acts + more;
  }

  lemma Extended(front: seq<Action>, acts: seq<Action>, more: seq<Action>)
    requires |front| < |acts| && acts[..|front|] == front
    ensures (acts + more)[..|front|] == front && (acts + more)[|front|] == acts[|front|]
  {
  }

  lemma CreditCalls(acts: seq<Action>, more: seq<Action>)
    requires Run(acts) && Run(acts + more) && |Reached(acts).credits| == 1 && |Reached(acts + more).credits| == 0
    ensures more != []
  {
    assert acts + [] == acts;
  }

  // The credit of s is due, and t, of the same match and scope, may be promoted.
  ghost predicate Overtakable(a: System, s: Submission, first: Summary, t: Submission) {
    var scope := NormalizeScope(first.game);
    && a.credits == [Credit(s.(official := true), first, None)] && a.refreshes == [] && a.standings == map[]
    && Promotable(a, t.runID) && OwnScope(a.q, t.runID) == scope == NormalizeScope(scope)
    && Due(a.q, a.credits[0]) && Live(a.credits[0]) && Built(CreditedRecord(a.credits[0])) && Worth(a.credits[0])
    && t.runID in a.q.records && a.q.records[t.runID].submission == t
    && Recomputation(Promoted(a.q, t.runID).value, scope).Ok?
  }

  lemma OvertakingReady(front: seq<Action>, s: Submission, first: Summary, t: Submission, second: Summary)
    requires Rivals(s, first, t, second) && NormalizeScope(first.game) == NormalizeScope(second.game)
    requires HasBotIdentity(t) ==> BuiltUpdate(t, second).Ok?
    requires OrderlyRun(front) && Run(front) && Rivalry(Reached(front).q, s, first, t, second)
    requires Reached(front).credits == [Credit(s.(official := true), first, None)]
    requires Reached(front).refreshes == [] && Reached(front).standings == map[]
    ensures Overtakable(Reached(front), s, first, t)
  {
    hide Step, Orderly, OrderlyRun, Reached, Run, WellFormed, BuiltUpdate, HasBotIdentity, NormalizeScope, Promoted;
    hide Rivalry, Sound, Terminals, Stored, Eligible, Recomputation, AllBuilt, OwnScope, ValidScope, Fresh, Due, Built, Cached;
    var a, scope := Reached(front), NormalizeScope(first.game);
    RivalsRanked(a.q, s, first, t, second, scope);
    NormalizeScopeTwice(first.game);
    OrderlyRunIsCached(front);
    RunIsSound(front);
    SoundTerminals(a);
    OwedCredit(a, s, first);
    SoundQueues(a);
    SwappedRecompute(a.q, s, first, t, second, scope);
    RivalRecords(a.q, s, first, t, second);
  }

  lemma CreditLeaves(b: System)
    requires |b.credits| == 1 && b.credits[0].read.None? && b.credits[0].s.official && Stored(b.standings)
    ensures CreditedAt(b, 0).credits == [] && CreditedAt(b, 0).refreshes == b.refreshes
  {
    hide Stored, CreditRun;
    CreditedAtIs(b, 0);
  }

  lemma RivalRecords(q: Queue, s: Submission, first: Summary, t: Submission, second: Summary)
    requires Rivalry(q, s, first, t, second)
    ensures t.runID in q.records && q.records[t.runID].submission == t
  {
  }

  lemma OwedCredit(a: System, s: Submission, first: Summary)
    requires Cached(a) && a.credits == [Credit(s.(official := true), first, None)] && HasBotIdentity(s)
    requires BuiltUpdate(s, first).Ok?
    ensures Due(a.q, a.credits[0]) && Live(a.credits[0]) && Built(CreditedRecord(a.credits[0])) && Worth(a.credits[0])
    ensures Stored(a.standings)
  {
    hide Stored, InSync, Due, Apart;
    hide BuiltUpdate, HasBotIdentity;
    SameRunFields(s, s.(official := true));
    SameRunBuilds(QueueRecord(s, Completed, None, None, Some(first)), CreditedRecord(a.credits[0]));
  }

  lemma SwappedRecompute(q: Queue, s: Submission, first: Summary, t: Submission, second: Summary, scope: GameKey)
    requires Rivalry(q, s, first, t, second) && s.matchID == t.matchID && ValidScope(scope) && scope == NormalizeScope(scope)
    requires HasBotIdentity(t) ==> BuiltUpdate(t, second).Ok?
    requires Indexed(q) && Officials(q) && Terminals(q)
    ensures Promoted(q, t.runID).Ok? && Recomputation(Promoted(q, t.runID).value, scope).Ok?
  {
    var q' := Promoted(q, t.runID).value;
    SwappedBuilt(q, s, first, t, second, scope);
    PromotedTerminals(q, t.runID);
    PromotedIndexed(q, t.runID);
    PromoteOfficials(q, t.runID);
    hide Promoted, Indexed, Officials, Terminals, Recomputation, NormalizeScope, ValidScope, AllBuilt, Shape, Rivalry;
    RecomputedShape(q', scope);
  }

  lemma PromotedIndexed(q: Queue, runID: Id)
    requires Indexed(q) && Promoted(q, runID).Ok?
    ensures Indexed(Promoted(q, runID).value)
  {
    hide Indexed;
    CallKeepsIndexed(q, Call.Promote(runID));
  }

  lemma SwappedBuilt(q: Queue, s: Submission, first: Summary, t: Submission, second: Summary, scope: GameKey)
    requires Rivalry(q, s, first, t, second) && s.matchID == t.matchID
    requires HasBotIdentity(t) ==> BuiltUpdate(t, second).Ok?
    ensures Promoted(q, t.runID).Ok? && AllBuilt(Promoted(q, t.runID).value, scope)
  {
    hide NormalizeScope, HasBotIdentity, BuiltUpdate;
    var r := Promoted(q, t.runID).value.records[t.runID];
    assert SameRun(t, r.submission);
    SameRunFields(t, r.submission);
    SameRunBuilds(QueueRecord(t, Completed, None, None, Some(second)), r);
  }

  // ----- Ranking calls that overlap -----

  lemma PromotesOrderly(a: System, runID: Id)
    requires Promotable(a, runID) && Filed(a.q, a.jobs, a.results, a.files)
    requires forall id | Demotes(a.q, runID, id) && HasBotIdentity(a.q.records[id].submission) ::
               SameScope(a.q.records[id], a.q.records[runID]) && HasBotIdentity(a.q.records[runID].submission)
    ensures Orderly(a, Action.Promote(runID))
  {
    hide Promoted, Sound, Terminals, Stored, HasBotIdentity, CreditDue, RankingAllowed;
  }

  // A promotion in its own scope, with the first call of its refresh.
  lemma PromotedOrderly(front: seq<Action>, runID: Id)
    requires OrderlyRun(front) && Run(front) && Promotable(Reached(front), runID)
    requires Orderly(Reached(front), Action.Promote(runID))
    ensures OrderlyRun(front + [Action.Promote(runID)] + [ReadScope(|Reached(front).refreshes|)])
  {
    hide Step, Orderly, OrderlyRun, Reached, Run, Promotable;
    var a := Reached(front);
    Next(front, Action.Promote(runID));
    OrderlyIsRun(front + [Action.Promote(runID)]);
    ScopeOrderly(a, runID);
    Next(front + [Action.Promote(runID)], ReadScope(|a.refreshes|));
  }

  lemma ScopeOrderly(a: System, runID: Id)
    requires Promotable(a, runID)
    ensures Orderly(Step(a, Action.Promote(runID)), ReadScope(|a.refreshes|))
  {
    hide Promoted, Sound, Terminals, Stored, Step;
    PromoteStep(a, Action.Promote(runID));
  }

  // Before its last action, and with that action breaking it, a run is orderly; what follows are
  // calls that break nothing.
  ghost predicate BrokenAt(acts: seq<Action>, n: nat, act: Action) {
    && n < |acts| && OrderlyRun(acts[..n]) && acts[n] == act
    && forall i | n < i < |acts| :: acts[i].ReadNext? || acts[i].Refresh? || acts[i].WriteRanking?
  }

  /**
    The run: the first submission wins its match and its worker reads the stored standing, the second,
    completed in the same scope, is promoted and the scope refreshed, and only then the credit written,
    from what was read. All is orderly but that the refresh lists the queue while the credit is between
    its two calls. Nothing is pending in the end, and the scope is counted wrong.
  */
  lemma ReadOvertaken(s: Submission, first: Summary, t: Submission, second: Summary, job: Id, workerID: Id)
      returns (acts: seq<Action>, n: nat)
    requires Rivals(s, first, t, second) && !workerID.Blank() && NormalizeScope(first.game) == NormalizeScope(second.game)
    requires HasBotIdentity(t) && BuiltUpdate(t, second).Ok?
    ensures BrokenAt(acts, n, List(0)) && Run(acts) && Quiet(Reached(acts), NormalizeScope(first.game))
    ensures !Faithful(Reached(acts), NormalizeScope(first.game))
  {
    hide Step, Orderly, OrderlyRun, Reached, Run, WellFormed, BuiltUpdate, HasBotIdentity, NormalizeScope, Faithful, Promoted;
    hide Rivalry, Sound, Terminals, Stored, Eligible, Recomputation, AllBuilt, OwnScope, ValidScope, Refreshed, Fresh, Id.Blank;
    hide Due, Built, Worth, BrokenAt, Rivals, Quiet;
    var front := ReadAhead(s, first, t, second, job, workerID);
    var a, scope := Reached(front), NormalizeScope(first.game);
    PromotedOrderly(front, t.runID);
    acts := RefreshedRun(front, t.runID);
    OvertakenReadIsWrong(a, t.runID, 0);
    WriteLast(acts, front, t.runID);
    n := |front| + 2;
    acts := acts + [WriteRanking(0)];
    RestIsQuiet(Reached(acts), scope);
  }

  lemma RestIsQuiet(a: System, scope: GameKey)
    requires a.credits == [] && a.refreshes == []
    ensures Quiet(a, scope)
  {
  }

  lemma ReadAhead(s: Submission, first: Summary, t: Submission, second: Summary, job: Id, workerID: Id)
      returns (acts: seq<Action>)
    requires Rivals(s, first, t, second) && !workerID.Blank() && NormalizeScope(first.game) == NormalizeScope(second.game)
    requires HasBotIdentity(t) && BuiltUpdate(t, second).Ok?
    ensures OrderlyRun(acts) && Run(acts) && |Reached(acts).credits| == 1 && Reached(acts).refreshes == []
    ensures ReadReady(Reached(acts), s, t, NormalizeScope(first.game))
  {
    hide Step, Orderly, OrderlyRun, Reached, Run, WellFormed, BuiltUpdate, HasBotIdentity, NormalizeScope, Promoted;
    hide Rivalry, Sound, Terminals, Stored, Eligible, Recomputation, OwnScope, ValidScope, Fresh, Due, Built, Worth;
    var front := Owing(s, first, t, second, job, workerID);
    OvertakingReady(front, s, first, t, second);
    var a, scope := Reached(front), NormalizeScope(first.game);
    ReadFirst(a);
    Next(front, ReadRanking(0));
    acts := front + [ReadRanking(0)];
    OrderlyIsRun(acts);
    RankingIsAllowed(a, ReadRanking(0));
    ReadPromotable(a, s, first, t, second);
  }

  lemma ReadPromotable(a: System, s: Submission, first: Summary, t: Submission, second: Summary)
    requires Overtakable(a, s, first, t) && HasBotIdentity(t) && s.matchID == t.matchID && s.runID != t.runID
    requires Rivalry(a.q, s, first, t, second) && NormalizeScope(first.game) == NormalizeScope(second.game)
    ensures ReadReady(AfterRead(a), s, t, NormalizeScope(first.game))
  {
    hide Orderly, NormalizeScope, HasBotIdentity, BuiltUpdate, Promoted, Sound, Terminals, Stored, Eligible, Step, Rivalry;
    ReadFirst(a);
    StepKeepsSound(a, ReadRanking(0));
    RankingIsAllowed(a, ReadRanking(0));
    var b := Step(a, ReadRanking(0));
    SoundFiled(b);
    RivalScopes(b.q, s, first, t, second);
    PromotesOrderly(b, t.runID);
  }

  ghost function AfterRead(a: System): System {
    if RankingAllowed(a, ReadRanking(0)) then RankingStep(a, ReadRanking(0)) else a
  }

  // The credit of s has read the empty standing, and t may be promoted.
  ghost predicate ReadReady(b: System, s: Submission, t: Submission, scope: GameKey) {
    && |b.credits| == 1 && b.refreshes == [] && Promotable(b, t.runID) && Orderly(b, Action.Promote(t.runID))
    && OwnScope(b.q, t.runID) == scope && t.runID in b.q.records && b.q.records[t.runID].submission == t
    && Due(b.q, b.credits[0]) && Worth(b.credits[0]) && CreditScope(b.credits[0]) == scope
    && b.credits[0].read == Some(StandingAt(b.standings, scope)) && b.credits[0].s.runID == s.runID != t.runID
    && b.credits[0].s.matchID == s.matchID == t.matchID && StandingAt(b.standings, scope).matches == []
    && Recomputation(Promoted(b.q, t.runID).value, scope).Ok?
  }

  lemma SoundFiled(a: System)
    requires Sound(a)
    ensures Filed(a.q, a.jobs, a.results, a.files)
  {
  }

  lemma WriteLast(acts: seq<Action>, front: seq<Action>, runID: Id)
    requires Run(acts) && |acts| > |front| && acts[..|front|] == front && acts[|front|] == Action.Promote(runID)
    requires Run(front) && Reached(front).refreshes == [] && RefreshCalls(acts[|front| + 1..], 0)
    requires OrderlyRun(front + [Action.Promote(runID)] + [ReadScope(0)])
    requires RankingAllowed(Reached(acts), WriteRanking(0)) && |Reached(acts).credits| == 1 && Reached(acts).refreshes == []
    ensures Run(acts + [WriteRanking(0)])
    ensures Reached(acts + [WriteRanking(0)]) == RankingStep(Reached(acts), WriteRanking(0))
    ensures Reached(acts + [WriteRanking(0)]).credits == [] && Reached(acts + [WriteRanking(0)]).refreshes == []
    ensures BrokenAt(acts + [WriteRanking(0)], |front| + 2, List(0))
  {
    hide Reached, Run, OrderlyRun, CreditWritten, Worth;
    NextCall(acts, WriteRanking(0));
    var all, n := acts + [WriteRanking(0)], |front| + 2;
    var calls := acts[|front| + 1..];
    assert acts[|front| + 1] == calls[0] && acts[|front| + 2] == calls[1];
    assert all[..n] == front + [Action.Promote(runID)] + [ReadScope(0)];
    forall i | n < i < |all| ensures all[i].ReadNext? || all[i].Refresh? || all[i].WriteRanking? {
      if i < |acts| { assert all[i] == calls[i - |front| - 1]; }
    }
  }

  lemma RivalScopes(q: Queue, s: Submission, first: Summary, t: Submission, second: Summary)
    requires Rivalry(q, s, first, t, second) && HasBotIdentity(t)
    requires NormalizeScope(first.game) == NormalizeScope(second.game)
    ensures forall id | Demotes(q, t.runID, id) ::
              SameScope(q.records[id], q.records[t.runID]) && HasBotIdentity(q.records[t.runID].submission)
  {
    hide NormalizeScope, HasBotIdentity;
  }

  // Both runs are ranked whenever they are official, and in one scope.
  ghost predicate Twins(s: Submission, first: Summary, t: Submission, second: Summary) {
    && Rivals(s, first, t, second) && NormalizeScope(first.game) == NormalizeScope(second.game)
    && HasBotIdentity(t) && BuiltUpdate(t, second).Ok?
  }

  // From b to a one refresh has listed and read, and nothing else has happened.
  ghost predicate Read(b: System, a: System, scope: GameKey) {
    && a.q == b.q && a.credits == [] && Stored(a.standings) && Recomputation(b.q, scope).Ok?
    && a.refreshes == [Counting(scope, [], Recomputation(b.q, scope).value)]
  }

  // The first of the two refreshes, up to its writing.
  lemma Counted(s: Submission, first: Summary, t: Submission, second: Summary, job: Id, workerID: Id)
      returns (before: seq<Action>, acts: seq<Action>)
    requires Twins(s, first, t, second) && !workerID.Blank()
    ensures OrderlyRun(acts) && Run(acts) && Run(before) && Sound(Reached(before)) && Sound(Reached(acts))
    ensures Read(Reached(before), Reached(acts), NormalizeScope(first.game)) && Swapped(Reached(before).q, s, first, t, second)
  {
    hide Step, Orderly, OrderlyRun, Reached, Run, WellFormed, BuiltUpdate, HasBotIdentity, NormalizeScope, Promoted, Swapped;
    hide Rivalry, Sound, Terminals, Stored, Recomputation, ValidScope, Fresh, Id.Blank, CountedUp, Cached, Listed, FileScope;
    hide Promotable, OwnScope;
    var front := Rivaled(s, first, t, second, job, workerID);
    var a, scope := Reached(front), NormalizeScope(first.game);
    RunIsSound(front);
    OrderlyRunIsCached(front);
    CachedStored(a);
    TwinsPromote(a, s, first, t, second);
    Next(front, Action.Promote(t.runID));
    before := front + [Action.Promote(t.runID)];
    OrderlyIsRun(before);
    RunIsSound(before);
    var b := Reached(before);
    SoundFiled(b);
    SoundQueues(b);
    CountedAtIs(b, 0);
    ListsFirst(b);
    NextCall(before, ReadScope(0));
    RankingIsAllowed(b, ReadScope(0));
    Next(before, ReadScope(0));
    var scoped := before + [ReadScope(0)];
    NextCall(scoped, List(0));
    RankingIsAllowed(Reached(scoped), List(0));
    Next(scoped, List(0));
    var more := CountRun(scoped + [List(0)], 0);
    acts := scoped + [List(0)] + more;
    OrderlyIsRun(acts);
    RunIsSound(acts);
  }

  lemma ListsFirst(b: System)
    requires b.credits == [] && |b.refreshes| == 1 && b.refreshes[0].Awaited?
    ensures RankingAllowed(b, ReadScope(0)) && Orderly(b, ReadScope(0))
    ensures var c := RankingStep(b, ReadScope(0));
            RankingAllowed(c, List(0)) && Orderly(c, List(0))
  {
    hide FileScope;
  }

  // The second run has taken the place of the first.
  ghost predicate Swapped(q: Queue, s: Submission, first: Summary, t: Submission, second: Summary) {
    && q.records.Keys == {s.runID, t.runID} && s.runID != t.runID
    && q.records[s.runID].submission == s && q.records[s.runID].state.Completed?
    && q.records[s.runID].terminal == Some(first)
    && q.records[t.runID].submission == t.(official := true) && q.records[t.runID].state.Completed?
    && q.records[t.runID].terminal == Some(second)
  }

  ghost function AfterPromote(a: System, runID: Id): System { Step(a, Action.Promote(runID)) }

  lemma TwinsPromote(a: System, s: Submission, first: Summary, t: Submission, second: Summary)
    requires a.credits == [] && a.refreshes == [] && Rivalry(a.q, s, first, t, second) && Twins(s, first, t, second)
    requires Sound(a) && Stored(a.standings)
    ensures var b, scope := AfterPromote(a, t.runID), NormalizeScope(first.game);
            && Orderly(a, Action.Promote(t.runID)) && Swapped(b.q, s, first, t, second) && Stored(b.standings)
            && b.refreshes == [Awaited(t.runID)] && b.credits == [] && FileScope(b.files, t.runID) == scope
            && ValidScope(scope) && scope == NormalizeScope(scope) && Recomputation(b.q, scope).Ok?
  {
    hide Orderly, WellFormed, BuiltUpdate, HasBotIdentity, NormalizeScope, Promoted, Step;
    hide Sound, Terminals, Stored, Recomputation, ValidScope, FileScope, OwnScope, Rivalry, Swapped, Eligible;
    var scope := NormalizeScope(first.game);
    SoundFiled(a);
    SoundTerminals(a);
    SoundQueues(a);
    TwinsReady(a.q, s, first, t, second);
    PromotesOrderly(a, t.runID);
    PromoteStep(a, Action.Promote(t.runID));
    PromoteLeaves(a, t.runID);
    OwnIsFile(a, t.runID);
  }

  lemma TwinsReady(q: Queue, s: Submission, first: Summary, t: Submission, second: Summary)
    requires Rivalry(q, s, first, t, second) && Twins(s, first, t, second)
    requires Indexed(q) && Officials(q) && Terminals(q)
    ensures var scope := NormalizeScope(first.game);
            && Promoted(q, t.runID).Ok? && Swapped(Promoted(q, t.runID).value, s, first, t, second)
            && OwnScope(q, t.runID) == scope == NormalizeScope(scope) && ValidScope(scope)
            && Recomputation(Promoted(q, t.runID).value, scope).Ok?
            && t.runID in q.records && q.records[t.runID].state.Completed?
    ensures forall id | Demotes(q, t.runID, id) ::
              SameScope(q.records[id], q.records[t.runID]) && HasBotIdentity(q.records[t.runID].submission)
  {
    hide BuiltUpdate, HasBotIdentity, NormalizeScope, Promoted, WellFormed, Indexed, Officials, Terminals, Recomputation;
    hide ValidScope, OwnScope, Swapped, Eligible;
    RivalsRanked(q, s, first, t, second, NormalizeScope(first.game));
    NormalizeScopeTwice(first.game);
    SwappedRecompute(q, s, first, t, second, NormalizeScope(first.game));
    RivalScopes(q, s, first, t, second);
    SwapsRivals(q, s, first, t, second);
  }

  lemma CachedStored(a: System)
    requires Cached(a)
    ensures Stored(a.standings)
  {
  }

  lemma SwapsRivals(q: Queue, s: Submission, first: Summary, t: Submission, second: Summary)
    requires Rivalry(q, s, first, t, second) && s.matchID == t.matchID && !s.official && !t.official
    ensures Promoted(q, t.runID).Ok? && Swapped(Promoted(q, t.runID).value, s, first, t, second)
  {
  }

  /**
    The run: two completed runs of one match, in one scope and both of bots, the first official and
    credited. The second is promoted and its refresh lists and reads; the first is promoted back and its
    refresh lists, reads and writes; then the first refresh writes what it read. All is orderly but that
    the second refresh lists between the calls of the first. Nothing is pending in the end, and the
    scope is counted wrong.
  */
  lemma RefreshOvertaken(s: Submission, first: Summary, t: Submission, second: Summary, job: Id, workerID: Id)
      returns (acts: seq<Action>, n: nat)
    requires Twins(s, first, t, second) && !workerID.Blank()
    ensures BrokenAt(acts, n, List(1)) && Run(acts) && Quiet(Reached(acts), NormalizeScope(first.game))
    ensures !Faithful(Reached(acts), NormalizeScope(first.game))
  {
    hide Step, Orderly, OrderlyRun, Reached, Run, Faithful, NormalizeScope, Sound, Stored, Recomputation, Refreshed, Twins;
    hide Id.Blank, BrokenAt, Quiet, Swapped, Promotable;
    var before, front := Counted(s, first, t, second, job, workerID);
    var a := Reached(front);
    RefreshVerdict(Reached(before), a, s, first, t, second);
    PromotedOrderly(front, s.runID);
    acts := RefreshedRun(front, s.runID);
    RefreshLast(acts, front, s.runID);
    n := |front| + 2;
    acts := acts + [Action.Refresh(0)];
    RestIsQuiet(Reached(acts), NormalizeScope(first.game));
  }

  // The one refresh left has only to write, and then the scope is counted wrong.
  ghost predicate WritesWrong(a: System, scope: GameKey) {
    && |a.refreshes| == 1 && a.credits == [] && RankingAllowed(a, Action.Refresh(0))
    && !Faithful(RankingStep(a, Action.Refresh(0)), scope)
  }

  lemma RefreshVerdict(b: System, a: System, s: Submission, first: Summary, t: Submission, second: Summary)
    requires Read(b, a, NormalizeScope(first.game)) && Sound(b) && Sound(a)
    requires Swapped(b.q, s, first, t, second) && Twins(s, first, t, second)
    ensures Promotable(a, s.runID) && Orderly(a, Action.Promote(s.runID))
    ensures WritesWrong(Refreshed(a, s.runID), NormalizeScope(first.game))
  {
    hide Orderly, WellFormed, BuiltUpdate, HasBotIdentity, NormalizeScope, Faithful, Promoted;
    hide Sound, Terminals, Stored, Eligible, Recomputation, OwnScope, Refreshed, Swapped;
    SwapsBack(a, s, first, t, second);
    RefreshedState(a, s.runID);
    SoundQueues(a);
    SoundTerminals(a);
    SwappedRanked(b.q, a.q, s, first, t, second);
    LateRefreshIff(b, Refreshed(a, s.runID), 0, NormalizeScope(first.game));
  }

  lemma SwapsBack(a: System, s: Submission, first: Summary, t: Submission, second: Summary)
    requires Swapped(a.q, s, first, t, second) && Twins(s, first, t, second) && Sound(a) && Stored(a.standings)
    ensures Promotable(a, s.runID) && Orderly(a, Action.Promote(s.runID))
    ensures OwnScope(a.q, s.runID) == NormalizeScope(first.game)
  {
    hide BuiltUpdate, HasBotIdentity, NormalizeScope, WellFormed, Terminals, Stored, Sound, Orderly;
    SoundTerminals(a);
    SoundFiled(a);
    PromotesOrderly(a, s.runID);
  }

  // A run that was ranked is ranked no more; what is ranked still counts as it did.
  ghost predicate Swaps(b: Queue, a: Queue, id: Id, scope: GameKey) {
    && scope == NormalizeScope(scope) && Elig(b, scope, id) && !Elig(a, scope, id)
    && forall other | Elig(b, scope, other) && Elig(a, scope, other) :: Alike(b.records[other], a.records[other])
  }

  lemma SwappedRanked(b: Queue, a: Queue, s: Submission, first: Summary, t: Submission, second: Summary)
    requires Swapped(b, s, first, t, second) && a == b && Twins(s, first, t, second)
    requires Indexed(a) && Officials(a) && Terminals(a)
    ensures Promoted(a, s.runID).Ok? && Recomputation(Promoted(a, s.runID).value, NormalizeScope(first.game)).Ok?
    ensures Swaps(b, Promoted(a, s.runID).value, t.runID, NormalizeScope(first.game))
  {
    hide BuiltUpdate, HasBotIdentity, NormalizeScope, WellFormed, Terminals, Indexed, Officials, Alike, Recomputation;
    NormalizeScopeTwice(first.game);
    SameRunFields(t, t.(official := true));
    BackRecompute(a, s, first, t, second);
  }

  lemma BackRecompute(q: Queue, s: Submission, first: Summary, t: Submission, second: Summary)
    requires Swapped(q, s, first, t, second) && Twins(s, first, t, second) && Indexed(q) && Officials(q) && Terminals(q)
    ensures Promoted(q, s.runID).Ok? && Recomputation(Promoted(q, s.runID).value, NormalizeScope(first.game)).Ok?
  {
    BackBuilt(q, s, first, t, second, NormalizeScope(first.game));
    hide BuiltUpdate, HasBotIdentity, NormalizeScope, WellFormed, Terminals, Indexed, Officials, Recomputation, Promoted, AllBuilt;
    hide Shape, ValidScope, Swapped, UpdateOf;
    NormalizeScopeTwice(first.game);
    BuiltScope(s, first);
    PromotedTerminals(q, s.runID);
    PromotedIndexed(q, s.runID);
    PromoteOfficials(q, s.runID);
    RecomputedShape(Promoted(q, s.runID).value, NormalizeScope(first.game));
  }

  lemma BackBuilt(q: Queue, s: Submission, first: Summary, t: Submission, second: Summary, scope: GameKey)
    requires Swapped(q, s, first, t, second) && s.matchID == t.matchID && BuiltUpdate(s, first).Ok?
    ensures Promoted(q, s.runID).Ok? && AllBuilt(Promoted(q, s.runID).value, scope)
  {
    hide NormalizeScope, HasBotIdentity, BuiltUpdate;
    var r := Promoted(q, s.runID).value.records[s.runID];
    SameRunBuilds(QueueRecord(s, Completed, None, None, Some(first)), r);
  }

  lemma RefreshLast(acts: seq<Action>, front: seq<Action>, runID: Id)
    requires Run(acts) && |acts| > |front| && acts[..|front|] == front && acts[|front|] == Action.Promote(runID)
    requires Run(front) && |Reached(front).refreshes| == 1 && RefreshCalls(acts[|front| + 1..], 1)
    requires OrderlyRun(front + [Action.Promote(runID)] + [ReadScope(1)])
    requires |Reached(acts).refreshes| == 1 && RankingAllowed(Reached(acts), Action.Refresh(0)) && Reached(acts).credits == []
    ensures Run(acts + [Action.Refresh(0)])
    ensures Reached(acts + [Action.Refresh(0)]) == RankingStep(Reached(acts), Action.Refresh(0))
    ensures Reached(acts + [Action.Refresh(0)]).credits == [] && Reached(acts + [Action.Refresh(0)]).refreshes == []
    ensures BrokenAt(acts + [Action.Refresh(0)], |front| + 2, List(1))
  {
    hide Reached, Run, OrderlyRun;
    NextCall(acts, Action.Refresh(0));
    var all, n := acts + [Action.Refresh(0)], |front| + 2;
    var calls := acts[|front| + 1..];
    assert acts[|front| + 1] == calls[0] && acts[|front| + 2] == calls[1];
    assert all[..n] == front + [Action.Promote(runID)] + [ReadScope(1)];
    forall i | n < i < |all| ensures all[i].ReadNext? || all[i].Refresh? || all[i].WriteRanking? {
      if i < |acts| { assert all[i] == calls[i - |front| - 1]; }
    }
  }

  // ----- A second pass -----

  predicate NoPromotion(acts: seq<Action>) { forall i | 0 <= i < |acts| :: !acts[i].Promote? }

  // A run completed and credited by a second pass, while the first pass, which lost its lease, is
  // about to persist.
  lemma TwoPasses(s: Submission, first: Summary, job: Id, other: Id, workerID: Id) returns (acts: seq<Action>)
    requires Fresh(EMPTY, s) && first.matchID == s.matchID && first.status.MatchCompleted? && !workerID.Blank() && job != other
    requires HasBotIdentity(s) && BuiltUpdate(s, first).Ok?
    ensures OrderlyRun(acts) && Run(acts) && NoPromotion(acts)
    ensures var a := Reached(acts);
            && job in a.jobs && a.jobs[job] == LeasedRecord(s, Persisting, workerID, 0)
            && a.q.records == map[s.runID := Ending(s, first, true, workerID, LEASE_SECONDS)]
            && a.credits == [] && a.refreshes == []
  {
    hide Step, Orderly, OrderlyRun, Reached, Run, Id.Blank, WellFormed, TrimmedPlayers, HasBotIdentity, BuiltUpdate;
    StartIsOrderly();
    acts := Underway([], s, job, workerID, 0);
    OrderlyIsRun(acts);
    var recover := Action.Recover(LEASE_SECONDS, [s.runID]);
    RecoverStep(Reached(acts), s, workerID);
    Next(acts, recover);
    acts := acts + [recover];
    OrderlyIsRun(acts);
    acts := Taken(acts, s, other, workerID, LEASE_SECONDS);
    OrderlyIsRun(acts);
    acts := Ended(acts, s, other, first, workerID, LEASE_SECONDS);
    WonCredit(s, first);
    acts := CreditedFirst(acts);
  }

  lemma RecoverStep(a: System, s: Submission, workerID: Id)
    requires a.q == Queue([s.runID], [], map[s.runID := LeasedRecord(s, Persisting, workerID, 0)])
    ensures var act := Action.Recover(LEASE_SECONDS, [s.runID]);
            && Orderly(a, act)
            && Step(a, act) == a.(q := Queue([s.runID], [s.runID], map[s.runID := QueueRecord(s, Queued, None, None, None)]))
  {
    hide Submitted, FollowedUp, Claimed, Updated, Renewed, Recovered, Promoted, Cancelled, Finished, PromotesAlike;
    hide RepeatsAlike, PersistsAlike, RankingStep, RankingAllowed;
    LoneRecoverable(a.q, s, workerID);
    LoneRecovered(a.q, s, workerID);
  }

  lemma LoneRecoverable(q: Queue, s: Submission, workerID: Id)
    requires q == Queue([s.runID], [], map[s.runID := LeasedRecord(s, Persisting, workerID, 0)])
    ensures ListsRecoverable(q, LEASE_SECONDS, [s.runID])
  {
  }

  lemma LoneRecovered(q: Queue, s: Submission, workerID: Id)
    requires q == Queue([s.runID], [], map[s.runID := LeasedRecord(s, Persisting, workerID, 0)])
    ensures Recovered(q, [s.runID]) == Queue([s.runID], [s.runID], map[s.runID := QueueRecord(s, Queued, None, None, None)])
  {
    assert [] + [s.runID] == [s.runID];
  }

  // The state the first pass finds, seen from the scope of the second pass's summary.
  lemma TwoPassesReady(front: seq<Action>, s: Submission, first: Summary, second: Summary, job: Id, workerID: Id)
    requires OrderlyRun(front) && Run(front) && Reached(front).credits == [] && Reached(front).refreshes == []
    requires job in Reached(front).jobs && Reached(front).jobs[job] == LeasedRecord(s, Persisting, workerID, 0)
    requires Reached(front).q.records == map[s.runID := Ending(s, first, true, workerID, LEASE_SECONDS)]
    requires HasBotIdentity(s) && BuiltUpdate(s, first).Ok? && s.runKind.Initial? && second.matchID == s.matchID
    ensures var a, scope, r := Reached(front), NormalizeScope(first.game), Ending(s, first, true, workerID, LEASE_SECONDS);
            && Repeats(a, job, scope) && scope == NormalizeScope(scope) && Allowed(a, Persist(job, second))
            && Recomputation(a.q, scope).Ok? && Faithful(a, scope)
            && UpdateOf(r) == BuiltUpdate(s, first).value && BuiltUpdate(r.submission, second) == BuiltUpdate(s, second)
            && r.submission.runKind.Initial?
  {
    hide Step, Orderly, OrderlyRun, Reached, Run, WellFormed, BuiltUpdate, HasBotIdentity, NormalizeScope, Faithful;
    hide Sound, Terminals, Stored, Eligible, Recomputation, AllBuilt, ValidScope, UpdateOf, Built;
    var a, scope := Reached(front), NormalizeScope(first.game);
    NormalizeScopeTwice(first.game);
    LoneRanked(a.q, s, first, workerID, LEASE_SECONDS, scope);
    RestIsFaithful(front, scope);
    EndingUpdate(s, first, second, workerID, scope);
  }

  /**
    The run: a lease expires under the first pass, a second pass completes the run and its credit is
    written, and then the first pass persists a summary of its own and crashes. The scope is counted
    right afterwards if and only if that summary ranks the run in the same scope at the same places, or
    cannot be ranked.
  */
  lemma PersistedOver(s: Submission, first: Summary, second: Summary, job: Id, other: Id, workerID: Id)
      returns (acts: seq<Action>, n: nat)
    requires Fresh(EMPTY, s) && HasBotIdentity(s) && BuiltUpdate(s, first).Ok? && first.status.MatchCompleted?
    requires first.matchID == s.matchID == second.matchID && !workerID.Blank() && job != other
    ensures |acts| == n + 2 && OrderlyRun(acts[..n]) && acts[n..] == [Persist(job, second), Action.Crash(job)]
    ensures Run(acts) && NoPromotion(acts) && Quiet(Reached(acts), NormalizeScope(first.game))
    ensures Faithful(Reached(acts), NormalizeScope(first.game))
       <==> && NormalizeScope(second.game) == NormalizeScope(first.game)
            && (BuiltUpdate(s, second).Err?
                || Points(BuiltUpdate(s, second).value.placements) == Points(BuiltUpdate(s, first).value.placements))
  {
    hide Step, Orderly, OrderlyRun, Reached, Run, WellFormed, BuiltUpdate, HasBotIdentity, NormalizeScope, Faithful;
    hide Sound, Terminals, Stored, Eligible, Recomputation, Id.Blank, Points, UpdateOf, Allowed, Repeats;
    var front := TwoPasses(s, first, job, other, workerID);
    n := |front|;
    var a, scope := Reached(front), NormalizeScope(first.game);
    TwoPassesReady(front, s, first, second, job, workerID);
    SecondPersistIff(a, job, second, scope);
    PersistedState(a, job, second, scope);
    NextRun(front, Persist(job, second));
    acts := front + [Persist(job, second)];
    CrashStep(Reached(acts), job, scope);
    NextRun(acts, Action.Crash(job));
    acts := acts + [Action.Crash(job)];
    assert acts[..n] == front && acts[n..] == [Persist(job, second), Action.Crash(job)];
    RestIsQuiet(Reached(acts), scope);
  }

  lemma CrashStep(a: System, job: Id, scope: GameKey)
    ensures Allowed(a, Action.Crash(job))
    ensures var b := Step(a, Action.Crash(job));
            && b.q == a.q && b.standings == a.standings && b.credits == a.credits && b.refreshes == a.refreshes
            && (Faithful(b, scope) <==> Faithful(a, scope))
  {
    hide RankingStep, RankingAllowed, SameStanding, Recomputation, StandingAt;
  }

  /**
    The run: the same, but the first pass completes the run as well, with the calls of its credit. The
    scope is counted right afterwards if and only if moreover its match was completed.
  */
  lemma CompletedTwice(s: Submission, first: Summary, second: Summary, job: Id, other: Id, workerID: Id)
      returns (acts: seq<Action>, n: nat)
    requires Fresh(EMPTY, s) && HasBotIdentity(s) && BuiltUpdate(s, first).Ok? && first.status.MatchCompleted?
    requires first.matchID == s.matchID == second.matchID && !workerID.Blank() && job != other
    ensures n + 2 <= |acts| && OrderlyRun(acts[..n])
    ensures acts[n] == Persist(job, second) && acts[n + 1] == Complete(job, LEASE_SECONDS)
    ensures forall i | n + 2 <= i < |acts| :: CreditCall(acts[i])
    ensures Run(acts) && Quiet(Reached(acts), NormalizeScope(first.game))
    ensures Faithful(Reached(acts), NormalizeScope(first.game))
       <==> && second.status.MatchCompleted? && NormalizeScope(second.game) == NormalizeScope(first.game)
            && (BuiltUpdate(s, second).Err?
                || Points(BuiltUpdate(s, second).value.placements) == Points(BuiltUpdate(s, first).value.placements))
  {
    hide Step, Orderly, OrderlyRun, Reached, Run, WellFormed, BuiltUpdate, HasBotIdentity, NormalizeScope, Faithful;
    hide Sound, Terminals, Stored, Eligible, Recomputation, Id.Blank, Points, UpdateOf, Allowed, Repeats, Repeated;
    var front := TwoPasses(s, first, job, other, workerID);
    n := |front|;
    var a, scope := Reached(front), NormalizeScope(first.game);
    TwoPassesReady(front, s, first, second, job, workerID);
    SecondPassIff(a, job, second, LEASE_SECONDS, scope);
    var more := RepeatedRun(front, job, second, LEASE_SECONDS, scope);
    acts := front + more;
    RestIsQuiet(Reached(acts), scope);
  }

  lemma RepeatedRun(front: seq<Action>, job: Id, summary: Summary, now: int, scope: GameKey) returns (more: seq<Action>)
    requires Run(front) && Allowed(Reached(front), Persist(job, summary)) && Repeats(Reached(front), job, scope)
    ensures |more| >= 2 && more[0] == Persist(job, summary) && more[1] == Complete(job, now)
    ensures forall i | 2 <= i < |more| :: CreditCall(more[i])
    ensures Run(front + more) && Reached(front + more) == Repeated(Reached(front), job, summary, now)
  {
    hide Step, Reached, Run, Repeats, RankingAllowed, CreditedAt;
    var a, persist, complete := Reached(front), Persist(job, summary), Complete(job, now);
    PersistedState(a, job, summary, scope);
    NextRun(front, persist);
    NextRun(front + [persist], complete);
    more := [persist] + [complete];
    assert front + more == front + [persist] + [complete];
    var b := Reached(front + more);
    if |b.credits| == |a.credits| + 1 && b.credits[|a.credits|].read.None? {
      var calls := CreditRunOf(front + more, |a.credits|);
      assert front + more + calls == front + (more + calls);
      more := more + calls;
    }
  }

  lemma LoneRanked(q: Queue, s: Submission, first: Summary, workerID: Id, now: int, scope: GameKey)
    requires q.records == map[s.runID := Ending(s, first, true, workerID, now)]
    requires HasBotIdentity(s) && BuiltUpdate(s, first).Ok? && scope == NormalizeScope(first.game)
    ensures Elig(q, scope, s.runID) && AllBuilt(q, scope) && ValidScope(scope)
  {
    hide NormalizeScope, HasBotIdentity, BuiltUpdate, ValidScope, UpdateOf;
    var r := q.records[s.runID];
    assert SameRun(s, r.submission);
    SameRunFields(s, r.submission);
    SameRunBuilds(QueueRecord(s, Completed, None, None, Some(first)), r);
    RunsUpdate(r);
  }

  lemma EndingUpdate(s: Submission, first: Summary, second: Summary, workerID: Id, scope: GameKey)
    requires BuiltUpdate(s, first).Ok? && s.runKind.Initial?
    ensures var r := Ending(s, first, true, workerID, LEASE_SECONDS);
            && UpdateOf(r) == BuiltUpdate(s, first).value && BuiltUpdate(r.submission, second) == BuiltUpdate(s, second)
            && r.submission.runKind.Initial?
  {
    hide NormalizeScope, RankPlacements, PlayersByID, Id.Blank;
    var r := Ending(s, first, true, workerID, LEASE_SECONDS);
    assert r.submission.runID == s.runID && r.submission.players == s.players;
  }

  // ----- A credit that is lost -----

  /**
    The run: a submission wins its match, and its worker ends before the ranking is written. Nothing is
    pending, and the scope is counted wrong.
  */
  lemma CreditForgotten(s: Submission, summary: Summary, job: Id, workerID: Id) returns (acts: seq<Action>)
    requires Fresh(EMPTY, s) && HasBotIdentity(s) && BuiltUpdate(s, summary).Ok? && summary.status.MatchCompleted?
    requires summary.matchID == s.matchID && !workerID.Blank()
    ensures |acts| == 7 && OrderlyRun(acts[..6]) && acts[6] == LoseCredit(0)
    ensures Run(acts) && Quiet(Reached(acts), NormalizeScope(summary.game))
    ensures !Faithful(Reached(acts), NormalizeScope(summary.game))
  {
    hide Step, Orderly, OrderlyRun, Reached, Run, WellFormed, BuiltUpdate, HasBotIdentity, NormalizeScope, Faithful;
    hide TrimmedPlayers, Sound, Id.Blank, Cached, Ending, Quiet;
    StartIsOrderly();
    acts := Underway([], s, job, workerID, 0);
    OrderlyIsRun(acts);
    acts := Ended(acts, s, job, summary, workerID, 0);
    RunIsSound(acts);
    OrderlyRunIsCached(acts);
    ForgottenVerdict(Reached(acts), s, summary, workerID);
    NextCall(acts, LoseCredit(0));
    acts := acts + [LoseCredit(0)];
  }

  lemma ForgottenVerdict(a: System, s: Submission, summary: Summary, workerID: Id)
    requires a.credits == [Credit(s.(official := true), summary, None)] && a.refreshes == [] && a.standings == map[]
    requires a.q.records == map[s.runID := Ending(s, summary, true, workerID, 0)]
    requires HasBotIdentity(s) && BuiltUpdate(s, summary).Ok? && Sound(a) && Cached(a)
    ensures Quiet(CreditLost(a, 0), NormalizeScope(summary.game)) && !Faithful(CreditLost(a, 0), NormalizeScope(summary.game))
  {
    hide BuiltUpdate, HasBotIdentity, NormalizeScope, Faithful, Sound, Eligible, Recomputation, Cached, Ending, Quiet;
    NormalizeScopeTwice(summary.game);
    EndedRanked(a, s, summary, workerID, NormalizeScope(summary.game));
    RestIsQuiet(CreditLost(a, 0), NormalizeScope(summary.game));
    LostCreditIff(a, 0, a.credits[0]);
  }

  lemma EndedRanked(a: System, s: Submission, summary: Summary, workerID: Id, scope: GameKey)
    requires Sound(a) && a.q.records == map[s.runID := Ending(s, summary, true, workerID, 0)]
    requires HasBotIdentity(s) && BuiltUpdate(s, summary).Ok? && scope == NormalizeScope(summary.game) == NormalizeScope(scope)
    ensures Elig(a.q, scope, s.runID) && Recomputation(a.q, scope).Ok?
  {
    hide WellFormed, BuiltUpdate, HasBotIdentity, NormalizeScope, Recomputation, AllBuilt, ValidScope, Shape, Eligible;
    hide Line, Lifecycle, JobsKnown, Filed, Indexed, Officials;
    SoundTerminals(a);
    LoneRanked(a.q, s, summary, workerID, 0, scope);
    RecomputedShape(a.q, scope);
  }

  // ----- A decision recorded late -----

  /**
    The run: a match has a completed run without a result, another run of it is about to complete, and
    the first is promoted between the worker's decision and its update. The match then has two
    official runs.
  */
  lemma PromotedInBetween(
      s: Submission, first: Summary, t: Submission, second: Summary, job: Id, workerID: Id) returns (acts: seq<Action>)
    requires Fresh(EMPTY, s) && first.matchID == s.matchID && !first.status.MatchCompleted? && !workerID.Blank()
    requires WellFormed(t) && TrimmedPlayers(t.players) && t.runKind.Initial? && !t.official
    requires t.runID != s.runID && t.matchID == s.matchID
    requires second.matchID == t.matchID && second.status.MatchCompleted?
    ensures OrderlyRun(acts) && Run(acts) && Allowed(Reached(acts), Complete(job, 0))
    ensures var a := Reached(acts);
            var decided, between := Finished(a.jobs[job], a.results[job], a.q.records), Promoted(a.q, s.runID);
            && a.results[job] == second && between.Ok? && Updated(between.value, decided, 0).Ok?
            && !Officials(Updated(between.value, decided, 0).value)
  {
    hide Step, Orderly, OrderlyRun, Reached, Run, Id.Blank, WellFormed, TrimmedPlayers, Updated, Promoted, Finished, Officials;
    hide Wins, Ending;
    StartIsOrderly();
    acts := Underway([], s, job, workerID, 0);
    OrderlyIsRun(acts);
    acts := Ended(acts, s, job, first, workerID, 0);
    assert !Wins(map[s.runID := LeasedRecord(s, Persisting, workerID, 0)], s, first) by { LosesMatch(s, first, workerID); }
    acts := Underway(acts, t, job, workerID, 0);
    OrderlyIsRun(acts);
    PersistStep(Reached(acts), t, job, second, workerID, 0);
    Next(acts, Persist(job, second));
    acts := acts + [Persist(job, second)];
    OrderlyIsRun(acts);
    TwoOfficials(Reached(acts).q, s, first, t, second, workerID);
  }

  lemma LosesMatch(s: Submission, first: Summary, workerID: Id)
    requires !first.status.MatchCompleted?
    ensures !Wins(map[s.runID := LeasedRecord(s, Persisting, workerID, 0)], s, first)
  {
  }

  lemma TwoOfficials(q: Queue, s: Submission, first: Summary, t: Submission, second: Summary, workerID: Id)
    requires s.runID != t.runID && s.matchID == t.matchID && t.runKind.Initial? && second.status.MatchCompleted?
    requires q.records == map[s.runID := Ending(s, first, false, workerID, 0),
                              t.runID := LeasedRecord(t, Persisting, workerID, 0)]
    ensures var decided, between := Finished(LeasedRecord(t, Persisting, workerID, 0), second, q.records), Promoted(q, s.runID);
            && between.Ok? && Updated(between.value, decided, 0).Ok?
            && !Officials(Updated(between.value, decided, 0).value)
  {
    var decided, between := Finished(LeasedRecord(t, Persisting, workerID, 0), second, q.records), Promoted(q, s.runID).value;
    assert AutoPromotes(q.records, t);
    var after := Updated(between, decided, 0).value;
    assert after.records[s.runID].submission.official && after.records[t.runID].submission.official;
  }

  // ----- The runs exist -----

  function Letter(c: char): Id { Id([c]) }

  lemma LetterIsTrimmed(c: char)
    requires !IsSpace(c)
    ensures Trim([c]) == [c] && !Letter(c).Blank() && Letter(c).Trimmed()
  {
  }

  function Sample(run: char, game: char, bot: Id): Submission {
    Submission(Letter(run), Letter('m'), GameKey(Letter(game), Letter('v'), Letter('r')),
               [SubmittedPlayer(Letter('p'), bot, NO_ID, NO_ID, Letter('a'), NO_ID)], Letter('o'), 1, NO_ID, Initial, false)
  }

  function SampleSummary(game: char, status: TerminalStatus, place: int): Summary {
    Summary(Letter('m'), GameKey(Letter(game), Letter('v'), Letter('r')), status, [Placement(Letter('p'), place)])
  }

  lemma SampleIsFresh(run: char, game: char, bot: Id)
    requires !IsSpace(run) && !IsSpace(game)
    requires bot.Trimmed()
    ensures Fresh(EMPTY, Sample(run, game, bot))
  {
    LetterIsTrimmed(run);
    LetterIsTrimmed(game);
    forall c | c in {'m', 'v', 'r', 'p', 'a', 'o'} ensures !Letter(c).Blank() { LetterIsTrimmed(c); }
    assert NO_ID.Blank();
    hide Id.Blank, Letter, Id.Trimmed;
  }

  lemma SampleIsBuilt(run: char, game: char, bot: char, place: int)
    requires !IsSpace(run) && !IsSpace(game) && !IsSpace(bot) && place > 0
    ensures var s, x := Sample(run, game, Letter(bot)), SampleSummary(game, MatchCompleted, place);
            && HasBotIdentity(s) && BuiltUpdate(s, x).Ok? && NormalizeScope(x.game) == x.game
            && BuiltUpdate(s, x).value.placements == [RankedPlacement(Letter(bot), NO_ID, Letter('p'), place)]
  {
    forall c | c in {run, game, bot, 'm', 'v', 'r'} ensures Trim([c]) == [c] && !Letter(c).Blank() { LetterIsTrimmed(c); }
    var s, x := Sample(run, game, Letter(bot)), SampleSummary(game, MatchCompleted, place);
    assert Letter(game).Trimming() == Letter(game);
    assert Letter('v').Trimming() == Letter('v') && Letter('r').Trimming() == Letter('r');
    assert Letter(game) != NO_ID && Letter('v') != NO_ID && Letter('r') != NO_ID;
    hide Id.Blank, Id.Trimming;
    assert NormalizeScope(x.game) == x.game && ValidScope(x.game);
    assert s.players[..0] == [] && PlayersByID(s.players) == map[Letter('p') := s.players[0]];
    assert x.placements[1..] == [];
    var byID := PlayersByID(s.players);
    assert RankPlacements([], byID, {Letter('p')}) == Ok([]);
    assert RankPlacements(x.placements, byID, {})
        == Ok([RankedPlacement(Letter(bot), NO_ID, Letter('p'), place)] + []);
  }

  lemma LetterOnly(c: char, d: char)
    requires c != d
    ensures Letter(c) != Letter(d)
  {
    assert Letter(c).text[0] != Letter(d).text[0];
  }

  lemma SamplesAreRivals()
    ensures Rivals(Sample('a', 'g', Letter('b')), SampleSummary('g', MatchCompleted, 1),
                   Sample('c', 'h', NO_ID), SampleSummary('h', MatchCompleted, 1))
    ensures NormalizeScope(SampleSummary('g', MatchCompleted, 1).game)
         != NormalizeScope(SampleSummary('h', MatchCompleted, 1).game)
    ensures !Letter('w').Blank()
  {
    hide NormalizeScope, BuiltUpdate, HasBotIdentity, WellFormed, Id.Blank, Letter;
    LetterIsTrimmed('b');
    SampleIsFresh('a', 'g', Letter('b'));
    SampleIsFresh('c', 'h', NO_ID);
    SampleIsBuilt('a', 'g', 'b', 1);
    SampleIsBuilt('c', 'h', 'b', 1);
    LetterIsTrimmed('w');
    LetterOnly('a', 'c');
    LetterOnly('g', 'h');
  }

  // The main theorem without its conditions is false: there is a run of the arena, every action
  // allowed, after which nothing is pending and a scope is counted wrong.
  lemma SomeRankingIsWrong()
    ensures exists acts, scope :: Run(acts) && scope == NormalizeScope(scope) && Quiet(Reached(acts), scope)
              && !Faithful(Reached(acts), scope)
  {
    hide Run, Reached, Faithful, Quiet, NormalizeScope, OrderlyRun, Id.Blank, Sample, SampleSummary, Letter, Rivals;
    var first, second := SampleSummary('g', MatchCompleted, 1), SampleSummary('h', MatchCompleted, 1);
    SamplesAreRivals();
    var acts, n := PromotionAcrossScopes(Sample('a', 'g', Letter('b')), first, Sample('c', 'h', NO_ID), second,
                                      Letter('j'), Letter('w'));
    NormalizeScopeTwice(first.game);
  }

  lemma SamplesAreTwins()
    ensures Twins(Sample('a', 'g', Letter('b')), SampleSummary('g', MatchCompleted, 1),
                  Sample('c', 'g', Letter('b')), SampleSummary('g', MatchCompleted, 1))
    ensures !Letter('w').Blank()
  {
    hide NormalizeScope, BuiltUpdate, HasBotIdentity, WellFormed, Id.Blank, Letter;
    LetterIsTrimmed('b');
    SampleIsFresh('a', 'g', Letter('b'));
    SampleIsFresh('c', 'g', Letter('b'));
    SampleIsBuilt('a', 'g', 'b', 1);
    SampleIsBuilt('c', 'g', 'b', 1);
    LetterIsTrimmed('w');
    LetterOnly('a', 'c');
  }

  // The same within one scope, every action orderly but one that lists the queue for a second refresh
  // while the first is between its calls.
  lemma SomeRankingIsWrongByOverlap()
    ensures exists acts, scope, n: nat :: BrokenAt(acts, n, List(1)) && Run(acts) && scope == NormalizeScope(scope)
              && Quiet(Reached(acts), scope) && !Faithful(Reached(acts), scope)
  {
    hide Run, Reached, Faithful, Quiet, NormalizeScope, OrderlyRun, Id.Blank, Sample, SampleSummary, Letter, Twins, BrokenAt;
    var summary := SampleSummary('g', MatchCompleted, 1);
    SamplesAreTwins();
    var acts, n := RefreshOvertaken(Sample('a', 'g', Letter('b')), summary, Sample('c', 'g', Letter('b')), summary,
                                    Letter('j'), Letter('w'));
    NormalizeScopeTwice(summary.game);
  }

  lemma SampleSecondPass()
    ensures var s, first, second := Sample('a', 'g', Letter('b')), SampleSummary('g', MatchCompleted, 1),
                                    SampleSummary('g', MatchCompleted, 2);
            && Fresh(EMPTY, s) && HasBotIdentity(s) && BuiltUpdate(s, first).Ok? && BuiltUpdate(s, second).Ok?
            && Points(BuiltUpdate(s, second).value.placements) != Points(BuiltUpdate(s, first).value.placements)
    ensures !Letter('w').Blank() && Letter('j') != Letter('k')
  {
    hide NormalizeScope, BuiltUpdate, HasBotIdentity, WellFormed, Id.Blank, Letter, Points;
    LetterIsTrimmed('b');
    SampleIsFresh('a', 'g', Letter('b'));
    SampleIsBuilt('a', 'g', 'b', 1);
    SampleIsBuilt('a', 'g', 'b', 2);
    LetterIsTrimmed('w');
    LetterOnly('j', 'k');
    OnePoint(RankedPlacement(Letter('b'), NO_ID, Letter('p'), 1));
    OnePoint(RankedPlacement(Letter('b'), NO_ID, Letter('p'), 2));
    assert (Letter('b'), 1) in multiset{(Letter('b'), 1)} && (Letter('b'), 1) !in multiset{(Letter('b'), 2)};
  }

  lemma OnePoint(p: RankedPlacement)
    ensures Points([p]) == multiset{(p.botID, p.place)}
  {
    assert [p][..0] == [];
  }

  // The same with one submission, and a lease that expires under its pass.
  lemma SomeRankingIsWrongAfterRecovery()
    ensures exists acts, scope :: Run(acts) && scope == NormalizeScope(scope) && Quiet(Reached(acts), scope)
              && !Faithful(Reached(acts), scope) && NoPromotion(acts)
  {
    hide Run, Reached, Faithful, Quiet, NormalizeScope, OrderlyRun, Id.Blank, Letter, Fresh, BuiltUpdate;
    hide Points, HasBotIdentity;
    var first, second := SampleSummary('g', MatchCompleted, 1), SampleSummary('g', MatchCompleted, 2);
    SampleSecondPass();
    var acts, n := PersistedOver(Sample('a', 'g', Letter('b')), first, second, Letter('j'), Letter('k'), Letter('w'));
    NormalizeScopeTwice(first.game);
  }
}
