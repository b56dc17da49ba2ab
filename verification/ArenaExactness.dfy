/**
  What the conditions of RankingCache are good for: for each, exactly when a step that breaks it leaves
  the stored ranking wrong (internal/platform/service/run_commands.go, ranking.go, store_memory.go,
  worker.go). ArenaFailures reaches such steps from the empty system.
*/
module ArenaExactness {
  import opened Identifiers
  import opened MatchResults
  import opened RunTypes
  import opened RunQueue
  import opened QueueInvariants
  import opened Ranking
  import opened RankingLifecycle
  import opened RunControl
  import opened Arena
  import opened RankedRuns
  import opened RankingCache
  import opened ArenaRanking

  // ----- Ranking calls that nothing comes between -----

  // A refresh that reads all that it has listed; one that fails has left the list.
  ghost function CountedUp(a: System, at: nat): System
    requires at < |a.refreshes| && a.refreshes[at].Counting?
    decreases |a.refreshes[at].left|
  {
    if a.refreshes[at].left == [] then a
    else
      var b := RankingStep(a, ReadNext(at));
      if |b.refreshes| < |a.refreshes| then b else CountedUp(b, at)
  }

  // A refresh after a promotion, all of its calls.
  ghost function RefreshedAt(a: System, at: nat): System
    requires at < |a.refreshes| && a.refreshes[at].Awaited?
  {
    var b := RankingStep(RankingStep(a, ReadScope(at)), List(at));
    if |b.refreshes| < |a.refreshes| then b
    else
      var c := CountedUp(b, at);
      if |c.refreshes| == |b.refreshes| && c.refreshes[at].Counting? && c.refreshes[at].left == []
      then RankingStep(c, Action.Refresh(at)) else c
  }

  // A credit, all of its calls.
  ghost function CreditedAt(a: System, at: nat): System
    requires at < |a.credits| && a.credits[at].read.None?
  {
    if Worth(a.credits[at]) then RankingStep(RankingStep(a, ReadRanking(at)), WriteRanking(at))
    else RankingStep(a, WriteRanking(at))
  }

  lemma CreditedAtIs(a: System, at: nat)
    requires at < |a.credits| && a.credits[at].read.None? && a.credits[at].s.official && Stored(a.standings)
    ensures CreditedAt(a, at)
         == a.(standings := CreditRun(a.standings, a.credits[at].s, a.credits[at].summary).0,
               credits := Dropped(a.credits, at))
  {
    hide HasBotIdentity, BuiltUpdate, StandingAt, Stored, CreditRun, CreditWritten;
    var c := a.credits[at];
    if Worth(c) {
      var read := c.(read := Some(StandingAt(a.standings, CreditScope(c))));
      SameWorth(c, read);
      WrittenStored(a.standings, read);
      assert Dropped(a.credits[at := read], at) == Dropped(a.credits, at);
    } else {
      IdleRun(a.standings, c);
    }
  }

  lemma SameWorth(c: Credit, c': Credit)
    requires c.s == c'.s && c.summary == c'.summary
    ensures Worth(c) <==> Worth(c')
    ensures CreditScope(c) == CreditScope(c')
  {
    hide HasBotIdentity, BuiltUpdate;
  }

  lemma IdleRun(standings: Standings, c: Credit)
    requires c.s.official && !Worth(c)
    ensures CreditRun(standings, c.s, c.summary).0 == standings && CreditWritten(standings, c) == standings
  {
    hide HasBotIdentity, BuiltUpdate;
  }

  // With nothing in between, what is read is what was listed.
  lemma ListedAsFiled(a: System, r: QueueRecord, st: Standing)
    requires Filed(a.q, a.jobs, a.results, a.files) && r in Listed(a.q.all, a.q.records) && Indexed(a.q)
    ensures RecomputeStep(st, Filing(r, a.files)) == RecomputeStep(st, r)
  {
    hide BuiltUpdate, NormalizeScope, HasBotIdentity, Listed;
    ListedIsRecords(a.q.all, a.q.records);
    if r.state.Completed? { assert Filing(r, a.files) == r; }
  }

  lemma RecomputeSnoc(done: seq<QueueRecord>, r: QueueRecord, scope: GameKey)
    ensures RecomputeFrom(done + [r], scope)
         == match RecomputeFrom(done, scope) case Err(e) => Err(e) case Ok(st) => RecomputeStep(st, r)
  {
    hide RecomputeStep;
    assert (done + [r])[..|done|] == done;
  }

  lemma {:induction false} RecomputeFails(done: seq<QueueRecord>, left: seq<QueueRecord>, scope: GameKey)
    requires RecomputeFrom(done, scope).Err?
    ensures RecomputeFrom(done + left, scope).Err?
  {
    hide RecomputeStep;
    if left == [] {
      assert done + left == done;
    } else {
      var n := |left| - 1;
      RecomputeFails(done, left[..n], scope);
      assert done + left == (done + left[..n]) + [left[n]];
      RecomputeSnoc(done + left[..n], left[n], scope);
    }
  }

  lemma {:induction false} CountedUpIs(a: System, at: nat, done: seq<QueueRecord>)
    requires Filed(a.q, a.jobs, a.results, a.files) && Indexed(a.q)
    requires at < |a.refreshes| && a.refreshes[at].Counting?
    requires forall r | r in a.refreshes[at].left :: r in Listed(a.q.all, a.q.records)
    requires RecomputeFrom(done, a.refreshes[at].scope) == Ok(a.refreshes[at].st)
    ensures CountedUp(a, at)
         == a.(refreshes := match RecomputeFrom(done + a.refreshes[at].left, a.refreshes[at].scope)
                            case Ok(st) => a.refreshes[at := Counting(a.refreshes[at].scope, [], st)]
                            case Err(_) => Dropped(a.refreshes, at))
    decreases |a.refreshes[at].left|
  {
    hide Filed, Indexed, RecomputeStep, RecomputeFrom, Filing, Listed;
    var c := a.refreshes[at];
    if c.left == [] {
      assert done + c.left == done && a.refreshes[at := c] == a.refreshes;
    } else {
      var r := c.left[0];
      assert r in c.left;
      ListedAsFiled(a, r, c.st);
      RecomputeSnoc(done, r, c.scope);
      assert done + c.left == (done + [r]) + c.left[1..];
      if RecomputeStep(c.st, r).Err? {
        RecomputeFails(done + [r], c.left[1..], c.scope);
      } else {
        var b := RankingStep(a, ReadNext(at));
        CountedUpIs(b, at, done + [r]);
        DropAt(a.refreshes, at, b.refreshes[at]);
      }
    }
  }

  // The first three calls of a refresh, when a recompute succeeds.
  lemma CountedAtIs(a: System, at: nat)
    requires Filed(a.q, a.jobs, a.results, a.files) && Indexed(a.q) && at < |a.refreshes| && a.refreshes[at].Awaited?
    requires ValidScope(FileScope(a.files, a.refreshes[at].runID))
    ensures var b, scope := RankingStep(RankingStep(a, ReadScope(at)), List(at)), FileScope(a.files, a.refreshes[at].runID);
            && b.refreshes == a.refreshes[at := Counting(scope, Listed(a.q.all, a.q.records), NewStanding(scope))]
            && CountedUp(b, at)
               == a.(refreshes := match Recomputation(a.q, scope)
                                  case Ok(st) => a.refreshes[at := Counting(scope, [], st)]
                                  case Err(_) => Dropped(a.refreshes, at))
  {
    hide Filed, Indexed, Listed, CountedUp, NormalizeScope, ValidScope, RecomputeStep, RecomputeFrom;
    var scope := FileScope(a.files, a.refreshes[at].runID);
    ScopedProper(a.files, a.refreshes[at].runID);
    var b := RankingStep(a, ReadScope(at));
    var c := RankingStep(b, List(at));
    NothingRecomputed(scope);
    assert [] + Listed(a.q.all, a.q.records) == Listed(a.q.all, a.q.records);
    CountedUpIs(c, at, []);
    DropAt(a.refreshes, at, c.refreshes[at]);
  }

  lemma NothingRecomputed(scope: GameKey)
    ensures RecomputeFrom([], scope) == Ok(NewStanding(scope))
  {
  }

  lemma DropAt<T>(s: seq<T>, at: nat, x: T)
    requires at < |s|
    ensures Dropped(s[at := x], at) == Dropped(s, at)
  {
  }

  lemma RefreshedAtIs(a: System, at: nat)
    requires Filed(a.q, a.jobs, a.results, a.files) && Indexed(a.q) && at < |a.refreshes| && a.refreshes[at].Awaited?
    ensures RefreshedAt(a, at)
         == a.(standings := RefreshScope(a.standings, a.q, FileScope(a.files, a.refreshes[at].runID)).0,
               refreshes := Dropped(a.refreshes, at))
  {
    hide Filed, Indexed, Listed, CountedUp, NormalizeScope, ValidScope, Recomputation, Dropped, FileScope;
    var scope := FileScope(a.files, a.refreshes[at].runID);
    ScopedProper(a.files, a.refreshes[at].runID);
    DropAt(a.refreshes, at, Scoped(scope));
    if ValidScope(scope) {
      CountedAtIs(a, at);
      if Recomputation(a.q, scope).Ok? {
        DropAt(a.refreshes, at, Counting(scope, [], Recomputation(a.q, scope).value));
      } else {
        DroppedLess(a.refreshes, at);
      }
    } else {
      NamelessRecompute(a.q, scope);
      DroppedLess(a.refreshes, at);
    }
  }

  lemma DroppedLess<T>(s: seq<T>, at: nat)
    requires at < |s|
    ensures |Dropped(s, at)| == |s| - 1
  {
  }

  lemma NamelessRecompute(q: Queue, scope: GameKey)
    requires scope == NormalizeScope(scope) && !ValidScope(scope)
    ensures Recomputation(q, scope).Err?
  {
    hide NormalizeScope;
  }

  // ----- A promotion and its refresh, seen from another scope -----

  // The scope that the summary of a run names.
  function OwnScope(q: Queue, runID: Id): GameKey {
    if runID in q.records && q.records[runID].terminal.Some? then NormalizeScope(q.records[runID].terminal.value.game)
    else NormalizeScope(GameKey(NO_ID, NO_ID, NO_ID))
  }

  ghost predicate Promotable(a: System, runID: Id) {
    Sound(a) && Terminals(a.q) && Stored(a.standings) && Promoted(a.q, runID).Ok?
  }

  // The operator's promotion with the refresh that follows it.
  ghost function Refreshed(a: System, runID: Id): System
    requires Promotable(a, runID)
  {
    PromoteStep(a, Action.Promote(runID));
    RefreshedAt(Step(a, Action.Promote(runID)), |a.refreshes|)
  }

  lemma OwnIsFile(a: System, runID: Id)
    requires Sound(a) && runID in a.q.records && a.q.records[runID].state.Completed?
    ensures OwnScope(a.q, runID) == FileScope(a.files, runID)
  {
    hide NormalizeScope, Indexed, Line, Lifecycle, Officials, JobsKnown;
  }

  lemma RefreshedState(a: System, runID: Id)
    requires Promotable(a, runID)
    ensures runID in a.q.records && a.q.records[runID].terminal.Some?
    ensures var after, q', own := Refreshed(a, runID), Promoted(a.q, runID).value, OwnScope(a.q, runID);
            && after.q == q' && after.credits == a.credits && after.refreshes == a.refreshes && after.files == a.files
            && own == NormalizeScope(own) && Sound(after) && Terminals(q') && Stored(after.standings)
            && forall s :: StandingAt(after.standings, s) ==
                 if s == own && Recomputation(q', own).Ok? then Recomputation(q', own).value else StandingAt(a.standings, s)
  {
    hide Promoted, Recomputation, RefreshScope, NormalizeScope, StandingAt, Stored, RefreshedAt, Dropped;
    hide Indexed, Line, Lifecycle, Officials, JobsKnown, Filed, Step;
    PromoteStep(a, Action.Promote(runID));
    PromotedTerminals(a.q, runID);
    OwnIsFile(a, runID);
    ScopedProper(a.files, runID);
    var b, own := Step(a, Action.Promote(runID)), OwnScope(a.q, runID);
    StepKeepsSound(a, Action.Promote(runID));
    RefreshedAtIs(b, |a.refreshes|);
    DropLast(a.refreshes, Awaited(runID));
    RefreshStored(b.q, a.standings, own);
    PromoteLeaves(a, runID);
  }

  lemma PromoteLeaves(a: System, runID: Id)
    ensures var b := Step(a, Action.Promote(runID)); b.jobs == a.jobs && b.results == a.results && b.files == a.files
  {
    hide RankingStep;
  }

  lemma DropLast<T>(s: seq<T>, x: T)
    ensures Dropped(s + [x], |s|) == s
  {
  }

  lemma RefreshStored(q: Queue, standings: Standings, scope: GameKey)
    requires scope == NormalizeScope(scope) && Stored(standings)
    ensures var after, r := RefreshScope(standings, q, scope).0, Recomputation(q, scope);
            && Stored(after)
            && forall s :: StandingAt(after, s) == if s == scope && r.Ok? then r.value else StandingAt(standings, s)
  {
    hide NormalizeScope, ValidScope, Listed, Stored;
    var r := Recomputation(q, scope);
    if r.Ok? { PutStored(standings, r.value); }
  }

  // What the promotion does to the ranked runs of another scope: it takes out those it demotes.
  lemma RankedElsewhere(q: Queue, runID: Id, scope: GameKey)
    requires Promoted(q, runID).Ok? && Terminals(q) && OwnScope(q, runID) != scope
    ensures var q' := Promoted(q, runID).value;
            forall id :: Elig(q', scope, id) <==> Elig(q, scope, id) && !Demotes(q, runID, id)
    ensures var q' := Promoted(q, runID).value;
            forall id | Elig(q', scope, id) :: q'.records[id] == q.records[id]
  {
    hide NormalizeScope, HasBotIdentity;
  }

  lemma SameStandingRuns(st: Standing, a: Standing, b: Standing)
    requires SameStanding(st, a) && SameStanding(st, b)
    ensures SameStanding(a, b) && forall id :: id in a.runs <==> id in b.runs
  {
    assert multiset(a.runs) == multiset(b.runs);
    assert forall id :: id in a.runs <==> id in multiset(a.runs);
    assert forall id :: id in b.runs <==> id in multiset(b.runs);
  }

  lemma SameStandingTwice(st: Standing, a: Standing, b: Standing)
    requires SameStanding(st, a) && SameStanding(a, b)
    ensures SameStanding(st, b)
  {
  }

  // Two recomputes over the same runs, counted alike, count the same.
  lemma AlikeRecomputed(q: Queue, q': Queue, st: Standing, st': Standing)
    requires Shape(q, st) && Shape(q', st') && forall id :: id in st.runs <==> id in st'.runs
    requires forall id | id in st.runs :: id in q.records ==> Alike(q.records[id], q'.records[id])
    ensures SameStanding(st, st')
  {
    hide Holds, Built, Alike, UpdatesOf;
    forall id | id in st.runs ensures Settles(q', id) { assert id in st'.runs; }
    AlikeShape(q, q', st);
    hide Shape;
    SameRunsSameCounts(q', st, st');
  }

  // Against a queue whose ranked runs count as they did, a standing that was right is right still
  // exactly when the same runs are ranked.
  lemma SameRankedIff(q: Queue, q': Queue, scope: GameKey, st: Standing)
    requires Indexed(q) && Officials(q) && Terminals(q) && Indexed(q') && Officials(q') && Terminals(q')
    requires scope == NormalizeScope(scope) && Recomputation(q, scope).Ok? && Recomputation(q', scope).Ok?
    requires SameStanding(st, Recomputation(q, scope).value)
    requires forall id | Elig(q, scope, id) && Elig(q', scope, id) :: Alike(q.records[id], q'.records[id])
    ensures SameStanding(st, Recomputation(q', scope).value) <==> forall id :: Elig(q, scope, id) <==> Elig(q', scope, id)
  {
    hide Recomputation, Eligible, Built, NormalizeScope, Terminals, Holds, Alike, SameStanding, Indexed, Officials, Shape;
    RecomputedShape(q, scope);
    RecomputedShape(q', scope);
    var rec, rec' := Recomputation(q, scope).value, Recomputation(q', scope).value;
    if forall id :: Elig(q, scope, id) <==> Elig(q', scope, id) {
      AlikeRecomputed(q, q', rec, rec');
      SameStandingTwice(st, rec, rec');
    } else if SameStanding(st, rec') {
      SameStandingRuns(st, rec, rec');
    }
  }

  /**
    After a promotion and the refresh of its own scope, any other scope that was counted right is
    counted right still if and only if the promotion demoted no run that is ranked there.
  */
  lemma PromotionSparesScopeIff(a: System, runID: Id, scope: GameKey)
    requires Promotable(a, runID) && scope == NormalizeScope(scope) && Terminals(a.q) && OwnScope(a.q, runID) != scope
    requires Recomputation(a.q, scope).Ok? && Faithful(a, scope)
    ensures Recomputation(Refreshed(a, runID).q, scope).Ok?
    ensures Faithful(Refreshed(a, runID), scope) <==> forall id | Demotes(a.q, runID, id) :: !Elig(a.q, scope, id)
  {
    hide Promoted, Recomputation, Refreshed, StandingAt, Stored, Eligible, Built, NormalizeScope, Terminals, OwnScope, Shape;
    hide Lifecycle, JobsKnown, Line, Filed, Alike, SameStanding, Demotes, AllBuilt, Indexed, Officials;
    RefreshedState(a, runID);
    var q, q' := a.q, Promoted(a.q, runID).value;
    RankedElsewhere(q, runID, scope);
    ElsewhereRecomputed(a, runID, scope);
    forall id | Elig(q, scope, id) && Elig(q', scope, id) ensures Alike(q.records[id], q'.records[id]) {
      EligAlike(q, scope, id);
    }
    SameRankedIff(q, q', scope, StandingAt(a.standings, scope));
  }

  lemma ElsewhereRecomputed(a: System, runID: Id, scope: GameKey)
    requires Promotable(a, runID) && scope == NormalizeScope(scope) && OwnScope(a.q, runID) != scope
    requires Recomputation(a.q, scope).Ok?
    ensures Recomputation(Promoted(a.q, runID).value, scope).Ok?
  {
    hide Promoted, Recomputation, Eligible, Built, NormalizeScope, Terminals, OwnScope, Shape, Stored, Demotes;
    hide Lifecycle, JobsKnown, Line, Filed;
    var q, q' := a.q, Promoted(a.q, runID).value;
    RefreshedState(a, runID);
    RankedElsewhere(q, runID, scope);
    RecomputedShape(q, scope);
    RecomputedShape(q', scope);
    ShapeIsBuilt(q, Recomputation(q, scope).value, scope);
    NamedScope(q, scope);
    assert AllBuilt(q', scope);
  }

  lemma NamedScope(q: Queue, scope: GameKey)
    requires scope == NormalizeScope(scope) && Recomputation(q, scope).Ok?
    ensures ValidScope(scope)
  {
    hide NormalizeScope;
  }

  lemma EligAlike(q: Queue, scope: GameKey, id: Id)
    requires Elig(q, scope, id)
    ensures Alike(q.records[id], q.records[id])
  {
    hide NormalizeScope, HasBotIdentity, Alike;
    UntouchedAlike(q.records[id]);
  }

  // ----- A credit that the promotion overtakes -----

  /**
    A credit of the match still due when another of its runs is promoted in the same scope, and read
    and written after the refresh: the scope is counted right if and only if the promoted run is ranked.
  */
  lemma OvertakenCreditIff(a: System, runID: Id, at: nat)
    requires Promotable(a, runID) && at < |a.credits| && Due(a.q, a.credits[at]) && a.credits[at].read.None?
    requires Live(a.credits[at]) && Built(CreditedRecord(a.credits[at]))
    requires a.credits[at].s.runID != runID && a.credits[at].s.matchID == a.q.records[runID].submission.matchID
    requires CreditScope(a.credits[at]) == OwnScope(a.q, runID)
    requires Recomputation(Promoted(a.q, runID).value, OwnScope(a.q, runID)).Ok?
    ensures Refreshed(a, runID).credits == a.credits
    ensures Faithful(CreditedAt(Refreshed(a, runID), at), OwnScope(a.q, runID))
       <==> HasBotIdentity(a.q.records[runID].submission)
  {
    hide Refreshed, StandingAt, Built, NormalizeScope, Sound, Stored, Live, Due, CreditScope, RecomputeFrom, Listed;
    hide UpdateOf, HasBotIdentity, Terminals, SameStanding, Applied, CreditedAt;
    OvertakenStanding(a, runID, at);
    OvertakenMatch(a, runID, a.credits[at]);
    var rec, u := Recomputation(Promoted(a.q, runID).value, OwnScope(a.q, runID)).value, UpdateOf(CreditedRecord(a.credits[at]));
    if HasBotIdentity(a.q.records[runID].submission) { AppliedKnown(rec, u); } else { AppliedGrows(rec, u); }
  }

  lemma OvertakenStanding(a: System, runID: Id, at: nat)
    requires Promotable(a, runID) && at < |a.credits| && Due(a.q, a.credits[at]) && a.credits[at].read.None?
    requires Live(a.credits[at]) && Built(CreditedRecord(a.credits[at]))
    requires CreditScope(a.credits[at]) == OwnScope(a.q, runID)
    requires Recomputation(Promoted(a.q, runID).value, OwnScope(a.q, runID)).Ok?
    ensures Refreshed(a, runID).credits == a.credits
    ensures var after, scope := CreditedAt(Refreshed(a, runID), at), OwnScope(a.q, runID);
            && after.q == Promoted(a.q, runID).value
            && StandingAt(after.standings, scope)
               == Applied(Recomputation(after.q, scope).value, UpdateOf(CreditedRecord(a.credits[at])))
  {
    hide Promoted, Recomputation, Refreshed, StandingAt, Stored, Built, NormalizeScope, Terminals, OwnScope, CreditRun;
    hide Sound, HasBotIdentity, CreditScope, UpdateOf, Due, Applied, CreditedRecord, CreditedAt, Live;
    RefreshedState(a, runID);
    DueFields(a.q, a.credits[at]);
    RecomputedScope(Promoted(a.q, runID).value, OwnScope(a.q, runID));
    CreditedAtIs(Refreshed(a, runID), at);
    RunStored(Refreshed(a, runID).standings, a.credits[at]);
  }

  lemma RunStored(standings: Standings, c: Credit)
    requires Stored(standings) && c.s.official && Live(c) && Built(CreditedRecord(c))
    ensures var after := CreditRun(standings, c.s, c.summary).0;
            forall s :: StandingAt(after, s) ==
              if s == CreditScope(c) then Applied(StandingAt(standings, s), UpdateOf(CreditedRecord(c)))
              else StandingAt(standings, s)
  {
    hide BuiltUpdate, Applied, NormalizeScope, ValidScope, HasBotIdentity, Stored, StandingAt;
    var read := c.(read := Some(StandingAt(standings, CreditScope(c))));
    SameWorth(c, read);
    WrittenStored(standings, read);
  }

  lemma RecomputedScope(q: Queue, scope: GameKey)
    requires Recomputation(q, scope).Ok? && scope == NormalizeScope(scope)
    ensures Recomputation(q, scope).value.scope == scope
  {
    hide NormalizeScope;
  }

  // The match is in the recomputed standing exactly when the promoted run is ranked.
  lemma OvertakenMatch(a: System, runID: Id, c: Credit)
    requires Promotable(a, runID) && Due(a.q, c) && Built(CreditedRecord(c)) && c.s.runID != runID
    requires c.s.matchID == a.q.records[runID].submission.matchID && CreditScope(c) == OwnScope(a.q, runID)
    requires Recomputation(Promoted(a.q, runID).value, OwnScope(a.q, runID)).Ok?
    ensures var u, rec := UpdateOf(CreditedRecord(c)), Recomputation(Promoted(a.q, runID).value, OwnScope(a.q, runID)).value;
            if HasBotIdentity(a.q.records[runID].submission) then u.matchID in rec.matches
            else u.runID !in rec.runs && u.matchID !in rec.matches
  {
    hide Promoted, Recomputation, Refreshed, StandingAt, Stored, Built, NormalizeScope, Terminals, OwnScope, Shape;
    hide Lifecycle, JobsKnown, Line, Filed, HasBotIdentity, Due, CreditScope, Eligible, UpdateOf, Demotes;
    hide Indexed, Officials;
    var q', scope := Promoted(a.q, runID).value, OwnScope(a.q, runID);
    OvertakenRecord(a.q, runID, c);
    RefreshedState(a, runID);
    var rec, u := Recomputation(q', scope).value, UpdateOf(CreditedRecord(c));
    RecomputedShape(q', scope);
    DueFields(a.q, c);
    RunsUpdate(CreditedRecord(c));
    StoredMatches(q', rec, u.matchID);
    if !HasBotIdentity(a.q.records[runID].submission) {
      forall id | Elig(q', scope, id) ensures q'.records[id].submission.matchID != c.s.matchID {
        NotRankedAfter(a.q, runID, scope, id);
      }
    }
  }

  lemma AppliedKnown(st: Standing, u: Update)
    requires u.matchID in st.matches
    ensures SameStanding(Applied(st, u), st)
  {
    hide NormalizeTable, TallyAll;
  }

  lemma DueFields(q: Queue, c: Credit)
    requires Due(q, c)
    ensures c.s.official && c.summary.matchID == c.s.matchID && c.s.runID in q.records
  {
  }

  lemma OvertakenRecord(q: Queue, runID: Id, c: Credit)
    requires Promoted(q, runID).Ok? && Terminals(q) && Due(q, c)
    ensures var q' := Promoted(q, runID).value;
            && q'.records.Keys == q.records.Keys
            && q'.records[c.s.runID].submission.matchID == c.s.matchID
            && (HasBotIdentity(q.records[runID].submission) ==> Elig(q', OwnScope(q, runID), runID))
            && q'.records[runID].submission.matchID == q.records[runID].submission.matchID
  {
    hide NormalizeScope, HasBotIdentity;
    var q' := Promoted(q, runID).value;
    SameRunFields(c.s, q.records[c.s.runID].submission);
    SameRunFields(q.records[runID].submission, q'.records[runID].submission);
  }

  lemma NotRankedAfter(q: Queue, runID: Id, scope: GameKey, id: Id)
    requires Promoted(q, runID).Ok? && Elig(Promoted(q, runID).value, scope, id)
    requires !HasBotIdentity(q.records[runID].submission)
    ensures Promoted(q, runID).value.records[id].submission.matchID != q.records[runID].submission.matchID
  {
    hide NormalizeScope, HasBotIdentity;
    SameRunFields(q.records[runID].submission, Promoted(q, runID).value.records[runID].submission);
  }

  lemma AppliedGrows(st: Standing, u: Update)
    requires u.runID !in st.runs && u.matchID !in st.matches
    ensures !SameStanding(Applied(st, u), st)
  {
    hide NormalizeTable, TallyAll, SameCounts;
    assert |multiset(st.runs + [u.runID])| == |st.runs| + 1 && |multiset(st.runs)| == |st.runs|;
  }

  // ----- Ranking calls that overlap -----

  /**
    A credit of the match that has read before the promotion, found the match not stored, and writes
    after the refresh: the scope is counted wrong, whether the promoted run is ranked or not.
  */
  lemma OvertakenReadIsWrong(a: System, runID: Id, at: nat)
    requires Promotable(a, runID) && at < |a.credits| && Due(a.q, a.credits[at]) && Worth(a.credits[at])
    requires CreditScope(a.credits[at]) == OwnScope(a.q, runID)
    requires a.credits[at].read == Some(StandingAt(a.standings, OwnScope(a.q, runID)))
    requires a.credits[at].s.runID != runID && a.credits[at].s.matchID == a.q.records[runID].submission.matchID
    requires a.credits[at].s.matchID !in StandingAt(a.standings, OwnScope(a.q, runID)).matches
    requires Recomputation(Promoted(a.q, runID).value, OwnScope(a.q, runID)).Ok?
    ensures RankingAllowed(Refreshed(a, runID), WriteRanking(at))
    ensures !Faithful(RankingStep(Refreshed(a, runID), WriteRanking(at)), OwnScope(a.q, runID))
  {
    hide Promoted, Recomputation, Refreshed, StandingAt, Stored, Built, NormalizeScope, Terminals, OwnScope, CreditRun, Shape;
    hide Indexed, Line, Lifecycle, Officials, JobsKnown, Filed, HasBotIdentity, CreditScope, UpdateOf, Due, Applied;
    hide CreditedRecord, Worth, CreditWritten, Eligible, SameStanding;
    var c, own := a.credits[at], OwnScope(a.q, runID);
    RefreshedState(a, runID);
    OvertakenUnranked(a.q, runID, c, own);
    StoredScope(a.standings, own);
    OverwrittenStanding(Refreshed(a, runID).standings, c, own);
    var after := RankingStep(Refreshed(a, runID), WriteRanking(at));
    RecomputedShape(after.q, own);
    if SameStanding(StandingAt(after.standings, own), Recomputation(after.q, own).value) {
      SameStandingRuns(StandingAt(after.standings, own), StandingAt(after.standings, own), Recomputation(after.q, own).value);
    }
  }

  // Whatever is stored by then, what was read is written with the run added.
  lemma OverwrittenStanding(standings: Standings, c: Credit, scope: GameKey)
    requires Worth(c) && CreditScope(c) == scope && c.read.Some? && c.read.value.scope == scope
    requires c.summary.matchID == c.s.matchID && c.s.matchID !in c.read.value.matches
    ensures var st := StandingAt(CreditWritten(standings, c), scope);
            c.s.runID in st.runs && SameStanding(st, st)
  {
    hide NormalizeScope, HasBotIdentity, NormalizeTable, TallyAll, RankPlacements, PlayersByID, Id.Blank;
    SelfCounts(StandingAt(CreditWritten(standings, c), scope).table);
  }

  lemma SelfCounts(table: Table)
    ensures SameCounts(table, table)
  {
  }

  lemma OvertakenUnranked(q: Queue, runID: Id, c: Credit, scope: GameKey)
    requires Promoted(q, runID).Ok? && Due(q, c) && c.s.runID != runID
    requires c.s.matchID == q.records[runID].submission.matchID
    ensures !Elig(Promoted(q, runID).value, scope, c.s.runID) && c.summary.matchID == c.s.matchID
  {
    hide NormalizeScope, HasBotIdentity;
    SameRunFields(c.s, q.records[c.s.runID].submission);
  }

  /**
    A refresh that writes late: what it listed in b, when a recompute succeeded, it writes in a. The
    scope is counted right if and only if the same runs are ranked there as when it listed.
  */
  lemma LateRefreshIff(b: System, a: System, at: nat, scope: GameKey)
    requires Sound(b) && Sound(a) && scope == NormalizeScope(scope)
    requires Recomputation(b.q, scope).Ok? && Recomputation(a.q, scope).Ok?
    requires at < |a.refreshes| && a.refreshes[at] == Counting(scope, [], Recomputation(b.q, scope).value)
    requires forall id | Elig(b.q, scope, id) && Elig(a.q, scope, id) :: Alike(b.q.records[id], a.q.records[id])
    ensures Faithful(RankingStep(a, Action.Refresh(at)), scope)
       <==> forall id :: Elig(b.q, scope, id) <==> Elig(a.q, scope, id)
  {
    hide Recomputation, NormalizeScope, Eligible, Alike, Terminals, Line, Lifecycle, JobsKnown, Filed, Indexed, Officials;
    hide SameStanding;
    SoundTerminals(b);
    SoundTerminals(a);
    var st := Recomputation(b.q, scope).value;
    RecomputedScope(b.q, scope);
    assert SameStanding(st, st) by { SelfStanding(st); }
    SameRankedIff(b.q, a.q, scope, st);
  }

  lemma SelfStanding(st: Standing)
    ensures SameStanding(st, st)
  {
    SelfCounts(st.table);
  }

  /**
    A credit that writes late, from a standing it read that added up to its runs: the scope is counted
    right if and only if the runs ranked by then are those it read and, unless it read the match
    already, its own.
  */
  lemma LateCreditIff(a: System, at: nat, st: Standing, scope: GameKey)
    requires Sound(a) && scope == NormalizeScope(scope) && Recomputation(a.q, scope).Ok?
    requires at < |a.credits| && Worth(a.credits[at]) && CreditScope(a.credits[at]) == scope
    requires a.credits[at].read == Some(st) && st.scope == scope && Shape(a.q, st)
    requires Settles(a.q, a.credits[at].s.runID) && a.credits[at].summary.matchID == a.credits[at].s.matchID
    requires UpdatesAlike(UpdateOf(CreditedRecord(a.credits[at])), UpdateOf(a.q.records[a.credits[at].s.runID]))
    ensures RankingAllowed(a, WriteRanking(at))
    ensures Faithful(RankingStep(a, WriteRanking(at)), scope)
       <==> forall id :: Elig(a.q, scope, id) <==>
              id in st.runs || (id == a.credits[at].s.runID && a.credits[at].s.matchID !in st.matches)
  {
    hide Recomputation, NormalizeScope, Eligible, Alike, Terminals, Line, Lifecycle, JobsKnown, Filed, Indexed, Officials;
    hide SameStanding, Shape, UpdatesAlike, UpdateOf, Settles, CreditScope, CreditWritten, Worth, CreditedRecord;
    SoundTerminals(a);
    RecomputedShape(a.q, scope);
    var c, rec := a.credits[at], Recomputation(a.q, scope).value;
    LateStanding(a, at, st, scope);
    var st' := StandingAt(CreditWritten(a.standings, c), scope);
    if forall id :: Elig(a.q, scope, id) <==> id in st'.runs {
      SameRunsStanding(a.q, st', rec);
    } else if SameStanding(st', rec) {
      assert SameStanding(st', st') by { SelfStanding(st'); }
      SameStandingRuns(st', st', rec);
    }
  }

  lemma SameRunsStanding(q: Queue, st: Standing, st': Standing)
    requires Shape(q, st) && Shape(q, st') && forall id :: id in st.runs <==> id in st'.runs
    ensures SameStanding(st, st')
  {
    hide Shape, SameCounts;
    SameRunsSameCounts(q, st, st');
  }

  lemma LateStanding(a: System, at: nat, st: Standing, scope: GameKey)
    requires Indexed(a.q) && at < |a.credits| && Worth(a.credits[at]) && CreditScope(a.credits[at]) == scope
    requires a.credits[at].read == Some(st) && st.scope == scope && Shape(a.q, st)
    requires Settles(a.q, a.credits[at].s.runID) && a.credits[at].summary.matchID == a.credits[at].s.matchID
    requires UpdatesAlike(UpdateOf(CreditedRecord(a.credits[at])), UpdateOf(a.q.records[a.credits[at].s.runID]))
    ensures var c, st' := a.credits[at], StandingAt(CreditWritten(a.standings, a.credits[at]), scope);
            && Shape(a.q, st')
            && forall id :: id in st'.runs <==> id in st.runs || (id == c.s.runID && c.s.matchID !in st.matches)
  {
    hide NormalizeScope, Shape, UpdatesAlike, UpdateOf, HasBotIdentity, BuiltUpdate;
    var c := a.credits[at];
    var id, u := c.s.runID, UpdateOf(CreditedRecord(c));
    RunsUpdate(CreditedRecord(c));
    WorthUpdate(c);
    AppliedShape(a.q, st, id, u);
    hide Applied;
    IndexedName(a.q, id);
  }

  lemma WorthUpdate(c: Credit)
    requires Worth(c)
    ensures Built(CreditedRecord(c)) && UpdateOf(CreditedRecord(c)) == BuiltUpdate(c.s, c.summary).value
  {
    hide BuiltUpdate, HasBotIdentity;
  }

  lemma IndexedName(q: Queue, id: Id)
    requires Indexed(q) && id in q.records
    ensures q.records[id].submission.runID == id
  {
  }

  // ----- Ranking calls that are lost -----

  // The system after a credit is lost.
  ghost function CreditLost(a: System, at: nat): System {
    if at < |a.credits| then RankingStep(a, LoseCredit(at)) else a
  }

  /**
    The process of a credit ends, or the ranking store fails, before it is written, and nothing else is
    pending for its scope: the scope is counted right if and only if the run is not ranked there, or
    is stored already.
  */
  lemma LostCreditIff(a: System, at: nat, c: Credit)
    requires at < |a.credits| && a.credits[at] == c && Quiet(CreditLost(a, at), CreditScope(c))
    requires Recomputation(a.q, CreditScope(c)).Ok? && Sound(a) && Cached(a)
    ensures Faithful(CreditLost(a, at), CreditScope(c))
       <==> !Elig(a.q, CreditScope(c), c.s.runID) || c.s.runID in StandingAt(a.standings, CreditScope(c)).runs
  {
    hide Recomputation, NormalizeScope, Eligible, Terminals, Line, Lifecycle, JobsKnown, Filed, Indexed, Officials, Exempt;
    hide SameStanding, Shape, Quiet, Cached, AllBuilt, StandingAt, Dropped;
    NormalizeScopeTwice(c.summary.game);
    SoundTerminals(a);
    LostVerdict(a, at, c, CreditScope(c));
  }

  lemma LostVerdict(a: System, at: nat, c: Credit, scope: GameKey)
    requires at < |a.credits| && a.credits[at] == c && Quiet(CreditLost(a, at), scope) && scope == CreditScope(c)
    requires Recomputation(a.q, scope).Ok? && Terminals(a.q) && scope == NormalizeScope(scope) && Sound(a) && Cached(a)
    ensures Faithful(a, scope)
       <==> !Elig(a.q, scope, c.s.runID) || c.s.runID in StandingAt(a.standings, scope).runs
  {
    hide Recomputation, NormalizeScope, Eligible, Terminals, Line, Lifecycle, JobsKnown, Filed, Indexed, Officials;
    hide SameStanding, Shape, Quiet, Cached, AllBuilt, StandingAt, CreditLost, CreditScope;
    var st, rec := StandingAt(a.standings, scope), Recomputation(a.q, scope).value;
    RecomputedShape(a.q, scope);
    ShapeIsBuilt(a.q, rec, scope);
    OneCreditLeft(a, at, c, scope);
    if !Elig(a.q, scope, c.s.runID) || c.s.runID in st.runs {
      SameRunsStanding(a.q, st, rec);
    } else if SameStanding(st, rec) {
      SelfStanding(st);
      SameStandingRuns(st, st, rec);
    }
  }

  lemma OthersElsewhere(a: System, at: nat, scope: GameKey)
    requires at < |a.credits| && Quiet(CreditLost(a, at), scope)
    ensures forall i | 0 <= i < |a.credits| && i != at :: CreditScope(a.credits[i]) != scope
    ensures !Exempt(a.refreshes, a.files, scope) && forall k :: !CountOpen(a.refreshes, k, scope)
  {
    hide CreditScope, Exempt, CountOpen;
    var rest := Dropped(a.credits, at);
    forall i | 0 <= i < |a.credits| && i != at ensures CreditScope(a.credits[i]) != scope {
      assert rest[if i < at then i else i - 1] == a.credits[i];
    }
  }

  lemma OneCreditLeft(a: System, at: nat, c: Credit, scope: GameKey)
    requires at < |a.credits| && a.credits[at] == c && Quiet(CreditLost(a, at), scope) && scope == CreditScope(c)
    requires AllBuilt(a.q, scope) && Sound(a) && Cached(a)
    ensures var st := StandingAt(a.standings, scope);
            && Shape(a.q, st) && (forall other | other in st.runs :: Elig(a.q, scope, other))
            && (forall other :: other in st.runs || other == c.s.runID || !Elig(a.q, scope, other))
  {
    hide NormalizeScope, Eligible, Line, Lifecycle, JobsKnown, Filed, Indexed, Officials, Exempt, Live, Built, StandingAt;
    hide Shape, Stored, Apart, CountOpen, AllBuilt, Proper, CreditedRecord, CreditScope, HasBotIdentity, Owed, CreditLost, Quiet;
    OthersElsewhere(a, at, scope);
    assert InStep(a, scope);
    StoredScope(a.standings, scope);
    forall id | Elig(a.q, scope, id) && Expected(a.q, a.credits, id) ensures id == c.s.runID {
      var i :| 0 <= i < |a.credits| && a.credits[i].s.runID == id;
      IdleCredit(a.q, a.credits, i, StandingAt(a.standings, scope), scope, id);
    }
  }

  // A promotion whose refresh is lost.
  ghost function PromotedOnly(a: System, runID: Id): System
    requires Promotable(a, runID)
  {
    PromoteStep(a, Action.Promote(runID));
    RankingStep(Step(a, Action.Promote(runID)), LoseRefresh(|a.refreshes|))
  }

  lemma PromotedOnlyIs(a: System, runID: Id)
    requires Promotable(a, runID)
    ensures PromotedOnly(a, runID) == a.(q := Promoted(a.q, runID).value)
  {
    hide Promoted, Sound, Terminals, Stored;
    PromoteStep(a, Action.Promote(runID));
    PromoteLeaves(a, runID);
    DropLast(a.refreshes, Awaited(runID));
  }

  /**
    The process of a promotion ends before its refresh is written: the promoted scope, counted right
    before, is counted right still if and only if the promotion ranked and demoted nothing there.
  */
  lemma LostRefreshIff(a: System, runID: Id)
    requires Promotable(a, runID) && Faithful(a, OwnScope(a.q, runID)) && Recomputation(a.q, OwnScope(a.q, runID)).Ok?
    requires Recomputation(Promoted(a.q, runID).value, OwnScope(a.q, runID)).Ok? && runID in a.q.records
    ensures Faithful(PromotedOnly(a, runID), OwnScope(a.q, runID))
       <==> && (HasBotIdentity(a.q.records[runID].submission) ==> a.q.records[runID].submission.official)
            && forall id | Demotes(a.q, runID, id) :: !Elig(a.q, OwnScope(a.q, runID), id)
  {
    hide Recomputation, NormalizeScope, Eligible, Terminals, Line, Lifecycle, JobsKnown, Filed, Indexed, Officials, Promoted;
    hide SameStanding, Shape, Stored, StandingAt, Demotes, OwnScope, HasBotIdentity, Alike, PromotedOnly;
    var q, q', own := a.q, Promoted(a.q, runID).value, OwnScope(a.q, runID);
    RefreshedState(a, runID);
    PromotedOnlyIs(a, runID);
    RankedAtHome(q, runID);
    SameRankedIff(q, q', own, StandingAt(a.standings, own));
  }

  lemma RankedAtHome(q: Queue, runID: Id)
    requires Promoted(q, runID).Ok? && Terminals(q) && Officials(q)
    ensures var q', own := Promoted(q, runID).value, OwnScope(q, runID);
            && (forall id | id != runID :: Elig(q', own, id) <==> Elig(q, own, id) && !Demotes(q, runID, id))
            && (Elig(q', own, runID) <==> HasBotIdentity(q.records[runID].submission))
            && (Elig(q, own, runID) <==> HasBotIdentity(q.records[runID].submission) && q.records[runID].submission.official)
            && (forall id | Elig(q, own, id) && Elig(q', own, id) :: Alike(q.records[id], q'.records[id]))
            && !Demotes(q, runID, runID)
  {
    hide NormalizeScope, HasBotIdentity, Alike;
    var q', own := Promoted(q, runID).value, OwnScope(q, runID);
    forall id | id in q.records ensures HasBotIdentity(q'.records[id].submission) <==> HasBotIdentity(q.records[id].submission) {
      SameRunFields(q.records[id].submission, q'.records[id].submission);
    }
    forall id | Elig(q, own, id) && Elig(q', own, id) ensures Alike(q.records[id], q'.records[id]) {
      SameTerminalAlike(q.records[id], q'.records[id]);
    }
  }

  // ----- A second completion of a ranked run -----

  lemma CountsGivePoints(
      a: Table, points: multiset<(Id, int)>, bots: multiset<Id>, b: Table, points': multiset<(Id, int)>, bots': multiset<Id>)
    requires Counts(a, points, bots) && Counts(b, points', bots') && SameCounts(a, b)
    ensures points == points'
  {
    forall x: (Id, int) ensures points[x] == points'[x] {
      var (bot, place) := x;
      if bot in a {
        assert EntryCounts(a[bot], bot, points, bots[bot]) && EntryCounts(b[bot], bot, points', bots'[bot]);
        assert place in a[bot].placementCounts <==> points[(bot, place)] > 0;
      } else {
        assert bots[bot] == 0 && bots'[bot] == 0;
      }
    }
  }

  // Two queues that differ in one run: their recomputed standings count the same only when that
  // run's placements are the same.
  lemma OneRunApart(q: Queue, q': Queue, st: Standing, st': Standing, id: Id)
    requires id in st.runs && id in q.records && id in q'.records
    requires Shape(q, st) && Shape(q', st') && SameStanding(st, st')
    requires forall other | other in st.runs && other != id ::
               other in q.records && other in q'.records && q'.records[other] == q.records[other]
    ensures Points(UpdateOf(q.records[id]).placements) == Points(UpdateOf(q'.records[id]).placements)
  {
    hide Shape, UpdateOf, UpdatesOf, SameStanding, Total, Points, Distinct;
    ShapeTotals(q, st);
    SamePoints(q, q', st, st');
    PointsApart(q, q', st.runs, id);
  }

  lemma SamePoints(q: Queue, q': Queue, st: Standing, st': Standing)
    requires Shape(q, st) && Shape(q', st') && SameStanding(st, st')
    ensures Total(UpdatesOf(q, st.runs)).points == Total(UpdatesOf(q', st.runs)).points
  {
    hide Shape, Counts, UpdatesOf, SameCounts, Total, Distinct;
    ShapeTotals(q, st);
    ShapeTotals(q', st');
    SameRunsSameUpdates(q', st.runs, st'.runs);
    TotalIsOrderFree(UpdatesOf(q', st.runs), UpdatesOf(q', st'.runs));
    CountsGivePoints(st.table, Total(UpdatesOf(q, st.runs)).points, Total(UpdatesOf(q, st.runs)).bots,
                     st'.table, Total(UpdatesOf(q', st'.runs)).points, Total(UpdatesOf(q', st'.runs)).bots);
  }

  lemma PointsApart(q: Queue, q': Queue, runs: seq<Id>, id: Id)
    requires Distinct(runs) && id in runs && id in q.records && id in q'.records
    requires forall other | other in runs && other != id ::
               other in q.records && other in q'.records && q'.records[other] == q.records[other]
    requires Total(UpdatesOf(q, runs)).points == Total(UpdatesOf(q', runs)).points
    ensures Points(UpdateOf(q.records[id]).placements) == Points(UpdateOf(q'.records[id]).placements)
  {
    hide UpdateOf, UpdatesOf, Total, Points, Distinct;
    var i :| 0 <= i < |runs| && runs[i] == id;
    var left, right := runs[..i], runs[i + 1..];
    assert runs == left + [id] + right;
    OthersUpdates(q, q', runs, i);
    SplitPoints(q, left, id, right);
    SplitPoints(q', left, id, right);
    CancelPoints(Total(UpdatesOf(q, left + right)).points, Points(UpdateOf(q.records[id]).placements),
                 Points(UpdateOf(q'.records[id]).placements));
  }

  lemma ShapeTotals(q: Queue, st: Standing)
    requires Shape(q, st)
    ensures Distinct(st.runs) && forall id | id in st.runs :: id in q.records
    ensures Counts(st.table, Total(UpdatesOf(q, st.runs)).points, Total(UpdatesOf(q, st.runs)).bots)
  {
    hide Counts, UpdatesOf, Total, RunsOf, MatchesOf, Built, Distinct;
  }

  lemma OthersUpdates(q: Queue, q': Queue, runs: seq<Id>, i: nat)
    requires i < |runs| && Distinct(runs)
    requires forall other | other in runs && other != runs[i] ::
               other in q.records && other in q'.records && q'.records[other] == q.records[other]
    ensures UpdatesOf(q, runs[..i] + runs[i + 1..]) == UpdatesOf(q', runs[..i] + runs[i + 1..])
  {
    hide UpdateOf;
    var rest := runs[..i] + runs[i + 1..];
    forall k | 0 <= k < |rest| ensures rest[k] in runs && rest[k] != runs[i] {
      var at := if k < i then k else k + 1;
      assert rest[k] == runs[at];
      DistinctAt(runs, if at < i then at else i, if at < i then i else at);
    }
  }

  lemma SplitPoints(q: Queue, left: seq<Id>, id: Id, right: seq<Id>)
    requires id in q.records
    ensures Total(UpdatesOf(q, left + [id] + right)).points
         == Total(UpdatesOf(q, left + right)).points + Points(UpdateOf(q.records[id]).placements)
  {
    hide UpdateOf, Points, Bots, Total;
    UpdatesSplit(q, left, id, right);
    TotalWithout(UpdatesOf(q, left), UpdateOf(q.records[id]), UpdatesOf(q, right));
    assert UpdatesOf(q, [id]) == [UpdateOf(q.records[id])];
  }

  lemma CancelPoints(a: multiset<(Id, int)>, b: multiset<(Id, int)>, c: multiset<(Id, int)>)
    requires a + b == a + c
    ensures b == c
  {
    assert b == a + b - a && c == a + c - a;
  }

  // A pass that works on a run which is completed and ranked already.
  ghost predicate Repeats(a: System, job: Id, scope: GameKey) {
    && Sound(a) && Stored(a.standings) && job in a.jobs && a.jobs[job].state.Persisting?
    && Elig(a.q, scope, a.jobs[job].submission.runID)
  }

  // The summary ranks the run in the same scope, at the same places.
  ghost predicate CountsAlike(r: QueueRecord, summary: Summary, scope: GameKey) {
    && NormalizeScope(summary.game) == scope
    && var second := BuiltUpdate(r.submission, summary);
       second.Err? || Points(second.value.placements) == Points(UpdateOf(r).placements)
  }

  /**
    A pass that lost its lease persists its summary over that of a run which is completed and ranked:
    the scope, counted right before, is counted right still if and only if the summary ranks the run
    in the same scope at the same places (or cannot be ranked, so that a recompute fails).
  */
  lemma SecondPersistIff(a: System, job: Id, summary: Summary, scope: GameKey)
    requires Repeats(a, job, scope) && scope == NormalizeScope(scope) && Allowed(a, Persist(job, summary))
    requires Recomputation(a.q, scope).Ok? && Faithful(a, scope) && a.jobs[job].submission.runID in a.q.records
    ensures Faithful(Step(a, Persist(job, summary)), scope)
       <==> CountsAlike(a.q.records[a.jobs[job].submission.runID], summary, scope)
  {
    hide StandingAt, Stored, Terminals, Line, Lifecycle, JobsKnown, Filed, Eligible, Refiled, Step, Repeats;
    hide Recomputation, NormalizeScope, Shape, SameStanding, BuiltUpdate, Points, AllBuilt, UpdateOf, Built, Indexed, Officials;
    var id, after := a.jobs[job].submission.runID, Step(a, Persist(job, summary));
    PersistedState(a, job, summary, scope);
    RepeatsSound(a, job, scope);
    SoundTerminals(a);
    StepKeepsSound(a, Persist(job, summary));
    SoundTerminals(after);
    RecomputedShape(a.q, scope);
    RecomputedShape(after.q, scope);
    ShapeIsBuilt(a.q, Recomputation(a.q, scope).value, scope);
    NamedScope(a.q, scope);
    RefiledRanked(a.q, after.q, id, summary, scope);
    RepeatedVerdict(a.q, after.q, id, StandingAt(a.standings, scope), Recomputation(a.q, scope).value, scope, summary);
  }

  lemma RepeatsSound(a: System, job: Id, scope: GameKey)
    requires Repeats(a, job, scope)
    ensures Sound(a) && Stored(a.standings) && job in a.jobs && Elig(a.q, scope, a.jobs[job].submission.runID)
  {
  }

  // Only the summary of the run changes.
  ghost predicate OneSummary(q: Queue, q': Queue, id: Id, summary: Summary) {
    && id in q.records && q'.records.Keys == q.records.Keys && q.records[id].state.Completed?
    && (forall other | other in q.records && other != id :: q'.records[other] == q.records[other])
    && q'.records[id] == q.records[id].(terminal := Some(summary))
    && q.records[id].terminal.Some? && q.records[id].terminal.value.matchID == summary.matchID
  }

  lemma PersistedState(a: System, job: Id, summary: Summary, scope: GameKey)
    requires Repeats(a, job, scope) && Allowed(a, Persist(job, summary))
    ensures var after, id := Step(a, Persist(job, summary)), a.jobs[job].submission.runID;
            && OneSummary(a.q, after.q, id, summary)
            && after.standings == a.standings && after.jobs == a.jobs && after.credits == a.credits
            && after.refreshes == a.refreshes
            && job in after.results && after.results[job] == summary && id in after.files && after.files[id] == summary
  {
    hide NormalizeScope, HasBotIdentity, Indexed, Line, Lifecycle, Officials, RankingAllowed, RankingStep;
    var s := a.jobs[job].submission;
    JobKnown(a.q, a.jobs, job);
    SameRunFields(s, a.q.records[s.runID].submission);
  }

  lemma RefiledRanked(q: Queue, q': Queue, id: Id, summary: Summary, scope: GameKey)
    requires OneSummary(q, q', id, summary) && Elig(q, scope, id)
    ensures forall other | other != id :: Elig(q', scope, other) <==> Elig(q, scope, other)
    ensures Elig(q', scope, id) <==> NormalizeScope(summary.game) == scope
    ensures SameRun(q'.records[id].submission, q.records[id].submission)
    ensures var s, r := q.records[id].submission, q'.records[id];
            && (Built(r) <==> BuiltUpdate(s, summary).Ok?)
            && (Built(r) ==> UpdateOf(r) == BuiltUpdate(s, summary).value)
  {
    hide NormalizeScope, HasBotIdentity, BuiltUpdate;
  }

  // The completion of a pass with the credit that follows.
  ghost function Concluded(a: System, job: Id, now: int): System
    requires Allowed(a, Complete(job, now))
  {
    var b := Step(a, Complete(job, now));
    if |b.credits| == |a.credits| + 1 && b.credits[|a.credits|].read.None? then CreditedAt(b, |a.credits|) else b
  }

  // The pass persists and completes, with the credit that follows.
  ghost function Repeated(a: System, job: Id, summary: Summary, now: int): System
    requires Allowed(a, Persist(job, summary))
  {
    Concluded(Step(a, Persist(job, summary)), job, now)
  }

  // The second summary ranks the run alike, and leaves it official.
  ghost predicate ReportsAlike(r: QueueRecord, summary: Summary, scope: GameKey) {
    summary.status.MatchCompleted? && !r.submission.runKind.Rerun? && CountsAlike(r, summary, scope)
  }

  // What the completion finds, right after its pass has persisted.
  ghost predicate Persisted(p: System, job: Id, id: Id, summary: Summary) {
    && Sound(p) && Stored(p.standings) && job in p.jobs && p.jobs[job].state.Persisting?
    && job in p.results && p.results[job] == summary
    && p.jobs[job].submission.runID == id && id in p.q.records && p.q.records[id].state.Completed?
    && p.q.records[id].submission.official && id in p.files && p.files[id] == summary
  }

  lemma RepeatedRecord(p: System, job: Id, id: Id, summary: Summary, now: int)
    requires Persisted(p, job, id, summary)
    ensures var q' := Completion(p.q, p.jobs[job], summary, p.files, now);
            && q'.Ok? && Completes(p.q, q'.value, p.jobs[job], summary, p.files)
            && (q'.value.records[id].submission.official <==>
                  summary.status.MatchCompleted? && !p.q.records[id].submission.runKind.Rerun?)
  {
    hide NormalizeScope, HasBotIdentity, AutoPromotes, Indexed, Line, Lifecycle, Filed;
    var s := p.jobs[job].submission;
    CompletingNow(p, Complete(job, now));
    SameRunFields(s, p.q.records[s.runID].submission);
    OnlyOfficial(p.q, s);
  }

  lemma OnlyOfficial(q: Queue, s: Submission)
    requires Officials(q) && Indexed(q) && s.runID in q.records && q.records[s.runID].submission.official
    requires q.records[s.runID].submission.matchID == s.matchID
    ensures AutoPromotes(q.records, s) <==> !s.runKind.Rerun?
  {
  }

  lemma RepeatedState(p: System, job: Id, id: Id, summary: Summary, now: int, scope: GameKey)
    requires Persisted(p, job, id, summary) && id in StandingAt(p.standings, scope).runs
    ensures var after := Concluded(p, job, now);
            && after.q == Completion(p.q, p.jobs[job], summary, p.files, now).value
            && Indexed(after.q) && Officials(after.q) && Terminals(after.q)
            && StandingAt(after.standings, scope) == StandingAt(p.standings, scope)
            && after.credits == p.credits && after.refreshes == p.refreshes
  {
    hide Finished, Completion, Completes, StandingAt, Stored, Sound, Step, CreditedAt, CreditRun, NormalizeScope;
    hide HasBotIdentity;
    var act := Complete(job, now);
    RepeatedRecord(p, job, id, summary, now);
    CompleteStep(p, act);
    var b := Step(p, act);
    StepKeepsSound(p, act);
    SoundTerminals(b);
    SoundQueues(b);
    if b.credits != p.credits {
      CompletesSubmission(p.q, b.q, p.jobs[job], summary, p.files);
      var c := b.credits[|p.credits|];
      CreditedAtIs(b, |p.credits|);
      CreditKnown(b.standings, c, scope);
      DropLast(p.credits, c);
    }
  }

  lemma SoundQueues(a: System)
    requires Sound(a)
    ensures Indexed(a.q) && Officials(a.q)
  {
  }

  lemma CompletesSubmission(q: Queue, q': Queue, job: QueueRecord, summary: Summary, files: map<Id, Summary>)
    requires Completes(q, q', job, summary, files)
    ensures Finished(job, summary, q.records).submission.runID == job.submission.runID
  {
  }

  // A credit of a stored run changes nothing there.
  lemma CreditKnown(standings: Standings, c: Credit, scope: GameKey)
    requires Stored(standings) && c.s.official && c.s.runID in StandingAt(standings, scope).runs
    ensures StandingAt(CreditRun(standings, c.s, c.summary).0, scope) == StandingAt(standings, scope)
  {
    hide NormalizeScope, HasBotIdentity, BuiltUpdate, NormalizeTable, TallyAll, Stored, StandingAt, CreditRun;
    if Live(c) && Built(CreditedRecord(c)) {
      RunStored(standings, c);
      RunsUpdate(CreditedRecord(c));
    } else {
      IdleRun(standings, c);
    }
  }

  lemma RepeatedRanked(
      q: Queue, p: Queue, q': Queue, job: QueueRecord, summary: Summary, files: map<Id, Summary>, scope: GameKey)
    requires OneSummary(q, p, job.submission.runID, summary) && Completes(p, q', job, summary, files)
    requires Elig(q, scope, job.submission.runID) && files[job.submission.runID] == summary
    ensures var id := job.submission.runID;
            && q'.records.Keys == q.records.Keys && q'.records[id].terminal == Some(summary)
            && (forall other | other in q.records && other != id :: q'.records[other] == q.records[other])
            && SameRun(q'.records[id].submission, q.records[id].submission)
            && (forall other | other != id :: Elig(q', scope, other) <==> Elig(q, scope, other))
            && (Elig(q', scope, id) <==> q'.records[id].submission.official && NormalizeScope(summary.game) == scope)
    ensures var s, r := q.records[job.submission.runID].submission, q'.records[job.submission.runID];
            && (Built(r) <==> BuiltUpdate(s, summary).Ok?)
            && (Built(r) ==> UpdateOf(r) == BuiltUpdate(s, summary).value)
  {
    hide NormalizeScope, HasBotIdentity, AutoPromotes, Finished, BuiltUpdate;
    var id := job.submission.runID;
    var s, r := q.records[id].submission, q'.records[id];
    SameRunTwice(r.submission, job.submission, s);
    SameRunFields(r.submission, s);
    SameRunBuilds(r, QueueRecord(s, Completed, None, None, Some(summary)));
  }

  /**
    A completed, ranked run is persisted and completed once more by a pass that lost its lease, and
    credited again: the scope, counted right before, is counted right if and only if the second summary
    leaves the run official and ranks it in the same scope at the same places (or cannot be ranked).
  */
  lemma SecondPassIff(a: System, job: Id, summary: Summary, now: int, scope: GameKey)
    requires Repeats(a, job, scope) && scope == NormalizeScope(scope) && Allowed(a, Persist(job, summary))
    requires Recomputation(a.q, scope).Ok? && Faithful(a, scope) && a.jobs[job].submission.runID in a.q.records
    ensures Repeated(a, job, summary, now).credits == a.credits
    ensures Repeated(a, job, summary, now).refreshes == a.refreshes
    ensures Faithful(Repeated(a, job, summary, now), scope)
       <==> ReportsAlike(a.q.records[a.jobs[job].submission.runID], summary, scope)
  {
    hide StandingAt, Stored, Terminals, Line, Lifecycle, JobsKnown, Filed, Eligible, Refiled, Step, Repeats, CreditedAt;
    hide Recomputation, NormalizeScope, Shape, SameStanding, BuiltUpdate, Points, AllBuilt, UpdateOf, Built, Indexed, Officials;
    hide Completion, Completes, Sound, Persisted, OneSummary;
    var id, p := a.jobs[job].submission.runID, Step(a, Persist(job, summary));
    PersistedReady(a, job, summary, scope);
    RepeatsSound(a, job, scope);
    SoundTerminals(a);
    SoundQueues(a);
    RecomputedShape(a.q, scope);
    ShapeIsBuilt(a.q, Recomputation(a.q, scope).value, scope);
    var st, rec := StandingAt(a.standings, scope), Recomputation(a.q, scope).value;
    NamedScope(a.q, scope);
    SameStandingHas(st, rec, id);
    PersistedFile(p, job, id, summary);
    RepeatedRecord(p, job, id, summary, now);
    RepeatedState(p, job, id, summary, now, scope);
    var after := Repeated(a, job, summary, now);
    RepeatedRanked(a.q, p.q, after.q, p.jobs[job], summary, p.files, scope);
    RecomputedShape(after.q, scope);
    SummaryAgrees(a.q, p.q, id, summary);
    RepeatedVerdict(a.q, after.q, id, st, rec, scope, summary);
  }

  lemma PersistedFile(p: System, job: Id, id: Id, summary: Summary)
    requires Persisted(p, job, id, summary)
    ensures id in p.files && p.files[id] == summary && job in p.jobs && p.jobs[job].submission.runID == id
  {
  }

  lemma SummaryAgrees(q: Queue, p: Queue, id: Id, summary: Summary)
    requires OneSummary(q, p, id, summary)
    ensures q.records[id].terminal.Some? && q.records[id].terminal.value.matchID == summary.matchID
    ensures p.records[id].submission == q.records[id].submission
  {
  }

  lemma PersistedReady(a: System, job: Id, summary: Summary, scope: GameKey)
    requires Repeats(a, job, scope) && Allowed(a, Persist(job, summary))
    ensures var p, id := Step(a, Persist(job, summary)), a.jobs[job].submission.runID;
            && Persisted(p, job, id, summary) && OneSummary(a.q, p.q, id, summary)
            && p.standings == a.standings && p.jobs == a.jobs && p.credits == a.credits && p.refreshes == a.refreshes
  {
    hide Sound, Stored, Step, NormalizeScope, HasBotIdentity;
    PersistedState(a, job, summary, scope);
    StepKeepsSound(a, Persist(job, summary));
  }

  lemma SameStandingHas(st: Standing, rec: Standing, id: Id)
    requires SameStanding(st, rec) && id in rec.runs
    ensures id in st.runs
  {
    assert id in multiset(rec.runs);
  }

  // ----- A completion that credits what its file does not hold -----

  // The pass wins the match of a run that nobody has completed, and its own summary can be credited.
  ghost predicate WinsMatch(a: System, job: Id, id: Id, own: Summary, filed: Summary) {
    && job in a.jobs && job in a.results && a.jobs[job].state.Persisting? && a.results[job] == own
    && a.jobs[job].submission.runID == id && id in a.q.records && a.q.records[id].state.Persisting?
    && id in a.files && a.files[id] == filed && own.status.MatchCompleted?
    && AutoPromotes(a.q.records, a.jobs[job].submission)
    && HasBotIdentity(a.jobs[job].submission) && BuiltUpdate(a.jobs[job].submission, own).Ok?
  }

  /**
    Another pass of the run has written its summary file in between: the scope that is credited, counted
    right before, is counted right if and only if the file ranks the run in that scope at the places
    that are credited, or cannot be ranked.
  */
  lemma FiledOtherwiseIff(a: System, job: Id, now: int, id: Id, own: Summary, filed: Summary)
    requires WinsMatch(a, job, id, own, filed) && Quiet(a, NormalizeScope(own.game)) && Allowed(a, Complete(job, now))
    requires Recomputation(a.q, NormalizeScope(own.game)).Ok? && Sound(a) && Cached(a)
    ensures Faithful(Concluded(a, job, now), NormalizeScope(own.game))
       <==> && NormalizeScope(filed.game) == NormalizeScope(own.game)
            && var s := a.jobs[job].submission;
               BuiltUpdate(s, filed).Err?
               || Points(BuiltUpdate(s, filed).value.placements) == Points(BuiltUpdate(s, own).value.placements)
  {
    hide Recomputation, NormalizeScope, Terminals, Quiet, Cached, Sound, WinsMatch, Concluded, Shape, AllBuilt, StandingAt, Points;
    hide BuiltUpdate, Eligible, SameStanding, Indexed, Officials, UpdateOf, Built, Allowed;
    var scope, after := NormalizeScope(own.game), Concluded(a, job, now);
    NormalizeScopeTwice(own.game);
    QuietShape(a, scope);
    ConcludedState(a, job, now, id, own, filed);
    var q2 := CreditedQueue(after.q, id, own);
    WinsRecords(a, after.q, job, id, own, filed);
    WinsBuilds(a, after.q, job, id, own, filed);
    NewRunShape(a.q, q2, StandingAt(a.standings, scope), scope, id);
    NamedScope(a.q, scope);
    var st := Applied(StandingAt(a.standings, scope), UpdateOf(q2.records[id]));
    SelfStanding(st);
    RecomputedShape(after.q, scope);
    RefiledRanked(q2, after.q, id, filed, scope);
    RepeatedVerdict(q2, after.q, id, st, st, scope, filed);
  }

  // The queue as it would be had the file held what is credited.
  function CreditedQueue(q: Queue, id: Id, own: Summary): Queue {
    if id in q.records then q.(records := q.records[id := q.records[id].(terminal := Some(own))]) else q
  }

  lemma ConcludedState(a: System, job: Id, now: int, id: Id, own: Summary, filed: Summary)
    requires WinsMatch(a, job, id, own, filed) && Allowed(a, Complete(job, now)) && Sound(a) && Stored(a.standings)
    ensures var after, scope := Concluded(a, job, now), NormalizeScope(own.game);
            var q2 := CreditedQueue(after.q, id, own);
            && Indexed(after.q) && Officials(after.q) && Terminals(after.q)
            && Completes(a.q, after.q, a.jobs[job], own, a.files) && after.q.records[id].submission.official
            && Built(q2.records[id])
            && StandingAt(after.standings, scope) == Applied(StandingAt(a.standings, scope), UpdateOf(q2.records[id]))
  {
    hide Completion, StandingAt, Stored, Sound, Step, CreditedAt, CreditRun, NormalizeScope, HasBotIdentity, Applied;
    hide BuiltUpdate, AutoPromotes, Indexed, Officials, Terminals;
    var act := Complete(job, now);
    WinsCompletion(a, job, now, id, own, filed);
    CompleteStep(a, act);
    var b := Step(a, act);
    StepKeepsSound(a, act);
    SoundTerminals(b);
    SoundQueues(b);
    var c := b.credits[|a.credits|];
    CreditedAtIs(b, |a.credits|);
    RunStored(b.standings, c);
    WinsUpdate(a, b.q, job, id, own, filed);
  }

  lemma WinsCompletion(a: System, job: Id, now: int, id: Id, own: Summary, filed: Summary)
    requires WinsMatch(a, job, id, own, filed) && Allowed(a, Complete(job, now)) && Sound(a)
    ensures var r := Completion(a.q, a.jobs[job], own, a.files, now);
            && r.Ok? && Completes(a.q, r.value, a.jobs[job], own, a.files)
            && Finished(a.jobs[job], own, a.q.records).submission.official
    ensures var c := Credit(Finished(a.jobs[job], own, a.q.records).submission, own, None);
            Live(c) && Built(CreditedRecord(c))
  {
    hide NormalizeScope, HasBotIdentity, AutoPromotes, Indexed, Line, Lifecycle, Filed, Officials, BuiltUpdate, RankingAllowed;
    var s, next := a.jobs[job].submission, Finished(a.jobs[job], own, a.q.records);
    assert Completion(a.q, a.jobs[job], own, a.files, now).Ok?;
    CompletingNow(a, Complete(job, now));
    SameRunFields(next.submission, s);
    SameRunBuilds(QueueRecord(s, Completed, None, None, Some(own)),
                  CreditedRecord(Credit(next.submission, own, None)));
  }

  lemma WinsUpdate(a: System, q': Queue, job: Id, id: Id, own: Summary, filed: Summary)
    requires WinsMatch(a, job, id, own, filed) && Completes(a.q, q', a.jobs[job], own, a.files)
    ensures var c, r := Credit(Finished(a.jobs[job], own, a.q.records).submission, own, None),
                        CreditedQueue(q', id, own).records[id];
            (Built(CreditedRecord(c)) <==> Built(r)) && UpdateOf(CreditedRecord(c)) == UpdateOf(r)
  {
    hide NormalizeScope, HasBotIdentity, AutoPromotes, BuiltUpdate;
    SelfRun(Finished(a.jobs[job], own, a.q.records).submission);
    SameRunBuilds(CreditedRecord(Credit(Finished(a.jobs[job], own, a.q.records).submission, own, None)),
                  CreditedQueue(q', id, own).records[id]);
  }

  lemma QuietShape(a: System, scope: GameKey)
    requires Quiet(a, scope) && scope == NormalizeScope(scope) && Recomputation(a.q, scope).Ok? && Sound(a) && Cached(a)
    ensures var st := StandingAt(a.standings, scope);
            && Shape(a.q, st) && st.scope == scope && forall id :: id in st.runs <==> Elig(a.q, scope, id)
    ensures Stored(a.standings) && Indexed(a.q) && Officials(a.q) && Terminals(a.q)
  {
    hide NormalizeScope, Eligible, Line, Lifecycle, JobsKnown, Filed, Indexed, Officials, Exempt, StandingAt, Recomputation;
    hide Shape, Stored, Apart, CountOpen, AllBuilt, Proper, Owed, Expected, Terminals;
    SoundTerminals(a);
    StoredScope(a.standings, scope);
    RecomputedShape(a.q, scope);
    ShapeIsBuilt(a.q, Recomputation(a.q, scope).value, scope);
    assert InStep(a, scope);
    forall id | Elig(a.q, scope, id) ensures !Expected(a.q, a.credits, id) { QuietExpectsNothing(a, scope, id); }
  }

  lemma WinsRecords(a: System, q': Queue, job: Id, id: Id, own: Summary, filed: Summary)
    requires WinsMatch(a, job, id, own, filed) && Completes(a.q, q', a.jobs[job], own, a.files) && Indexed(a.q) && Terminals(a.q)
    requires q'.records[id].submission.official && Indexed(q')
    ensures var q2, scope := CreditedQueue(q', id, own), NormalizeScope(own.game);
            && q2.records.Keys == a.q.records.Keys && OneSummary(q2, q', id, filed)
            && (forall other | other in a.q.records && other != id :: q2.records[other] == a.q.records[other])
            && !a.q.records[id].state.Completed? && Elig(q2, scope, id) && q2.records[id].submission.runID == id
            && q2.records[id].terminal.value.matchID == q2.records[id].submission.matchID
            && (forall other | Elig(a.q, scope, other) ::
                  a.q.records[other].submission.matchID != q2.records[id].submission.matchID)
  {
    hide NormalizeScope, HasBotIdentity, AutoPromotes, BuiltUpdate, Terminals, Finished;
    var q2, s, scope := CreditedQueue(q', id, own), a.jobs[job].submission, NormalizeScope(own.game);
    SameRunFields(q2.records[id].submission, s);
    forall other | Elig(a.q, scope, other)
      ensures a.q.records[other].submission.matchID != q2.records[id].submission.matchID
    {
      if a.q.records[other].submission.matchID == s.matchID { Unopposed(a.q, s, scope, other); }
    }
  }

  lemma WinsBuilds(a: System, q': Queue, job: Id, id: Id, own: Summary, filed: Summary)
    requires WinsMatch(a, job, id, own, filed) && Completes(a.q, q', a.jobs[job], own, a.files)
    ensures var r, s := CreditedQueue(q', id, own).records[id], a.jobs[job].submission;
            && Built(r) && UpdateOf(r) == BuiltUpdate(s, own).value
            && BuiltUpdate(r.submission, filed) == BuiltUpdate(s, filed)
  {
    hide NormalizeScope, HasBotIdentity, AutoPromotes, RankPlacements, PlayersByID, Id.Blank, Finished;
    var r, s := CreditedQueue(q', id, own).records[id], a.jobs[job].submission;
    SameRunFields(r.submission, s);
    SameRunBuilds(r, QueueRecord(s, Completed, None, None, Some(own)));
  }

  // A newly ranked run of a new match joins a standing that adds up.
  lemma NewRunShape(q: Queue, q2: Queue, st: Standing, scope: GameKey, id: Id)
    requires Shape(q, st) && Terminals(q) && forall other :: other in st.runs <==> Elig(q, scope, other)
    requires id in q.records && id in q2.records && q2.records.Keys == q.records.Keys && !q.records[id].state.Completed?
    requires forall other | other in q.records && other != id :: q2.records[other] == q.records[other]
    requires Elig(q2, scope, id) && Built(q2.records[id]) && q2.records[id].submission.runID == id
    requires q2.records[id].terminal.Some? && q2.records[id].terminal.value.matchID == q2.records[id].submission.matchID
    requires forall other | Elig(q, scope, other) ::
               q.records[other].submission.matchID != q2.records[id].submission.matchID
    ensures var st' := Applied(st, UpdateOf(q2.records[id]));
            && Shape(q2, st') && (forall other :: other in st'.runs <==> Elig(q2, scope, other)) && AllBuilt(q2, scope)
  {
    hide Shape, Terminals, NormalizeScope, HasBotIdentity, Built, UpdateOf, Alike;
    var u := UpdateOf(q2.records[id]);
    RunsUpdate(q2.records[id]);
    StoredMatches(q, st, u.matchID);
    forall other | other in st.runs ensures Settles(q2, other) && Alike(q.records[other], q2.records[other]) {
      assert Elig(q, scope, other);
      ShapeSettles(q, st, other);
      EligAlike(q, scope, other);
    }
    AlikeShape(q, q2, st);
    EligSettles(q2, scope, id);
    assert UpdatesAlike(u, u) by { UpdateSelf(u); }
    AppliedShape(q2, st, id, u);
    hide Applied, UpdatesAlike;
    ShapeIsBuilt(q2, Applied(st, u), scope);
  }

  lemma ShapeSettles(q: Queue, st: Standing, id: Id)
    requires Shape(q, st) && id in st.runs
    ensures Settles(q, id)
  {
    hide Holds;
  }

  lemma RepeatedVerdict(q: Queue, q': Queue, id: Id, st: Standing, rec: Standing, scope: GameKey, summary: Summary)
    requires AllBuilt(q, scope) && Shape(q, rec) && SameStanding(st, rec) && ValidScope(scope)
    requires forall other :: other in rec.runs <==> Elig(q, scope, other)
    requires id in q.records && id in q'.records && q'.records.Keys == q.records.Keys && Elig(q, scope, id)
    requires forall other | other in q.records && other != id :: q'.records[other] == q.records[other]
    requires q'.records[id].terminal == Some(summary) && SameRun(q'.records[id].submission, q.records[id].submission)
    requires q.records[id].terminal.Some? && q.records[id].terminal.value.matchID == summary.matchID
    requires forall other | other != id :: Elig(q', scope, other) <==> Elig(q, scope, other)
    requires var r, s := q'.records[id], q.records[id].submission;
             && (Elig(q', scope, id) ==> NormalizeScope(summary.game) == scope)
             && (Built(r) <==> BuiltUpdate(s, summary).Ok?) && (Built(r) ==> UpdateOf(r) == BuiltUpdate(s, summary).value)
    requires match Recomputation(q', scope)
             case Ok(rec') => Shape(q', rec') && forall other :: other in rec'.runs <==> Elig(q', scope, other)
             case Err(_) => !AllBuilt(q', scope)
    ensures Elig(q', scope, id) && CountsAlike(q.records[id], summary, scope)
       <==> match Recomputation(q', scope) case Ok(rec') => SameStanding(st, rec') case Err(_) => true
  {
    hide Eligible, NormalizeScope, Shape, SameStanding, Recomputation, BuiltUpdate, Points, Built, UpdateOf, ValidScope;
    if Recomputation(q', scope).Ok? {
      var rec' := Recomputation(q', scope).value;
      ShapeIsBuilt(q', rec', scope);
      if Elig(q', scope, id) {
        if Points(UpdateOf(q'.records[id]).placements) == Points(UpdateOf(q.records[id]).placements) {
          forall other | other in rec.runs ensures other in q.records && Alike(q.records[other], q'.records[other]) {
            if other == id { RepeatedCounts(q, q', scope, id, summary); } else { EligAlike(q, scope, other); }
          }
          AlikeRecomputed(q, q', rec, rec');
          SameStandingTwice(st, rec, rec');
        } else if SameStanding(st, rec') {
          SameStandingRuns(st, rec, rec');
          OneRunApart(q, q', rec, rec', id);
        }
      } else {
        assert id in rec.runs && id !in rec'.runs;
        if SameStanding(st, rec') { SameStandingRuns(st, rec, rec'); }
      }
    } else {
      assert exists other :: Elig(q', scope, other) && !Built(q'.records[other]);
    }
  }

  lemma RepeatedCounts(q: Queue, q': Queue, scope: GameKey, id: Id, summary: Summary)
    requires Elig(q, scope, id) && Elig(q', scope, id) && Built(q.records[id]) && Built(q'.records[id])
    requires SameRun(q'.records[id].submission, q.records[id].submission)
    requires q.records[id].terminal.Some? && q'.records[id].terminal.Some?
    requires Points(UpdateOf(q'.records[id]).placements) == Points(UpdateOf(q.records[id]).placements)
    requires q.records[id].terminal.value.matchID == q'.records[id].terminal.value.matchID
    ensures Alike(q.records[id], q'.records[id])
  {
    hide NormalizeScope, HasBotIdentity, Built, UpdateOf, Points;
    SameRunFields(q'.records[id].submission, q.records[id].submission);
    RunsUpdate(q.records[id]);
    RunsUpdate(q'.records[id]);
  }
}
