/**
  The stored ranking as a cache of the queue: in every run of the arena, whatever is submitted,
  recovered or overtaken, once nothing is pending for a scope its stored standing counts what a
  recompute from the queue counts, provided that the steps meet the conditions of RankingCache: on
  promotions, on summaries written for runs that are ranked already, on ranking calls of one scope
  that overlap, and on calls that are lost (internal/platform/service/ranking.go, worker.go,
  run_commands.go). ArenaExactness shows what each is good for. The condition on bot ids is met by
  every submission that the service makes (request.go:165, 259; bot_ownership.go:183).
*/
module ArenaRanking {
  import opened Identifiers
  import opened MatchResults
  import opened RunTypes
  import opened RunQueue
  import opened QueueInvariants
  import opened Ranking
  import opened RankingLifecycle
  import opened RunControl
  import opened Arena
  import opened RankedRuns
  import opened RankingCache

  // ----- Calls that leave their lists -----

  function Shift(at: int, i: int): int { if i < at then i else i + 1 }

  lemma DroppedCredits(credits: seq<Credit>, at: nat)
    requires at < |credits|
    ensures forall i, scope | CreditOpen(Dropped(credits, at), i, scope) ::
              CreditOpen(credits, Shift(at, i), scope) && Dropped(credits, at)[i] == credits[Shift(at, i)]
  {
    hide CreditScope;
  }

  lemma DroppedCounts(refreshes: seq<Refresh>, at: nat)
    requires at < |refreshes|
    ensures forall k, scope | CountOpen(Dropped(refreshes, at), k, scope) ::
              CountOpen(refreshes, Shift(at, k), scope) && Dropped(refreshes, at)[k] == refreshes[Shift(at, k)]
    ensures forall k, scope | CountOpen(refreshes, k, scope) && k != at ::
              CountOpen(Dropped(refreshes, at), if k < at then k else k - 1, scope)
  {
  }

  lemma DroppedExempt(refreshes: seq<Refresh>, files: map<Id, Summary>, at: nat, scope: GameKey)
    requires at < |refreshes|
    ensures Exempt(Dropped(refreshes, at), files, scope) ==> Exempt(refreshes, files, scope)
    ensures Exempt(refreshes, files, scope) && !Exempts(refreshes[at], files, scope) ==>
              Exempt(Dropped(refreshes, at), files, scope)
  {
    hide FileScope;
    var rest := Dropped(refreshes, at);
    if k :| 0 <= k < |rest| && Exempts(rest[k], files, scope) { assert rest[k] == refreshes[Shift(at, k)]; }
    if k :| 0 <= k < |refreshes| && Exempts(refreshes[k], files, scope) {
      if k != at { assert rest[if k < at then k else k - 1] == refreshes[k]; }
    }
  }

  lemma DroppedProper(q: Queue, refreshes: seq<Refresh>, at: nat)
    requires at < |refreshes| && forall k | 0 <= k < |refreshes| :: Proper(q, refreshes[k])
    ensures forall k | 0 <= k < |Dropped(refreshes, at)| :: Proper(q, Dropped(refreshes, at)[k])
  {
    hide Proper;
  }

  // ----- Crediting a run -----

  // A credited run is still the ranked one of its match, as the queue has it, unless the match is stored
  // already; a ranked run of a stored match is stored itself.
  lemma CreditedIsStored(q: Queue, credits: seq<Credit>, at: nat, st: Standing, scope: GameKey)
    requires at < |credits| && Owed(q, credits) && Officials(q) && Terminals(q)
    requires Sync(q, credits, [], st, scope) && AllBuilt(q, scope)
    requires Live(credits[at]) && CreditScope(credits[at]) == scope
    ensures var id, matchID := credits[at].s.runID, credits[at].s.matchID;
            && id in q.records && q.records[id].submission.matchID == matchID
            && (matchID !in st.matches ==>
                  Elig(q, scope, id) && id !in st.runs && Alike(CreditedRecord(credits[at]), q.records[id]))
            && forall e | Elig(q, scope, e) && q.records[e].submission.matchID == matchID && matchID in st.matches ::
                 e in st.runs
  {
    var c := credits[at];
    assert Due(q, c);
    SameRunFields(c.s, q.records[c.s.runID].submission);
    StoredMatches(q, st, c.s.matchID);
    hide Shape, Terminals, Eligible, Alike, AllBuilt, Due, Owed, NormalizeScope, HasBotIdentity, SameRun, CreditedRecord;
    hide Officials;
    forall e | Elig(q, scope, e) && q.records[e].submission.matchID == c.s.matchID && c.s.matchID in st.matches
      ensures e in st.runs
    {
      var other :| other in st.runs && q.records[other].submission.matchID == c.s.matchID;
      OneRanked(q, scope, other, scope, e);
    }
    if c.s.matchID !in st.matches {
      var e := RankedBehind(q, credits, at);
      assert e !in st.runs;
      assert Expected(q, credits, e);
    }
  }

  lemma RankedBehind(q: Queue, credits: seq<Credit>, at: nat) returns (e: Id)
    requires at < |credits| && Owed(q, credits) && Live(credits[at])
    ensures Elig(q, CreditScope(credits[at]), e) && q.records[e].submission.matchID == credits[at].s.matchID
  {
    hide Eligible, NormalizeScope, HasBotIdentity, SameRun;
    assert Due(q, credits[at]);
    e :| Elig(q, CreditScope(credits[at]), e) && q.records[e].submission.matchID == credits[at].s.matchID;
  }

  lemma PutStored(standings: Standings, st: Standing)
    requires Stored(standings) && ValidScope(st.scope)
    ensures Stored(standings[st.scope := st])
    ensures forall s :: StandingAt(standings[st.scope := st], s) == if s == st.scope then st else StandingAt(standings, s)
  {
    hide ValidScope;
    var after := standings[st.scope := st];
    forall s ensures StandingAt(after, s) == if s == st.scope then st else StandingAt(standings, s) {}
  }

  // No ranked run is forgotten when a credit that changes nothing is dropped.
  lemma IdleCredit(q: Queue, credits: seq<Credit>, at: nat, st: Standing, scope: GameKey, id: Id)
    requires at < |credits| && Owed(q, credits) && Indexed(q) && AllBuilt(q, scope) && st.scope == scope
    requires Elig(q, scope, id) && Expected(q, credits, id) && credits[at].s.runID == id
    ensures Live(credits[at]) && Built(CreditedRecord(credits[at])) && CreditScope(credits[at]) == scope
  {
    hide Built, UpdateOf, UpdatesAlike, NormalizeScope, HasBotIdentity, SameRun, Indexed;
    assert Due(q, credits[at]);
    SameRunFields(credits[at].s, q.records[id].submission);
    assert Alike(CreditedRecord(credits[at]), q.records[id]);
  }

  // A credit that does not write this scope leaves it in step.
  lemma DropSync(q: Queue, credits: seq<Credit>, at: nat, left: seq<QueueRecord>, st: Standing, scope: GameKey)
    requires at < |credits| && Owed(q, credits) && Indexed(q) && st.scope == scope && Sync(q, credits, left, st, scope)
    requires !(Live(credits[at]) && Built(CreditedRecord(credits[at])) && CreditScope(credits[at]) == scope)
    ensures Sync(q, Dropped(credits, at), left, st, scope)
  {
    hide Shape, Eligible, Owed, Indexed, Expected, AllBuilt, Live, CreditScope, CreditedRecord, Ahead, Dropped;
    if AllBuilt(q, scope) {
      forall id | Elig(q, scope, id) && Expected(q, credits, id) ensures Expected(q, Dropped(credits, at), id) {
        if credits[at].s.runID == id { IdleCredit(q, credits, at, st, scope, id); }
        ExpectedRest(q, credits, at, id);
      }
    }
  }

  lemma CreditSync(q: Queue, credits: seq<Credit>, at: nat, st: Standing, scope: GameKey)
    requires at < |credits| && Owed(q, credits) && Officials(q) && Terminals(q) && Indexed(q)
    requires Sync(q, credits, [], st, scope) && st.scope == scope
    requires Live(credits[at]) && Built(CreditedRecord(credits[at])) && CreditScope(credits[at]) == scope
    ensures Sync(q, Dropped(credits, at), [], Applied(st, UpdateOf(CreditedRecord(credits[at]))), scope)
  {
    hide Shape, Terminals, Eligible, Alike, Owed, NormalizeScope, HasBotIdentity, Officials, Indexed, Built, UpdateOf;
    hide Applied, Expected, AllBuilt, Live, CreditScope, CreditedRecord, Dropped;
    if AllBuilt(q, scope) {
      var st' := Applied(st, UpdateOf(CreditedRecord(credits[at])));
      CreditTakes(q, credits, at, st, scope);
      forall id | Elig(q, scope, id) && id !in st'.runs ensures Expected(q, Dropped(credits, at), id) {
        ExpectedRest(q, credits, at, id);
      }
    }
  }

  lemma CreditTakes(q: Queue, credits: seq<Credit>, at: nat, st: Standing, scope: GameKey)
    requires at < |credits| && Owed(q, credits) && Officials(q) && Terminals(q) && Indexed(q)
    requires Sync(q, credits, [], st, scope) && AllBuilt(q, scope)
    requires Live(credits[at]) && Built(CreditedRecord(credits[at])) && CreditScope(credits[at]) == scope
    ensures var st', id := Applied(st, UpdateOf(CreditedRecord(credits[at]))), credits[at].s.runID;
            && Shape(q, st') && (st'.runs == st.runs || (st'.runs == st.runs + [id] && Elig(q, scope, id)))
            && (Elig(q, scope, id) ==> id in st'.runs)
  {
    var c := credits[at];
    var id, u := c.s.runID, UpdateOf(CreditedRecord(c));
    CreditedIsStored(q, credits, at, st, scope);
    RunsUpdate(CreditedRecord(c));
    assert Due(q, c);
    hide Shape, Owed, Terminals, Officials, NormalizeScope, HasBotIdentity, SameRun, Eligible, Built, UpdateOf, Expected;
    if u.matchID !in st.matches {
      assert Built(q.records[id]);
      EligSettles(q, scope, id);
      AppliedShape(q, st, id, u);
      hide Applied;
    }
  }

  lemma RestOwed(q: Queue, credits: seq<Credit>, at: nat)
    requires Owed(q, credits) && at < |credits|
    ensures Owed(q, Dropped(credits, at))
  {
    hide Due;
  }

  // Only what a credit credits matters to what is owed and expected, not what it has read.
  ghost predicate SameCredits(credits: seq<Credit>, credits': seq<Credit>) {
    |credits| == |credits'|
    && forall i | 0 <= i < |credits| :: credits[i].s == credits'[i].s && credits[i].summary == credits'[i].summary
  }

  lemma SameCreditsSync(
      q: Queue, credits: seq<Credit>, credits': seq<Credit>, left: seq<QueueRecord>, st: Standing, scope: GameKey)
    requires SameCredits(credits, credits') && Sync(q, credits, left, st, scope)
    ensures Sync(q, credits', left, st, scope)
  {
    hide Shape, Eligible, AllBuilt, Ahead, Alike, HasBotIdentity;
    forall id | Expected(q, credits, id) ensures Expected(q, credits', id) {
      var i :| 0 <= i < |credits| && credits[i].s.runID == id;
      assert credits'[i].s.runID == id;
    }
  }

  lemma SameCreditsOwed(q: Queue, credits: seq<Credit>, credits': seq<Credit>)
    requires SameCredits(credits, credits') && Owed(q, credits)
    ensures Owed(q, credits')
  {
    hide Eligible, NormalizeScope, HasBotIdentity, SameRun;
    forall i | 0 <= i < |credits'| ensures Due(q, credits'[i]) { assert Due(q, credits[i]); }
  }

  lemma ReadKeeps(a: System, act: Action)
    requires Sound(a) && Cached(a) && Orderly(a, act) && act.ReadRanking?
    ensures Cached(Step(a, act))
  {
    hide Owed, Stored, Sync, StandingAt, Heads, Exempt, Proper, Sound, NormalizeScope, Worth, SameCredits, Apart, Free;
    var a', c := Step(a, act), a.credits[act.at];
    ReadIsSame(a.credits, act.at, StandingAt(a.standings, CreditScope(c)));
    ReadApart(a, act.at);
    SameCreditsOwed(a.q, a.credits, a'.credits);
    forall scope | !Exempt(a.refreshes, a.files, scope) ensures InStep(a', scope) {
      assert InStep(a, scope);
      forall left, st | Sync(a.q, a.credits, left, st, scope) ensures Sync(a.q, a'.credits, left, st, scope) {
        SameCreditsSync(a.q, a.credits, a'.credits, left, st, scope);
      }
    }
  }

  lemma ReadApart(a: System, at: nat)
    requires at < |a.credits| && Apart(a.credits, a.refreshes, a.standings) && Free(a, CreditScope(a.credits[at]))
    ensures var c := a.credits[at];
            Apart(a.credits[at := c.(read := Some(StandingAt(a.standings, CreditScope(c))))], a.refreshes, a.standings)
  {
    hide StandingAt, NormalizeScope;
    var c := a.credits[at];
    var credits' := a.credits[at := c.(read := Some(StandingAt(a.standings, CreditScope(c))))];
    forall i, scope | CreditOpen(credits', i, scope)
      ensures CreditOpen(a.credits, i, scope) || (i == at && scope == CreditScope(c))
    {
    }
    assert forall i :: !CreditOpen(a.credits, i, CreditScope(c));
    assert forall k :: !CountOpen(a.refreshes, k, CreditScope(c));
  }

  lemma ReadIsSame(credits: seq<Credit>, at: nat, st: Standing)
    requires at < |credits|
    ensures SameCredits(credits, credits[at := credits[at].(read := Some(st))])
  {
  }

  // What is written is what the stored standing becomes, because nothing was written in between.
  lemma WrittenStored(standings: Standings, c: Credit)
    requires Stored(standings) && Worth(c) && c.read == Some(StandingAt(standings, CreditScope(c)))
    ensures Live(c) && Built(CreditedRecord(c))
    ensures var after := CreditWritten(standings, c);
            && Stored(after) && CreditWritten(standings, c) == CreditRun(standings, c.s, c.summary).0
            && forall s :: StandingAt(after, s) == if s == CreditScope(c) then Applied(c.read.value, UpdateOf(CreditedRecord(c)))
                                                   else StandingAt(standings, s)
  {
    hide BuiltUpdate, Applied, NormalizeScope, ValidScope, HasBotIdentity, Stored, StandingAt;
    StoredScope(standings, CreditScope(c));
    var u := UpdateOf(CreditedRecord(c));
    RunsUpdate(CreditedRecord(c));
    AppliedScope(StandingAt(standings, u.scope), u);
    PutStored(standings, Applied(StandingAt(standings, u.scope), u));
  }

  lemma StoredScope(standings: Standings, scope: GameKey)
    requires Stored(standings)
    ensures StandingAt(standings, scope).scope == scope
  {
  }

  lemma DroppedApart(credits: seq<Credit>, at: nat, refreshes: seq<Refresh>, standings: Standings, standings': Standings)
    requires at < |credits| && Apart(credits, refreshes, standings)
    requires forall s | StandingAt(standings', s) != StandingAt(standings, s) :: CreditOpen(credits, at, s)
    ensures Apart(Dropped(credits, at), refreshes, standings')
  {
    hide StandingAt, CreditScope, Dropped;
    DroppedCredits(credits, at);
    forall i, scope | CreditOpen(Dropped(credits, at), i, scope)
      ensures Dropped(credits, at)[i].read.value == StandingAt(standings', scope)
    {
      assert CreditOpen(credits, Shift(at, i), scope);
    }
  }

  lemma WriteKeeps(a: System, act: Action)
    requires Sound(a) && Cached(a) && Orderly(a, act) && act.WriteRanking?
    ensures Cached(Step(a, act))
  {
    hide Owed, Stored, Sync, StandingAt, Heads, Exempt, Proper, Sound, NormalizeScope, Worth, CreditWritten, Apart, InStep;
    hide Dropped;
    var a', c := Step(a, act), a.credits[act.at];
    RestOwed(a.q, a.credits, act.at);
    WriteStored(a, act.at);
    DroppedApart(a.credits, act.at, a.refreshes, a.standings, a'.standings);
    forall scope | !Exempt(a.refreshes, a.files, scope) ensures InStep(a', scope) {
      WriteInStep(a, act, scope);
    }
  }

  lemma WriteStored(a: System, at: nat)
    requires Cached(a) && at < |a.credits| && (Worth(a.credits[at]) ==> a.credits[at].read.Some?)
    ensures var after, c := CreditWritten(a.standings, a.credits[at]), a.credits[at];
            && Stored(after)
            && (Worth(c) ==> CreditOpen(a.credits, at, CreditScope(c)) && Live(c) && Built(CreditedRecord(c)))
            && forall s :: StandingAt(after, s) ==
                 if Worth(c) && s == CreditScope(c) then Applied(StandingAt(a.standings, s), UpdateOf(CreditedRecord(c)))
                 else StandingAt(a.standings, s)
  {
    hide Owed, Stored, InSync, StandingAt, Applied, UpdateOf, Live, Built, CreditScope;
    var c := a.credits[at];
    if Worth(c) {
      assert CreditOpen(a.credits, at, CreditScope(c));
      WrittenStored(a.standings, c);
    }
  }

  lemma WriteInStep(a: System, act: Action, scope: GameKey)
    requires Sound(a) && Cached(a) && Orderly(a, act) && act.WriteRanking? && !Exempt(a.refreshes, a.files, scope)
    ensures InStep(Step(a, act), scope)
  {
    hide Stored, Sync, StandingAt, Heads, Exempt, Proper, NormalizeScope, CreditWritten, Dropped, Live, Built;
    hide Indexed, Line, Lifecycle, Officials, JobsKnown, Filed, Applied, UpdateOf, CreditScope, CreditedRecord, Owed;
    var c := a.credits[act.at];
    SoundTerminals(a);
    WriteStored(a, act.at);
    DueOfficial(a, act.at);
    assert InStep(a, scope);
    if Worth(c) && scope == CreditScope(c) {
      StoredScope(a.standings, scope);
      CreditSync(a.q, a.credits, act.at, StandingAt(a.standings, scope), scope);
    } else {
      StoredScope(a.standings, scope);
      forall k | CountOpen(a.refreshes, k, scope)
        ensures Sync(a.q, Dropped(a.credits, act.at), a.refreshes[k].left, a.refreshes[k].st, scope)
      {
        assert Proper(a.q, a.refreshes[k]);
        ProperScope(a.q, a.refreshes[k]);
        DropSync(a.q, a.credits, act.at, a.refreshes[k].left, a.refreshes[k].st, scope);
      }
      if forall k :: !CountOpen(a.refreshes, k, scope) {
        DropSync(a.q, a.credits, act.at, [], StandingAt(a.standings, scope), scope);
      }
    }
  }

  lemma ProperScope(q: Queue, r: Refresh)
    requires Proper(q, r) && r.Counting?
    ensures r.st.scope == r.scope == NormalizeScope(r.scope) && ValidScope(r.scope)
  {
  }

  lemma DueOfficial(a: System, at: nat)
    requires Owed(a.q, a.credits) && at < |a.credits|
    ensures var c := a.credits[at]; Worth(c) <==> Live(c) && Built(CreditedRecord(c))
  {
    hide BuiltUpdate, HasBotIdentity;
    assert Due(a.q, a.credits[at]);
  }

  // ----- Refreshing a scope -----

  // A scope without a name can neither store nor credit anything.
  lemma NamelessSync(q: Queue, credits: seq<Credit>, standings: Standings, scope: GameKey)
    requires Stored(standings) && !ValidScope(scope)
    ensures Sync(q, credits, [], StandingAt(standings, scope), scope)
  {
    hide Shape, ValidScope;
    EmptyShape(q, scope);
    forall id | Elig(q, scope, id) && Built(q.records[id]) ensures false {
      RunsUpdate(q.records[id]);
    }
  }

  // What is listed is all that is ranked.
  lemma ListedSync(q: Queue, files: map<Id, Summary>, credits: seq<Credit>, scope: GameKey)
    requires Indexed(q) && Terminals(q)
    requires forall id | id in q.records && q.records[id].state.Completed? :: FileScope(files, id)
               == NormalizeScope(q.records[id].terminal.value.game)
    ensures Sync(q, credits, Listed(q.all, q.records), NewStanding(scope), scope)
    ensures Heads(q, files, Listed(q.all, q.records), scope)
  {
    hide Shape, NormalizeScope, HasBotIdentity, Listed, FileScope;
    var left := Listed(q.all, q.records);
    EmptyShape(q, scope);
    ListedIsRecords(q.all, q.records);
    forall id | Elig(q, scope, id) ensures Ahead(left, id) {
      assert id in q.all && q.records[id] in left;
      var j :| 0 <= j < |left| && left[j] == q.records[id];
      assert left[j].submission.runID == id && RankedThen(left[j]);
    }
    forall j | 0 <= j < |left| ensures Head(q, files, left[j], scope) {
      assert left[j] in left;
      SelfRun(left[j].submission);
    }
  }

  lemma ScopeKeeps(a: System, act: Action)
    requires Sound(a) && Cached(a) && Orderly(a, act) && act.ReadScope?
    ensures Cached(Step(a, act))
  {
    hide Owed, Stored, Sync, StandingAt, Heads, Sound, NormalizeScope, Apart, Exempt, InStep, Exempts;
    var a', r := Step(a, act), a.refreshes[act.at];
    ScopedSame(a, act.at);
    forall scope | !Exempt(a'.refreshes, a.files, scope) ensures InStep(a', scope) {
      assert InStep(a, scope);
      ScopedInStep(a, a', act.at, scope);
    }
    ScopedProper(a.files, r.runID);
  }

  lemma ScopedProper(files: map<Id, Summary>, runID: Id)
    ensures FileScope(files, runID) == NormalizeScope(FileScope(files, runID))
  {
    hide NormalizeScope;
    NormalizeScopeTwice(if runID in files then files[runID].game else GameKey(NO_ID, NO_ID, NO_ID));
  }

  lemma ScopedSame(a: System, at: nat)
    requires at < |a.refreshes| && a.refreshes[at].Awaited?
    ensures var refreshes := a.refreshes[at := Scoped(FileScope(a.files, a.refreshes[at].runID))];
            && (forall k, scope :: CountOpen(refreshes, k, scope) <==> CountOpen(a.refreshes, k, scope))
            && (forall scope :: Exempt(refreshes, a.files, scope) <==> Exempt(a.refreshes, a.files, scope))
            && (Apart(a.credits, a.refreshes, a.standings) ==> Apart(a.credits, refreshes, a.standings))
  {
    hide FileScope, StandingAt;
    var refreshes := a.refreshes[at := Scoped(FileScope(a.files, a.refreshes[at].runID))];
    forall scope ensures Exempt(refreshes, a.files, scope) <==> Exempt(a.refreshes, a.files, scope) {
      if k :| 0 <= k < |refreshes| && Exempts(refreshes[k], a.files, scope) {
        assert Exempts(a.refreshes[k], a.files, scope);
      }
      if k :| 0 <= k < |refreshes| && Exempts(a.refreshes[k], a.files, scope) {
        assert Exempts(refreshes[k], a.files, scope);
      }
    }
  }

  lemma ScopedInStep(a: System, a': System, at: nat, scope: GameKey)
    requires at < |a.refreshes| && a.refreshes[at].Awaited? && InStep(a, scope)
    requires a' == a.(refreshes := a.refreshes[at := Scoped(FileScope(a.files, a.refreshes[at].runID))])
    ensures InStep(a', scope)
  {
    hide Sync, Heads, FileScope, StandingAt;
    assert forall k :: CountOpen(a'.refreshes, k, scope) <==> CountOpen(a.refreshes, k, scope);
  }

  lemma ListKeeps(a: System, act: Action)
    requires Sound(a) && Cached(a) && Orderly(a, act) && act.List?
    ensures Cached(Step(a, act))
  {
    hide Owed, Stored, Sync, StandingAt, Heads, Sound, NormalizeScope, Apart, Exempt, InStep, Exempts, ValidScope, Free;
    hide Listed, Proper;
    var a', at := Step(a, act), act.at;
    var named := a.refreshes[at].scope;
    assert Proper(a.q, a.refreshes[at]);
    ListedApart(a, at);
    ListedProper(a.q, a.refreshes, at);
    forall scope | !Exempt(a'.refreshes, a.files, scope) ensures InStep(a', scope) {
      if scope == named { ListedInStep(a, act); } else { OtherInStep(a, a', at, scope); }
    }
  }

  // What the listing makes of the list of refreshes.
  function RefreshesListed(q: Queue, refreshes: seq<Refresh>, at: nat): seq<Refresh>
    requires at < |refreshes| && refreshes[at].Scoped?
  {
    if ValidScope(refreshes[at].scope)
    then refreshes[at := Counting(refreshes[at].scope, Listed(q.all, q.records), NewStanding(refreshes[at].scope))]
    else Dropped(refreshes, at)
  }

  lemma ListedApart(a: System, at: nat)
    requires at < |a.refreshes| && a.refreshes[at].Scoped? && Free(a, a.refreshes[at].scope)
    requires Apart(a.credits, a.refreshes, a.standings)
    ensures Apart(a.credits, RefreshesListed(a.q, a.refreshes, at), a.standings)
  {
    hide StandingAt, CreditScope, RefreshesListed, CountOpen, CreditOpen;
    var named := a.refreshes[at].scope;
    ListedOpen(a.q, a.refreshes, at);
    assert forall i :: !CreditOpen(a.credits, i, named);
    assert forall k :: !CountOpen(a.refreshes, k, named);
  }

  lemma ListedOpen(q: Queue, refreshes: seq<Refresh>, at: nat)
    requires at < |refreshes| && refreshes[at].Scoped?
    ensures var refreshes', named := RefreshesListed(q, refreshes, at), refreshes[at].scope;
            if ValidScope(named)
            then forall k, scope :: CountOpen(refreshes', k, scope) <==>
                   CountOpen(refreshes, k, scope) || (k == at && scope == named)
            else forall k, scope | CountOpen(refreshes', k, scope) :: CountOpen(refreshes, Shift(at, k), scope)
  {
    hide ValidScope, Listed;
    DroppedCounts(refreshes, at);
  }

  lemma ListedProper(q: Queue, refreshes: seq<Refresh>, at: nat)
    requires at < |refreshes| && refreshes[at].Scoped? && forall k | 0 <= k < |refreshes| :: Proper(q, refreshes[k])
    ensures var refreshes' := RefreshesListed(q, refreshes, at);
            forall k | 0 <= k < |refreshes'| :: Proper(q, refreshes'[k])
  {
    hide NormalizeScope, ValidScope, Listed;
    DroppedProper(q, refreshes, at);
    assert Proper(q, refreshes[at]);
  }

  lemma ListedInStep(a: System, act: Action)
    requires Sound(a) && Cached(a) && Orderly(a, act) && act.List?
    ensures InStep(Step(a, act), a.refreshes[act.at].scope)
  {
    hide Owed, Sync, StandingAt, Heads, NormalizeScope, Apart, Exempt, ValidScope, FileScope, Listed, InSync;
    hide Indexed, Line, Lifecycle, Officials, JobsKnown, Filed, Terminals;
    var scope := a.refreshes[act.at].scope;
    SoundTerminals(a);
    assert forall k :: !CountOpen(a.refreshes, k, scope);
    if ValidScope(scope) {
      forall id | id in a.q.records && a.q.records[id].state.Completed?
        ensures a.q.records[id].terminal.Some?
        ensures FileScope(a.files, id) == NormalizeScope(a.q.records[id].terminal.value.game)
      {
        FiledScope(a, id);
      }
      ListedSync(a.q, a.files, a.credits, scope);
      assert CountOpen(Step(a, act).refreshes, act.at, scope);
      assert forall k | CountOpen(Step(a, act).refreshes, k, scope) :: k == act.at || CountOpen(a.refreshes, k, scope);
    } else {
      DroppedCounts(a.refreshes, act.at);
      NamelessSync(a.q, a.credits, a.standings, scope);
    }
  }

  // A change of one refresh, seen from another scope.
  lemma OtherInStep(a: System, a': System, at: nat, scope: GameKey)
    requires at < |a.refreshes| && !(a.refreshes[at].Awaited?) && a.refreshes[at].scope != scope
    requires a'.q == a.q && a'.files == a.files && a'.credits == a.credits
    requires StandingAt(a'.standings, scope) == StandingAt(a.standings, scope)
    requires a'.refreshes == Dropped(a.refreshes, at)
             || exists r: Refresh :: r.Counting? && r.scope == a.refreshes[at].scope && a'.refreshes == a.refreshes[at := r]
    requires InSync(a) && !Exempt(a'.refreshes, a.files, scope)
    ensures InStep(a', scope)
  {
    hide Sync, StandingAt, Heads, FileScope, Proper;
    assert !Exempts(a.refreshes[at], a.files, scope);
    if a'.refreshes == Dropped(a.refreshes, at) {
      DroppedExempt(a.refreshes, a.files, at, scope);
      DroppedCounts(a.refreshes, at);
      assert InStep(a, scope);
      hide Dropped, Exempt;
      assert forall k | CountOpen(a'.refreshes, k, scope) :: CountOpen(a.refreshes, Shift(at, k), scope);
      if forall k :: !CountOpen(a'.refreshes, k, scope) {
        forall k ensures !CountOpen(a.refreshes, k, scope) {
          assert !CountOpen(a'.refreshes, if k < at then k else k - 1, scope);
        }
      }
    } else {
      forall k | 0 <= k < |a.refreshes| ensures !Exempts(a.refreshes[k], a.files, scope) {
        if k != at { assert a'.refreshes[k] == a.refreshes[k]; }
      }
      assert InStep(a, scope);
      assert forall k :: CountOpen(a'.refreshes, k, scope) <==> CountOpen(a.refreshes, k, scope);
    }
  }

  // The listed run that is read next counts as the queue has it, if it counts at all.
  lemma NextSync(
      q: Queue, files: map<Id, Summary>, credits: seq<Credit>, left: seq<QueueRecord>, st: Standing, scope: GameKey)
    requires left != [] && Sync(q, credits, left, st, scope) && Heads(q, files, left, scope) && st.scope == scope
    requires Officials(q) && Terminals(q) && Indexed(q)
    requires forall id | id in q.records && q.records[id].state.Completed? ::
               id in files && q.records[id].terminal == Some(files[id])
    ensures match RecomputeStep(st, Filing(left[0], files))
            case Ok(next) => next.scope == scope && Sync(q, credits, left[1..], next, scope)
            case Err(_) => !AllBuilt(q, scope)
  {
    hide Shape, Terminals, Officials, Indexed, NormalizeScope, HasBotIdentity, Expected, Applied, BuiltUpdate, AllBuilt;
    var r, id, next := left[0], left[0].submission.runID, RecomputeStep(st, Filing(left[0], files));
    HeadCounts(q, files, r, scope);
    if AllBuilt(q, scope) {
      NextStanding(q, files, r, st, scope);
      assert next.Ok?;
      forall other | Elig(q, scope, other) && other !in next.value.runs && !Expected(q, credits, other)
        ensures Ahead(left[1..], other)
      {
        assert Ahead(left, other);
        AheadRest(left, other);
      }
    } else if next.Ok? {
      NextScope(st, Filing(r, files));
    }
  }

  lemma NextScope(st: Standing, r: QueueRecord)
    requires RecomputeStep(st, r).Ok?
    ensures RecomputeStep(st, r).value.scope == st.scope
  {
    hide BuiltUpdate, Eligible;
  }

  lemma AheadRest(left: seq<QueueRecord>, id: Id)
    requires left != [] && Ahead(left, id)
    ensures (left[0].submission.runID == id && RankedThen(left[0])) || Ahead(left[1..], id)
  {
    hide RankedThen;
    var j :| 0 <= j < |left| && left[j].submission.runID == id && RankedThen(left[j]);
    if j > 0 { assert left[1..][j - 1] == left[j]; }
  }

  // The next listed run is taken exactly when it was ranked then and its file names the scope, and
  // then it is ranked now.
  lemma HeadCounts(q: Queue, files: map<Id, Summary>, r: QueueRecord, scope: GameKey)
    requires Head(q, files, r, scope)
    requires forall id | id in q.records && q.records[id].state.Completed? ::
               id in files && q.records[id].terminal == Some(files[id])
    ensures Eligible(Filing(r, files), scope) <==> RankedThen(r) && Elig(q, scope, r.submission.runID)
    ensures RankedThen(r) && Elig(q, scope, r.submission.runID) ==>
              var now := q.records[r.submission.runID];
              && (BuiltUpdate(r.submission, Filing(r, files).terminal.value).Ok? <==> Built(now))
              && (Built(now) ==> BuiltUpdate(r.submission, Filing(r, files).terminal.value) == Ok(UpdateOf(now)))
  {
    hide NormalizeScope, HasBotIdentity, SameRun, BuiltUpdate;
    if RankedThen(r) { SameRunBuilds(Filing(r, files), q.records[r.submission.runID]); }
  }

  lemma NextStanding(q: Queue, files: map<Id, Summary>, r: QueueRecord, st: Standing, scope: GameKey)
    requires AllBuilt(q, scope) && Shape(q, st) && st.scope == scope && forall id | id in st.runs :: Elig(q, scope, id)
    requires Officials(q) && Terminals(q) && Indexed(q)
    requires Eligible(Filing(r, files), scope) <==> RankedThen(r) && Elig(q, scope, r.submission.runID)
    requires RankedThen(r) && Elig(q, scope, r.submission.runID) && Built(q.records[r.submission.runID]) ==>
               Filing(r, files).terminal.Some?
               && BuiltUpdate(r.submission, Filing(r, files).terminal.value) == Ok(UpdateOf(q.records[r.submission.runID]))
    ensures var next, id := RecomputeStep(st, Filing(r, files)), r.submission.runID;
            && next.Ok? && next.value.scope == scope && Shape(q, next.value)
            && (forall other | other in st.runs :: other in next.value.runs)
            && (forall other | other in next.value.runs :: Elig(q, scope, other))
            && (RankedThen(r) && Elig(q, scope, id) ==> id in next.value.runs)
  {
    hide Shape, Terminals, Officials, NormalizeScope, HasBotIdentity, BuiltUpdate, Built, UpdateOf, Eligible, RankedThen;
    hide UpdatesAlike;
    var id := r.submission.runID;
    if RankedThen(r) && Elig(q, scope, id) {
      var now := q.records[id];
      assert Built(now);
      EligSettles(q, scope, id);
      UpdateSelf(UpdateOf(now));
      AppliedShape(q, st, id, UpdateOf(now));
      RunsUpdate(now);
      if id !in st.runs && UpdateOf(now).matchID in st.matches { TakenMatch(q, st, scope, id); }
      hide Applied;
    }
  }

  // A ranked run of a stored match is stored.
  lemma TakenMatch(q: Queue, st: Standing, scope: GameKey, id: Id)
    requires Shape(q, st) && Officials(q) && Terminals(q) && Elig(q, scope, id) && Built(q.records[id])
    requires UpdateOf(q.records[id]).matchID in st.matches && forall other | other in st.runs :: Elig(q, scope, other)
    ensures id in st.runs
  {
    RunsUpdate(q.records[id]);
    hide Shape, UpdateOf, Built, Officials, Eligible;
    var matchID := q.records[id].submission.matchID;
    SummaryMatch(q, scope, id);
    StoredMatches(q, st, matchID);
    var other :| other in st.runs && q.records[other].submission.matchID == matchID;
    OneRanked(q, scope, other, scope, id);
  }

  lemma SummaryMatch(q: Queue, scope: GameKey, id: Id)
    requires Terminals(q) && Elig(q, scope, id)
    ensures q.records[id].terminal.Some? && q.records[id].terminal.value.matchID == q.records[id].submission.matchID
  {
    hide NormalizeScope, HasBotIdentity;
  }

  lemma NextOpen(refreshes: seq<Refresh>, at: nat, files: map<Id, Summary>)
    requires at < |refreshes| && refreshes[at].Counting? && refreshes[at].left != []
    ensures var refreshes' := RefreshesAfter(refreshes, at, files);
            && (forall k, scope | CountOpen(refreshes', k, scope) ::
                  exists l :: CountOpen(refreshes, l, scope) && (l != at ==> refreshes'[k] == refreshes[l]))
            && (RecomputeStep(refreshes[at].st, Filing(refreshes[at].left[0], files)).Ok? ==>
                  forall k, scope :: CountOpen(refreshes', k, scope) <==> CountOpen(refreshes, k, scope))
            && (RecomputeStep(refreshes[at].st, Filing(refreshes[at].left[0], files)).Err? ==>
                  refreshes' == Dropped(refreshes, at))
  {
    hide RecomputeStep, Filing;
    DroppedCounts(refreshes, at);
    var refreshes' := RefreshesAfter(refreshes, at, files);
    if refreshes' == Dropped(refreshes, at) {
      forall k, scope | CountOpen(refreshes', k, scope)
        ensures exists l :: CountOpen(refreshes, l, scope) && (l != at ==> refreshes'[k] == refreshes[l])
      {
        assert CountOpen(refreshes, Shift(at, k), scope);
      }
    }
  }

  lemma DroppedCountsApart(credits: seq<Credit>, refreshes: seq<Refresh>, at: nat, standings: Standings)
    requires at < |refreshes| && Apart(credits, refreshes, standings)
    ensures Apart(credits, Dropped(refreshes, at), standings)
  {
    hide StandingAt, CreditOpen, CountOpen, Dropped;
    DroppedCounts(refreshes, at);
    forall k, l, scope | CountOpen(Dropped(refreshes, at), k, scope) && CountOpen(Dropped(refreshes, at), l, scope)
      ensures k == l
    {
      assert CountOpen(refreshes, Shift(at, k), scope) && CountOpen(refreshes, Shift(at, l), scope);
    }
  }

  lemma SameCountsApart(credits: seq<Credit>, refreshes: seq<Refresh>, refreshes': seq<Refresh>, standings: Standings)
    requires Apart(credits, refreshes, standings)
    requires forall k, scope :: CountOpen(refreshes', k, scope) <==> CountOpen(refreshes, k, scope)
    ensures Apart(credits, refreshes', standings)
  {
    hide StandingAt, CreditOpen, CountOpen;
  }

  lemma NextKeeps(a: System, act: Action)
    requires Sound(a) && Cached(a) && Orderly(a, act) && act.ReadNext?
    ensures Cached(Step(a, act))
  {
    hide Owed, Stored, Sync, StandingAt, Heads, Sound, NormalizeScope, Apart, Exempt, InStep, Exempts, ValidScope;
    hide RefreshesAfter, RecomputeStep, Filing, Proper, CountOpen, Dropped;
    var a', at := Step(a, act), act.at;
    var r := a.refreshes[at];
    NextOpen(a.refreshes, at, a.files);
    NextProper(a.q, a.refreshes, at, a.files);
    if RecomputeStep(r.st, Filing(r.left[0], a.files)).Ok? {
      SameCountsApart(a.credits, a.refreshes, a'.refreshes, a.standings);
    } else {
      DroppedCountsApart(a.credits, a.refreshes, at, a.standings);
    }
    forall scope | !Exempt(a'.refreshes, a.files, scope) ensures InStep(a', scope) {
      if scope == r.scope {
        NextInStep(a, act);
      } else {
        NextShape(a.refreshes, at, a.files);
        OtherInStep(a, a', at, scope);
      }
    }
  }

  lemma NextShape(refreshes: seq<Refresh>, at: nat, files: map<Id, Summary>)
    requires at < |refreshes| && refreshes[at].Counting? && refreshes[at].left != []
    ensures var refreshes' := RefreshesAfter(refreshes, at, files);
            || refreshes' == Dropped(refreshes, at)
            || exists r: Refresh :: r.Counting? && r.scope == refreshes[at].scope && refreshes' == refreshes[at := r]
  {
    hide RecomputeStep, Filing;
  }

  lemma NextProper(q: Queue, refreshes: seq<Refresh>, at: nat, files: map<Id, Summary>)
    requires at < |refreshes| && refreshes[at].Counting? && refreshes[at].left != []
    requires forall k | 0 <= k < |refreshes| :: Proper(q, refreshes[k])
    ensures var refreshes' := RefreshesAfter(refreshes, at, files);
            forall k | 0 <= k < |refreshes'| :: Proper(q, refreshes'[k])
  {
    hide RecomputeStep, Filing, NormalizeScope, ValidScope;
    DroppedProper(q, refreshes, at);
    var r := refreshes[at];
    assert Proper(q, r);
    if RecomputeStep(r.st, Filing(r.left[0], files)).Ok? { NextScope(r.st, Filing(r.left[0], files)); }
  }

  lemma NextInStep(a: System, act: Action)
    requires Sound(a) && Cached(a) && Orderly(a, act) && act.ReadNext?
    requires !Exempt(Step(a, act).refreshes, a.files, a.refreshes[act.at].scope)
    ensures InStep(Step(a, act), a.refreshes[act.at].scope)
  {
    hide Owed, Sync, StandingAt, Heads, NormalizeScope, Exempts, ValidScope, Filing, RecomputeStep, Dropped;
    hide Indexed, Line, Lifecycle, Officials, JobsKnown, Terminals, AllBuilt;
    var r, at, scope := a.refreshes[act.at], act.at, a.refreshes[act.at].scope;
    SoundTerminals(a);
    NextExempt(a.refreshes, at, a.files, scope);
    assert CountOpen(a.refreshes, at, scope) && InStep(a, scope) && Proper(a.q, r);
    NextSync(a.q, a.files, a.credits, r.left, r.st, scope);
    NextOpen(a.refreshes, at, a.files);
    var refreshes' := Step(a, act).refreshes;
    if RecomputeStep(r.st, Filing(r.left[0], a.files)).Ok? {
      assert CountOpen(refreshes', at, scope);
      assert forall k | CountOpen(refreshes', k, scope) :: CountOpen(a.refreshes, k, scope) && k == at;
      RestHeads(a.q, a.files, r.left, scope);
    } else {
      DroppedCounts(a.refreshes, at);
      forall k ensures !CountOpen(refreshes', k, scope) { assert Shift(at, k) != at; }
      UnbuiltSync(a.q, a.credits, StandingAt(a.standings, scope), scope);
    }
  }

  lemma UnbuiltSync(q: Queue, credits: seq<Credit>, st: Standing, scope: GameKey)
    requires !AllBuilt(q, scope)
    ensures Sync(q, credits, [], st, scope)
  {
  }

  lemma RestHeads(q: Queue, files: map<Id, Summary>, left: seq<QueueRecord>, scope: GameKey)
    requires left != [] && Heads(q, files, left, scope)
    ensures Heads(q, files, left[1..], scope)
  {
    hide Head;
  }

  lemma NextExempt(refreshes: seq<Refresh>, at: nat, files: map<Id, Summary>, scope: GameKey)
    requires at < |refreshes| && refreshes[at].Counting? && refreshes[at].left != []
    requires !Exempt(RefreshesAfter(refreshes, at, files), files, scope)
    ensures !Exempt(refreshes, files, scope)
  {
    hide RecomputeStep, Filing, FileScope;
    DroppedExempt(refreshes, files, at, scope);
    var refreshes' := RefreshesAfter(refreshes, at, files);
    if refreshes' != Dropped(refreshes, at) {
      forall k | 0 <= k < |refreshes| ensures !Exempts(refreshes[k], files, scope) {
        assert !Exempts(refreshes'[k], files, scope);
      }
    }
  }

  lemma RefreshKeeps(a: System, act: Action)
    requires Sound(a) && Cached(a) && Orderly(a, act) && act.Refresh?
    ensures Cached(Step(a, act))
  {
    hide Owed, Stored, Sync, StandingAt, Heads, Sound, NormalizeScope, Exempt, InStep, Exempts, ValidScope, Proper;
    hide CountOpen, CreditOpen, Dropped, Apart;
    var a', at := Step(a, act), act.at;
    var r := a.refreshes[at];
    ProperScope(a.q, r);
    PutStored(a.standings, r.st);
    DroppedProper(a.q, a.refreshes, at);
    RefreshedApart(a, at);
    forall scope | !Exempt(a'.refreshes, a.files, scope) ensures InStep(a', scope) {
      if scope == r.scope { RefreshedInStep(a, act); } else { OtherInStep(a, a', at, scope); }
    }
  }

  lemma RefreshedApart(a: System, at: nat)
    requires at < |a.refreshes| && a.refreshes[at].Counting? && a.refreshes[at].st.scope == a.refreshes[at].scope
    requires Apart(a.credits, a.refreshes, a.standings)
    ensures Apart(a.credits, Dropped(a.refreshes, at), Put(a.standings, a.refreshes[at].st))
  {
    hide CreditScope, Dropped;
    DroppedCountsApart(a.credits, a.refreshes, at, a.standings);
    assert CountOpen(a.refreshes, at, a.refreshes[at].scope);
    forall i, scope | CreditOpen(a.credits, i, scope) ensures scope != a.refreshes[at].scope {
      assert !CountOpen(a.refreshes, at, scope);
    }
  }

  lemma RefreshedInStep(a: System, act: Action)
    requires Sound(a) && Cached(a) && Orderly(a, act) && act.Refresh?
    requires !Exempt(Step(a, act).refreshes, a.files, a.refreshes[act.at].scope)
    ensures InStep(Step(a, act), a.refreshes[act.at].scope)
  {
    hide Owed, Sync, Heads, NormalizeScope, Exempts, ValidScope, Dropped, Sound;
    var r, at, scope := a.refreshes[act.at], act.at, a.refreshes[act.at].scope;
    assert !Exempts(r, a.files, scope) by { CountingExempts(r, a.files, scope); }
    DroppedExempt(a.refreshes, a.files, at, scope);
    assert CountOpen(a.refreshes, at, scope) && InStep(a, scope) && Proper(a.q, r);
    DroppedCounts(a.refreshes, at);
    forall k ensures !CountOpen(Dropped(a.refreshes, at), k, scope) { assert Shift(at, k) != at; }
  }

  lemma CountingExempts(r: Refresh, files: map<Id, Summary>, scope: GameKey)
    requires r.Counting?
    ensures !Exempts(r, files, scope)
  {
  }

  // ----- Every orderly run -----

  // One step keeps the invariant, a promotion between a worker's update and its crediting included.
  lemma StepKeepsCached(a: System, act: Action)
    requires Sound(a) && Cached(a) && Orderly(a, act)
    ensures Cached(Step(a, act))
  {
    hide Sound, Cached, Step, Calm, Grows, Allowed;
    match act
    case Persist(_, _) => PersistKeeps(a, act);
    case Complete(_, _) => CompleteKeeps(a, act);
    case Promote(_) => PromoteKeeps(a, act);
    case ReadRanking(_) => ReadKeeps(a, act);
    case WriteRanking(_) => WriteKeeps(a, act);
    case ReadScope(_) => ScopeKeeps(a, act);
    case List(_) => ListKeeps(a, act);
    case ReadNext(_) => NextKeeps(a, act);
    case Refresh(_) => RefreshKeeps(a, act);
    case _ =>
      StepCalm(a, act);
      CalmStep(a, act);
      StepGrows(a, act);
      CalmKeeps(a, Step(a, act));
  }

  lemma OrderlyIsAllowed(a: System, act: Action)
    requires Orderly(a, act)
    ensures Allowed(a, act)
  {
  }

  lemma CalmStep(a: System, act: Action)
    requires Allowed(a, act)
    requires !(act.Persist? || act.Complete? || act.Promote? || RankingAllowed(a, act))
    ensures var a' := Step(a, act);
            && a'.credits == a.credits && a'.refreshes == a.refreshes && a'.standings == a.standings && a'.files == a.files
  {
    hide RankingAllowed, RankingStep;
  }

  lemma NothingOutOfSync(scope: GameKey)
    ensures Sync(EMPTY, [], [], StandingAt(map[], scope), scope)
  {
    hide AllBuilt, Shape;
    EmptyShape(EMPTY, scope);
  }

  lemma StartIsCached()
    ensures Cached(START)
  {
    hide Sync;
    forall scope ensures Sync(EMPTY, [], [], StandingAt(map[], scope), scope) { NothingOutOfSync(scope); }
  }

  lemma {:induction false} OrderlyRunIsCached(acts: seq<Action>)
    requires OrderlyRun(acts)
    ensures Cached(Reached(acts))
  {
    hide Step, Orderly, Cached, Sound;
    if acts == [] {
      StartIsCached();
    } else {
      OrderlyRunIsCached(acts[..|acts| - 1]);
      RunIsSound(acts[..|acts| - 1]);
      StepKeepsCached(Reached(acts[..|acts| - 1]), acts[|acts| - 1]);
    }
  }

  // ----- The service's bot ids -----

  ghost predicate Trimmed(a: System) {
    && TrimmedQueue(a.q)
    && (forall job | job in a.jobs :: TrimmedPlayers(a.jobs[job].submission.players))
    && (forall i | 0 <= i < |a.credits| :: TrimmedPlayers(a.credits[i].s.players))
  }

  lemma SameRunsTrimmed(q: Queue, q': Queue)
    requires TrimmedQueue(q) && SameRuns(q, q') && q'.records.Keys == q.records.Keys
    ensures TrimmedQueue(q')
  {
    hide SameRun, TrimmedPlayers;
    forall id | id in q'.records ensures TrimmedPlayers(q'.records[id].submission.players) {
      SameRunFields(q.records[id].submission, q'.records[id].submission);
    }
  }

  lemma KnownTrimmed(q: Queue, s: Submission)
    requires TrimmedQueue(q) && s.runID in q.records && SameRun(s, q.records[s.runID].submission)
    ensures TrimmedPlayers(s.players)
  {
    hide SameRun, TrimmedPlayers;
    SameRunFields(s, q.records[s.runID].submission);
  }

  // In an orderly run every bot id is trimmed, so that the service methods do what the steps say.
  lemma {:induction false} OrderlyRunIsTrimmed(acts: seq<Action>)
    requires OrderlyRun(acts)
    ensures Trimmed(Reached(acts))
  {
    hide Step, Orderly, Stored, InSync, Owed, Sound, TrimmedPlayers, TrimmedQueue, Apart;
    if acts != [] {
      var front, act := acts[..|acts| - 1], acts[|acts| - 1];
      OrderlyRunIsTrimmed(front);
      RunIsSound(front);
      RunIsSound(acts);
      OrderlyRunIsCached(acts);
      StepTrimmed(Reached(front), act);
      CopiesTrimmed(Reached(acts));
    } else {
      StartIsTrimmed();
    }
  }

  lemma StartIsTrimmed()
    ensures Trimmed(START)
  {
  }

  lemma CopiesTrimmed(a: System)
    requires Sound(a) && Owed(a.q, a.credits) && TrimmedQueue(a.q)
    ensures Trimmed(a)
  {
    hide TrimmedPlayers, SameRun, TrimmedQueue, Indexed, Line, Lifecycle, Officials;
    forall job | job in a.jobs ensures TrimmedPlayers(a.jobs[job].submission.players) {
      KnownTrimmed(a.q, a.jobs[job].submission);
    }
    forall i | 0 <= i < |a.credits| ensures TrimmedPlayers(a.credits[i].s.players) {
      assert Due(a.q, a.credits[i]);
      KnownTrimmed(a.q, a.credits[i].s);
    }
  }

  lemma StepTrimmed(a: System, act: Action)
    requires Sound(a) && TrimmedQueue(a.q) && Orderly(a, act)
    ensures TrimmedQueue(Step(a, act).q)
  {
    hide TrimmedPlayers, WellFormed, Id.Trimming, Indexed, Line, Lifecycle, Officials, JobsKnown, Grows, SameRuns, Finished;
    hide Claimed, Updated, Renewed, Recovered, Promoted, Cancelled;
    OrderlyIsAllowed(a, act);
    if !(act.Submit? || act.Follow?) {
      hide Step;
      StepGrows(a, act);
      StepKeys(a, act);
      GrowsSameRuns(a.q, Step(a, act).q);
      SameRunsTrimmed(a.q, Step(a, act).q);
    }
  }

  lemma StepKeys(a: System, act: Action)
    requires Sound(a) && Allowed(a, act) && !(act.Submit? || act.Follow?)
    ensures Step(a, act).q.records.Keys == a.q.records.Keys
  {
    hide Indexed, Line, Lifecycle, Officials, JobsKnown, Filed, RankingStep, RankingAllowed, Finished, Filing;
    hide Claimed, Updated, Renewed, Recovered, Promoted, Cancelled, Refiled;
    match act
    case Cancel(runID) => CallKeys(a.q, Call.Cancel(runID));
    case Claim(_, workerID, now) => ClaimKeys(a.q, workerID, now);
    case Advance(job, to, now) => UpdateKeys(a.q, a.jobs[job].(state := to), now);
    case Persist(job, summary) => RefiledKeys(a.q, a.jobs[job].submission.runID, summary);
    case Complete(job, now) => UpdateKeys(a.q, Filing(Finished(a.jobs[job], a.results[job], a.q.records), a.files), now);
    case Heartbeat(runID, workerID, now) => CallKeys(a.q, Call.Heartbeat(runID, workerID, now));
    case Recover(now, runIDs) => CallKeys(a.q, Call.Recover(now, runIDs));
    case Promote(runID) => CallKeys(a.q, Call.Promote(runID));
    case _ =>
  }

  lemma CallKeys(q: Queue, c: Call)
    requires c.Cancel? || c.Heartbeat? || c.Recover? || c.Promote?
    ensures Call1(q, c).records.Keys == q.records.Keys
  {
  }

  lemma UpdateKeys(q: Queue, next: QueueRecord, now: int)
    ensures After(q, Updated(q, next, now)).records.Keys == q.records.Keys
  {
  }

  lemma RefiledKeys(q: Queue, id: Id, summary: Summary)
    ensures Refiled(q, id, summary).records.Keys == q.records.Keys
  {
  }

  lemma ClaimKeys(q: Queue, workerID: Id, now: int)
    ensures Claimed(q, workerID, now).0.records.Keys == q.records.Keys
  {
    hide Id.Blank;
    FirstWaitingQueued(q.order, q.records);
  }

  // ----- The stored ranking counts what a recompute counts -----

  // Nothing is pending for the scope: no worker has a completed run of it left to credit, and no
  // promotion has its refresh still to come or under way.
  ghost predicate Quiet(a: System, scope: GameKey) {
    && (forall i | 0 <= i < |a.credits| :: CreditScope(a.credits[i]) != scope)
    && !Exempt(a.refreshes, a.files, scope) && forall k :: !CountOpen(a.refreshes, k, scope)
  }

  ghost predicate SameStanding(st: Standing, st': Standing) {
    SameCounts(st.table, st'.table) && multiset(st.runs) == multiset(st'.runs) && multiset(st.matches) == multiset(st'.matches)
  }

  // If a recompute of the scope succeeds, the stored standing holds the same runs and matches, and
  // for every bot the same matches played, first places and placement counts.
  ghost predicate Faithful(a: System, scope: GameKey) {
    match Recomputation(a.q, scope)
    case Ok(recomputed) => SameStanding(StandingAt(a.standings, scope), recomputed)
    case Err(_) => true
  }

  lemma QuietExpectsNothing(a: System, scope: GameKey, id: Id)
    requires Quiet(a, scope) && Owed(a.q, a.credits) && Elig(a.q, scope, id)
    ensures !Expected(a.q, a.credits, id)
  {
    hide NormalizeScope, HasBotIdentity, Built, UpdatesAlike, SameRun;
    forall i | 0 <= i < |a.credits| && a.credits[i].s.runID == id && Expected(a.q, a.credits, id) ensures false {
      assert Due(a.q, a.credits[i]);
      SameRunFields(a.credits[i].s, a.q.records[id].submission);
    }
  }

  lemma QuietIsFaithful(a: System, scope: GameKey)
    requires Sound(a) && Cached(a) && Quiet(a, scope) && scope == NormalizeScope(scope)
    ensures Faithful(a, scope)
  {
    hide Shape, Elig, NormalizeScope, Recomputation, Owed, Terminals, Officials, Indexed, Line, Lifecycle, JobsKnown, Filed;
    hide AllBuilt, Expected, Stored, SameCounts, Exempt, Proper, Apart, StandingAt, CountOpen;
    var stored := StandingAt(a.standings, scope);
    SoundTerminals(a);
    RecomputedShape(a.q, scope);
    if Recomputation(a.q, scope).Ok? {
      var recomputed := Recomputation(a.q, scope).value;
      assert InStep(a, scope);
      ShapeIsBuilt(a.q, recomputed, scope);
      forall id ensures id in stored.runs <==> id in recomputed.runs {
        if Elig(a.q, scope, id) { QuietExpectsNothing(a, scope, id); }
      }
      SameRunsSameCounts(a.q, stored, recomputed);
    }
  }

  /**
    In every orderly run of any length, for every scope with nothing pending. Submissions may name
    matches that are known, under any game and with any players; runners may report any game; leases
    may expire and be recovered under live passes; credits and refreshes may come between any other
    calls, and between the calls of one another as far as they are of different scopes.
  */
  lemma StoredRankingIsRecomputed(acts: seq<Action>, scope: GameKey)
    requires OrderlyRun(acts) && scope == NormalizeScope(scope) && Quiet(Reached(acts), scope)
    ensures Faithful(Reached(acts), scope)
  {
    hide Run, Reached, Quiet, NormalizeScope, Sound, Cached, Faithful, Orderly;
    OrderlyRunIsCached(acts);
    OrderlyIsRun(acts);
    RunIsSound(acts);
    QuietIsFaithful(Reached(acts), scope);
  }

  lemma OrderlyIsRun(acts: seq<Action>)
    requires OrderlyRun(acts)
    ensures Run(acts)
  {
    hide Orderly, Reached;
  }
}
