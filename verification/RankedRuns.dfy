/**
  The standing of one scope seen from the queue: which runs a recompute reads, what their updates
  add up to, and when two standings count the same (internal/platform/service/ranking.go).
*/
module RankedRuns {
  import opened Identifiers
  import opened MatchResults
  import opened RunTypes
  import opened RunQueue
  import opened QueueInvariants
  import opened Ranking
  import opened RankingLifecycle
  import opened Arena

  // ----- The update of a run -----

  predicate Built(r: QueueRecord) { r.terminal.Some? && BuiltUpdate(r.submission, r.terminal.value).Ok? }

  const NO_UPDATE := Update.Update(GameKey(NO_ID, NO_ID, NO_ID), NO_ID, NO_ID, MatchFailed, [])

  function UpdateOf(r: QueueRecord): Update {
    if Built(r) then BuiltUpdate(r.submission, r.terminal.value).value else NO_UPDATE
  }

  ghost function UpdatesOf(q: Queue, ids: seq<Id>): seq<Update> {
    seq(|ids|, i requires 0 <= i < |ids| => if ids[i] in q.records then UpdateOf(q.records[ids[i]]) else NO_UPDATE)
  }

  predicate SameScope(r: QueueRecord, s: QueueRecord) {
    && r.terminal.Some? && s.terminal.Some?
    && NormalizeScope(r.terminal.value.game) == NormalizeScope(s.terminal.value.game)
  }

  // The same run and match, and the same bots at the same places, in whatever order.
  ghost predicate UpdatesAlike(u: Update, v: Update) {
    u.runID == v.runID && u.matchID == v.matchID && Points(u.placements) == Points(v.placements)
  }

  // Two records that a ranking cannot tell apart by what they count.
  ghost predicate Alike(r: QueueRecord, s: QueueRecord) {
    SameScope(r, s) && (Built(r) <==> Built(s)) && UpdatesAlike(UpdateOf(r), UpdateOf(s))
  }

  lemma RunsUpdate(r: QueueRecord)
    requires Built(r)
    ensures UpdateOf(r).runID == r.submission.runID && UpdateOf(r).matchID == r.terminal.value.matchID
    ensures UpdateOf(r).scope == NormalizeScope(r.terminal.value.game) && ValidScope(UpdateOf(r).scope)
  {
    hide BuiltUpdate, NormalizeScope;
    BuiltScope(r.submission, r.terminal.value);
  }

  lemma SameRunBuilds(r: QueueRecord, s: QueueRecord)
    requires SameRun(r.submission, s.submission) && r.terminal == s.terminal
    ensures Built(r) <==> Built(s)
    ensures UpdateOf(r) == UpdateOf(s)
  {
    hide NormalizeScope, RankPlacements, PlayersByID, Id.Blank;
    assert r.submission.runID == s.submission.runID && r.submission.players == s.submission.players;
  }

  lemma SameTerminalAlike(r: QueueRecord, s: QueueRecord)
    requires SameRun(r.submission, s.submission) && r.terminal == s.terminal && r.terminal.Some?
    ensures Alike(r, s)
  {
    hide Built, UpdateOf, NormalizeScope, SameRun;
    SameRunBuilds(r, s);
  }

  // ----- Equal points are equal bots -----

  lemma {:induction false} PointsSplit(left: seq<RankedPlacement>, p: RankedPlacement, right: seq<RankedPlacement>)
    ensures Points(left + [p] + right) == Points(left + right) + multiset{(p.botID, p.place)}
  {
    if right == [] {
      assert left + [p] + right == left + [p] && left + right == left && (left + [p])[..|left|] == left;
    } else {
      var front, last := right[..|right| - 1], right[|right| - 1];
      PointsSplit(left, p, front);
      SplitEnds(left, p, right);
    }
  }

  lemma {:induction false} BotsSplit(left: seq<RankedPlacement>, p: RankedPlacement, right: seq<RankedPlacement>)
    ensures Bots(left + [p] + right) == Bots(left + right) + multiset{p.botID}
  {
    if right == [] {
      assert left + [p] + right == left + [p] && left + right == left && (left + [p])[..|left|] == left;
    } else {
      var front, last := right[..|right| - 1], right[|right| - 1];
      BotsSplit(left, p, front);
      SplitEnds(left, p, right);
    }
  }

  lemma SplitEnds(left: seq<RankedPlacement>, p: RankedPlacement, right: seq<RankedPlacement>)
    requires right != []
    ensures var whole, rest := left + [p] + right, left + right;
            && whole[..|whole| - 1] == left + [p] + right[..|right| - 1] && whole[|whole| - 1] == right[|right| - 1]
            && rest[..|rest| - 1] == left + right[..|right| - 1] && rest[|rest| - 1] == right[|right| - 1]
  {
  }

  lemma {:induction false} PointsSize(ps: seq<RankedPlacement>)
    ensures |Points(ps)| == |ps|
  {
    if ps != [] { PointsSize(ps[..|ps| - 1]); }
  }

  lemma {:induction false} PointHolder(ps: seq<RankedPlacement>, bot: Id, place: int) returns (i: nat)
    requires (bot, place) in Points(ps)
    ensures i < |ps| && ps[i].botID == bot && ps[i].place == place
  {
    var n := |ps| - 1;
    if ps[n].botID == bot && ps[n].place == place { return n; }
    i := PointHolder(ps[..n], bot, place);
  }

  lemma {:induction false} PointsGiveBots(ps: seq<RankedPlacement>, ps': seq<RankedPlacement>)
    requires Points(ps) == Points(ps')
    ensures Bots(ps) == Bots(ps')
    decreases |ps|
  {
    hide Points, Bots;
    PointsSize(ps);
    PointsSize(ps');
    if ps == [] {
      assert ps' == [];
    } else {
      var front, p := ps[..|ps| - 1], ps[|ps| - 1];
      LastPlacement(ps);
      var i := PointHolder(ps', p.botID, p.place);
      var left, right := ps'[..i], ps'[i + 1..];
      assert ps' == left + [ps'[i]] + right;
      PointsSplit(left, ps'[i], right);
      BotsSplit(left, ps'[i], right);
      CancelPoint(Points(front), Points(left + right), (p.botID, p.place));
      PointsGiveBots(front, left + right);
    }
  }

  lemma LastPlacement(ps: seq<RankedPlacement>)
    requires ps != []
    ensures var front, p := ps[..|ps| - 1], ps[|ps| - 1];
            Points(ps) == Points(front) + multiset{(p.botID, p.place)} && Bots(ps) == Bots(front) + multiset{p.botID}
  {
  }

  lemma CancelPoint(a: multiset<(Id, int)>, b: multiset<(Id, int)>, x: (Id, int))
    requires a + multiset{x} == b + multiset{x}
    ensures a == b
  {
    assert a == a + multiset{x} - multiset{x} && b == b + multiset{x} - multiset{x};
  }

  lemma {:induction false} AlikeTotals(us: seq<Update>, vs: seq<Update>)
    requires |us| == |vs| && forall i | 0 <= i < |us| :: UpdatesAlike(us[i], vs[i])
    ensures Total(us) == Total(vs)
  {
    hide UpdatesAlike, Plus;
    if us != [] {
      var n := |us| - 1;
      AlikeTotals(us[..n], vs[..n]);
      AlikePlus(Total(us[..n]), us[n], vs[n]);
    }
  }

  lemma AlikePlus(t: Totals, u: Update, v: Update)
    requires UpdatesAlike(u, v)
    ensures Plus(t, u) == Plus(t, v)
  {
    hide Points, Bots;
    PointsGiveBots(u.placements, v.placements);
  }

  lemma AlikeIds(us: seq<Update>, vs: seq<Update>)
    requires |us| == |vs| && forall i | 0 <= i < |us| :: UpdatesAlike(us[i], vs[i])
    ensures RunsOf(us) == RunsOf(vs) && MatchesOf(us) == MatchesOf(vs)
  {
    hide Points, Bots;
  }

  // ----- The standing of one scope -----

  ghost predicate Elig(q: Queue, scope: GameKey, id: Id) { id in q.records && Eligible(q.records[id], scope) }

  ghost predicate AllBuilt(q: Queue, scope: GameKey) { forall id | Elig(q, scope, id) :: Built(q.records[id]) }

  ghost predicate Settles(q: Queue, id: Id) {
    id in q.records && q.records[id].state.Completed? && Built(q.records[id])
  }

  // The standing is exactly what its runs' updates, each run and match once, add up to.
  ghost predicate Shape(q: Queue, st: Standing) {
    && (forall id | id in st.runs :: Settles(q, id))
    && Holds(st, UpdatesOf(q, st.runs))
  }

  // A completed run has a summary, of its own match.
  ghost predicate Terminals(q: Queue) {
    forall id | id in q.records && q.records[id].state.Completed? ::
      q.records[id].terminal.Some? && q.records[id].terminal.value.matchID == q.records[id].submission.matchID
  }

  lemma HoldsAlike(st: Standing, us: seq<Update>, vs: seq<Update>)
    requires Holds(st, us) && |us| == |vs| && forall i | 0 <= i < |us| :: UpdatesAlike(us[i], vs[i])
    ensures Holds(st, vs)
  {
    hide UpdatesAlike, Counts, RunsOf, MatchesOf, Total;
    AlikeTotals(us, vs);
    AlikeIds(us, vs);
  }

  // A standing stays what it is when its runs are replaced by records that count alike.
  lemma AlikeShape(q: Queue, q': Queue, st: Standing)
    requires Shape(q, st)
    requires forall id | id in st.runs :: Settles(q', id) && (id in q.records ==> Alike(q.records[id], q'.records[id]))
    ensures Shape(q', st)
  {
    hide Built, UpdateOf, Holds, SameScope, UpdatesAlike;
    var us, vs := UpdatesOf(q, st.runs), UpdatesOf(q', st.runs);
    forall i | 0 <= i < |us| ensures UpdatesAlike(us[i], vs[i]) {
      assert st.runs[i] in st.runs;
      assert Settles(q, st.runs[i]);
    }
    HoldsAlike(st, us, vs);
  }

  // A stored match is the match of a stored run.
  lemma StoredMatches(q: Queue, st: Standing, matchID: Id)
    requires Shape(q, st) && Terminals(q)
    ensures matchID in st.matches <==> exists id :: id in st.runs && q.records[id].submission.matchID == matchID
  {
    hide Counts, Separate, Built, BuiltUpdate, NormalizeScope, UpdateOf;
    var us := UpdatesOf(q, st.runs);
    assert |st.runs| == |us| == |st.matches|;
    forall i | 0 <= i < |st.runs|
      ensures st.runs[i] in q.records && st.matches[i] == q.records[st.runs[i]].submission.matchID
    {
      assert Settles(q, st.runs[i]);
      RunsUpdate(q.records[st.runs[i]]);
      assert st.matches[i] == us[i].matchID;
    }
    if matchID in st.matches {
      var i :| 0 <= i < |st.matches| && st.matches[i] == matchID;
      assert st.runs[i] in st.runs;
    }
  }

  lemma UpdatesSnoc(q: Queue, ids: seq<Id>, id: Id)
    requires id in q.records
    ensures UpdatesOf(q, ids + [id]) == UpdatesOf(q, ids) + [UpdateOf(q.records[id])]
  {
    hide UpdateOf;
  }

  // Crediting an update that counts like the run's own.
  lemma AppliedShape(q: Queue, st: Standing, id: Id, u: Update)
    requires Shape(q, st) && Settles(q, id) && q.records[id].submission.runID == id
    requires UpdatesAlike(u, UpdateOf(q.records[id]))
    ensures Applied(st, u).scope == st.scope && Shape(q, Applied(st, u))
    ensures if id in st.runs || u.matchID in st.matches then Applied(st, u) == st
            else Applied(st, u).runs == st.runs + [id]
  {
    hide Counts, Separate, Built, UpdateOf, NormalizeTable, TallyAll, RunsOf, MatchesOf, Total, UpdatesOf, NormalizeScope;
    hide Points, Bots;
    var us, v := UpdatesOf(q, st.runs), UpdateOf(q.records[id]);
    RunsUpdate(q.records[id]);
    AppliedHolds(st, us, u);
    assert st.runs == RunsOf(us) && st.matches == MatchesOf(us);
    UpdatesSnoc(q, st.runs, id);
    if !(id in st.runs || u.matchID in st.matches) {
      hide Applied, UpdatesAlike;
      SelfAlike(us);
      HoldsAlike(Applied(st, u), us + [u], us + [v]);
    }
    hide Holds;
  }

  lemma UpdateSelf(u: Update)
    ensures UpdatesAlike(u, u)
  {
  }

  lemma SelfAlike(us: seq<Update>)
    ensures forall i | 0 <= i < |us| :: UpdatesAlike(us[i], us[i])
  {
  }

  // ----- Recomputing a scope -----

  // The runs a recompute reads among the first n, in submission order.
  ghost function EligibleIn(q: Queue, scope: GameKey, n: nat): seq<Id>
    requires n <= |q.all|
  {
    if n == 0 then []
    else EligibleIn(q, scope, n - 1) + if Elig(q, scope, q.all[n - 1]) then [q.all[n - 1]] else []
  }

  lemma {:induction false} EligibleMembers(q: Queue, scope: GameKey, n: nat)
    requires n <= |q.all|
    ensures forall id :: id in EligibleIn(q, scope, n) <==> id in q.all[..n] && Elig(q, scope, id)
  {
    hide Elig;
    if n > 0 {
      EligibleMembers(q, scope, n - 1);
      assert q.all[..n] == q.all[..n - 1] + [q.all[n - 1]];
    }
  }

  // A recompute succeeds exactly when every run it reads can be credited, and then holds those
  // runs, each once: no two of them share a match, because a match has one official run.
  lemma {:induction false} RecomputePrefix(q: Queue, scope: GameKey, n: nat)
    requires Indexed(q) && Officials(q) && Terminals(q) && n <= |q.all|
    ensures match RecomputeFrom(Listed(q.all[..n], q.records), scope)
            case Ok(st) => Shape(q, st) && st.runs == EligibleIn(q, scope, n)
            case Err(_) => !AllBuilt(q, scope)
  {
    hide Shape, AllBuilt, Indexed, Officials, Terminals, RecomputeStep, Elig;
    if n == 0 {
      EmptyShape(q, scope);
    } else {
      RecomputePrefix(q, scope, n - 1);
      ListedNext(q, n);
      var before := RecomputeFrom(Listed(q.all[..n - 1], q.records), scope);
      if before.Ok? { RecomputeOne(q, scope, n, before.value); }
    }
  }

  lemma EmptyShape(q: Queue, scope: GameKey)
    ensures Shape(q, NewStanding(scope))
  {
    NewHolds(scope);
    assert UpdatesOf(q, []) == [];
  }

  lemma ListedNext(q: Queue, n: nat)
    requires Indexed(q) && 0 < n <= |q.all|
    ensures q.all[n - 1] in q.records
    ensures var front := Listed(q.all[..n - 1], q.records);
            && Listed(q.all[..n], q.records) == front + [q.records[q.all[n - 1]]]
            && (front + [q.records[q.all[n - 1]]])[..|front|] == front
  {
    assert q.all[..n] == q.all[..n - 1] + [q.all[n - 1]];
    ListedAppend(q.all[..n - 1], [q.all[n - 1]], q.records);
    assert q.all[n - 1] in q.all && [q.all[n - 1]][1..] == [];
  }

  lemma RecomputeOne(q: Queue, scope: GameKey, n: nat, st: Standing)
    requires Indexed(q) && Officials(q) && Terminals(q) && 0 < n <= |q.all| && q.all[n - 1] in q.records
    requires Shape(q, st) && st.scope == scope && st.runs == EligibleIn(q, scope, n - 1)
    ensures match RecomputeStep(st, q.records[q.all[n - 1]])
            case Ok(next) => Shape(q, next) && next.runs == EligibleIn(q, scope, n)
            case Err(_) => !AllBuilt(q, scope)
  {
    hide Shape, BuiltUpdate, NormalizeScope, HasBotIdentity, Terminals, Officials, Applied;
    var id := q.all[n - 1];
    var r := q.records[id];
    if Elig(q, scope, id) {
      if Built(r) {
        assert Settles(q, id);
        assert BuiltUpdate(r.submission, r.terminal.value) == Ok(UpdateOf(r));
        AppliedShape(q, st, id, UpdateOf(r));
        NotYetStored(q, scope, n, st);
      } else {
        assert !AllBuilt(q, scope);
      }
    } else {
      assert EligibleIn(q, scope, n) == EligibleIn(q, scope, n - 1);
    }
  }

  lemma NotYetStored(q: Queue, scope: GameKey, n: nat, st: Standing)
    requires Indexed(q) && Officials(q) && Terminals(q) && 0 < n <= |q.all|
    requires Shape(q, st) && st.runs == EligibleIn(q, scope, n - 1)
    requires Elig(q, scope, q.all[n - 1]) && Built(q.records[q.all[n - 1]])
    ensures q.all[n - 1] !in st.runs && UpdateOf(q.records[q.all[n - 1]]).matchID !in st.matches
  {
    hide Shape, UpdateOf, Built, NormalizeScope, HasBotIdentity, EligibleIn;
    var id := q.all[n - 1];
    EligibleMembers(q, scope, n - 1);
    RunsUpdate(q.records[id]);
    StoredMatches(q, st, q.records[id].submission.matchID);
    hide Terminals, Elig, Officials;
    assert q.all[..n] == q.all[..n - 1] + [id];
    DistinctTake(q.all, n);
    DistinctAppend(q.all[..n - 1], [id]);
    forall other | other in st.runs ensures q.records[other].submission.matchID != q.records[id].submission.matchID {
      assert Elig(q, scope, other) && other != id;
      OfficialOnce(q, scope, other, id);
    }
  }

  lemma OfficialOnce(q: Queue, scope: GameKey, id: Id, other: Id)
    requires Officials(q) && Elig(q, scope, id) && Elig(q, scope, other) && id != other
    ensures q.records[id].submission.matchID != q.records[other].submission.matchID
  {
    hide NormalizeScope, HasBotIdentity;
  }

  lemma RecomputedShape(q: Queue, scope: GameKey)
    requires Indexed(q) && Officials(q) && Terminals(q) && scope == NormalizeScope(scope)
    ensures match Recomputation(q, scope)
            case Ok(st) => Shape(q, st) && st.scope == scope && ValidScope(scope)
                           && forall id :: id in st.runs <==> Elig(q, scope, id)
            case Err(_) => !ValidScope(scope) || !AllBuilt(q, scope)
  {
    hide Shape, AllBuilt, Officials, Terminals, NormalizeScope, Elig;
    RecomputePrefix(q, scope, |q.all|);
    EligibleMembers(q, scope, |q.all|);
    assert q.all[..|q.all|] == q.all;
    forall id | Elig(q, scope, id) ensures id in q.all { EligListed(q, scope, id); }
  }

  lemma EligListed(q: Queue, scope: GameKey, id: Id)
    requires Indexed(q) && Elig(q, scope, id)
    ensures id in q.all
  {
  }

  // ----- Standings that count the same -----

  lemma {:induction false} SameRunsSameUpdates(q: Queue, a: seq<Id>, b: seq<Id>)
    requires multiset(a) == multiset(b)
    ensures multiset(UpdatesOf(q, a)) == multiset(UpdatesOf(q, b))
  {
    hide UpdateOf;
    assert |a| == |multiset(a)| == |multiset(b)| == |b|;
    if a != [] {
      var front, id := a[..|a| - 1], a[|a| - 1];
      assert a == front + [id];
      assert id in multiset(b);
      var i :| 0 <= i < |b| && b[i] == id;
      var left, right := b[..i], b[i + 1..];
      assert b == left + [id] + right;
      CancelOne(front, left, right, id);
      SameRunsSameUpdates(q, front, left + right);
      UpdatesSplit(q, front, id, []);
      UpdatesSplit(q, left, id, right);
      assert front + [id] + [] == a && UpdatesOf(q, []) == [];
      hide UpdatesOf;
      var u := UpdatesOf(q, [id]);
      assert multiset(UpdatesOf(q, left) + u + UpdatesOf(q, right))
          == multiset(UpdatesOf(q, left) + UpdatesOf(q, right)) + multiset(u);
    } else {
      assert UpdatesOf(q, a) == UpdatesOf(q, b);
    }
  }

  lemma UpdatesSplit(q: Queue, left: seq<Id>, id: Id, right: seq<Id>)
    ensures UpdatesOf(q, left + right) == UpdatesOf(q, left) + UpdatesOf(q, right)
    ensures UpdatesOf(q, left + [id] + right) == UpdatesOf(q, left) + UpdatesOf(q, [id]) + UpdatesOf(q, right)
  {
    hide UpdateOf;
  }

  lemma SameSetSameMultiset(a: seq<Id>, b: seq<Id>)
    requires Distinct(a) && Distinct(b) && forall id :: id in a <==> id in b
    ensures multiset(a) == multiset(b)
  {
    DistinctIsCountedOnce(a);
    DistinctIsCountedOnce(b);
    forall id ensures multiset(a)[id] == multiset(b)[id] {
      assert id in a <==> multiset(a)[id] > 0;
      assert id in b <==> multiset(b)[id] > 0;
    }
  }

  // Two standings of the same runs count the same.
  lemma SameRunsSameCounts(q: Queue, a: Standing, b: Standing)
    requires Shape(q, a) && Shape(q, b) && forall id :: id in a.runs <==> id in b.runs
    ensures SameCounts(a.table, b.table)
    ensures multiset(a.runs) == multiset(b.runs) && multiset(a.matches) == multiset(b.matches)
  {
    var us, vs := UpdatesOf(q, a.runs), UpdatesOf(q, b.runs);
    assert Distinct(a.runs) && Distinct(b.runs);
    SameSetSameMultiset(a.runs, b.runs);
    SameRunsSameUpdates(q, a.runs, b.runs);
    TotalIsOrderFree(us, vs);
    TotalCountsIds(us);
    TotalCountsIds(vs);
    hide Counts, UpdatesOf, Total, Separate, RunsOf;
    SameTotalsSameCounts(a.table, b.table, Total(us).points, Total(us).bots);
  }

  lemma ShapeIsBuilt(q: Queue, st: Standing, scope: GameKey)
    requires Shape(q, st) && forall id :: id in st.runs <==> Elig(q, scope, id)
    ensures AllBuilt(q, scope)
  {
    hide Elig, Built, Holds;
    forall id | Elig(q, scope, id) ensures id in q.records && Built(q.records[id]) {
      assert id in st.runs;
      assert Settles(q, id);
    }
  }
}
