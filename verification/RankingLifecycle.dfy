/**
  The ranking service (internal/platform/service/ranking.go): the stored snapshots, credited one
  completed run at a time, and the recompute from the queue that they are a cache of.
*/
module RankingLifecycle {
  import opened Identifiers
  import opened MatchResults
  import opened RunTypes
  import opened RunQueue
  import opened Ranking
  import opened RankingSnapshots

  // ----- What the calls do to the stored standings -----

  type Standings = map<GameKey, Standing>

  function StandingAt(standings: Standings, scope: GameKey): Standing {
    if scope in standings then standings[scope] else NewStanding(scope)
  }

  function Put(standings: Standings, st: Standing): Standings { standings[st.scope := st] }

  // What a standing says about runs and matches, whatever its entries.
  ghost function Book(st: Standing): (seq<Id>, seq<Id>) { (st.runs, st.matches) }

  ghost function Ledger(standings: Standings): map<GameKey, (seq<Id>, seq<Id>)> {
    map scope | scope in standings :: Book(standings[scope])
  }

  function CreditRun(standings: Standings, s: Submission, summary: Summary): (Standings, Outcome<()>) {
    if !s.official || !HasBotIdentity(s) then (standings, Ok(()))
    else match BuiltUpdate(s, summary)
      case Err(e) => (standings, Err(e))
      case Ok(u) => (standings[u.scope := Applied(StandingAt(standings, u.scope), u)], Ok(()))
  }

  function Recomputation(q: Queue, scope: GameKey): Outcome<Standing> {
    if !ValidScope(NormalizeScope(scope)) then Err(BadRequest)
    else RecomputeFrom(Listed(q.all, q.records), NormalizeScope(scope))
  }

  function RefreshScope(standings: Standings, q: Queue, scope: GameKey): (Standings, Outcome<()>) {
    match Recomputation(q, scope)
    case Err(e) => (standings, Err(e))
    case Ok(st) => (Put(standings, st), Ok(()))
  }

  // ----- Bot ids without surrounding blanks -----

  predicate TrimmedPlayers(players: seq<SubmittedPlayer>) {
    forall i | 0 <= i < |players| :: players[i].botID.Trimmed()
  }

  ghost predicate TrimmedQueue(q: Queue) {
    forall id | id in q.records :: TrimmedPlayers(q.records[id].submission.players)
  }

  lemma {:induction false} PlayersByIDTrimmed(players: seq<SubmittedPlayer>)
    requires TrimmedPlayers(players)
    ensures forall p | p in PlayersByID(players) :: PlayersByID(players)[p].botID.Trimmed()
  {
    if players != [] { PlayersByIDTrimmed(players[..|players| - 1]); }
  }

  ghost predicate AllTrimmed(placements: seq<RankedPlacement>) {
    forall p | p in placements :: p.botID.Trimmed()
  }

  lemma {:induction false} RankedTrimmed(placements: seq<Placement>, byID: map<Id, SubmittedPlayer>, seen: set<Id>)
    requires forall p | p in byID :: byID[p].botID.Trimmed()
    ensures RankPlacements(placements, byID, seen).Ok? ==> AllTrimmed(RankPlacements(placements, byID, seen).value)
  {
    hide Id.Blank;
    if placements != [] { RankedTrimmed(placements[1..], byID, seen + {placements[0].playerID}); }
  }

  lemma BuiltPlacements(s: Submission, summary: Summary)
    ensures BuiltUpdate(s, summary).Ok? ==>
              RankPlacements(summary.placements, PlayersByID(s.players), {})
                == Ok(BuiltUpdate(s, summary).value.placements)
  {
    hide NormalizeScope, Id.Blank, RankPlacements, PlayersByID;
  }

  lemma BuiltTrimmed(s: Submission, summary: Summary)
    requires TrimmedPlayers(s.players)
    ensures match BuiltUpdate(s, summary) case Ok(u) => TrimmedBots(u) case Err(_) => true
  {
    hide NormalizeScope, Id.Blank, Id.Trimmed, PlayersByID, RankPlacements, ValidScope;
    PlayersByIDTrimmed(s.players);
    BuiltPlacements(s, summary);
    RankedTrimmed(summary.placements, PlayersByID(s.players), {});
  }

  // ----- Building an update -----

  function Joined(front: seq<RankedPlacement>, rest: Outcome<seq<RankedPlacement>>): Outcome<seq<RankedPlacement>> {
    match rest case Ok(more) => Ok(front + more) case Err(e) => Err(e)
  }

  lemma JoinedEmpty(rest: Outcome<seq<RankedPlacement>>)
    ensures Joined([], rest) == rest
  {
    if rest.Ok? { assert [] + rest.value == rest.value; }
  }

  lemma JoinedStep(front: seq<RankedPlacement>, p: RankedPlacement, rest: Outcome<seq<RankedPlacement>>)
    ensures Joined(front, Joined([p], rest)) == Joined(front + [p], rest)
  {
    if rest.Ok? { assert front + ([p] + rest.value) == (front + [p]) + rest.value; }
  }

  /** internal/platform/service/ranking.go:391-443 */
  method BuildUpdate(s: Submission, summary: Summary) returns (r: Outcome<Update>)
    ensures r == BuiltUpdate(s, summary)
  {
    hide NormalizeScope, Id.Blank, ValidScope;
    var scope := NormalizeScope(summary.game);
    if !ValidScope(scope) { return Err(BadRequest); }
    if !summary.status.MatchCompleted? || s.runID.Blank() || summary.matchID.Blank() { return Err(BadRequest); }
    if summary.placements == [] { return Err(BadRequest); }
    var playerByID: map<Id, SubmittedPlayer> := map[];
    for i := 0 to |s.players|
      invariant playerByID == PlayersByID(s.players[..i])
    {
      assert s.players[..i + 1][..i] == s.players[..i];
      playerByID := playerByID[s.players[i].playerID := s.players[i]];
    }
    assert s.players[..|s.players|] == s.players;
    var seen: set<Id> := {};
    var placements: seq<RankedPlacement> := [];
    ghost var all := RankPlacements(summary.placements, playerByID, {});
    JoinedEmpty(all);
    for i := 0 to |summary.placements|
      invariant all == Joined(placements, RankPlacements(summary.placements[i..], playerByID, seen))
    {
      var p := summary.placements[i];
      assert summary.placements[i..][0] == p && summary.placements[i..][1..] == summary.placements[i + 1..];
      if p.place <= 0 || p.playerID !in playerByID || p.playerID in seen { return Err(BadRequest); }
      var player := playerByID[p.playerID];
      if player.botID.Blank() { return Err(BadRequest); }
      JoinedStep(placements, RankedPlacement(player.botID, player.botName, p.playerID, p.place),
                 RankPlacements(summary.placements[i + 1..], playerByID, seen + {p.playerID}));
      seen := seen + {p.playerID};
      placements := placements + [RankedPlacement(player.botID, player.botName, p.playerID, p.place)];
    }
    assert placements + [] == placements;
    return Ok(Update(scope, s.runID, summary.matchID, summary.status, placements));
  }

  // ----- Comparing placement counts -----

  ghost predicate NoZeroCount(counts: map<int, int>) { forall place | place in counts :: counts[place] != 0 }

  /** internal/platform/service/ranking.go:586-596 */
  method EqualPlacementCounts(left: map<int, int>, right: map<int, int>) returns (equal: bool)
    ensures equal <==> |left| == |right| && forall place | place in left :: Count(right, place) == left[place]
    ensures NoZeroCount(left) ==> (equal <==> left == right)
  {
    if |left| != |right| { return false; }
    var rest := left.Keys;
    while rest != {}
      invariant rest <= left.Keys
      invariant forall place | place in left && place !in rest :: Count(right, place) == left[place]
      decreases rest
    {
      NonEmpty(rest);
      var place :| place in rest;
      if Count(right, place) != left[place] { return false; }
      rest := rest - {place};
    }
    if NoZeroCount(left) { SameSizeCounts(left, right); }
    return true;
  }

  lemma SameSizeCounts(left: map<int, int>, right: map<int, int>)
    requires |left| == |right| && NoZeroCount(left)
    requires forall place | place in left :: Count(right, place) == left[place]
    ensures left == right
  {
    forall place | place in left.Keys ensures place in right.Keys {
      assert Count(right, place) == left[place];
    }
    SameSizeSubset(left.Keys, right.Keys);
    forall place | place in left ensures left[place] == right[place] { assert Count(right, place) == left[place]; }
  }

  lemma SameSizeSubset(a: set<int>, b: set<int>)
    requires a <= b && |a| == |b|
    ensures a == b
  {
    assert |b - a| == 0;
    assert b == a + (b - a);
  }

  // The condition is exact: a zero count can be swapped for a missing place unnoticed.
  lemma ZeroCountGoesUnnoticed(left: map<int, int>, place: int, elsewhere: int)
    requires place in left && left[place] == 0 && elsewhere !in left
    ensures exists right :: right != left && |right| == |left|
              && forall at | at in left :: Count(right, at) == left[at]
  {
    var right := (left - {place})[elsewhere := 0];
    assert elsewhere in right && right != left;
    assert right.Keys == left.Keys - {place} + {elsewhere};
    assert |right| == |right.Keys| == |left.Keys - {place}| + 1;
  }

  // ----- The service -----

  ghost function StandingsOf(store: map<GameKey, Snapshot>): Standings {
    map scope | scope in store :: StandingOf(store[scope])
  }

  ghost predicate KeyedIn(store: map<GameKey, Snapshot>) {
    forall scope | scope in store :: Normal(store[scope]) && WellKeyed(store[scope].entries)
  }

  lemma StoredOnce(store: map<GameKey, Snapshot>, s: Snapshot)
    ensures StandingsOf(store[s.scope := s]) == Put(StandingsOf(store), StandingOf(s))
    ensures KeyedIn(store) && Normal(s) && WellKeyed(s.entries) ==> KeyedIn(store[s.scope := s])
  {
    hide TableOf, Normal, WellKeyed;
  }

  class RankingService {
    const queue: InMemoryQueueStore
    var store: map<GameKey, Snapshot>

    // Each snapshot is stored under its own, normalized scope.
    ghost predicate Valid()
      reads this
    {
      forall scope | scope in store :: store[scope].scope == scope == NormalizeScope(scope)
    }

    // One entry per bot, as long as bot ids come without surrounding blanks.
    ghost predicate Keyed()
      reads this
    {
      KeyedIn(store)
    }

    ghost function Standings(): Standings
      reads this
    {
      StandingsOf(store)
    }

    constructor (queue: InMemoryQueueStore)
      ensures Valid() && Keyed() && this.queue == queue && Standings() == map[]
    {
      this.queue := queue;
      store := map[];
    }

    // The stored snapshot of a normalized scope, or a new one.
    method Load(scope: GameKey) returns (snapshot: Snapshot)
      requires Valid() && scope == NormalizeScope(scope)
      ensures snapshot.scope == scope && Book(StandingOf(snapshot)) == Book(StandingAt(Standings(), scope))
      ensures Keyed() ==> WellKeyed(snapshot.entries) && StandingOf(snapshot) == StandingAt(Standings(), scope)
    {
      hide NormalizeScope, TableOf, BotsOf;
      if scope in store {
        snapshot := NormalizeSnapshot(store[scope]);
      } else {
        BotsOfNothing();
        snapshot := NewSnapshot(scope);
      }
    }

    method Save(snapshot: Snapshot) returns (r: Outcome<()>)
      requires Valid() && snapshot.scope == NormalizeScope(snapshot.scope)
      modifies this
      ensures Valid()
      ensures if !ValidScope(snapshot.scope) then r == Err(BadRequest) && store == old(store)
              else r == Ok(()) && Ledger(Standings()) == Ledger(Put(old(Standings()), StandingOf(snapshot)))
      ensures old(Keyed()) && WellKeyed(snapshot.entries) ==>
                Keyed() && (r.Ok? ==> Standings() == Put(old(Standings()), StandingOf(snapshot)))
    {
      hide NormalizeScope, ValidScope, TableOf, BotsOf, Normal, WellKeyed, StandingsOf, KeyedIn, Ledger;
      var s := NormalizeSnapshot(snapshot);
      if !ValidScope(s.scope) { return Err(BadRequest); }
      StoredOnce(store, s);
      PutLedger(Standings(), StandingOf(s), StandingOf(snapshot));
      store := store[s.scope := s];
      return Ok(());
    }

    /** internal/platform/service/ranking.go:129-154 */
    method ApplyCompleted(s: Submission, summary: Summary) returns (r: Outcome<()>)
      requires Valid()
      modifies this
      ensures Valid() && r == CreditRun(old(Standings()), s, summary).1
      ensures Ledger(Standings()) == Ledger(CreditRun(old(Standings()), s, summary).0)
      ensures old(Keyed()) && TrimmedPlayers(s.players) ==>
                Keyed() && Standings() == CreditRun(old(Standings()), s, summary).0
    {
      if !s.official { return Ok(()); }
      if !HasBotIdentity(s) { return Ok(()); }
      hide HasBotIdentity, NormalizeScope, TableOf, BotsOf, Normal, WellKeyed, TrimmedPlayers, Applied, StandingsOf, KeyedIn, Ledger;
      var built := BuildUpdate(s, summary);
      if built.Err? { return Err(built.error); }
      var u := built.value;
      BuiltScope(s, summary);
      hide BuiltUpdate;
      if TrimmedPlayers(s.players) { BuiltTrimmed(s, summary); }
      var current := Load(u.scope);
      var next := ApplyRankingUpdate(current, u);
      assert next.Ok?;  // the scopes agree
      AppliedScope(StandingAt(Standings(), u.scope), u);
      AppliedBook(StandingAt(Standings(), u.scope), u);
      ghost var before := Standings();
      r := Save(next.value);
      PutLedger(before, StandingOf(next.value), Applied(StandingAt(before, u.scope), u));
    }

    /** internal/platform/service/ranking.go:191-231 */
    method Recompute(scope: GameKey) returns (r: Outcome<Snapshot>)
      ensures match Recomputation(queue.State(), scope)
              case Err(e) => r == Err(e)
              case Ok(st) =>
                && r.Ok? && r.value.scope == st.scope && Book(StandingOf(r.value)) == Book(st)
                && (TrimmedQueue(queue.State()) ==>
                      Normal(r.value) && WellKeyed(r.value.entries) && StandingOf(r.value) == st)
    {
      var normalized := NormalizeScope(scope);
      if !ValidScope(normalized) { return Err(BadRequest); }
      NormalizeScopeTwice(scope);
      BotsOfNothing();
      hide NormalizeScope, StandingOf, Normal, WellKeyed, Applied, HasBotIdentity, BuiltUpdate, TrimmedPlayers, TrimmedBots;
      var records := queue.List();
      var snapshot := NewSnapshot(normalized);
      ghost var trimmed := TrimmedQueue(queue.State());
      if trimmed { ListedTrimmed(queue.all, queue.records); }
      NewSnapshotStanding(normalized);
      hide RecomputeFrom, ValidScope, SortedByBot;
      for i := 0 to |records|
        invariant snapshot.scope == normalized
        invariant RecomputeFrom(records[..i], normalized).Ok?
        invariant Book(RecomputeFrom(records[..i], normalized).value) == Book(StandingOf(snapshot))
        invariant trimmed ==> WellKeyed(snapshot.entries)
        invariant trimmed ==> RecomputeFrom(records[..i], normalized) == Ok(StandingOf(snapshot))
      {
        var record := records[i];
        ghost var st := RecomputeFrom(records[..i], normalized).value;
        RecomputeNext(records, i, normalized, st);
        if !record.state.Completed? || !record.submission.official || record.terminal.None? { continue; }
        if !HasBotIdentity(record.submission) { continue; }
        if NormalizeScope(record.terminal.value.game) != normalized { continue; }
        var built := BuildUpdate(record.submission, record.terminal.value);
        if built.Err? { return Err(built.error); }
        BuiltScope(record.submission, record.terminal.value);
        if trimmed { BuiltTrimmed(record.submission, record.terminal.value); }
        StandingScope(snapshot);
        var next := ApplyRankingUpdate(snapshot, built.value);
        assert next.Ok?;  // the scopes agree
        AppliedBook(st, built.value);
        StandingScope(next.value);
        snapshot := next.value;
      }
      assert records[..|records|] == records;
      StandingScope(snapshot);
      var normal := NormalizeSnapshot(snapshot);
      StandingScope(normal);
      return Ok(normal);
    }

    /** internal/platform/service/ranking.go:157-175 */
    method RefreshCompletedRun(record: QueueRecord) returns (r: Outcome<()>)
      requires Valid()
      modifies this
      ensures Valid()
      ensures record.terminal.None? ==> r == Err(BadRequest) && store == old(store)
      ensures record.terminal.Some? ==>
                var (standings, refreshed) := RefreshScope(old(Standings()), old(queue.State()), record.terminal.value.game);
                r == refreshed && Ledger(Standings()) == Ledger(standings)
      ensures old(Keyed()) && TrimmedQueue(old(queue.State())) ==> Keyed()
      ensures record.terminal.Some? && old(Keyed()) && TrimmedQueue(old(queue.State())) ==>
                Standings() == RefreshScope(old(Standings()), old(queue.State()), record.terminal.value.game).0
    {
      hide NormalizeScope, TableOf, BotsOf, Normal, WellKeyed, RecomputeFrom, TrimmedPlayers, StandingsOf, KeyedIn, Ledger;
      if record.terminal.None? { return Err(BadRequest); }
      var scope := NormalizeScope(record.terminal.value.game);
      NormalizeScopeTwice(record.terminal.value.game);
      var recomputed := Recompute(scope);
      if recomputed.Err? { return Err(recomputed.error); }
      ghost var before, st := Standings(), Recomputation(queue.State(), scope).value;
      r := Save(recomputed.value);
      PutLedger(before, StandingOf(recomputed.value), st);
    }
  }

  lemma AppliedBook(st: Standing, u: Update)
    ensures var seen := u.runID in st.runs || u.matchID in st.matches;
            && Applied(st, u).runs == st.runs + (if seen then [] else [u.runID])
            && Applied(st, u).matches == st.matches + (if seen then [] else [u.matchID])
  {
    hide NormalizeTable, TallyAll;
  }

  lemma PutLedger(standings: Standings, st: Standing, st': Standing)
    requires st.scope == st'.scope && Book(st) == Book(st')
    ensures Ledger(Put(standings, st)) == Ledger(Put(standings, st'))
  {
  }

  lemma BuiltScope(s: Submission, summary: Summary)
    ensures match BuiltUpdate(s, summary)
            case Ok(u) => u.scope == NormalizeScope(summary.game) == NormalizeScope(u.scope) && ValidScope(u.scope)
                          && u.runID == s.runID && u.matchID == summary.matchID
            case Err(_) => true
  {
    hide NormalizeScope, RankPlacements, PlayersByID;
    NormalizeScopeTwice(summary.game);
  }

  lemma AppliedScope(st: Standing, u: Update)
    ensures Applied(st, u).scope == st.scope
  {
  }

  lemma {:induction false} ListedTrimmed(all: seq<Id>, records: map<Id, QueueRecord>)
    requires forall id | id in records :: TrimmedPlayers(records[id].submission.players)
    ensures forall i | 0 <= i < |Listed(all, records)| :: TrimmedPlayers(Listed(all, records)[i].submission.players)
  {
    hide TrimmedPlayers;
    if all != [] { ListedTrimmed(all[1..], records); }
  }

  lemma NewSnapshotStanding(scope: GameKey)
    requires scope == NormalizeScope(scope)
    ensures WellKeyed(NewSnapshot(scope).entries) && StandingOf(NewSnapshot(scope)) == NewStanding(scope)
    ensures RecomputeFrom([], scope) == Ok(NewStanding(scope))
  {
    BotsOfNothing();
  }

  lemma StandingScope(s: Snapshot)
    ensures StandingOf(s).scope == s.scope && StandingOf(s).(scope := s.scope) == StandingOf(s)
  {
  }

  lemma RecomputeNext(records: seq<QueueRecord>, i: nat, scope: GameKey, st: Standing)
    requires i < |records| && RecomputeFrom(records[..i], scope) == Ok(st)
    ensures RecomputeFrom(records[..i + 1], scope) == RecomputeStep(st, records[i])
    ensures RecomputeStep(st, records[i]).Err? ==> RecomputeFrom(records, scope) == RecomputeStep(st, records[i])
  {
    hide RecomputeStep;
    assert records[..i + 1][..i] == records[..i] && records[..i + 1][i] == records[i];
    if RecomputeStep(st, records[i]).Err? { StopsRecompute(records, i, scope); }
  }

  // The first record that cannot be credited fails the whole recompute.
  lemma {:induction false} StopsRecompute(records: seq<QueueRecord>, i: nat, scope: GameKey)
    requires i < |records| && RecomputeFrom(records[..i + 1], scope).Err?
    ensures RecomputeFrom(records, scope) == RecomputeFrom(records[..i + 1], scope)
  {
    if |records| == i + 1 {
      assert records[..i + 1] == records;
    } else {
      var front := records[..|records| - 1];
      assert front[..i + 1] == records[..i + 1];
      StopsRecompute(front, i, scope);
    }
  }
}
