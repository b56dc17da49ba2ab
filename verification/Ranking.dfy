/**
  The ranking arithmetic (internal/platform/service/ranking.go): how one completed run becomes an
  update, what an update does to the standing of a scope, and the algebra of folding updates.
  RankingSnapshots holds the list-shaped snapshot and its loops.
*/
module Ranking {
  import opened Identifiers
  import opened MatchResults
  import opened RunTypes

  // ----- Updates -----

  datatype RankedPlacement = RankedPlacement(botID: Id, botName: Id, playerID: Id, place: int)

  datatype Update = Update(
    scope: GameKey, runID: Id, matchID: Id, status: TerminalStatus, placements: seq<RankedPlacement>)

  function NormalizeScope(scope: GameKey): GameKey {
    GameKey(scope.gameID.Trimming(), scope.gameVersion.Trimming(), scope.rulesetVersion.Trimming())
  }

  predicate ValidScope(scope: GameKey) {
    scope.gameID != NO_ID && scope.gameVersion != NO_ID && scope.rulesetVersion != NO_ID
  }

  lemma NormalizeScopeTwice(scope: GameKey)
    ensures NormalizeScope(NormalizeScope(scope)) == NormalizeScope(scope)
  {
    TrimIdempotent(scope.gameID.text);
    TrimIdempotent(scope.gameVersion.text);
    TrimIdempotent(scope.rulesetVersion.text);
  }

  predicate HasBotIdentity(s: Submission) {
    s.players != [] && forall i | 0 <= i < |s.players| :: !s.players[i].botID.Blank()
  }

  // The last player listed under each id.
  function PlayersByID(players: seq<SubmittedPlayer>): map<Id, SubmittedPlayer> {
    if players == [] then map[]
    else
      var last := players[|players| - 1];
      PlayersByID(players[..|players| - 1])[last.playerID := last]
  }

  // The ranked placements in their given order, or an error at the first one that is not a
  // positive place of a submitted, identified player not placed before.
  function RankPlacements(placements: seq<Placement>, byID: map<Id, SubmittedPlayer>, seen: set<Id>)
      : Outcome<seq<RankedPlacement>>
  {
    if placements == [] then Ok([])
    else
      var p := placements[0];
      if p.place <= 0 || p.playerID !in byID || p.playerID in seen || byID[p.playerID].botID.Blank() then Err(BadRequest)
      else match RankPlacements(placements[1..], byID, seen + {p.playerID})
        case Err(e) => Err(e)
        case Ok(rest) =>
          Ok([RankedPlacement(byID[p.playerID].botID, byID[p.playerID].botName, p.playerID, p.place)] + rest)
  }

  function BuiltUpdate(s: Submission, summary: Summary): Outcome<Update> {
    var scope := NormalizeScope(summary.game);
    if !ValidScope(scope) || !summary.status.MatchCompleted? || s.runID.Blank() || summary.matchID.Blank()
       || summary.placements == [] then Err(BadRequest)
    else match RankPlacements(summary.placements, PlayersByID(s.players), {})
      case Err(e) => Err(e)
      case Ok(placements) => Ok(Update(scope, s.runID, summary.matchID, summary.status, placements))
  }

  // ----- When an update can be built -----

  // The player that a submission lists, last, under an id.
  ghost predicate ListedLast(players: seq<SubmittedPlayer>, id: Id, player: SubmittedPlayer) {
    exists i :: 0 <= i < |players| && ListedAt(players, i, id, player)
  }

  ghost predicate ListedAt(players: seq<SubmittedPlayer>, i: nat, id: Id, player: SubmittedPlayer)
    requires i < |players|
  {
    players[i] == player && player.playerID == id && forall j | i < j < |players| :: players[j].playerID != id
  }

  lemma {:induction false} PlayersByIDIff(players: seq<SubmittedPlayer>, id: Id)
    ensures forall player :: ListedLast(players, id, player) <==> id in PlayersByID(players) && PlayersByID(players)[id] == player
  {
    if players != [] {
      var front, last := players[..|players| - 1], players[|players| - 1];
      PlayersByIDIff(front, id);
      forall player ensures ListedLast(players, id, player) <==>
                              if last.playerID == id then player == last else ListedLast(front, id, player)
      {
        ListedLastFront(players, id, player);
      }
      hide ListedLast;
    }
  }

  lemma ListedLastFront(players: seq<SubmittedPlayer>, id: Id, player: SubmittedPlayer)
    requires players != []
    ensures var front, last := players[..|players| - 1], players[|players| - 1];
            ListedLast(players, id, player) <==> if last.playerID == id then player == last else ListedLast(front, id, player)
  {
    hide ListedAt;
    var front, n := players[..|players| - 1], |players| - 1;
    forall i | 0 <= i <= n ensures ListedAt(players, i, id, player) <==>
                                     if players[n].playerID == id then i == n && player == players[n]
                                     else i < n && ListedAt(front, i, id, player)
    {
      ListedAtFront(players, i, id, player);
    }
    if players[n].playerID == id { assert player == players[n] ==> ListedAt(players, n, id, player); }
  }

  lemma ListedAtFront(players: seq<SubmittedPlayer>, i: nat, id: Id, player: SubmittedPlayer)
    requires i < |players|
    ensures var n := |players| - 1;
            ListedAt(players, i, id, player) <==> if players[n].playerID == id then i == n && player == players[n]
                                                  else i < n && ListedAt(players[..n], i, id, player)
  {
    var front, n := players[..|players| - 1], |players| - 1;
    assert forall j | 0 <= j < n :: front[j] == players[j];
  }

  ghost predicate Places(placements: seq<Placement>, byID: map<Id, SubmittedPlayer>) {
    && (forall i | 0 <= i < |placements| ::
          && placements[i].place > 0 && placements[i].playerID in byID
          && !byID[placements[i].playerID].botID.Blank())
    && (forall i, j | 0 <= i < j < |placements| :: placements[i].playerID != placements[j].playerID)
  }

  ghost predicate PlacedOutside(placements: seq<Placement>, seen: set<Id>) {
    forall i | 0 <= i < |placements| :: placements[i].playerID !in seen
  }

  lemma PlacesFirst(placements: seq<Placement>, byID: map<Id, SubmittedPlayer>, seen: set<Id>)
    requires placements != []
    ensures var p := placements[0];
            Places(placements, byID) && PlacedOutside(placements, seen) <==>
              && p.place > 0 && p.playerID in byID && p.playerID !in seen && !byID[p.playerID].botID.Blank()
              && Places(placements[1..], byID) && PlacedOutside(placements[1..], seen + {p.playerID})
  {
    hide Id.Blank;
    var p, rest := placements[0], placements[1..];
    assert forall i | 0 < i < |placements| :: placements[i] == rest[i - 1];
    assert forall i | 0 <= i < |rest| :: rest[i] == placements[i + 1];
  }

  lemma {:induction false} RankPlacementsIff(placements: seq<Placement>, byID: map<Id, SubmittedPlayer>, seen: set<Id>)
    ensures RankPlacements(placements, byID, seen).Ok? <==> Places(placements, byID) && PlacedOutside(placements, seen)
    ensures match RankPlacements(placements, byID, seen)
            case Ok(ranked) =>
              && |ranked| == |placements|
              && forall i | 0 <= i < |placements| :: placements[i].playerID in byID
                   && ranked[i] == RankedPlacement(byID[placements[i].playerID].botID, byID[placements[i].playerID].botName,
                                                   placements[i].playerID, placements[i].place)
            case Err(e) => e == BadRequest
  {
    hide Id.Blank, Places, PlacedOutside;
    if placements == [] {
      NothingPlaced(byID, seen);
    } else {
      RankPlacementsIff(placements[1..], byID, seen + {placements[0].playerID});
      PlacesFirst(placements, byID, seen);
      assert forall i | 0 < i < |placements| :: placements[i] == placements[1..][i - 1];
    }
  }

  lemma NothingPlaced(byID: map<Id, SubmittedPlayer>, seen: set<Id>)
    ensures Places([], byID) && PlacedOutside([], seen)
  {
  }

  // The placement of the update names the bot of the player that the submission lists under its id.
  ghost predicate RankedAs(players: seq<SubmittedPlayer>, p: Placement, ranked: RankedPlacement) {
    && ranked.playerID == p.playerID && ranked.place == p.place
    && exists player :: ListedLast(players, p.playerID, player) && ranked.botID == player.botID && ranked.botName == player.botName
  }

  // Completed, named, and placing distinct, submitted players with identified bots at positive places.
  ghost predicate Rankable(s: Submission, summary: Summary) {
    && !summary.game.gameID.Blank() && !summary.game.gameVersion.Blank() && !summary.game.rulesetVersion.Blank()
    && summary.status == MatchCompleted && !s.runID.Blank() && !summary.matchID.Blank() && summary.placements != []
    && (forall i | 0 <= i < |summary.placements| ::
          && summary.placements[i].place > 0
          && exists player :: ListedLast(s.players, summary.placements[i].playerID, player) && !player.botID.Blank())
    && (forall i, j | 0 <= i < j < |summary.placements| ::
          summary.placements[i].playerID != summary.placements[j].playerID)
  }

  lemma RankableIsPlaced(s: Submission, summary: Summary)
    ensures Places(summary.placements, PlayersByID(s.players)) <==>
              && (forall i | 0 <= i < |summary.placements| ::
                    && summary.placements[i].place > 0
                    && exists player :: ListedLast(s.players, summary.placements[i].playerID, player) && !player.botID.Blank())
              && (forall i, j | 0 <= i < j < |summary.placements| ::
                    summary.placements[i].playerID != summary.placements[j].playerID)
  {
    hide Id.Blank, ListedLast, PlayersByID;
    var byID := PlayersByID(s.players);
    forall i | 0 <= i < |summary.placements|
      ensures (summary.placements[i].playerID in byID && !byID[summary.placements[i].playerID].botID.Blank())
         <==> exists player :: ListedLast(s.players, summary.placements[i].playerID, player) && !player.botID.Blank()
    {
      PlayersByIDIff(s.players, summary.placements[i].playerID);
      if summary.placements[i].playerID in byID {
        assert ListedLast(s.players, summary.placements[i].playerID, byID[summary.placements[i].playerID]);
      }
    }
  }

  lemma ScopeIsNamed(game: GameKey)
    ensures NormalizeScope(game)
         == GameKey(game.gameID.Trimming(), game.gameVersion.Trimming(), game.rulesetVersion.Trimming())
    ensures ValidScope(NormalizeScope(game)) <==>
              !game.gameID.Blank() && !game.gameVersion.Blank() && !game.rulesetVersion.Blank()
  {
  }

  // An update is built exactly from what can be ranked, and then it places every placed player's bot
  // at that player's place, in the order of the summary.
  lemma BuiltUpdateIff(s: Submission, summary: Summary)
    ensures BuiltUpdate(s, summary).Ok? <==> Rankable(s, summary)
    ensures BuiltUpdate(s, summary).Err? ==> BuiltUpdate(s, summary).error == BadRequest
    ensures BuiltUpdate(s, summary).Ok? ==>
              var u := BuiltUpdate(s, summary).value;
              && u.scope == GameKey(summary.game.gameID.Trimming(), summary.game.gameVersion.Trimming(),
                                    summary.game.rulesetVersion.Trimming())
              && u.runID == s.runID && u.matchID == summary.matchID && u.status == MatchCompleted
              && |u.placements| == |summary.placements|
              && forall i | 0 <= i < |summary.placements| :: RankedAs(s.players, summary.placements[i], u.placements[i])
  {
    hide Id.Blank, NormalizeScope, Places, ListedLast, PlayersByID, RankPlacements, ValidScope;
    var byID := PlayersByID(s.players);
    ScopeIsNamed(summary.game);
    RankableIsPlaced(s, summary);
    RankPlacementsIff(summary.placements, byID, {});
    assert PlacedOutside(summary.placements, {});
    if BuiltUpdate(s, summary).Ok? {
      var u := BuiltUpdate(s, summary).value;
      forall i | 0 <= i < |summary.placements| ensures RankedAs(s.players, summary.placements[i], u.placements[i]) {
        PlayersByIDIff(s.players, summary.placements[i].playerID);
        assert ListedLast(s.players, summary.placements[i].playerID, byID[summary.placements[i].playerID]);
      }
    }
  }

  // ----- Standings -----

  datatype Entry = Entry(
    botID: Id,
    botName: Id,
    lastPlayerID: Id,
    matchesPlayed: int,
    firstPlaces: int,
    placementCounts: map<int, int>,
    lastRunID: Id,
    lastMatchID: Id,
    lastStatus: Option<TerminalStatus>)

  const NO_ENTRY := Entry(NO_ID, NO_ID, NO_ID, 0, 0, map[], NO_ID, NO_ID, None)

  function NormalizeEntry(e: Entry): Entry {
    e.(botID := e.botID.Trimming(), botName := e.botName.Trimming(), lastPlayerID := e.lastPlayerID.Trimming(),
       lastRunID := e.lastRunID.Trimming(), lastMatchID := e.lastMatchID.Trimming())
  }

  lemma NormalizeEntryTwice(e: Entry)
    ensures NormalizeEntry(NormalizeEntry(e)) == NormalizeEntry(e)
  {
    TrimIdempotent(e.botID.text);
    TrimIdempotent(e.botName.text);
    TrimIdempotent(e.lastPlayerID.text);
    TrimIdempotent(e.lastRunID.text);
    TrimIdempotent(e.lastMatchID.text);
  }

  type Table = map<Id, Entry>

  function Count(counts: map<int, int>, place: int): int {
    if place in counts then counts[place] else 0
  }

  function Credited(e: Entry, u: Update, p: RankedPlacement): Entry {
    Entry(
      p.botID,
      if p.botName.Blank() then e.botName else p.botName,
      p.playerID,
      e.matchesPlayed + 1,
      e.firstPlaces + (if p.place == 1 then 1 else 0),
      e.placementCounts[p.place := Count(e.placementCounts, p.place) + 1],
      u.runID,
      u.matchID,
      Some(u.status))
  }

  function Tallied(table: Table, u: Update, p: RankedPlacement): Table {
    table[p.botID := Credited(NormalizeEntry(if p.botID in table then table[p.botID] else NO_ENTRY), u, p)]
  }

  function TallyAll(table: Table, u: Update, placements: seq<RankedPlacement>): Table {
    if placements == [] then table
    else Tallied(TallyAll(table, u, placements[..|placements| - 1]), u, placements[|placements| - 1])
  }

  // What a snapshot says: which runs and matches it holds, and one entry per bot.
  datatype Standing = Standing(scope: GameKey, runs: seq<Id>, matches: seq<Id>, table: Table)

  function NewStanding(scope: GameKey): Standing { Standing(scope, [], [], map[]) }

  function NormalizeTable(table: Table): Table { map b | b in table :: NormalizeEntry(table[b]) }

  function Applied(st: Standing, u: Update): Standing {
    if u.runID in st.runs || u.matchID in st.matches then st
    else
      Standing(st.scope, st.runs + [u.runID], st.matches + [u.matchID],
               NormalizeTable(TallyAll(st.table, u, u.placements)))
  }

  function ApplyAll(st: Standing, us: seq<Update>): Standing {
    if us == [] then st else Applied(ApplyAll(st, us[..|us| - 1]), us[|us| - 1])
  }

  // ----- What the entries count -----

  ghost function Points(placements: seq<RankedPlacement>): multiset<(Id, int)> {
    if placements == [] then multiset{}
    else
      var p := placements[|placements| - 1];
      Points(placements[..|placements| - 1]) + multiset{(p.botID, p.place)}
  }

  ghost function Bots(placements: seq<RankedPlacement>): multiset<Id> {
    if placements == [] then multiset{}
    else Bots(placements[..|placements| - 1]) + multiset{placements[|placements| - 1].botID}
  }

  // What a list of updates adds up to, whatever its order.
  datatype Totals = Totals(points: multiset<(Id, int)>, bots: multiset<Id>, runs: multiset<Id>, matches: multiset<Id>)

  ghost function Plus(t: Totals, u: Update): Totals {
    Totals(t.points + Points(u.placements), t.bots + Bots(u.placements),
           t.runs + multiset{u.runID}, t.matches + multiset{u.matchID})
  }

  ghost function Total(us: seq<Update>): Totals {
    if us == [] then Totals(multiset{}, multiset{}, multiset{}, multiset{})
    else Plus(Total(us[..|us| - 1]), us[|us| - 1])
  }

  // An entry holds exactly the given number of matches and, at each place, of points.
  ghost predicate EntryCounts(e: Entry, bot: Id, points: multiset<(Id, int)>, matches: nat) {
    && e.matchesPlayed == matches
    && e.firstPlaces == points[(bot, 1)]
    && (forall place :: place in e.placementCounts <==> points[(bot, place)] > 0)
    && (forall place | place in e.placementCounts :: e.placementCounts[place] == points[(bot, place)])
  }

  ghost predicate Counts(table: Table, points: multiset<(Id, int)>, bots: multiset<Id>) {
    && (forall b :: b in table <==> bots[b] > 0)
    && (forall b | b in table :: EntryCounts(table[b], b, points, bots[b]))
    && (forall b, place :: points[(b, place)] > 0 ==> bots[b] > 0)
  }

  // Same bots, and for each bot the same matches, first places and placement counts.
  ghost predicate SameCounts(a: Table, b: Table) {
    && a.Keys == b.Keys
    && forall bot | bot in a ::
         && a[bot].matchesPlayed == b[bot].matchesPlayed
         && a[bot].firstPlaces == b[bot].firstPlaces
         && a[bot].placementCounts == b[bot].placementCounts
  }

  lemma CreditedCounts(e: Entry, u: Update, p: RankedPlacement, points: multiset<(Id, int)>, matches: nat)
    requires EntryCounts(e, p.botID, points, matches)
    ensures EntryCounts(Credited(e, u, p), p.botID, points + multiset{(p.botID, p.place)}, matches + 1)
  {
    hide Id.Blank;
    var e', points' := Credited(e, u, p), points + multiset{(p.botID, p.place)};
    forall place
      ensures place in e'.placementCounts <==> points'[(p.botID, place)] > 0
      ensures place in e'.placementCounts ==> e'.placementCounts[place] == points'[(p.botID, place)]
    {
      assert points'[(p.botID, place)] == points[(p.botID, place)] + if place == p.place then 1 else 0;
    }
  }

  lemma NoEntryCounts(bot: Id, points: multiset<(Id, int)>)
    requires forall place :: points[(bot, place)] == 0
    ensures EntryCounts(NO_ENTRY, bot, points, 0)
  {
  }

  lemma NormalizedCounts(e: Entry, bot: Id, points: multiset<(Id, int)>, matches: nat)
    requires EntryCounts(e, bot, points, matches)
    ensures EntryCounts(NormalizeEntry(e), bot, points, matches)
  {
    hide Id.Trimming;
  }

  lemma OtherCounts(e: Entry, bot: Id, points: multiset<(Id, int)>, matches: nat, other: Id, place: int)
    requires EntryCounts(e, bot, points, matches) && bot != other
    ensures EntryCounts(e, bot, points + multiset{(other, place)}, matches)
  {
    var points' := points + multiset{(other, place)};
    assert forall at :: points'[(bot, at)] == points[(bot, at)];
  }

  lemma TalliedCounts(table: Table, u: Update, p: RankedPlacement, points: multiset<(Id, int)>, bots: multiset<Id>)
    requires Counts(table, points, bots)
    ensures Counts(Tallied(table, u, p), points + multiset{(p.botID, p.place)}, bots + multiset{p.botID})
  {
    hide EntryCounts, NormalizeEntry, Credited;
    var table', points', bots' := Tallied(table, u, p), points + multiset{(p.botID, p.place)}, bots + multiset{p.botID};
    var before := if p.botID in table then table[p.botID] else NO_ENTRY;
    if p.botID !in table { NoEntryCounts(p.botID, points); }
    NormalizedCounts(before, p.botID, points, bots[p.botID]);
    CreditedCounts(NormalizeEntry(before), u, p, points, bots[p.botID]);
    forall b | b in table'
      ensures EntryCounts(table'[b], b, points', bots'[b])
    {
      if b != p.botID { OtherCounts(table[b], b, points, bots[b], p.botID, p.place); }
    }
  }

  lemma {:induction false} TallyAllCounts(
      table: Table, u: Update, placements: seq<RankedPlacement>, points: multiset<(Id, int)>, bots: multiset<Id>)
    requires Counts(table, points, bots)
    ensures Counts(TallyAll(table, u, placements), points + Points(placements), bots + Bots(placements))
  {
    hide Counts, Tallied;
    if placements == [] {
      assert points + Points([]) == points && bots + Bots([]) == bots;
    } else {
      var front, p := placements[..|placements| - 1], placements[|placements| - 1];
      TallyAllCounts(table, u, front, points, bots);
      TalliedCounts(TallyAll(table, u, front), u, p, points + Points(front), bots + Bots(front));
      assert points + Points(placements) == points + Points(front) + multiset{(p.botID, p.place)};
      assert bots + Bots(placements) == bots + Bots(front) + multiset{p.botID};
    }
  }

  lemma NormalizeTableCounts(table: Table, points: multiset<(Id, int)>, bots: multiset<Id>)
    requires Counts(table, points, bots)
    ensures Counts(NormalizeTable(table), points, bots)
  {
    hide EntryCounts, NormalizeEntry;
    forall b | b in table ensures EntryCounts(NormalizeEntry(table[b]), b, points, bots[b]) {
      NormalizedCounts(table[b], b, points, bots[b]);
    }
  }

  ghost function RunsOf(us: seq<Update>): seq<Id> { seq(|us|, i requires 0 <= i < |us| => us[i].runID) }
  ghost function MatchesOf(us: seq<Update>): seq<Id> { seq(|us|, i requires 0 <= i < |us| => us[i].matchID) }

  // No run and no match appears twice.
  ghost predicate Separate(us: seq<Update>) { Distinct(RunsOf(us)) && Distinct(MatchesOf(us)) }

  // A standing is exactly what the given updates, each run and match once, add up to.
  ghost predicate Holds(st: Standing, us: seq<Update>) {
    && Separate(us)
    && st.runs == RunsOf(us) && st.matches == MatchesOf(us)
    && Counts(st.table, Total(us).points, Total(us).bots)
  }

  lemma NewHolds(scope: GameKey)
    ensures Holds(NewStanding(scope), [])
  {
  }

  lemma SeparateSnoc(us: seq<Update>, u: Update)
    ensures RunsOf(us + [u]) == RunsOf(us) + [u.runID] && MatchesOf(us + [u]) == MatchesOf(us) + [u.matchID]
    ensures Separate(us) && u.runID !in RunsOf(us) && u.matchID !in MatchesOf(us) ==> Separate(us + [u])
    ensures Separate(us + [u]) ==> Separate(us) && u.runID !in RunsOf(us) && u.matchID !in MatchesOf(us)
  {
    DistinctAppend(RunsOf(us), [u.runID]);
    DistinctAppend(MatchesOf(us), [u.matchID]);
    assert [u.runID][1..] == [] && [u.matchID][1..] == [];
    assert RunsOf(us + [u]) == RunsOf(us) + [u.runID];
    assert MatchesOf(us + [u]) == MatchesOf(us) + [u.matchID];
  }

  // One update: nothing if its run or match is already there, otherwise it is added.
  lemma AppliedHolds(st: Standing, us: seq<Update>, u: Update)
    requires Holds(st, us)
    ensures if u.runID in RunsOf(us) || u.matchID in MatchesOf(us) then Applied(st, u) == st
            else Holds(Applied(st, u), us + [u])
  {
    if !(u.runID in RunsOf(us) || u.matchID in MatchesOf(us)) {
      SeparateSnoc(us, u);
      assert (us + [u])[..|us|] == us;
      TallyAllCounts(st.table, u, u.placements, Total(us).points, Total(us).bots);
      NormalizeTableCounts(TallyAll(st.table, u, u.placements),
                           Total(us).points + Points(u.placements), Total(us).bots + Bots(u.placements));
      hide Counts, TallyAll, NormalizeTable, RunsOf, MatchesOf, Separate, Points, Bots;
      assert Total(us + [u]) == Plus(Total(us), u);
    }
  }

  lemma {:induction false} ApplyAllHolds(scope: GameKey, us: seq<Update>)
    requires Separate(us)
    ensures Holds(ApplyAll(NewStanding(scope), us), us)
  {
    hide Holds, Separate, RunsOf, MatchesOf;
    if us == [] {
      NewHolds(scope);
    } else {
      var front, u := us[..|us| - 1], us[|us| - 1];
      assert us == front + [u];
      SeparateSnoc(front, u);
      ApplyAllHolds(scope, front);
      AppliedHolds(ApplyAll(NewStanding(scope), front), front, u);
    }
  }

  lemma SameTotalsSameCounts(a: Table, b: Table, points: multiset<(Id, int)>, bots: multiset<Id>)
    requires Counts(a, points, bots) && Counts(b, points, bots)
    ensures SameCounts(a, b)
  {
    assert a.Keys == b.Keys;
    forall bot | bot in a ensures a[bot].placementCounts == b[bot].placementCounts {
      SameEntryCounts(a[bot], b[bot], bot, points, bots[bot]);
    }
  }

  lemma SameEntryCounts(e: Entry, f: Entry, bot: Id, points: multiset<(Id, int)>, matches: nat)
    requires EntryCounts(e, bot, points, matches) && EntryCounts(f, bot, points, matches)
    ensures e.placementCounts == f.placementCounts
  {
    forall place ensures place in e.placementCounts <==> place in f.placementCounts {
      assert place in e.placementCounts <==> points[(bot, place)] > 0;
      assert place in f.placementCounts <==> points[(bot, place)] > 0;
    }
    forall place | place in e.placementCounts ensures e.placementCounts[place] == f.placementCounts[place] {
      assert e.placementCounts[place] == points[(bot, place)] == f.placementCounts[place];
    }
    assert e.placementCounts == f.placementCounts;
  }

  lemma PlusSwap(t: Totals, u: Update, v: Update)
    ensures Plus(Plus(t, u), v) == Plus(Plus(t, v), u)
  {
    hide Points, Bots;
  }

  lemma {:induction false} TotalWithout(a: seq<Update>, u: Update, b: seq<Update>)
    ensures Total(a + [u] + b) == Plus(Total(a + b), u)
    decreases |b|
  {
    hide Plus;
    if b == [] {
      assert a + [u] + b == a + [u] && a + b == a;
      assert (a + [u])[..|a|] == a;
    } else {
      var front, last := b[..|b| - 1], b[|b| - 1];
      TotalWithout(a, u, front);
      PlusSwap(Total(a + front), u, last);
      assert (a + [u] + b)[..|a + [u] + b| - 1] == a + [u] + front;
      assert (a + b)[..|a + b| - 1] == a + front;
    }
  }

  lemma {:induction false} TotalIsOrderFree(us: seq<Update>, vs: seq<Update>)
    requires multiset(us) == multiset(vs)
    ensures Total(us) == Total(vs)
  {
    hide Plus;
    assert |us| == |multiset(us)| == |multiset(vs)| == |vs|;
    if us != [] {
      var front, u := us[..|us| - 1], us[|us| - 1];
      assert us == front + [u];
      assert u in multiset(vs);
      var i :| 0 <= i < |vs| && vs[i] == u;
      var a, b := vs[..i], vs[i + 1..];
      assert vs == a + [u] + b;
      CancelOne(front, a, b, u);
      TotalIsOrderFree(front, a + b);
      TotalWithout(a, u, b);
    }
  }

  lemma {:induction false} TotalCountsIds(us: seq<Update>)
    ensures Total(us).runs == multiset(RunsOf(us)) && Total(us).matches == multiset(MatchesOf(us))
  {
    if us != [] {
      var front, u := us[..|us| - 1], us[|us| - 1];
      assert us == front + [u];
      TotalCountsIds(front);
      SeparateSnoc(front, u);
    } else {
      assert RunsOf(us) == [] && MatchesOf(us) == [];
    }
  }

  // Folding updates with pairwise distinct runs and matches gives the same counts, runs and
  // matches in every order.
  lemma FoldIsOrderFree(scope: GameKey, us: seq<Update>, vs: seq<Update>)
    requires Separate(us) && multiset(us) == multiset(vs)
    ensures var a, b := ApplyAll(NewStanding(scope), us), ApplyAll(NewStanding(scope), vs);
            && SameCounts(a.table, b.table)
            && multiset(a.runs) == multiset(b.runs) && multiset(a.matches) == multiset(b.matches)
            && |a.matches| == |us|
  {
    hide Counts, ApplyAll, Total;
    TotalIsOrderFree(us, vs);
    TotalCountsIds(us);
    TotalCountsIds(vs);
    DistinctIsCountedOnce(RunsOf(us));
    DistinctIsCountedOnce(RunsOf(vs));
    DistinctIsCountedOnce(MatchesOf(us));
    DistinctIsCountedOnce(MatchesOf(vs));
    ApplyAllHolds(scope, us);
    ApplyAllHolds(scope, vs);
    SameTotalsSameCounts(ApplyAll(NewStanding(scope), us).table, ApplyAll(NewStanding(scope), vs).table,
                         Total(us).points, Total(us).bots);
  }

  // ----- Conservation -----

  // The updates of a list that take effect: those whose run and match have not been seen.
  ghost function Kept(us: seq<Update>): seq<Update> {
    if us == [] then []
    else
      var kept, u := Kept(us[..|us| - 1]), us[|us| - 1];
      if u.runID in RunsOf(kept) || u.matchID in MatchesOf(kept) then kept else kept + [u]
  }

  lemma {:induction false} AnyFoldHoldsKept(scope: GameKey, us: seq<Update>)
    ensures Holds(ApplyAll(NewStanding(scope), us), Kept(us))
  {
    if us == [] {
      NewHolds(scope);
    } else {
      var front, u := us[..|us| - 1], us[|us| - 1];
      AnyFoldHoldsKept(scope, front);
      AppliedHolds(ApplyAll(NewStanding(scope), front), Kept(front), u);
    }
  }

  lemma NonEmpty(keys: set<int>)
    requires keys != {}
    ensures exists k :: k in keys
  {
    assert (forall k :: k !in keys) ==> keys == {};
  }

  ghost function SumOver(keys: set<int>, counts: map<int, int>): int
    requires keys <= counts.Keys
  {
    if keys == {} then 0
    else
      NonEmpty(keys);
      var k :| k in keys;
      counts[k] + SumOver(keys - {k}, counts)
  }

  ghost function SumCounts(counts: map<int, int>): int { SumOver(counts.Keys, counts) }

  lemma {:induction false} SumOverPick(keys: set<int>, counts: map<int, int>, k: int)
    requires keys <= counts.Keys && k in keys
    ensures SumOver(keys, counts) == counts[k] + SumOver(keys - {k}, counts)
    decreases keys
  {
    var first :| first in keys && SumOver(keys, counts) == counts[first] + SumOver(keys - {first}, counts);
    if first != k {
      SumOverPick(keys - {first}, counts, k);
      SumOverPick(keys - {k}, counts, first);
      assert keys - {first} - {k} == keys - {k} - {first};
    }
  }

  lemma {:induction false} SumOverSame(keys: set<int>, a: map<int, int>, b: map<int, int>)
    requires keys <= a.Keys && keys <= b.Keys
    requires forall k | k in keys :: a[k] == b[k]
    ensures SumOver(keys, a) == SumOver(keys, b)
    decreases keys
  {
    if keys != {} {
      NonEmpty(keys);
      var k :| k in keys;
      SumOverPick(keys, a, k);
      SumOverPick(keys, b, k);
      SumOverSame(keys - {k}, a, b);
    }
  }

  lemma SumIncremented(counts: map<int, int>, place: int)
    ensures SumCounts(counts[place := Count(counts, place) + 1]) == SumCounts(counts) + 1
  {
    var counts' := counts[place := Count(counts, place) + 1];
    var rest := counts.Keys - {place};
    assert counts'.Keys - {place} == rest;
    SumOverPick(counts'.Keys, counts', place);
    if place in counts { SumOverPick(counts.Keys, counts, place); } else { assert rest == counts.Keys; }
    SumOverSame(rest, counts, counts');
  }

  // Each entry's matches are spread over its placement counts; places one and only one are firsts.
  ghost predicate Balanced(table: Table) {
    forall b | b in table ::
      && table[b].matchesPlayed == SumCounts(table[b].placementCounts)
      && table[b].firstPlaces == Count(table[b].placementCounts, 1)
  }

  lemma TalliedBalanced(table: Table, u: Update, p: RankedPlacement)
    requires Balanced(table)
    ensures Balanced(Tallied(table, u, p))
  {
    hide SumCounts, Id.Trimming, Id.Blank;
    var before := if p.botID in table then table[p.botID] else NO_ENTRY;
    SumIncremented(before.placementCounts, p.place);
    if p.botID !in table { assert SumCounts(map[]) == 0 by { EmptySum(); } }
  }

  lemma EmptySum()
    ensures SumCounts(map[]) == 0
  {
  }

  lemma {:induction false} TallyAllBalanced(table: Table, u: Update, placements: seq<RankedPlacement>)
    requires Balanced(table)
    ensures Balanced(NormalizeTable(TallyAll(table, u, placements)))
    ensures Balanced(TallyAll(table, u, placements))
  {
    if placements != [] {
      var front, p := placements[..|placements| - 1], placements[|placements| - 1];
      TallyAllBalanced(table, u, front);
      TalliedBalanced(TallyAll(table, u, front), u, p);
    }
  }

  lemma {:induction false} ApplyAllBalanced(scope: GameKey, us: seq<Update>)
    ensures Balanced(ApplyAll(NewStanding(scope), us).table)
  {
    if us != [] {
      var front, u := us[..|us| - 1], us[|us| - 1];
      ApplyAllBalanced(scope, front);
      TallyAllBalanced(ApplyAll(NewStanding(scope), front).table, u, u.placements);
    }
  }

  ghost function MatchesOver(bots: set<Id>, table: Table): int
    requires bots <= table.Keys
  {
    if bots == {} then 0
    else
      var b :| b in bots;
      table[b].matchesPlayed + MatchesOver(bots - {b}, table)
  }

  ghost function PlacementsIn(us: seq<Update>): nat {
    if us == [] then 0 else PlacementsIn(us[..|us| - 1]) + |us[|us| - 1].placements|
  }

  lemma {:induction false} MatchesAreBots(keys: set<Id>, table: Table, bots: multiset<Id>)
    requires keys <= table.Keys
    requires forall b :: b in keys <==> bots[b] > 0
    requires forall b | b in keys :: table[b].matchesPlayed == bots[b]
    ensures MatchesOver(keys, table) == |bots|
    decreases keys
  {
    if keys == {} {
      assert bots == multiset{};
    } else {
      var b :| b in keys && MatchesOver(keys, table) == table[b].matchesPlayed + MatchesOver(keys - {b}, table);
      MatchesAreBots(keys - {b}, table, bots[b := 0]);
    }
  }

  lemma {:induction false} BotsSize(placements: seq<RankedPlacement>)
    ensures |Bots(placements)| == |placements|
  {
    if placements != [] { BotsSize(placements[..|placements| - 1]); }
  }

  lemma {:induction false} TotalSize(us: seq<Update>)
    ensures |Total(us).bots| == PlacementsIn(us)
  {
    if us != [] {
      TotalSize(us[..|us| - 1]);
      BotsSize(us[|us| - 1].placements);
    }
  }

  /**
    Whatever is folded, in whatever order and however often: each bot's matches are the sum of its
    placement counts, its first places are the count at place one, every count is positive, the
    matches of all bots together are the placements of the updates that took effect, and the
    applied matches are those updates' matches, each once.
  */
  lemma RankingIsConserved(scope: GameKey, us: seq<Update>)
    ensures var st, kept := ApplyAll(NewStanding(scope), us), Kept(us);
            && Balanced(st.table)
            && (forall b, place | b in st.table && place in st.table[b].placementCounts ::
                  st.table[b].placementCounts[place] > 0)
            && MatchesOver(st.table.Keys, st.table) == PlacementsIn(kept)
            && st.matches == MatchesOf(kept) && Distinct(st.matches) && |st.matches| == |kept|
  {
    hide ApplyAll, Kept, Balanced, Total;
    var st, kept := ApplyAll(NewStanding(scope), us), Kept(us);
    AnyFoldHoldsKept(scope, us);
    ApplyAllBalanced(scope, us);
    TotalSize(kept);
    assert Counts(st.table, Total(kept).points, Total(kept).bots);
    MatchesAreBots(st.table.Keys, st.table, Total(kept).bots);
  }

  // Applying again an update whose run or match was already folded changes nothing.
  lemma ReapplyingChangesNothing(scope: GameKey, us: seq<Update>, u: Update)
    requires u.runID in RunsOf(Kept(us)) || u.matchID in MatchesOf(Kept(us))
    ensures ApplyAll(NewStanding(scope), us + [u]) == ApplyAll(NewStanding(scope), us)
  {
    assert (us + [u])[..|us|] == us;
    AnyFoldHoldsKept(scope, us);
  }

  // ----- Recomputing a standing from queue records -----

  // The records a recompute of the scope reads: official, completed, and with identified bots.
  predicate Eligible(record: QueueRecord, scope: GameKey) {
    && record.state.Completed? && record.submission.official && record.terminal.Some?
    && HasBotIdentity(record.submission)
    && NormalizeScope(record.terminal.value.game) == scope
  }

  function RecomputeStep(st: Standing, record: QueueRecord): Outcome<Standing> {
    if !Eligible(record, st.scope) then Ok(st)
    else match BuiltUpdate(record.submission, record.terminal.value)
      case Err(e) => Err(e)
      case Ok(u) => Ok(Applied(st, u))
  }

  function RecomputeFrom(records: seq<QueueRecord>, scope: GameKey): (r: Outcome<Standing>)
    ensures r.Ok? ==> r.value.scope == scope
  {
    if records == [] then Ok(NewStanding(scope))
    else match RecomputeFrom(records[..|records| - 1], scope)
      case Err(e) => Err(e)
      case Ok(st) => RecomputeStep(st, records[|records| - 1])
  }
}
