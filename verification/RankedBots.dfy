/**
  What a ranking says, told from the runs: which runs are ranked, what one credit does to a standing,
  and what the entry of a bot shows of its last match (internal/platform/service/ranking.go).
*/
module RankedBots {
  import opened Identifiers
  import opened MatchResults
  import opened RunTypes
  import opened RunQueue
  import opened QueueInvariants
  import opened Ranking
  import opened RankingLifecycle
  import opened Arena
  import opened RankedRuns

  // ----- Which runs are ranked -----

  // A submission whose players all play for a bot.
  ghost predicate PlayedByBots(s: Submission) {
    s.players != [] && forall player | player in s.players :: !player.botID.Blank()
  }

  // The record is to be ranked in the scope: official, completed, played by bots, and of a game of it.
  ghost predicate RankedIn(r: QueueRecord, scope: GameKey) {
    && r.state == Completed && r.submission.official && PlayedByBots(r.submission) && r.terminal.Some?
    && r.terminal.value.game.gameID.Trimming() == scope.gameID
    && r.terminal.value.game.gameVersion.Trimming() == scope.gameVersion
    && r.terminal.value.game.rulesetVersion.Trimming() == scope.rulesetVersion
  }

  lemma EligibleIff(r: QueueRecord, scope: GameKey)
    ensures Eligible(r, scope) <==> RankedIn(r, scope)
  {
    PlayedIff(r.submission);
  }

  /**
    A recompute of a scope succeeds exactly if the scope is named and every run to be ranked in it can be,
    and then it holds exactly those runs.
  */
  lemma RecomputedRuns(q: Queue, scope: GameKey)
    requires Indexed(q) && Officials(q) && Terminals(q)
    requires scope.gameID.Trimmed() && scope.gameVersion.Trimmed() && scope.rulesetVersion.Trimmed()
    ensures Recomputation(q, scope).Ok? <==>
              && scope.gameID != NO_ID && scope.gameVersion != NO_ID && scope.rulesetVersion != NO_ID
              && forall id | id in q.records && RankedIn(q.records[id], scope) ::
                   Rankable(q.records[id].submission, q.records[id].terminal.value)
    ensures Recomputation(q, scope).Ok? ==>
              var st := Recomputation(q, scope).value;
              st.scope == scope && forall id :: id in st.runs <==> id in q.records && RankedIn(q.records[id], scope)
  {
    assert NormalizeScope(scope) == scope;
    RecomputedShape(q, scope);
    hide Indexed, Officials, Terminals, Shape, Rankable, BuiltUpdate, Eligible, RankedIn, NormalizeScope;
    forall id | id in q.records ensures Eligible(q.records[id], scope) <==> RankedIn(q.records[id], scope) {
      EligibleIff(q.records[id], scope);
    }
    forall id | id in q.records && RankedIn(q.records[id], scope)
      ensures Built(q.records[id]) <==> Rankable(q.records[id].submission, q.records[id].terminal.value)
    {
      TerminalOfRanked(q.records[id], scope);
      BuiltUpdateIff(q.records[id].submission, q.records[id].terminal.value);
    }
    if Recomputation(q, scope).Ok? { ShapeIsBuilt(q, Recomputation(q, scope).value); }
  }

  lemma ShapeIsBuilt(q: Queue, st: Standing)
    requires Shape(q, st)
    ensures forall id | id in st.runs :: id in q.records && Built(q.records[id])
  {
  }

  lemma TerminalOfRanked(r: QueueRecord, scope: GameKey)
    requires RankedIn(r, scope)
    ensures r.terminal.Some?
  {
  }

  // ----- One credit -----

  /**
    A run is credited exactly if it is official and played by bots, and refused exactly if it then cannot be
    ranked; it touches its own scope alone, where its run and its match are added unless one of them is known.
  */
  lemma CreditVerdict(standings: Standings, s: Submission, summary: Summary)
    ensures var (standings', r) := CreditRun(standings, s, summary);
            var scope := GameKey(summary.game.gameID.Trimming(), summary.game.gameVersion.Trimming(),
                                 summary.game.rulesetVersion.Trimming());
            var counts := s.official && PlayedByBots(s);
            && (r.Err? <==> counts && !Rankable(s, summary)) && (r.Err? ==> r.error == BadRequest)
            && (r.Err? || !counts ==> standings' == standings)
            && (r.Ok? && counts ==> CreditedIn(standings, standings', scope, s.runID, summary.matchID))
  {
    hide BuiltUpdate, Rankable, PlayedByBots, HasBotIdentity, Applied, CreditedOnce, RankedAs, Id.Trimming;
    PlayedIff(s);
    BuiltUpdateIff(s, summary);
    if BuiltUpdate(s, summary).Ok? {
      var u := BuiltUpdate(s, summary).value;
      AppliedOnce(StandingAt(standings, u.scope), u);
    }
  }

  lemma PlayedIff(s: Submission)
    ensures HasBotIdentity(s) <==> PlayedByBots(s)
  {
  }

  lemma AppliedOnce(st: Standing, u: Update)
    ensures CreditedOnce(st, Applied(st, u), u.runID, u.matchID)
  {
  }

  // The scope alone changes.
  ghost predicate CreditedIn(standings: Standings, standings': Standings, scope: GameKey, runID: Id, matchID: Id) {
    && standings'.Keys == standings.Keys + {scope}
    && (forall other | other in standings && other != scope :: standings'[other] == standings[other])
    && CreditedOnce(if scope in standings then standings[scope] else Standing(scope, [], [], map[]),
                    standings'[scope], runID, matchID)
  }

  // Nothing if the run or the match is known already, otherwise both are added at the end.
  ghost predicate CreditedOnce(st: Standing, st': Standing, runID: Id, matchID: Id) {
    if runID in st.runs || matchID in st.matches then st' == st
    else st'.scope == st.scope && st'.runs == st.runs + [runID] && st'.matches == st.matches + [matchID]
  }

  // ----- The last match of a bot -----

  // A placement with the update it belongs to.
  datatype Mention = Mention(u: Update, p: RankedPlacement)

  // All placements in the order in which they are credited.
  ghost function MentionsIn(u: Update, placements: seq<RankedPlacement>): seq<Mention> {
    seq(|placements|, i requires 0 <= i < |placements| => Mention(u, placements[i]))
  }

  ghost function Mentions(us: seq<Update>): seq<Mention> {
    if us == [] then []
    else Mentions(us[..|us| - 1]) + MentionsIn(us[|us| - 1], us[|us| - 1].placements)
  }

  // The k-th mention is the last one of the bot.
  ghost predicate LastOf(ms: seq<Mention>, b: Id, k: int) {
    0 <= k < |ms| && ms[k].p.botID == b && forall m | k < m < |ms| :: ms[m].p.botID != b
  }

  // And the last one that names it.
  ghost predicate LastNamed(ms: seq<Mention>, b: Id, k: int) {
    && 0 <= k < |ms| && ms[k].p.botID == b && !ms[k].p.botName.Blank()
    && forall m | k < m < |ms| :: ms[m].p.botID != b || ms[m].p.botName.Blank()
  }

  ghost predicate Unnamed(ms: seq<Mention>, b: Id) {
    forall m | 0 <= m < |ms| :: ms[m].p.botID != b || ms[m].p.botName.Blank()
  }

  // Up to surrounding blanks, the entry shows where the mention placed its bot.
  ghost predicate ShowsMatch(e: Entry, m: Mention) {
    && e.botID.Trimming() == m.p.botID.Trimming() && e.lastPlayerID.Trimming() == m.p.playerID.Trimming()
    && e.lastRunID.Trimming() == m.u.runID.Trimming() && e.lastMatchID.Trimming() == m.u.matchID.Trimming()
    && e.lastStatus == Some(m.u.status)
  }

  ghost predicate ShowsLast(e: Entry, ms: seq<Mention>, b: Id) {
    exists k :: LastOf(ms, b, k) && ShowsMatch(e, ms[k])
  }

  ghost predicate ShowsName(e: Entry, ms: seq<Mention>, b: Id) {
    if Unnamed(ms, b) then e.botName.Trimming() == NO_ID
    else exists k :: LastNamed(ms, b, k) && e.botName.Trimming() == ms[k].p.botName.Trimming()
  }

  // The entries are those of the bots mentioned, each showing the bot's last match under its last name.
  ghost predicate TableShows(table: Table, ms: seq<Mention>) {
    && (forall b :: b in table <==> exists k :: 0 <= k < |ms| && ms[k].p.botID == b)
    && (forall b | b in table :: ShowsLast(table[b], ms, b) && ShowsName(table[b], ms, b))
  }

  lemma NormalizedAlike(e: Entry)
    ensures var n := NormalizeEntry(e);
            && n.botID.Trimming() == e.botID.Trimming() && n.botName.Trimming() == e.botName.Trimming()
            && n.lastPlayerID.Trimming() == e.lastPlayerID.Trimming() && n.lastRunID.Trimming() == e.lastRunID.Trimming()
            && n.lastMatchID.Trimming() == e.lastMatchID.Trimming() && n.lastStatus == e.lastStatus
  {
    TrimmingTwice(e.botID);
    TrimmingTwice(e.botName);
    TrimmingTwice(e.lastPlayerID);
    TrimmingTwice(e.lastRunID);
    TrimmingTwice(e.lastMatchID);
  }

  lemma MatchAlike(e: Entry, m: Mention)
    ensures ShowsMatch(NormalizeEntry(e), m) == ShowsMatch(e, m)
  {
    hide Id.Trimming, NormalizeEntry;
    NormalizedAlike(e);
  }

  lemma MatchNormalized(e: Entry, ms: seq<Mention>, b: Id)
    requires ShowsLast(e, ms, b)
    ensures ShowsLast(NormalizeEntry(e), ms, b)
  {
    hide Id.Trimming, NormalizeEntry, ShowsMatch;
    var k :| LastOf(ms, b, k) && ShowsMatch(e, ms[k]);
    MatchAlike(e, ms[k]);
  }

  lemma NameNormalized(e: Entry, ms: seq<Mention>, b: Id)
    requires ShowsName(e, ms, b)
    ensures ShowsName(NormalizeEntry(e), ms, b)
  {
    hide Id.Trimming, NormalizeEntry, LastNamed, Unnamed;
    NormalizedAlike(e);
  }

  lemma OtherMatch(e: Entry, ms: seq<Mention>, b: Id, m: Mention)
    requires ShowsLast(e, ms, b) && m.p.botID != b
    ensures ShowsLast(e, ms + [m], b)
  {
    hide ShowsMatch;
    var k :| LastOf(ms, b, k) && ShowsMatch(e, ms[k]);
    assert (ms + [m])[k] == ms[k] && LastOf(ms + [m], b, k);
  }

  lemma NameKept(e: Entry, ms: seq<Mention>, b: Id, m: Mention)
    requires ShowsName(e, ms, b) && (m.p.botID != b || m.p.botName.Blank())
    ensures ShowsName(e, ms + [m], b)
  {
    hide Id.Trimming, Id.Blank;
    var all := ms + [m];
    assert all[..|ms|] == ms && all[|ms|] == m;
    if Unnamed(ms, b) {
      assert Unnamed(all, b);
    } else {
      var k :| LastNamed(ms, b, k) && e.botName.Trimming() == ms[k].p.botName.Trimming();
      assert all[k] == ms[k] && LastNamed(all, b, k);
      assert !Unnamed(all, b);
    }
  }

  lemma MatchCredited(e: Entry, ms: seq<Mention>, m: Mention)
    ensures ShowsLast(Credited(e, m.u, m.p), ms + [m], m.p.botID)
  {
    hide Id.Trimming, Id.Blank;
    assert (ms + [m])[|ms|] == m && LastOf(ms + [m], m.p.botID, |ms|);
  }

  lemma NameCredited(e: Entry, ms: seq<Mention>, m: Mention)
    requires ShowsName(e, ms, m.p.botID)
    ensures ShowsName(Credited(e, m.u, m.p), ms + [m], m.p.botID)
  {
    hide Id.Trimming, Id.Blank, Count;
    var e', all := Credited(e, m.u, m.p), ms + [m];
    if m.p.botName.Blank() {
      NameKept(e, ms, m.p.botID, m);
      assert e'.botName == e.botName;
    } else {
      assert all[|ms|] == m && LastNamed(all, m.p.botID, |ms|);
      assert !Unnamed(all, m.p.botID);
    }
  }

  lemma NothingNamed(ms: seq<Mention>, b: Id)
    requires forall k | 0 <= k < |ms| :: ms[k].p.botID != b
    ensures ShowsName(NO_ENTRY, ms, b)
  {
  }

  lemma TalliedShows(table: Table, ms: seq<Mention>, m: Mention)
    requires TableShows(table, ms)
    ensures TableShows(Tallied(table, m.u, m.p), ms + [m])
  {
    hide Id.Trimming, Id.Blank, NormalizeEntry, Credited, ShowsLast, ShowsName;
    var table', all, e := Tallied(table, m.u, m.p), ms + [m], if m.p.botID in table then table[m.p.botID] else NO_ENTRY;
    assert all[|ms|] == m && all[..|ms|] == ms;
    if m.p.botID !in table { NothingNamed(ms, m.p.botID); }
    NameNormalized(e, ms, m.p.botID);
    NameCredited(NormalizeEntry(e), ms, m);
    MatchCredited(NormalizeEntry(e), ms, m);
    forall b | b in table' ensures ShowsLast(table'[b], all, b) && ShowsName(table'[b], all, b) {
      if b != m.p.botID {
        OtherMatch(table[b], ms, b, m);
        NameKept(table[b], ms, b, m);
      }
    }
    forall b ensures b in table' <==> exists k :: 0 <= k < |all| && all[k].p.botID == b {
      if b in table {
        var k :| 0 <= k < |ms| && ms[k].p.botID == b;
        assert all[k].p.botID == b;
      }
    }
  }

  lemma {:induction false} TallyAllShows(table: Table, u: Update, placements: seq<RankedPlacement>, ms: seq<Mention>)
    requires TableShows(table, ms)
    ensures TableShows(TallyAll(table, u, placements), ms + MentionsIn(u, placements))
  {
    hide TableShows, Tallied;
    if placements == [] {
      assert ms + MentionsIn(u, placements) == ms;
    } else {
      var n := |placements| - 1;
      TallyAllShows(table, u, placements[..n], ms);
      TalliedShows(TallyAll(table, u, placements[..n]), ms + MentionsIn(u, placements[..n]), Mention(u, placements[n]));
      assert ms + MentionsIn(u, placements)
          == ms + MentionsIn(u, placements[..n]) + [Mention(u, placements[n])];
    }
  }

  /**
    What a standing shows of a bot, whatever was credited before: it is that of the last placement of the
    bot in the credited runs, its player, run, match and status, and its name is the last one given; and no
    entry has surrounding blanks.
  */
  lemma {:induction false} EntriesShowTheLast(scope: GameKey, us: seq<Update>)
    requires Separate(us)
    ensures TableShows(ApplyAll(NewStanding(scope), us).table, Mentions(us))
    ensures var st := ApplyAll(NewStanding(scope), us);
            && st.runs == RunsOf(us) && st.matches == MatchesOf(us)
            && forall b | b in st.table :: IsTrimmed(st.table[b])
  {
    hide TableShows, TallyAll, NormalizeEntry;
    if us != [] {
      var n := |us| - 1;
      var front, u := us[..n], us[n];
      assert us == front + [u];
      SeparateSnoc(front, u);
      EntriesShowTheLast(scope, front);
      var st := ApplyAll(NewStanding(scope), front);
      TallyAllShows(st.table, u, u.placements, Mentions(front));
      NormalizedShows(TallyAll(st.table, u, u.placements), Mentions(us));
    } else {
      NothingShown();
    }
  }

  lemma NothingShown()
    ensures TableShows(map[], [])
  {
  }

  ghost predicate IsTrimmed(e: Entry) {
    && e.botID.Trimmed() && e.botName.Trimmed() && e.lastPlayerID.Trimmed() && e.lastRunID.Trimmed() && e.lastMatchID.Trimmed()
  }

  lemma NormalizedIsTrimmed(e: Entry)
    ensures IsTrimmed(NormalizeEntry(e))
  {
    TrimmingTwice(e.botID);
    TrimmingTwice(e.botName);
    TrimmingTwice(e.lastPlayerID);
    TrimmingTwice(e.lastRunID);
    TrimmingTwice(e.lastMatchID);
  }

  lemma NormalizedShows(table: Table, ms: seq<Mention>)
    requires TableShows(table, ms)
    ensures TableShows(NormalizeTable(table), ms)
    ensures forall b | b in table :: IsTrimmed(NormalizeTable(table)[b])
  {
    hide ShowsLast, ShowsName, NormalizeEntry, IsTrimmed;
    var table' := NormalizeTable(table);
    forall b | b in table
      ensures ShowsLast(table'[b], ms, b) && ShowsName(table'[b], ms, b) && IsTrimmed(table'[b])
    {
      MatchNormalized(table[b], ms, b);
      NameNormalized(table[b], ms, b);
      NormalizedIsTrimmed(table[b]);
    }
  }
}
