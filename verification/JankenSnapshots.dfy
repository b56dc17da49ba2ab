/**
  What stored snapshots of a janken match tell: which of them are taken, and what state they give, in terms
  of their fields (internal/games/janken/janken.go:491-544).
*/
module JankenSnapshots {
  import opened Identifiers
  import opened GameTypes
  import opened GamePlay
  import opened Janken

  // The status that the snapshot tells, under the player's name, or else the one before.
  ghost predicate IsTold(cfg: Config, st: State, s: GameSnapshot, p: Id, status: PlayerStatus<Hand>)
    requires p in st.lastAction || p in cfg.players
  {
    if p in s.perPlayer && s.perPlayer[p].verdict != Verdict.Unset then
      var told := s.perPlayer[p];
      && status.playerID == (if told.playerID == NO_ID then p else told.playerID)
      && status.verdict == told.verdict && status.reason == told.reason && status.action == told.action
    else status == if p in cfg.players then PlayerStatus(p, Verdict.NoAction, NoReason, Absent) else st.lastAction[p]
  }

  // Players start anew but for what is told, and anybody else keeps what is not.
  ghost predicate StartsFrom<V>(players: seq<Id>, before: map<Id, V>, told: map<Id, V>, start: V, after: map<Id, V>) {
    && (forall p :: p in after <==> p in before || p in players)
    && forall p | p in after ::
         after[p] == if p in told then told[p] else if p in players then start else before[p]
  }

  /**
    A snapshot is restored exactly if its turn is one of the match and it tells of known players alone; then
    the rounds after its turn are to be played, the public history is the snapshot's, the players start anew
    but for what it tells, and anybody else keeps what it does not tell.
  */
  lemma RestoredVerdict(cfg: Config, st: State, s: GameSnapshot)
    ensures var r := RestoredOver(cfg, st, s);
            && (r.Some? <==> && 0 <= s.turn <= cfg.rounds
                             && (forall p | p in s.scores :: p in st.scores || p in cfg.players)
                             && (forall p | p in s.selfHistory :: p in st.selfHistory || p in cfg.players)
                             && (forall p | p in s.perPlayer :: p in st.lastAction || p in cfg.players))
            && (r.Some? ==>
                  && r.value.resolved == s.turn && r.value.publicHistory == s.publicHistory
                  && StartsFrom(cfg.players, st.scores, s.scores, Score(0, 0, 0, 0, 0), r.value.scores)
                  && StartsFrom(cfg.players, st.selfHistory, s.selfHistory, [], r.value.selfHistory)
                  && (forall p :: p in r.value.lastAction <==> p in st.lastAction || p in cfg.players)
                  && (forall p | p in r.value.lastAction :: IsTold(cfg, st, s, p, r.value.lastAction[p])))
  {
    hide ClearedMap, ToldStatus;
    var last := ClearedMap(st.lastAction, cfg.players, NotActed);
    StartsCleared(cfg.players, st.scores, s.scores, NoScore, Score(0, 0, 0, 0, 0));
    StartsCleared(cfg.players, st.selfHistory, s.selfHistory, NoRounds, []);
    forall p
      ensures p in last <==> p in st.lastAction || p in cfg.players
      ensures p in last ==> IsTold(cfg, st, s, p, ToldStatus(last, s.perPlayer, p))
    {
      ClearedAt(st.lastAction, cfg.players, NotActed, p);
      if p in last { ToldIs(cfg, st, s, last, p); }
    }
  }

  lemma StartsCleared<V>(players: seq<Id>, before: map<Id, V>, told: map<Id, V>, value: Id -> V, start: V)
    requires forall p :: value(p) == start
    ensures var cleared := ClearedMap(before, players, value);
            && (forall p :: p in cleared <==> p in before || p in players)
            && (told.Keys <= cleared.Keys ==> StartsFrom(players, before, told, start, cleared + told))
  {
    hide ClearedMap;
    var cleared := ClearedMap(before, players, value);
    forall p
      ensures p in cleared <==> p in before || p in players
      ensures p in cleared ==> cleared[p] == if p in players then start else before[p]
    {
      ClearedAt(before, players, value, p);
    }
  }

  lemma ToldIs(cfg: Config, st: State, s: GameSnapshot, last: map<Id, PlayerStatus<Hand>>, p: Id)
    requires p in last && (p in st.lastAction || p in cfg.players)
    requires last[p] == if p in cfg.players then NotActed(p) else st.lastAction[p]
    ensures IsTold(cfg, st, s, p, ToldStatus(last, s.perPlayer, p))
  {
  }
}
