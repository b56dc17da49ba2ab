/**
  What histories and stored snapshots of an echo match tell: which of them are taken, and what state they
  give, in terms of their events and fields (internal/games/echo/echo.go:175-266, 487-555).
*/
module EchoSnapshots {
  import opened Identifiers
  import opened GameTypes
  import opened GamePlay
  import opened Echo

  // ----- Histories -----

  // A recorded outcome of the turns up to the target.
  ghost predicate Outcome(e: HistoryEvent<int>, targetTurn: int) { e.recorded && e.turn != 0 && e.turn <= targetTurn }

  // The accepted outcomes of the player.
  ghost function AcceptedOf(events: seq<HistoryEvent<int>>, targetTurn: int, p: Id): set<int> {
    set k | 0 <= k < |events| && events[k].playerID == p && Outcome(events[k], targetTurn)
            && events[k].status.verdict == Accepted
  }

  ghost predicate LastOutcome(events: seq<HistoryEvent<int>>, targetTurn: int, p: Id, k: int) {
    && 0 <= k < |events| && events[k].playerID == p && Outcome(events[k], targetTurn)
    && forall m | k < m < |events| :: events[m].playerID != p || !Outcome(events[m], targetTurn)
  }

  // The status of the player's last outcome, under the player's name; without one the player has not acted.
  ghost predicate LastStatus(events: seq<HistoryEvent<int>>, targetTurn: int, p: Id, status: PlayerStatus<int>) {
    || (exists k :: LastOutcome(events, targetTurn, p, k) && IsNamed(events[k].status, p, status))
    || ((forall k | 0 <= k < |events| :: events[k].playerID != p || !Outcome(events[k], targetTurn))
        && status == PlayerStatus(p, NoAction, NoReason, Absent))
  }

  ghost predicate IsNamed(told: PlayerStatus<int>, p: Id, status: PlayerStatus<int>) {
    && status.playerID == (if told.playerID == NO_ID then p else told.playerID)
    && status.verdict == told.verdict && status.reason == told.reason && status.action == told.action
  }

  lemma AcceptedNext(events: seq<HistoryEvent<int>>, e: HistoryEvent<int>, targetTurn: int, p: Id)
    ensures AcceptedOf(events + [e], targetTurn, p)
         == AcceptedOf(events, targetTurn, p)
            + (if e.playerID == p && Outcome(e, targetTurn) && e.status.verdict == Accepted then {|events|} else {})
    ensures |events| !in AcceptedOf(events, targetTurn, p)
  {
    assert forall k | 0 <= k < |events| :: (events + [e])[k] == events[k];
  }

  lemma StatusNext(
      events: seq<HistoryEvent<int>>, e: HistoryEvent<int>, targetTurn: int, p: Id, status: PlayerStatus<int>)
    requires LastStatus(events, targetTurn, p, status)
    ensures e.playerID != p || !Outcome(e, targetTurn) ==> LastStatus(events + [e], targetTurn, p, status)
    ensures e.playerID == p && Outcome(e, targetTurn) ==> LastStatus(events + [e], targetTurn, p, Filled(e))
  {
    hide Outcome;
    var all := events + [e];
    assert all[..|events|] == events && all[|events|] == e;
    assert forall k | 0 <= k < |events| :: all[k] == events[k];
    if e.playerID == p && Outcome(e, targetTurn) {
      assert LastOutcome(all, targetTurn, p, |events|) && IsNamed(all[|events|].status, p, Filled(e));
    } else if exists k :: LastOutcome(events, targetTurn, p, k) && IsNamed(events[k].status, p, status) {
      var k :| LastOutcome(events, targetTurn, p, k) && IsNamed(events[k].status, p, status);
      assert LastOutcome(all, targetTurn, p, k);
    }
  }

  ghost predicate Tells(cfg: Config, events: seq<HistoryEvent<int>>, targetTurn: int, t: Tally) {
    && (forall p :: p in t.score <==> p in cfg.players) && (forall p :: p in t.last <==> p in cfg.players)
    && (forall p | p in t.score :: t.score[p] == |AcceptedOf(events, targetTurn, p)|)
    && (forall p | p in t.last :: LastStatus(events, targetTurn, p, t.last[p]))
  }

  lemma NothingTold(cfg: Config, targetTurn: int)
    ensures Tells(cfg, [], targetTurn, Tally(map p | p in cfg.players :: 0, map p | p in cfg.players :: NoActionOf<int>(p)))
  {
  }

  lemma TellsNext(cfg: Config, events: seq<HistoryEvent<int>>, e: HistoryEvent<int>, targetTurn: int, t: Tally)
    requires Tells(cfg, events, targetTurn, t)
    ensures !Outcome(e, targetTurn) ==> Tells(cfg, events + [e], targetTurn, t)
    ensures Outcome(e, targetTurn) && e.playerID in cfg.players ==>
              Tells(cfg, events + [e], targetTurn, Counted(t, e.playerID, Filled(e)))
  {
    hide Outcome, AcceptedOf, LastStatus;
    forall p | p in cfg.players
      ensures LastStatus(events + [e], targetTurn, p,
                         if e.playerID == p && Outcome(e, targetTurn) then Filled(e) else t.last[p])
      ensures |AcceptedOf(events + [e], targetTurn, p)|
           == t.score[p] + if e.playerID == p && Outcome(e, targetTurn) && e.status.verdict == Accepted then 1 else 0
    {
      StatusNext(events, e, targetTurn, p, t.last[p]);
      AcceptedNext(events, e, targetTurn, p);
    }
  }

  /**
    Any list of events: recounting fails exactly if an outcome of the turns up to the target does not decode
    or is nobody's; otherwise each player's score is the number of the player's accepted outcomes, and the
    last status that of the last one.
  */
  lemma {:induction false} RecountIs(cfg: Config, events: seq<HistoryEvent<int>>, targetTurn: int)
    ensures var r := Recounted(cfg, events, targetTurn);
            && (r.None? <==> exists k :: 0 <= k < |events| && Outcome(events[k], targetTurn)
                                         && (!events[k].readable || events[k].playerID !in cfg.players))
            && (r.Some? ==> Tells(cfg, events, targetTurn, r.value))
  {
    hide Tells;
    if events == [] {
      NothingTold(cfg, targetTurn);
    } else {
      var n := |events| - 1;
      RecountIs(cfg, events[..n], targetTurn);
      assert events[..n] + [events[n]] == events;
      if Recounted(cfg, events[..n], targetTurn).Some? {
        TellsNext(cfg, events[..n], events[n], targetTurn, Recounted(cfg, events[..n], targetTurn).value);
      } else {
        var k :| 0 <= k < n && Outcome(events[..n][k], targetTurn)
                 && (!events[..n][k].readable || events[..n][k].playerID !in cfg.players);
        assert events[k] == events[..n][k];
      }
    }
  }

  // ----- Snapshots -----

  // What the snapshot says of the game is so, as far as it says it.
  ghost predicate IsOfGame(cfg: Config, s: GameSnapshot) {
    && (s.mode.Some? ==> s.mode == Some(cfg.mode))
    && 0 <= s.turn <= cfg.turns
    && (cfg.seedAware ==> s.seed == cfg.seed && cfg.seed != NO_ID)
    && (cfg.seedAware && s.order != [] ==> s.order == cfg.order)
    && (s.expected > 0 && cfg.order != [] ==>
          s.expected == cfg.order[if s.turn < |cfg.order| then s.turn else |cfg.order| - 1])
    && (cfg.order == [] ==> s.expected <= 0)
  }

  /**
    A snapshot is restored exactly if what it says is of the game and of players known; then the turn of
    the snapshot begins, the players start anew but for what the snapshot tells, and anybody else keeps
    what the snapshot does not tell.
  */
  lemma RestoredVerdict(cfg: Config, st: State, s: GameSnapshot)
    ensures var r := RestoredOver(cfg, st, s);
            && (r.Some? <==> && IsOfGame(cfg, s)
                             && (forall p | p in s.score :: p in st.score || p in cfg.players)
                             && (forall p | p in s.perPlayer :: p in st.lastAction || p in cfg.players))
            && (r.Some? ==>
                  && r.value.resolved == s.turn && r.value.nextPlayer == 0
                  && (forall p :: p in r.value.score <==> p in st.score || p in cfg.players)
                  && (forall p | p in r.value.score ::
                        r.value.score[p] == if p in s.score then s.score[p] else if p in cfg.players then 0 else st.score[p])
                  && (forall p :: p in r.value.lastAction <==> p in st.lastAction || p in cfg.players)
                  && (forall p | p in r.value.lastAction :: IsTold(cfg, st, s, p, r.value.lastAction[p])))
  {
    hide ClearedMap, ToldStatus;
    var score, last := ClearedMap(st.score, cfg.players, NoScore), ClearedMap(st.lastAction, cfg.players, NotActed);
    assert Fits(cfg, s) <==> IsOfGame(cfg, s);
    forall p
      ensures p in score <==> p in st.score || p in cfg.players
      ensures p in score ==> score[p] == if p in cfg.players then 0 else st.score[p]
    {
      ClearedAt(st.score, cfg.players, NoScore, p);
    }
    forall p
      ensures p in last <==> p in st.lastAction || p in cfg.players
      ensures p in last ==> IsTold(cfg, st, s, p, ToldStatus(last, s.perPlayer, p))
    {
      ClearedAt(st.lastAction, cfg.players, NotActed, p);
      if p in last { ToldIs(cfg, st, s, last, p); }
    }
  }

  lemma ToldIs(cfg: Config, st: State, s: GameSnapshot, last: map<Id, PlayerStatus<int>>, p: Id)
    requires p in last && (p in st.lastAction || p in cfg.players)
    requires last[p] == if p in cfg.players then NotActed(p) else st.lastAction[p]
    ensures IsTold(cfg, st, s, p, ToldStatus(last, s.perPlayer, p))
  {
  }

  // The status that the snapshot tells, under the player's name, or else the one before.
  ghost predicate IsTold(cfg: Config, st: State, s: GameSnapshot, p: Id, status: PlayerStatus<int>)
    requires p in st.lastAction || p in cfg.players
  {
    if p in s.perPlayer && s.perPlayer[p].verdict != Unset then IsNamed(s.perPlayer[p], p, status)
    else status == if p in cfg.players then PlayerStatus(p, NoAction, NoReason, Absent) else st.lastAction[p]
  }

  ghost function NumberOf(cfg: Config, turn: nat): int
    requires cfg.order != []
  {
    cfg.order[if turn < |cfg.order| then turn else |cfg.order| - 1]
  }

  /**
    A snapshot taken in one match is of another match's game exactly if both have the mode, the turn is in
    its range, both expect the same number then, and, if that match goes by a seed, they share seed and order.
  */
  lemma SnapshotIsOfItsGame(cfg: Config, other: Config, turn: nat, score: map<Id, int>, perPlayer: map<Id, PlayerStatus<int>>)
    requires Playable(cfg) && Playable(other) && cfg.order != [] && other.order != [] && turn <= cfg.turns
    ensures Fits(other, SnapshotOf(cfg, turn, score, perPlayer)) <==>
              && other.mode == cfg.mode && turn <= other.turns && NumberOf(other, turn) == NumberOf(cfg, turn)
              && (other.seedAware ==> cfg.seedAware && other.seed == cfg.seed && other.order == cfg.order)
    ensures var s := SnapshotOf(cfg, turn, score, perPlayer);
            && s.turn == turn && s.score == score && s.perPlayer == perPlayer
            && (!cfg.seedAware ==> s.seed == NO_ID && s.order == [])
  {
    assert NumberOf(cfg, turn) == ExpectedAt(cfg.order, turn) && NumberOf(cfg, turn) > 0;
    assert NumberOf(other, turn) == ExpectedAt(other.order, turn);
  }
}
