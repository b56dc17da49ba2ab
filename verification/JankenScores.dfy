/**
  What a janken match is about, told from the answers alone: who won which round, and that scores and
  histories say just that (internal/games/janken/janken.go:312-400).
*/
module JankenScores {
  import opened Identifiers
  import opened GameTypes
  import opened GamePlay
  import opened Janken

  // ----- A round -----

  // One hand per player; a player without one has nothing to show.
  type Hands = seq<Option<Hand>>

  ghost predicate BeatsOne(hands: Hands, j: nat)
    requires j < |hands|
  {
    hands[j].Some? && exists k :: 0 <= k < |hands| && hands[k].Some? && Beats(hands[j].value, hands[k].value)
  }

  ghost predicate BeatenByOne(hands: Hands, j: nat)
    requires j < |hands|
  {
    hands[j].Some? && exists k :: 0 <= k < |hands| && hands[k].Some? && Beats(hands[k].value, hands[j].value)
  }

  ghost function ResultFor(hands: Hands, j: nat): Outcome
    requires j < |hands|
  {
    if BeatsOne(hands, j) && !BeatenByOne(hands, j) then Win
    else if hands[j].None? || (BeatenByOne(hands, j) && !BeatsOne(hands, j)) then Loss
    else Draw
  }

  ghost function Shows(hand: Option<Hand>): Shown { if hand.Some? then Show(hand.value) else Passed }

  // The hand that an answer names, if it was accepted.
  ghost function HandOf(s: PlayerStatus<Hand>): Option<Hand> {
    if s.verdict == Accepted && s.action.Naming? then Some(s.action.move) else None
  }

  ghost function HandsOf(answers: seq<PlayerStatus<Hand>>): Hands {
    seq(|answers|, i requires 0 <= i < |answers| => HandOf(answers[i]))
  }

  // Why an answer has no hand: what the session reports, or that what was accepted names none.
  ghost function ReasonOf(s: PlayerStatus<Hand>): Reason {
    if s.verdict == Accepted && !s.action.Naming? then IllegalAction else s.reason
  }

  ghost function One(b: bool): nat { if b then 1 else 0 }

  ghost function Scored(before: Score, result: Outcome, reason: Reason): Score {
    Score(before.wins + One(result == Win), before.losses + One(result == Loss), before.draws + One(result == Draw),
          before.timeouts + One(reason == Timeout), before.invalidActions + One(reason == IllegalAction))
  }

  ghost predicate Notes(round: PublicRound, turn: int, p: Id, shown: Shown, result: Outcome) {
    round.round == turn && p in round.actions && round.actions[p] == shown && p in round.results && round.results[p] == result
  }

  lemma MoveIsHand(s: PlayerStatus<Hand>)
    ensures s.Move() == HandOf(s)
  {
  }

  // The hands that a round is decided on are those of its statuses.
  lemma CountedHands(st: State, players: seq<Id>, statuses: seq<PlayerStatus<Hand>>, p: Id)
    requires Matched(players, statuses)
    ensures var t := CountAll(Uncounted(st), statuses);
            && (p in t.valid <==> exists j :: 0 <= j < |players| && players[j] == p && HandsOf(statuses)[j].Some?)
            && (forall j | 0 <= j < |players| && players[j] == p && HandsOf(statuses)[j].Some? ::
                  p in t.valid && t.valid[p] == HandsOf(statuses)[j].value)
  {
    CountAllAt(Uncounted(st), players, statuses, |players|);
    assert statuses[..|players|] == statuses && players[..|players|] == players;
    var t := CountAll(Uncounted(st), statuses);
    hide CountAll;
    if p in players {
      var j :| 0 <= j < |players| && players[j] == p;
      assert CountedAt(Uncounted(st), t, players[j], statuses[j]);
      assert HandsOf(statuses)[j] == statuses[j].Move() by { MoveIsHand(statuses[j]); }
      assert forall k | 0 <= k < |players| && players[k] == p :: k == j;
    } else {
      assert SameAt(Uncounted(st), t, p);
    }
  }

  // A player with a hand wins, loses or draws as the hands beat each other.
  lemma OutcomeOfHands(st: State, players: seq<Id>, statuses: seq<PlayerStatus<Hand>>, j: nat)
    requires Matched(players, statuses) && j < |players|
    ensures OutcomeAt(OutcomesOf(CountAll(Uncounted(st), statuses)), players[j]) == ResultFor(HandsOf(statuses), j)
  {
    var p, t, hands := players[j], CountAll(Uncounted(st), statuses), HandsOf(statuses);
    CountAllAt(Uncounted(st), players, statuses, |players|);
    assert statuses[..|players|] == statuses;
    assert CountedAt(Uncounted(st), t, players[j], statuses[j]);
    MoveIsHand(statuses[j]);
    CountedHands(st, players, statuses, p);
    ResolvedKeys(t.valid);
    hide CountAll, Resolved;
    if hands[j].Some? {
      RoundOutcome(t.valid, p);
      if BeatsSomeone(t.valid, p) {
        var q :| q in t.valid && Beats(t.valid[p], t.valid[q]);
        CountedHands(st, players, statuses, q);
      }
      if BeatenBySomeone(t.valid, p) {
        var q :| q in t.valid && Beats(t.valid[q], t.valid[p]);
        CountedHands(st, players, statuses, q);
      }
      if BeatsOne(hands, j) {
        var k :| 0 <= k < |hands| && hands[k].Some? && Beats(hands[j].value, hands[k].value);
        CountedHands(st, players, statuses, players[k]);
      }
      if BeatenByOne(hands, j) {
        var k :| 0 <= k < |hands| && hands[k].Some? && Beats(hands[k].value, hands[j].value);
        CountedHands(st, players, statuses, players[k]);
      }
      assert BeatsOne(hands, j) <==> BeatsSomeone(t.valid, p);
      assert BeatenByOne(hands, j) <==> BeatenBySomeone(t.valid, p);
    }
  }

  lemma ResolvedKeys(valid: map<Id, Hand>)
    ensures forall p :: p in Resolved(valid) <==> p in valid
  {
  }

  /**
    One round, for one status per player: a player whose hand beats some player's hand of the round and is
    beaten by none is given a win, one with no hand or beaten and beating none a loss, any other a draw; a
    timeout and an illegal action are counted by their reason; and both histories note the same hand and
    result.
  */
  lemma RoundIsScored(cfg: Config, st: State, turn: int, statuses: seq<PlayerStatus<Hand>>, j: nat)
    requires Matched(cfg.players, statuses) && j < |cfg.players|
    requires cfg.players[j] in st.scores && cfg.players[j] in st.selfHistory
    ensures var st', p, hands := AppliedRound(cfg, st, turn, statuses), cfg.players[j], HandsOf(statuses);
            && st'.resolved == st.resolved + 1
            && p in st'.scores && st'.scores[p] == Scored(st.scores[p], ResultFor(hands, j), statuses[j].reason)
            && p in st'.selfHistory
            && st'.selfHistory[p] == st.selfHistory[p] + [SelfRound(turn, Shows(hands[j]), ResultFor(hands, j))]
            && |st'.publicHistory| == |st.publicHistory| + 1 && st'.publicHistory[..|st.publicHistory|] == st.publicHistory
            && Notes(st'.publicHistory[|st.publicHistory|], turn, p, Shows(hands[j]), ResultFor(hands, j))
            && p in st'.lastAction && st'.lastAction[p] == statuses[j]
  {
    hide CountAll, Resolved, AwardAll, NoteAll, BeatsOne, BeatenByOne;
    var p, t := cfg.players[j], CountAll(Uncounted(st), statuses);
    CountAllAt(Uncounted(st), cfg.players, statuses, |cfg.players|);
    assert statuses[..|cfg.players|] == statuses;
    assert CountedAt(Uncounted(st), t, p, statuses[j]);
    MoveIsHand(statuses[j]);
    OutcomeOfHands(st, cfg.players, statuses, j);
    AwardedAt(t.scores, cfg.players, OutcomesOf(t), j);
    NotedAt(st.selfHistory, cfg.players, turn, t.actions, OutcomesOf(t), j);
    ResolvedKeys(t.valid);
  }

  // ----- Answers -----

  /** Normalizing keeps the hand and nothing else of an action, and names what was accepted without a hand illegal. */
  lemma NormalizedIs(p: Id, s: PlayerStatus<Hand>)
    ensures var n := Normalize(p, s);
            && HandOf(n) == HandOf(s) && n.reason == ReasonOf(s)
            && (HandOf(s).Some? ==> n == s.(action := Naming(HandOf(s).value, NO_ID)))
            && (HandOf(s).None? ==> n.action == Absent && n.verdict != Accepted)
            && n.playerID == (if s.verdict == Accepted && HandOf(s).None? then p else s.playerID)
            && (s.verdict != Accepted ==> n.verdict == s.verdict)
            && (s.verdict == Accepted && HandOf(s).None? ==> n.verdict == Verdict.NoAction)
  {
  }

  lemma NormalizedHands(players: seq<Id>, raw: seq<PlayerStatus<Hand>>)
    requires |raw| == |players|
    ensures HandsOf(NormalizeAll(players, raw)) == HandsOf(raw)
  {
    forall i | 0 <= i < |raw| ensures HandsOf(NormalizeAll(players, raw))[i] == HandsOf(raw)[i] {
      NormalizedIs(players[i], raw[i]);
    }
  }

  lemma NormalizedMatched(players: seq<Id>, raw: seq<PlayerStatus<Hand>>)
    requires Distinct(players) && |raw| == |players| && forall j | 0 <= j < |players| :: raw[j].playerID == players[j]
    ensures Matched(players, NormalizeAll(players, raw))
  {
    forall j | 0 <= j < |players| ensures NormalizeAll(players, raw)[j].playerID == players[j] {
      NormalizedIs(players[j], raw[j]);
    }
  }

  // ----- A match -----

  // What the j-th player has after the rounds.
  ghost function ScoreAfter(rounds: seq<seq<PlayerStatus<Hand>>>, j: nat): Score
    requires forall i | 0 <= i < |rounds| :: j < |rounds[i]|
  {
    if rounds == [] then Score(0, 0, 0, 0, 0)
    else
      var n := |rounds| - 1;
      Scored(ScoreAfter(rounds[..n], j), ResultFor(HandsOf(rounds[n]), j), ReasonOf(rounds[n][j]))
  }

  ghost function RoundsOf(rounds: seq<seq<PlayerStatus<Hand>>>, j: nat): seq<SelfRound>
    requires forall i | 0 <= i < |rounds| :: j < |rounds[i]|
  {
    if rounds == [] then []
    else
      var n := |rounds| - 1;
      RoundsOf(rounds[..n], j) + [SelfRound(n + 1, Shows(HandsOf(rounds[n])[j]), ResultFor(HandsOf(rounds[n]), j))]
  }

  /**
    A whole match of any length and any players: every player's score is the count of the rounds it won,
    lost and drew by the hands shown, of its timeouts and of its illegal actions, and its history is the
    list of its hands and results.
  */
  lemma {:induction false} MatchIsScored(cfg: Config, rounds: seq<seq<PlayerStatus<Hand>>>, j: nat)
    requires Answers(cfg, rounds) && NamedAnswers(cfg, rounds) && Distinct(cfg.players) && j < |cfg.players|
    ensures var st, p := Played(cfg, rounds), cfg.players[j];
            && p in st.scores && st.scores[p] == ScoreAfter(rounds, j)
            && p in st.selfHistory && st.selfHistory[p] == RoundsOf(rounds, j)
            && p in st.lastAction && st.resolved == |rounds|
  {
    hide AppliedRound, ResultFor, Normalize, HandsOf;
    if rounds != [] {
      var n := |rounds| - 1;
      MatchIsScored(cfg, rounds[..n], j);
      var statuses := NormalizeAll(cfg.players, rounds[n]);
      NormalizedMatched(cfg.players, rounds[n]);
      NormalizedHands(cfg.players, rounds[n]);
      NormalizedIs(cfg.players[j], rounds[n][j]);
      RoundIsScored(cfg, Played(cfg, rounds[..n]), n + 1, statuses, j);
      HandsCount(rounds[n]);
    } else { NobodyScored(cfg, j); }
  }

  lemma HandsCount(answers: seq<PlayerStatus<Hand>>)
    ensures |HandsOf(answers)| == |answers|
  {
  }

  lemma NobodyScored(cfg: Config, j: nat)
    requires j < |cfg.players|
    ensures var st, p := NewState(cfg), cfg.players[j];
            && p in st.scores && st.scores[p] == Score(0, 0, 0, 0, 0) && p in st.selfHistory && st.selfHistory[p] == []
            && p in st.lastAction && st.resolved == 0
  {
  }
}
