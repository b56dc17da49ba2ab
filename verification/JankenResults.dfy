/**
  Janken under the match runner, end to end: the scores of a match are decided by what the players'
  sessions answered, round by round (internal/platform/match/match.go:290-322, 482-524,
  internal/games/janken/janken.go:312-400).
*/
module JankenResults {
  import opened Identifiers
  import opened GameTypes
  import opened GamePlay
  import opened MatchRunner
  import opened RunnerLog
  import J = Janken
  import S = JankenScores
  import opened JankenMatches

  // The hand that the j-th player's session answered with in the i-th round.
  ghost function HandIn(c: Codec, w: Surroundings, i: nat, j: nat): Option<J.Hand> {
    var r := w.turns(i, j).result;
    if r.verdict == Accepted && r.payload.Some? && c.move(r.payload.value).Naming?
    then Some(c.move(r.payload.value).move) else None
  }

  ghost function HandsAnswered(c: Codec, w: Surroundings, i: nat, n: nat): S.Hands {
    seq(n, j requires 0 <= j < n => HandIn(c, w, i, j))
  }

  // Why the session's answer is no hand: its own reason, or that what it accepted names none.
  ghost function WhyNone(c: Codec, w: Surroundings, i: nat, j: nat): Reason {
    if w.turns(i, j).result.verdict == Accepted && HandIn(c, w, i, j).None? then IllegalAction
    else w.turns(i, j).result.reason
  }

  // What the j-th of n players has after t rounds.
  ghost function ScoreOf(c: Codec, w: Surroundings, n: nat, t: nat, j: nat): J.Score
    requires j < n
  {
    if t == 0 then J.Score(0, 0, 0, 0, 0)
    else S.Scored(ScoreOf(c, w, n, t - 1, j), S.ResultFor(HandsAnswered(c, w, t - 1, n), j), WhyNone(c, w, t - 1, j))
  }

  // The raw answers of a round are the sessions' answers.
  lemma StepIsAnswered(cfg: J.Config, c: Codec, w: Surroundings, a: Applied<J.State>, i: nat)
    requires c.Faithful() && Played(GameMaster(cfg, c), a) && a.results == ResultsOf(a.step, i, w)
    ensures |Raw(c, a)| == |cfg.players| == |a.statuses| && S.HandsOf(Raw(c, a)) == HandsAnswered(c, w, i, |cfg.players|)
    ensures forall j | 0 <= j < |cfg.players| ::
              && Raw(c, a)[j].playerID == cfg.players[j] && S.ReasonOf(Raw(c, a)[j]) == WhyNone(c, w, i, j)
              && a.statuses[j].playerID == cfg.players[j]
              && S.HandOf(c.Read(a.statuses[j])) == HandIn(c, w, i, j)
  {
    hide J.AppliedRound, Codec.Faithful, J.Normalize;
    StepIsRound(cfg, c, a);
    forall j | 0 <= j < |cfg.players|
      ensures Raw(c, a)[j].playerID == cfg.players[j] && S.ReasonOf(Raw(c, a)[j]) == WhyNone(c, w, i, j)
      ensures S.HandOf(Raw(c, a)[j]) == HandIn(c, w, i, j) == S.HandOf(c.Read(a.statuses[j]))
      ensures a.statuses[j].playerID == cfg.players[j]
    {
      var r := w.turns(i, j).result;
      assert a.results[j] == r;
      assert Raw(c, a)[j] == c.Read(ActionStatus(cfg.players[j], r.verdict, r.reason, r.payload));
      S.NormalizedIs(cfg.players[j], Raw(c, a)[j]);
      assert Reads(c, a.statuses)[j] == c.Read(a.statuses[j]) == J.Normalize(cfg.players[j], Raw(c, a)[j]);
    }
    assert |S.HandsOf(Raw(c, a))| == |Raw(c, a)|;
    assert forall j | 0 <= j < |cfg.players| :: S.HandsOf(Raw(c, a))[j] == S.HandOf(Raw(c, a)[j]);
  }

  lemma RoundIsAnswered(
      cfg: J.Config, c: Codec, w: Surroundings, story: Story<J.State>, err: Option<RunError>, record: Record, i: nat)
    requires c.Faithful() && i < |story.trace|
    requires Happened(GameMaster(cfg, c), J.NewState(cfg), cfg.players, w, story, err, record)
    ensures RoundAnswered(c, w, |cfg.players|, story.trace[i], i)
  {
    hide Happened, Codec.Faithful, Raw, S.HandsOf, HandsAnswered, S.ReasonOf, WhyNone, HandIn, S.HandOf, Codec.Read;
    StepOfRun(GameMaster(cfg, c), J.NewState(cfg), cfg.players, w, story, err, record, i);
    StepIsAnswered(cfg, c, w, story.trace[i], i);
  }

  /**
    A hand that a session answers with in time is the player's hand of that round, as the master applies
    and the log records it, and a session that answers with none has none.
  */
  lemma AnsweredHandIsPlayed(
      cfg: J.Config, c: Codec, w: Surroundings, story: Story<J.State>, err: Option<RunError>, record: Record, i: nat, j: nat)
    requires c.Faithful() && i < |story.trace| && j < |cfg.players|
    requires Happened(GameMaster(cfg, c), J.NewState(cfg), cfg.players, w, story, err, record)
    ensures j < |story.trace[i].statuses| && story.trace[i].statuses[j].playerID == cfg.players[j]
    ensures S.HandOf(c.Read(story.trace[i].statuses[j])) == HandIn(c, w, i, j)
    ensures story.trace[i].step.turn == i + 1
            && exists kind: Kind :: kind.Recorded()
                 && Entry(kind, i + 1, cfg.players[j], Status(story.trace[i].statuses[j])) in EntriesOf(record.events)
  {
    hide Happened, Codec.Faithful, Raw, S.HandsOf, HandsAnswered, S.ReasonOf, WhyNone, HandIn, S.HandOf, Codec.Read, EntriesOf;
    hide J.NewState, Live, StoodAt, J.AppliedRound, J.NormalizeAll;
    StepOfRun(GameMaster(cfg, c), J.NewState(cfg), cfg.players, w, story, err, record, i);
    StepIsAnswered(cfg, c, w, story.trace[i], i);
    StepIsRound(cfg, c, story.trace[i]);
    TurnOfStep(cfg, c, w, story, err, record, i);
    AnswersReachTheMaster(GameMaster(cfg, c), J.NewState(cfg), cfg.players, w, story, err, record, i, j);
    var reason := w.turns(i, j).result.reason;
    var kind := if reason == NoReason then TurnResult else if reason == Timeout then TurnTimeout
                else if reason == RuntimeStop then RuntimeExited else ProtocolError;
    assert kind.Recorded() && Entry(kind, i + 1, cfg.players[j], Status(story.trace[i].statuses[j])) in EntriesOf(record.events);
  }

  lemma TurnOfStep(
      cfg: J.Config, c: Codec, w: Surroundings, story: Story<J.State>, err: Option<RunError>, record: Record, i: nat)
    requires c.Faithful() && i < |story.trace|
    requires Happened(GameMaster(cfg, c), J.NewState(cfg), cfg.players, w, story, err, record)
    ensures story.trace[i].entry.resolved == i
  {
    hide Opening, Closing, Blocks, LeftBy, EndsAs, LastOf, LastStatuses, EntriesOf, Tried, LoopEnds, Unfinished, Codec.Faithful;
    hide Live, J.NewState, J.Played;
    PlayedPrefix(cfg, c, story.trace, story.end, i);
  }

  /**
    For every run of the match runner on the game: after any number of applied rounds each player's wins,
    losses and draws are the rounds in which the hands that the sessions answered with gave it a win, a
    loss or a draw, and its timeouts and illegal actions are those of its session.
  */
  lemma RunIsScored(
      cfg: J.Config, c: Codec, w: Surroundings, story: Story<J.State>, err: Option<RunError>, record: Record, t: nat, j: nat)
    requires c.Faithful() && Distinct(cfg.players) && t <= |story.trace| && j < |cfg.players|
    requires Happened(GameMaster(cfg, c), J.NewState(cfg), cfg.players, w, story, err, record)
    ensures var st, p := StoodAt(story.trace, story.end, t), cfg.players[j];
            st.resolved == t && p in st.scores && st.scores[p] == ScoreOf(c, w, |cfg.players|, t, j)
  {
    hide Opening, Closing, Blocks, LeftBy, EndsAs, LastOf, LastStatuses, EntriesOf, Tried, J.NewState, Codec.Faithful, LoopEnds;
    hide J.Played, Raw, S.ScoreAfter, ScoreOf, StoodAt, Live, RoundsOf, Unfinished;
    LiveIsPlayed(cfg, c, story.trace, story.end);
    PlayedPrefix(cfg, c, story.trace, story.end, t);
    RoundsCount(c, story.trace);
    S.MatchIsScored(cfg, RoundsOf(c, story.trace)[..t], j);
    forall i | 0 <= i < |story.trace| ensures RoundAnswered(c, w, |cfg.players|, story.trace[i], i) {
      RoundIsAnswered(cfg, c, w, story, err, record, i);
    }
    ScoresAgree(c, w, |cfg.players|, story.trace, t, j);
  }

  // The raw answers of the i-th round of n players are those of their sessions.
  ghost predicate RoundAnswered(c: Codec, w: Surroundings, n: nat, a: Applied<J.State>, i: nat) {
    && Shaped(a) && |Raw(c, a)| == n && S.HandsOf(Raw(c, a)) == HandsAnswered(c, w, i, n)
    && forall j | 0 <= j < n :: S.ReasonOf(Raw(c, a)[j]) == WhyNone(c, w, i, j)
  }

  lemma {:induction false} ScoresAgree(c: Codec, w: Surroundings, n: nat, trace: seq<Applied<J.State>>, t: nat, j: nat)
    requires t <= |trace| == |RoundsOf(c, trace)| && j < n
    requires forall i | 0 <= i < |trace| :: |RoundsOf(c, trace)[i]| == n
    requires forall i | 0 <= i < |trace| :: RoundAnswered(c, w, n, trace[i], i)
    ensures S.ScoreAfter(RoundsOf(c, trace)[..t], j) == ScoreOf(c, w, n, t, j)
  {
    hide S.HandsOf, S.ResultFor, HandsAnswered, S.ReasonOf, WhyNone, S.Scored, Raw;
    if t > 0 {
      ScoresAgree(c, w, n, trace, t - 1, j);
      var rounds := RoundsOf(c, trace);
      assert RoundAnswered(c, w, n, trace[t - 1], t - 1);
      assert rounds[t - 1] == Raw(c, trace[t - 1]);
      assert rounds[..t][..t - 1] == rounds[..t - 1];
    }
  }
}
