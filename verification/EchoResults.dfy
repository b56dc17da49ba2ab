/**
  Echo under the match runner, end to end: the scores of a match are decided by what the players'
  sessions answered, step by step (internal/platform/match/match.go:264-322, 482-524,
  internal/games/echo/echo.go:344-390).
*/
module EchoResults {
  import opened Identifiers
  import opened GameTypes
  import opened GamePlay
  import opened MatchRunner
  import opened RunnerLog
  import E = Echo
  import S = EchoScores
  import opened EchoMatches

  // The m-th session asked in step i answers, in time, with just the expected number.
  ghost predicate EchoedIn(c: Codec, w: Surroundings, i: nat, m: nat, expected: int) {
    var r := w.turns(i, m).result;
    r.verdict == Accepted && r.payload.Some? && c.echo(r.payload.value).Naming? && c.echo(r.payload.value).move == expected
  }

  // Step i asks the j-th player, whose session answers with the number of the turn.
  ghost predicate RightIn(cfg: E.Config, c: Codec, w: Surroundings, i: nat, j: nat)
    requires cfg.players != [] && j < |cfg.players|
  {
    exists m :: 0 <= m < |S.AskedAt(cfg, i)| && S.AskedAt(cfg, i)[m] == cfg.players[j]
      && S.TurnAt(cfg, i) < |cfg.order| && EchoedIn(c, w, i, m, cfg.order[S.TurnAt(cfg, i)])
  }

  // What the j-th player has after k steps.
  ghost function ScoreOf(cfg: E.Config, c: Codec, w: Surroundings, k: nat, j: nat): nat
    requires cfg.players != [] && j < |cfg.players|
  {
    if k == 0 then 0 else ScoreOf(cfg, c, w, k - 1, j) + if RightIn(cfg, c, w, k - 1, j) then 1 else 0
  }

  // The raw answers of a step are the sessions' answers.
  lemma StepIsAnswered(cfg: E.Config, c: Codec, w: Surroundings, a: Applied<E.State>, i: nat, m: nat, expected: int)
    requires Played(GameMaster(cfg, c), a) && a.results == ResultsOf(a.step, i, w) && a.entry.resolved >= 0
    requires m < |E.Asked(cfg, a.entry)|
    ensures m < |Raw(c, a)| == |E.Asked(cfg, a.entry)|
    ensures S.Echoes(Raw(c, a)[m], expected) <==> EchoedIn(c, w, i, m, expected)
  {
    hide E.AppliedIn, E.Normalize, E.ExpectedAt;
    StepIsStep(cfg, c, a);
    var r := w.turns(i, m).result;
    assert a.results[m] == r;
    assert Raw(c, a)[m] == c.Read(ActionStatus(a.step.requests[m].playerID, r.verdict, r.reason, r.payload));
  }

  /**
    For every run of the match runner on the game in which the sessions answer, in either mode: after any
    number of applied steps the master stands at the turn that counting steps gives, and each player's
    score is the number of steps that asked it and in which its session answered with just the expected
    number.
  */
  lemma {:induction false} RunIsScored(
      cfg: E.Config, c: Codec, w: Surroundings, story: Story<E.State>, err: Option<RunError>, record: Record, k: nat, j: nat)
    requires E.Playable(cfg) && Decided(story.trace) && k <= |story.trace| && j < |cfg.players|
    requires Happened(GameMaster(cfg, c), E.NewState(cfg), cfg.players, w, story, err, record)
    ensures var st, p := StoodAt(story.trace, story.end, k), cfg.players[j];
            st.resolved == S.TurnAt(cfg, k) && p in st.score && st.score[p] == ScoreOf(cfg, c, w, k, j)
  {
    hide Opening, Closing, Blocks, LeftBy, EndsAs, LastOf, LastStatuses, EntriesOf, Tried, E.NewState, LoopEnds, Unfinished;
    hide E.Played, E.Plays, Raw, S.ScoreAfter, ScoreOf, StoodAt, Live, StepsOf, Played;
    LiveIsPlayed(cfg, c, story.trace, story.end, k);
    StepsCount(c, story.trace);
    S.StandsAt(cfg, StepsOf(c, story.trace), k);
    S.MatchIsCounted(cfg, StepsOf(c, story.trace), k, j);
    ScoresAgree(cfg, c, w, story, err, record, k, j);
  }

  lemma StepsCount(c: Codec, trace: seq<Applied<E.State>>)
    ensures |StepsOf(c, trace)| == |trace|
  {
    hide Raw;
  }

  lemma {:induction false} ScoresAgree(
      cfg: E.Config, c: Codec, w: Surroundings, story: Story<E.State>, err: Option<RunError>, record: Record, k: nat, j: nat)
    requires E.Playable(cfg) && Decided(story.trace) && k <= |story.trace| == |StepsOf(c, story.trace)| && j < |cfg.players|
    requires Happened(GameMaster(cfg, c), E.NewState(cfg), cfg.players, w, story, err, record)
    ensures S.ScoreAfter(cfg, StepsOf(c, story.trace), k, j) == ScoreOf(cfg, c, w, k, j)
  {
    hide Happened, S.RightAt, RightIn, StepsOf, Decided;
    if k > 0 {
      ScoresAgree(cfg, c, w, story, err, record, k - 1, j);
      RightAgrees(cfg, c, w, story, err, record, k - 1, j);
    }
  }

  lemma RightAgrees(
      cfg: E.Config, c: Codec, w: Surroundings, story: Story<E.State>, err: Option<RunError>, record: Record, i: nat, j: nat)
    requires E.Playable(cfg) && Decided(story.trace) && i < |story.trace| == |StepsOf(c, story.trace)| && j < |cfg.players|
    requires Happened(GameMaster(cfg, c), E.NewState(cfg), cfg.players, w, story, err, record)
    ensures S.RightAt(cfg, StepsOf(c, story.trace), i, j) <==> RightIn(cfg, c, w, i, j)
  {
    hide Opening, Closing, Blocks, LeftBy, EndsAs, LastOf, LastStatuses, EntriesOf, Tried, E.NewState, LoopEnds, Unfinished;
    hide E.Played, E.Plays, Raw, Live, Played, S.Echoes, EchoedIn, S.TurnAt, S.AskedAt, StoodAt;
    var a := story.trace[i];
    LiveIsPlayed(cfg, c, story.trace, story.end, i);
    StepOfRun(GameMaster(cfg, c), E.NewState(cfg), cfg.players, w, story, err, record, i);
    S.StandsAt(cfg, StepsOf(c, story.trace), i);
    StoodAtIs(story.trace, story.end, i);
    PlayedShape(GameMaster(cfg, c), a);
    if S.TurnAt(cfg, i) < |cfg.order| {
      forall m | 0 <= m < |S.AskedAt(cfg, i)|
        ensures m < |Raw(c, a)| && (S.Echoes(Raw(c, a)[m], cfg.order[S.TurnAt(cfg, i)])
                                    <==> EchoedIn(c, w, i, m, cfg.order[S.TurnAt(cfg, i)]))
      {
        StepIsAnswered(cfg, c, w, a, i, m, cfg.order[S.TurnAt(cfg, i)]);
      }
    }
    assert StepsOf(c, story.trace)[i] == Raw(c, a);
  }

  lemma StoodAtIs(trace: seq<Applied<E.State>>, end: E.State, i: nat)
    requires i < |trace|
    ensures StoodAt(trace, end, i) == trace[i].entry
  {
  }
}
