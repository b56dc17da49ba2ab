/**
  Echo played by the match runner: the game as a deterministic master, and the two ways of going back
  in a match, the game's own reader of the log (internal/games/echo/echo.go:175-266) and the platform's
  replay (internal/platform/replay/session_history.go), on the log of every run.
*/
module EchoMatches {
  import opened Identifiers
  import opened GameTypes
  import opened GamePlay
  import opened MatchRunner
  import opened Replay
  import opened RunnerLog
  import opened GameLogs
  import E = Echo

  // How echoes and states are written as JSON.
  datatype Codec = Codec(
    echo: Body -> Payload<int>, state: E.State -> Body, exported: E.State -> Body, result: E.State -> Body,
    visible: (E.State, Id) -> Body)
  {
    function Read(s: ActionStatus): PlayerStatus<int> {
      PlayerStatus(s.playerID, s.verdict, s.reason, match s.action case None => Absent case Some(b) => echo(b))
    }
  }

  // ----- The game as a master -----

  function Requests(cfg: E.Config, c: Codec, st: E.State): seq<Request> {
    var asked := E.Asked(cfg, st);
    seq(|asked|, i requires 0 <= i < |asked| => Request(asked[i], c.visible(st, asked[i])))
  }

  function Reads(c: Codec, statuses: seq<ActionStatus>): seq<PlayerStatus<int>> {
    seq(|statuses|, i requires 0 <= i < |statuses| => c.Read(statuses[i]))
  }

  function Expected(cfg: E.Config, st: E.State): int {
    E.ExpectedAt(cfg.order, if st.resolved >= 0 then st.resolved else 0)
  }

  function Normalized(c: Codec, expected: int, req: Request, s: ActionStatus): ActionStatus {
    if !s.verdict.Accepted? then s.(action := None)
    else if c.Read(s).action.Naming? && c.Read(s).action.move == expected then s
    else ActionStatus(req.playerID, NoAction, IllegalAction, None)
  }

  function GameMaster(cfg: E.Config, c: Codec): Master<E.State> {
    Master(
      st => Some(st),
      (st: E.State) => (st, if st.resolved >= cfg.turns then NoStep
                            else if cfg.mode.OtherMode? || E.Asked(cfg, st) == [] then StepError
                            else Next.Step(DecisionStep(st.resolved + 1, cfg.mode, Requests(cfg, c, st)))),
      (st: E.State, req, s) => Some(Normalized(c, Expected(cfg, st), req, s)),
      (st, step: DecisionStep, statuses: seq<ActionStatus>) =>
        if step.mode.OtherMode? then None else Some(E.AppliedIn(step.mode, cfg, st, Reads(c, statuses))),
      (st: E.State) => Some(Snapshot(st.resolved, c.state(st))),
      (st: E.State) => Some(c.exported(st)),
      (st: E.State) => Some(c.result(st)),
      st => None)
  }

  lemma NormalizedReads(c: Codec, expected: int, req: Request, s: ActionStatus)
    ensures c.Read(Normalized(c, expected, req, s)) == E.Normalize(req.playerID, expected, c.Read(s))
    ensures s.playerID == req.playerID ==> Normalized(c, expected, req, s).playerID == req.playerID
  {
  }

  // ----- The steps of a run -----

  function Raw(c: Codec, a: Applied<E.State>): seq<PlayerStatus<int>>
    requires |a.results| == |a.step.requests|
  {
    seq(|a.results|, j requires 0 <= j < |a.results| => c.Read(RawStatus(a.step.requests[j], a.results[j])))
  }

  ghost function StepsOf(c: Codec, trace: seq<Applied<E.State>>): seq<seq<PlayerStatus<int>>> {
    seq(|trace|, i requires 0 <= i < |trace| => if Shaped(trace[i]) then Raw(c, trace[i]) else [])
  }

  // Every session answered: with an action or with none.
  ghost predicate Decided(trace: seq<Applied<E.State>>) {
    forall i, j | 0 <= i < |trace| && 0 <= j < |trace[i].results| :: !trace[i].results[j].verdict.Unset?
  }

  // One applied step is one step of the game.
  lemma StepIsStep(cfg: E.Config, c: Codec, a: Applied<E.State>)
    requires Played(GameMaster(cfg, c), a) && a.entry.resolved >= 0
    ensures var asked, expected := E.Asked(cfg, a.entry), E.ExpectedAt(cfg.order, a.entry.resolved);
            && a.entry.resolved < cfg.turns && a.step.turn == a.entry.resolved + 1
            && |Raw(c, a)| == |asked| == |a.statuses| == |a.step.requests|
            && (forall j | 0 <= j < |asked| ::
                  Raw(c, a)[j].playerID == a.statuses[j].playerID == a.step.requests[j].playerID == asked[j])
            && Reads(c, a.statuses) == E.NormalizeAll(asked, expected, Raw(c, a))
            && a.exit == E.AppliedStep(cfg, a.entry, E.NormalizeAll(asked, expected, Raw(c, a)))
  {
    hide E.AppliedIn, E.Normalize, E.ExpectedAt;
    var asked, expected := E.Asked(cfg, a.entry), E.ExpectedAt(cfg.order, a.entry.resolved);
    forall j | 0 <= j < |asked|
      ensures c.Read(a.statuses[j]) == E.Normalize(asked[j], expected, Raw(c, a)[j])
      ensures a.statuses[j].playerID == asked[j]
    {
      NormalizedReads(c, expected, a.step.requests[j], RawStatus(a.step.requests[j], a.results[j]));
    }
    assert Reads(c, a.statuses) == E.NormalizeAll(asked, expected, Raw(c, a));
  }

  lemma RawDecided(c: Codec, a: Applied<E.State>, asked: seq<Id>)
    requires Shaped(a) && |Raw(c, a)| == |asked| && forall j | 0 <= j < |asked| :: Raw(c, a)[j].playerID == asked[j]
    requires forall j | 0 <= j < |a.results| :: !a.results[j].verdict.Unset?
    ensures E.SessionAnswers(asked, Raw(c, a))
  {
  }

  // The live master stands where the game stands after the steps, and the log tells them.
  lemma {:induction false} LiveIsPlayed(cfg: E.Config, c: Codec, trace: seq<Applied<E.State>>, end: E.State, k: nat)
    requires Live(GameMaster(cfg, c), E.NewState(cfg), trace, end) && Decided(trace) && k <= |trace|
    ensures E.Plays(cfg, StepsOf(c, trace), k) && StoodAt(trace, end, k) == E.Played(cfg, StepsOf(c, trace), k)
    ensures HistoryOf(c.Read, RecordedIn(Blocks(trace[..k]))) == E.LogOf(cfg, StepsOf(c, trace), k)
  {
    hide E.AppliedStep, E.NormalizeAll, Raw, Block, RecordedIn, E.SessionAnswers, Live, Played, E.NewState;
    hide E.Plays, E.Played, E.LogOf, E.StepEvents, E.Asked, E.ExpectedAt;
    var gm, steps := GameMaster(cfg, c), StepsOf(c, trace);
    if k == 0 {
      LiveStart(gm, E.NewState(cfg), trace, end);
      NothingLogged(c);
      E.PlayedFirst(cfg, steps);
    } else {
      var a := trace[k - 1];
      LiveIsPlayed(cfg, c, trace, end, k - 1);
      LiveChain(gm, E.NewState(cfg), trace, end, k - 1);
      if k < |trace| { LiveChain(gm, E.NewState(cfg), trace, end, k); }
      PlayedShape(gm, a);
      StepIsStep(cfg, c, a);
      RawDecided(c, a, E.Asked(cfg, a.entry));
      assert steps[k - 1] == Raw(c, a);
      E.PlayedNext(cfg, steps, k);
      BlocksNext(c, trace, k);
      LastBlock(cfg, c, a);
    }
  }

  lemma LiveStart(gm: Master<E.State>, start: E.State, trace: seq<Applied<E.State>>, end: E.State)
    requires Live(gm, start, trace, end)
    ensures StoodAt(trace, end, 0) == start
  {
    if trace != [] { LiveChain(gm, start, trace, end, 0); }
  }

  lemma PlayedShape(gm: Master<E.State>, a: Applied<E.State>)
    requires Played(gm, a)
    ensures Shaped(a)
  {
  }

  lemma NothingLogged(c: Codec)
    ensures HistoryOf(c.Read, RecordedIn(Blocks<E.State>([]))) == []
  {
  }

  lemma BlocksNext(c: Codec, trace: seq<Applied<E.State>>, k: nat)
    requires 0 < k <= |trace|
    ensures HistoryOf(c.Read, RecordedIn(Blocks(trace[..k])))
         == HistoryOf(c.Read, RecordedIn(Blocks(trace[..k - 1]))) + HistoryOf(c.Read, RecordedIn(Block(trace[k - 1])))
  {
    hide Block, RecordedIn, HistoryOf;
    assert trace[..k][..k - 1] == trace[..k - 1];
    RecordedAppend(Blocks(trace[..k - 1]), Block(trace[k - 1]));
    HistoryAppend(c.Read, RecordedIn(Blocks(trace[..k - 1])), RecordedIn(Block(trace[k - 1])));
  }

  lemma LastBlock(cfg: E.Config, c: Codec, a: Applied<E.State>)
    requires Played(GameMaster(cfg, c), a) && a.entry.resolved >= 0
    ensures |Raw(c, a)| == |E.Asked(cfg, a.entry)|
    ensures HistoryOf(c.Read, RecordedIn(Block(a)))
         == E.StepEvents(a.entry.resolved + 1,
                         E.NormalizeAll(E.Asked(cfg, a.entry), E.ExpectedAt(cfg.order, a.entry.resolved), Raw(c, a)))
  {
    hide E.AppliedIn, E.ExpectedAt, E.NormalizeAll, Block, RecordedIn, Raw;
    StepIsStep(cfg, c, a);
    PlayedShape(GameMaster(cfg, c), a);
    BlockHistory(c.Read, a);
    forall j | 0 <= j < |a.statuses| ensures Reads(c, a.statuses)[j] == c.Read(a.statuses[j])
                                          && c.Read(a.statuses[j]).playerID == a.statuses[j].playerID {}
  }

  // ----- Reading the log -----

  lemma {:induction false} RecountedWithin(cfg: E.Config, events: seq<HistoryEvent<int>>, target: int)
    ensures E.Recounted(cfg, Within(events, target), target) == E.Recounted(cfg, events, target)
  {
    hide E.Counted;
    if events != [] {
      var n := |events| - 1;
      var front := Within(events[..n], target);
      RecountedWithin(cfg, events[..n], target);
      assert front + [] == front && (front + [events[n]])[..|front|] == front;
    }
  }

  // Turns do not go back.
  lemma TurnsGrow(cfg: E.Config, steps: seq<seq<PlayerStatus<int>>>, i: nat, j: nat)
    requires E.Playable(cfg) && i <= j <= |steps| && E.Plays(cfg, steps, j) && E.Plays(cfg, steps, i)
    ensures E.Played(cfg, steps, i).resolved <= E.Played(cfg, steps, j).resolved
    ensures i < j && E.Played(cfg, steps, j).nextPlayer == 0 ==>
              E.Played(cfg, steps, i).resolved < E.Played(cfg, steps, j).resolved
  {
    hide E.Played, E.Plays, E.LogOf, E.Recounted;
    E.LaterEventsBeyond(cfg, steps, i, j, E.Played(cfg, steps, i).resolved);
    if i < j {
      E.PlaysFewer(cfg, steps, j - 1, j);
      E.LaterEventsBeyond(cfg, steps, i, j - 1, E.Played(cfg, steps, i).resolved);
      E.ResolvedGrows(cfg, steps, j);
    }
  }

  // A replay's assumptions hold of every run of the game, at turn boundaries.
  lemma ReplayReady(cfg: E.Config, c: Codec, trace: seq<Applied<E.State>>, end: E.State, k: nat)
    requires E.Playable(cfg) && Live(GameMaster(cfg, c), E.NewState(cfg), trace, end) && Decided(trace) && k <= |trace|
    requires StoodAt(trace, end, k).nextPlayer == 0
    ensures var st := StoodAt(trace, end, k);
            && (forall j | 0 <= j < k :: Shaped(trace[j]) && Named(trace[j]) && trace[j].step.turn <= st.resolved)
            && StopsAt(GameMaster(cfg, c), st, st.resolved)
            && AnswerAt(GameMaster(cfg, c), st, st.resolved) == Found(Snapshot(st.resolved, c.state(st)))
  {
    hide E.AppliedStep, E.NormalizeAll, Raw, E.NewState, Live, E.Played, E.Plays, E.LogOf, Decided, E.Playable;
    var gm, steps, st := GameMaster(cfg, c), StepsOf(c, trace), StoodAt(trace, end, k);
    LiveIsPlayed(cfg, c, trace, end, k);
    E.PlayedKept(cfg, steps, k);
    forall j | 0 <= j < k ensures Shaped(trace[j]) && Named(trace[j]) && trace[j].step.turn <= st.resolved {
      LiveChain(gm, E.NewState(cfg), trace, end, j);
      LiveIsPlayed(cfg, c, trace, end, j);
      StepIsStep(cfg, c, trace[j]);
      TurnsGrow(cfg, steps, j, k);
    }
    AsksSomeone(cfg, st);
  }

  lemma AsksSomeone(cfg: E.Config, st: E.State)
    requires E.Playable(cfg) && E.Kept(cfg, st)
    ensures E.Asked(cfg, st) != [] && !cfg.mode.OtherMode?
  {
  }

  lemma NextTurn(cfg: E.Config, c: Codec, trace: seq<Applied<E.State>>, end: E.State, k: nat)
    requires E.Playable(cfg) && Live(GameMaster(cfg, c), E.NewState(cfg), trace, end) && Decided(trace) && k <= |trace|
    ensures PastTurn(GameMaster(cfg, c), end, StoodAt(trace, end, k).resolved)
  {
    hide E.AppliedStep, E.NormalizeAll, Raw, E.NewState, Live, E.Played, E.Plays, E.LogOf, Decided, E.Playable;
    LiveIsPlayed(cfg, c, trace, end, k);
    LiveIsPlayed(cfg, c, trace, end, |trace|);
    TurnsGrow(cfg, StepsOf(c, trace), k, |trace|);
  }

  // The game's own reader, on the log of any run, recounts what the live master had at a turn boundary.
  lemma RecountedFromRun(
      cfg: E.Config, c: Codec, w: Surroundings, story: Story<E.State>, err: Option<RunError>, record: Record, k: nat)
    requires E.Playable(cfg) && k <= |story.trace| && Decided(story.trace)
    requires Happened(GameMaster(cfg, c), E.NewState(cfg), cfg.players, w, story, err, record)
    requires StoodAt(story.trace, story.end, k).nextPlayer == 0
    ensures var st := StoodAt(story.trace, story.end, k);
            E.Recounted(cfg, HistoryOf(c.Read, EntriesOf(record.events)), st.resolved) == Some(E.Tally(st.score, st.lastAction))
  {
    hide Opening, Closing, Blocks, LeftBy, Answered, EndsAs, LastOf, LastStatuses, EntriesOf, HistoryOf, Within, RecordedIn;
    hide NumberedFromOne, Tried, E.Recounted, E.Played, E.LogOf, E.Plays, Live, E.NewState, Raw, Decided, E.Playable;
    var gm, trace, st := GameMaster(cfg, c), story.trace, StoodAt(story.trace, story.end, k);
    var events, steps := HistoryOf(c.Read, EntriesOf(record.events)), StepsOf(c, trace);
    LiveIsPlayed(cfg, c, trace, story.end, k);
    LiveIsPlayed(cfg, c, trace, story.end, |trace|);
    assert trace[..|trace|] == trace;
    NextTurn(cfg, c, trace, story.end, k);
    LogWithin(gm, E.NewState(cfg), cfg.players, w, story, err, record, c.Read, st.resolved);
    RecountedWithin(cfg, events, st.resolved);
    RecountedWithin(cfg, E.LogOf(cfg, steps, |trace|), st.resolved);
    E.HistoryIsLiveAtBoundaries(cfg, steps, k, |trace|);
  }

  /**
    For every run of the runner on the game in which the sessions answer, in either mode, and every
    turn boundary it has passed: the game's own reader of the log recounts the live scores and last
    statuses of that boundary, and the platform's replay of the same log answers with its snapshot.
  */
  lemma BothReplaysAreLive(
      cfg: E.Config, c: Codec, w: Surroundings, story: Story<E.State>, err: Option<RunError>, record: Record, k: nat, budget: nat)
    requires E.Playable(cfg) && k <= |story.trace| && budget > k && CleanInits(cfg.players, w) && Decided(story.trace)
    requires Happened(GameMaster(cfg, c), E.NewState(cfg), cfg.players, w, story, err, record)
    requires StoodAt(story.trace, story.end, k).nextPlayer == 0
    ensures var log, live := EntriesOf(record.events), StoodAt(story.trace, story.end, k);
            && E.Recounted(cfg, HistoryOf(c.Read, log), live.resolved) == Some(E.Tally(live.score, live.lastAction))
            && ReplayLog(GameMaster(cfg, c), E.NewState(cfg), log, live.resolved, budget)
               == Found(Snapshot(live.resolved, c.state(live)))
  {
    hide Opening, Closing, Blocks, LeftBy, Answered, EndsAs, LastOf, LastStatuses, EntriesOf, HistoryOf, RecordedIn;
    hide NumberedFromOne, Tried, E.Recounted, E.Played, Live, E.NewState, ReplayLog, AnswerAt, StopsAt, CleanInits, Decided;
    hide E.Playable;
    var live := StoodAt(story.trace, story.end, k);
    RecountedFromRun(cfg, c, w, story, err, record, k);
    ReplayReady(cfg, c, story.trace, story.end, k);
    LiveIsPlayed(cfg, c, story.trace, story.end, k);
    E.PlayedKept(cfg, StepsOf(c, story.trace), k);
    ReplayIsLive(GameMaster(cfg, c), E.NewState(cfg), cfg.players, w, story, err, record, k, live.resolved, budget);
  }
}
