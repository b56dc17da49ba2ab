/**
  Janken played by the match runner: the game as a deterministic master, and the two ways of going
  back in a match, the game's own reader of the log (internal/games/janken/janken.go:174-253) and the
  platform's replay (internal/platform/replay/session_history.go), on the log of every run.
*/
module JankenMatches {
  import opened Identifiers
  import opened GameTypes
  import opened GamePlay
  import opened MatchRunner
  import opened Replay
  import opened RunnerLog
  import opened GameLogs
  import J = Janken

  // How moves and states are written as JSON; a written move is read back as that move and no more.
  datatype Codec = Codec(
    move: Body -> Payload<J.Hand>, body: J.Hand -> Body, state: J.State -> Body, exported: J.State -> Body,
    result: J.State -> Body, visible: (J.State, Id) -> Body)
  {
    ghost predicate Faithful() { forall hand :: move(body(hand)) == Naming(hand, NO_ID) }

    function Read(s: ActionStatus): PlayerStatus<J.Hand> {
      PlayerStatus(s.playerID, s.verdict, s.reason, match s.action case None => Absent case Some(b) => move(b))
    }
  }

  // ----- The game as a master -----

  function Requests(cfg: J.Config, c: Codec, st: J.State): seq<Request> {
    seq(|cfg.players|, i requires 0 <= i < |cfg.players| => Request(cfg.players[i], c.visible(st, cfg.players[i])))
  }

  function Reads(c: Codec, statuses: seq<ActionStatus>): seq<PlayerStatus<J.Hand>> {
    seq(|statuses|, i requires 0 <= i < |statuses| => c.Read(statuses[i]))
  }

  function Normalized(c: Codec, req: Request, s: ActionStatus): ActionStatus {
    if !s.verdict.Accepted? then s.(action := None)
    else match c.Read(s).action
      case Naming(hand, _) => s.(action := Some(c.body(hand)))
      case _ => ActionStatus(req.playerID, NoAction, IllegalAction, None)
  }

  function GameMaster(cfg: J.Config, c: Codec): Master<J.State> {
    Master(
      st => Some(st),
      (st: J.State) => (st, if st.resolved >= cfg.rounds then NoStep
                            else Next.Step(DecisionStep(st.resolved + 1, Simultaneous, Requests(cfg, c, st)))),
      (st, req, s) => Some(Normalized(c, req, s)),
      (st, step: DecisionStep, statuses: seq<ActionStatus>) =>
        if !step.mode.Simultaneous? || |statuses| != |cfg.players| then None
        else Some(J.AppliedRound(cfg, st, step.turn, Reads(c, statuses))),
      (st: J.State) => Some(Snapshot(st.resolved, c.state(st))),
      (st: J.State) => Some(c.exported(st)),
      (st: J.State) => Some(c.result(st)),
      st => None)
  }

  // The master's normalization is the game's.
  lemma NormalizedReads(c: Codec, req: Request, s: ActionStatus)
    requires c.Faithful()
    ensures c.Read(Normalized(c, req, s)) == J.Normalize(req.playerID, c.Read(s))
    ensures s.playerID == req.playerID ==> Normalized(c, req, s).playerID == req.playerID
  {
  }

  // ----- The rounds of a run -----

  // The raw answers of an applied step.
  function Raw(c: Codec, a: Applied<J.State>): seq<PlayerStatus<J.Hand>>
    requires |a.results| == |a.step.requests|
  {
    seq(|a.results|, j requires 0 <= j < |a.results| => c.Read(RawStatus(a.step.requests[j], a.results[j])))
  }

  ghost function RoundsOf(c: Codec, trace: seq<Applied<J.State>>): seq<seq<PlayerStatus<J.Hand>>> {
    seq(|trace|, i requires 0 <= i < |trace| => if Shaped(trace[i]) then Raw(c, trace[i]) else [])
  }

  lemma {:induction false} PlayedResolved(cfg: J.Config, rounds: seq<seq<PlayerStatus<J.Hand>>>)
    requires J.Answers(cfg, rounds)
    ensures J.Played(cfg, rounds).resolved == |rounds|
  {
    hide J.CountAll, J.OutcomesOf, J.AwardAll, J.NoteAll, J.NormalizeAll;
    if rounds != [] { PlayedResolved(cfg, rounds[..|rounds| - 1]); }
  }

  // One applied step is one round of the game.
  lemma StepIsRound(cfg: J.Config, c: Codec, a: Applied<J.State>)
    requires c.Faithful() && Played(GameMaster(cfg, c), a)
    ensures a.asked == a.entry && a.entry.resolved < cfg.rounds && a.step.turn == a.entry.resolved + 1
    ensures a.step.requests == Requests(cfg, c, a.entry) && |Raw(c, a)| == |cfg.players| == |a.statuses|
    ensures forall j | 0 <= j < |cfg.players| ::
              Raw(c, a)[j].playerID == a.statuses[j].playerID == a.step.requests[j].playerID == cfg.players[j]
    ensures Reads(c, a.statuses) == J.NormalizeAll(cfg.players, Raw(c, a))
    ensures a.exit == J.AppliedRound(cfg, a.entry, a.step.turn, J.NormalizeAll(cfg.players, Raw(c, a)))
  {
    hide J.AppliedRound, J.Normalize, Codec.Faithful;
    forall j | 0 <= j < |a.statuses|
      ensures c.Read(a.statuses[j]) == J.Normalize(cfg.players[j], Raw(c, a)[j])
      ensures a.statuses[j].playerID == cfg.players[j]
    {
      NormalizedReads(c, a.step.requests[j], RawStatus(a.step.requests[j], a.results[j]));
    }
    assert Reads(c, a.statuses) == J.NormalizeAll(cfg.players, Raw(c, a));
  }

  lemma RoundsSnoc(c: Codec, trace: seq<Applied<J.State>>)
    requires trace != [] && Shaped(trace[|trace| - 1])
    ensures var n := |trace| - 1;
            RoundsOf(c, trace) == RoundsOf(c, trace[..n]) + [Raw(c, trace[n])] && RoundsOf(c, trace)[..n] == RoundsOf(c, trace[..n])
  {
  }

  // The live master stands where the game stands after the rounds.
  lemma {:induction false} LiveIsPlayed(cfg: J.Config, c: Codec, trace: seq<Applied<J.State>>, end: J.State)
    requires c.Faithful() && Live(GameMaster(cfg, c), J.NewState(cfg), trace, end)
    ensures var rounds := RoundsOf(c, trace);
            J.Answers(cfg, rounds) && J.NamedAnswers(cfg, rounds) && end == J.Played(cfg, rounds)
    ensures HistoryOf(c.Read, RecordedIn(Blocks(trace))) == J.LogOf(cfg, RoundsOf(c, trace))
  {
    hide J.AppliedRound, J.NormalizeAll, Raw, Block, RecordedIn, Codec.Faithful;
    if trace == [] {
      NothingLogged(c);
    } else {
      var n := |trace| - 1;
      var last, rounds := trace[n], RoundsOf(c, trace);
      LiveIsPlayed(cfg, c, trace[..n], last.entry);
      StepIsRound(cfg, c, last);
      RoundsSnoc(c, trace);
      PlayedResolved(cfg, rounds[..n]);
      AnswersSnoc(cfg, rounds);
      RecordedAppend(Blocks(trace[..n]), Block(last));
      HistoryAppend(c.Read, RecordedIn(Blocks(trace[..n])), RecordedIn(Block(last)));
      LastBlock(cfg, c, last);
    }
  }

  lemma NothingLogged(c: Codec)
    ensures HistoryOf(c.Read, RecordedIn(Blocks<J.State>([]))) == []
  {
  }

  lemma AnswersSnoc(cfg: J.Config, rounds: seq<seq<PlayerStatus<J.Hand>>>)
    requires rounds != [] && |rounds| <= cfg.rounds && |rounds[|rounds| - 1]| == |cfg.players|
    requires J.Answers(cfg, rounds[..|rounds| - 1]) && J.NamedAnswers(cfg, rounds[..|rounds| - 1])
    requires forall j | 0 <= j < |cfg.players| :: rounds[|rounds| - 1][j].playerID == cfg.players[j]
    ensures J.Answers(cfg, rounds) && J.NamedAnswers(cfg, rounds)
  {
    var n := |rounds| - 1;
    assert forall i | 0 <= i < n :: rounds[..n][i] == rounds[i];
  }

  lemma LastBlock(cfg: J.Config, c: Codec, a: Applied<J.State>)
    requires c.Faithful() && Played(GameMaster(cfg, c), a)
    ensures |J.NormalizeAll(cfg.players, Raw(c, a))| == |cfg.players|
    ensures HistoryOf(c.Read, RecordedIn(Block(a)))
         == J.RoundEvents(cfg.players, a.entry.resolved + 1, J.NormalizeAll(cfg.players, Raw(c, a)))
  {
    hide J.AppliedRound, J.Normalize, Codec.Faithful, Block, RecordedIn;
    StepIsRound(cfg, c, a);
    BlockHistory(c.Read, a);
    forall j | 0 <= j < |a.statuses| ensures c.Read(a.statuses[j]) == J.NormalizeAll(cfg.players, Raw(c, a))[j] {
      assert Reads(c, a.statuses)[j] == c.Read(a.statuses[j]);
    }
  }

  // ----- Reading the log -----

  lemma {:induction false} RecordedWithin(events: seq<HistoryEvent<J.Hand>>, target: int, turn: int, p: Id)
    requires 1 <= turn <= target
    ensures J.RecordedStatus(Within(events, target), turn, p) == J.RecordedStatus(events, turn, p)
  {
    if events != [] {
      var n := |events| - 1;
      var front := Within(events[..n], target);
      RecordedWithin(events[..n], target, turn, p);
      assert front + [] == front && (front + [events[n]])[..|front|] == front;
    }
  }

  lemma {:induction false} RebuiltWithin(cfg: J.Config, events: seq<HistoryEvent<J.Hand>>, target: int, t: nat)
    requires t <= target
    ensures J.Rebuilt(cfg, Within(events, target), t) == J.Rebuilt(cfg, events, t)
  {
    hide J.AppliedRound, J.Normalize, J.RecordedStatus;
    if t > 0 {
      RebuiltWithin(cfg, events, target, t - 1);
      forall i | 0 <= i < |cfg.players|
        ensures J.ReplayedAnswer(Within(events, target), t, cfg.players[i]) == J.ReplayedAnswer(events, t, cfg.players[i])
      {
        RecordedWithin(events, target, t, cfg.players[i]);
      }
      assert J.ReplayedAnswers(cfg, Within(events, target), t) == J.ReplayedAnswers(cfg, events, t);
    }
  }

  lemma RoundsPrefix(c: Codec, trace: seq<Applied<J.State>>, t: nat)
    requires t <= |trace|
    ensures RoundsOf(c, trace)[..t] == RoundsOf(c, trace[..t])
  {
    hide Raw;
  }

  lemma PlayedPrefix(cfg: J.Config, c: Codec, trace: seq<Applied<J.State>>, end: J.State, t: nat)
    requires c.Faithful() && Live(GameMaster(cfg, c), J.NewState(cfg), trace, end) && t <= |trace|
    ensures J.Answers(cfg, RoundsOf(c, trace)[..t])
    ensures StoodAt(trace, end, t) == J.Played(cfg, RoundsOf(c, trace)[..t]) && StoodAt(trace, end, t).resolved == t
  {
    hide J.Played, Codec.Faithful, Raw, J.NewState, Live, RoundsOf, J.NamedAnswers, StoodAt;
    LivePrefix(GameMaster(cfg, c), J.NewState(cfg), trace, end, t);
    RoundsPrefix(c, trace, t);
    LiveIsPlayed(cfg, c, trace[..t], StoodAt(trace, end, t));
    RoundsCount(c, trace[..t]);
    PlayedResolved(cfg, RoundsOf(c, trace[..t]));
  }

  lemma RoundsCount(c: Codec, trace: seq<Applied<J.State>>)
    ensures |RoundsOf(c, trace)| == |trace|
  {
    hide Raw;
  }

  // The game's own reader, on the log of any run, rebuilds the state the live master had after t steps.
  lemma RebuiltFromRun(
      cfg: J.Config, c: Codec, w: Surroundings, story: Story<J.State>, err: Option<RunError>, record: Record, t: nat)
    requires c.Faithful() && Distinct(cfg.players) && t <= |story.trace|
    requires Happened(GameMaster(cfg, c), J.NewState(cfg), cfg.players, w, story, err, record)
    ensures var events := HistoryOf(c.Read, EntriesOf(record.events));
            Readable(events, t) && J.Rebuilt(cfg, events, t) == StoodAt(story.trace, story.end, t)
  {
    hide Opening, Closing, Blocks, LeftBy, Answered, EndsAs, LastOf, LastStatuses, EntriesOf, HistoryOf, Within, RecordedIn;
    hide NumberedFromOne, Tried, J.Rebuilt, J.Played, J.LogOf, J.Records, Codec.Faithful, Live, J.NewState, Raw;
    var gm, rounds := GameMaster(cfg, c), RoundsOf(c, story.trace);
    LiveIsPlayed(cfg, c, story.trace, story.end);
    var events, log := HistoryOf(c.Read, EntriesOf(record.events)), J.LogOf(cfg, rounds);
    PlayedPrefix(cfg, c, story.trace, story.end, t);
    PlayedPrefix(cfg, c, story.trace, story.end, |story.trace|);
    HistoryReadable(c.Read, EntriesOf(record.events), t);
    LogWithin(gm, J.NewState(cfg), cfg.players, w, story, err, record, c.Read, t);
    RebuiltWithin(cfg, events, t, t);
    RebuiltWithin(cfg, log, t, t);
    J.LogRecords(cfg, rounds);
    J.HistoryIsLive(cfg, rounds, log, t);
  }

  // A replay's assumptions hold of every run of the game.
  lemma ReplayReady(cfg: J.Config, c: Codec, trace: seq<Applied<J.State>>, end: J.State, t: nat)
    requires c.Faithful() && Live(GameMaster(cfg, c), J.NewState(cfg), trace, end) && t <= |trace|
    ensures forall j | 0 <= j < t :: Shaped(trace[j]) && Named(trace[j]) && trace[j].step.turn <= t
    ensures StopsAt(GameMaster(cfg, c), StoodAt(trace, end, t), t)
    ensures AnswerAt(GameMaster(cfg, c), StoodAt(trace, end, t), t)
         == Found(Snapshot(t, c.state(StoodAt(trace, end, t))))
  {
    hide J.AppliedRound, J.NormalizeAll, Raw, Codec.Faithful, J.NewState, Live, J.Played;
    forall j | 0 <= j < t ensures Shaped(trace[j]) && Named(trace[j]) && trace[j].step.turn <= t {
      LiveChain(GameMaster(cfg, c), J.NewState(cfg), trace, end, j);
      StepIsRound(cfg, c, trace[j]);
      PlayedPrefix(cfg, c, trace, end, j);
    }
    PlayedPrefix(cfg, c, trace, end, t);
  }

  /**
    For every run of the runner on the game, whatever the sessions do, and every turn whose steps were
    all applied: the game's own reader of the log rebuilds the live state of that turn, and the
    platform's replay of the same log answers with the snapshot of that state.
  */
  lemma BothReplaysAreLive(
      cfg: J.Config, c: Codec, w: Surroundings, story: Story<J.State>, err: Option<RunError>, record: Record, t: nat, budget: nat)
    requires c.Faithful() && Distinct(cfg.players) && t <= |story.trace| && budget > t && CleanInits(cfg.players, w)
    requires Happened(GameMaster(cfg, c), J.NewState(cfg), cfg.players, w, story, err, record)
    ensures var log, live := EntriesOf(record.events), StoodAt(story.trace, story.end, t);
            && Readable(HistoryOf(c.Read, log), t) && J.Rebuilt(cfg, HistoryOf(c.Read, log), t) == live
            && ReplayLog(GameMaster(cfg, c), J.NewState(cfg), log, t, budget) == Found(Snapshot(t, c.state(live)))
  {
    hide Opening, Closing, Blocks, LeftBy, Answered, EndsAs, LastOf, LastStatuses, EntriesOf, HistoryOf, RecordedIn;
    hide NumberedFromOne, Tried, J.Rebuilt, J.Played, Codec.Faithful, Live, J.NewState, ReplayLog, AnswerAt, StopsAt, CleanInits;
    RebuiltFromRun(cfg, c, w, story, err, record, t);
    ReplayReady(cfg, c, story.trace, story.end, t);
    ReplayIsLive(GameMaster(cfg, c), J.NewState(cfg), cfg.players, w, story, err, record, t, t, budget);
  }
}
