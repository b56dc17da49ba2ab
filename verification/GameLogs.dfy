/**
  The log of a match as a game reads it: the recorded outcomes of a runner's log, turn by turn, are
  the outcomes of the applied steps (internal/platform/match/match.go, internal/games).
*/
module GameLogs {
  import opened Identifiers
  import opened GameTypes
  import opened GamePlay
  import opened MatchRunner
  import opened Replay
  import opened RunnerLog

  function EventOf<A>(read: ActionStatus -> PlayerStatus<A>, e: Entry): HistoryEvent<A> {
    HistoryEvent(e.kind.Recorded(), e.turn, e.playerID, read(if e.payload.Status? then e.payload.status else NO_STATUS), true)
  }

  // The log as a game's own history reader decodes it.
  function HistoryOf<A>(read: ActionStatus -> PlayerStatus<A>, log: seq<Entry>): seq<HistoryEvent<A>> {
    seq(|log|, i requires 0 <= i < |log| => EventOf(read, log[i]))
  }

  lemma HistoryReadable<A>(read: ActionStatus -> PlayerStatus<A>, log: seq<Entry>, targetTurn: int)
    ensures Readable(HistoryOf(read, log), targetTurn)
  {
  }

  // The events that a rebuild to the target turn looks at.
  function Within<A>(events: seq<HistoryEvent<A>>, target: int): seq<HistoryEvent<A>> {
    if events == [] then []
    else
      var e := events[|events| - 1];
      Within(events[..|events| - 1], target) + if e.recorded && e.turn != 0 && e.turn <= target then [e] else []
  }

  lemma {:induction false} WithinAppend<A>(a: seq<HistoryEvent<A>>, b: seq<HistoryEvent<A>>, target: int)
    ensures Within(a + b, target) == Within(a, target) + Within(b, target)
  {
    if b == [] {
      assert a + b == a;
    } else {
      var n := |b| - 1;
      assert (a + b)[..|a + b| - 1] == a + b[..n] && (a + b)[|a + b| - 1] == b[n];
      WithinAppend(a, b[..n], target);
    }
  }

  lemma {:induction false} WithinNothing<A>(events: seq<HistoryEvent<A>>, target: int)
    requires forall e | e in events :: !e.recorded || e.turn == 0 || e.turn > target
    ensures Within(events, target) == []
  {
    if events != [] {
      var n := |events| - 1;
      assert events[n] in events;
      WithinNothing(events[..n], target);
    }
  }

  lemma HistoryAppend<A>(read: ActionStatus -> PlayerStatus<A>, a: seq<Entry>, b: seq<Entry>)
    ensures HistoryOf(read, a + b) == HistoryOf(read, a) + HistoryOf(read, b)
  {
  }

  // Only recorded entries count.
  lemma {:induction false} WithinRecorded<A>(read: ActionStatus -> PlayerStatus<A>, log: seq<Entry>, target: int)
    ensures Within(HistoryOf(read, RecordedIn(log)), target) == Within(HistoryOf(read, log), target)
  {
    hide EventOf;
    if log == [] {
      assert HistoryOf(read, []) == [];
    } else {
      WithinRecorded(read, log[1..], target);
      assert log == [log[0]] + log[1..];
      var head := if log[0].kind.Recorded() then [log[0]] else [];
      HistoryAppend(read, [log[0]], log[1..]);
      HistoryAppend(read, head, RecordedIn(log[1..]));
      WithinAppend(HistoryOf(read, [log[0]]), HistoryOf(read, log[1..]), target);
      WithinAppend(HistoryOf(read, head), HistoryOf(read, RecordedIn(log[1..])), target);
      if !log[0].kind.Recorded() { UnrecordedEntry(read, log[0], target); }
    }
  }

  lemma UnrecordedEntry<A>(read: ActionStatus -> PlayerStatus<A>, e: Entry, target: int)
    requires !e.kind.Recorded()
    ensures Within(HistoryOf(read, [e]), target) == [] == Within(HistoryOf(read, []), target)
  {
    WithinNothing(HistoryOf(read, [e]), target);
  }

  lemma OutsideTurns<A>(read: ActionStatus -> PlayerStatus<A>, log: seq<Entry>, target: int)
    requires forall e | e in log :: !e.kind.Recorded() || e.turn == 0 || e.turn > target
    ensures Within(HistoryOf(read, log), target) == []
  {
    var events := HistoryOf(read, log);
    forall e | e in events ensures !e.recorded || e.turn == 0 || e.turn > target {
      var i :| 0 <= i < |events| && events[i] == e;
      assert log[i] in log;
    }
    WithinNothing(events, target);
  }

  // ----- What surrounds the applied steps -----

  lemma {:induction false} InitsTurnZero(players: seq<Id>, w: Surroundings, n: nat)
    requires n <= |players|
    ensures forall e | e in InitsOf(players, w, n) :: e.turn == 0
  {
    if n > 0 { InitsTurnZero(players, w, n - 1); }
  }

  lemma OpeningTurnZero<M>(gm: Master<M>, start: M, players: seq<Id>, w: Surroundings, tried: nat)
    requires tried <= |players|
    ensures forall e | e in Opening(gm, start, players, w, tried) :: e.turn == 0
  {
    hide InitsOf;
    InitsTurnZero(players, w, tried);
  }

  lemma {:induction false} ShutdownTurnZero(players: seq<Id>, w: Surroundings, completed: bool, n: nat)
    requires n <= |players|
    ensures forall e | e in ShutdownEntries(players, w, completed, n) :: e.turn == 0
  {
    if n > 0 { ShutdownTurnZero(players, w, completed, n - 1); }
  }

  lemma ClosingTurns(players: seq<Id>, w: Surroundings, status: MatchStatus, turn: int)
    ensures forall e | e in Closing(players, w, status, turn) :: !e.kind.Recorded() || e.turn == 0
  {
    hide ShutdownEntries;
    ShutdownTurnZero(players, w, status.Completed?, |players|);
  }

  lemma OutcomeTurn(turn: int, req: Request, result: SessionResult, status: ActionStatus)
    ensures forall e | e in OutcomeEntries(turn, req, result, status) :: e.turn == turn
  {
  }

  lemma {:induction false} OutcomesTurn(step: DecisionStep, results: seq<SessionResult>, statuses: seq<ActionStatus>, n: nat)
    requires n <= |step.requests| && n <= |results| && n <= |statuses|
    ensures forall e | e in OutcomesOf(step, results, statuses, n) :: e.turn == step.turn
  {
    hide OutcomeEntries;
    if n > 0 {
      OutcomesTurn(step, results, statuses, n - 1);
      OutcomeTurn(step.turn, step.requests[n - 1], results[n - 1], statuses[n - 1]);
    }
  }

  lemma TailTurn(step: DecisionStep, tail: seq<Entry>)
    requires LeftBy(step, tail)
    ensures forall e | e in tail :: e.turn == step.turn
  {
    if tail != [] {
      var results: seq<SessionResult>, statuses: seq<ActionStatus> :| LeavesBehind(tail, step, results, statuses);
      OutcomesTurn(step, results, statuses, |statuses|);
    }
  }

  // The master asks for no step of a turn up to the target any more.
  ghost predicate PastTurn<M>(gm: Master<M>, m: M, target: int) { gm.next(m).1.Step? ==> gm.next(m).1.step.turn > target }

  // To a target that the applied steps have reached, a game reads the outcomes of those steps.
  lemma LogWithin<M, A>(
      gm: Master<M>, start: M, players: seq<Id>, w: Surroundings, story: Story<M>, err: Option<RunError>, record: Record,
      read: ActionStatus -> PlayerStatus<A>, target: int)
    requires Happened(gm, start, players, w, story, err, record) && PastTurn(gm, story.end, target)
    ensures Within(HistoryOf(read, EntriesOf(record.events)), target)
         == Within(HistoryOf(read, RecordedIn(Blocks(story.trace))), target)
  {
    hide Opening, Closing, Blocks, LeftBy, Answered, Live, EndsAs, LastOf, LastStatuses, EntriesOf, HistoryOf, Within;
    hide RecordedIn, NumberedFromOne, Tried;
    var opening, closing := Opening(gm, start, players, w, story.tried),
                            Closing(players, w, record.status, FinalTurn(record.final));
    OpeningTurnZero(gm, start, players, w, story.tried);
    ClosingTurns(players, w, record.status, FinalTurn(record.final));
    if story.tail != [] { TailTurn(gm.next(story.end).1.step, story.tail); }
    WithinRecorded(read, Blocks(story.trace), target);
    MiddleWithin(read, opening, Blocks(story.trace), story.tail, closing, target);
  }

  lemma MiddleWithin<A>(
      read: ActionStatus -> PlayerStatus<A>, opening: seq<Entry>, blocks: seq<Entry>, tail: seq<Entry>, closing: seq<Entry>,
      target: int)
    requires forall e | e in opening :: e.turn == 0
    requires forall e | e in tail :: e.turn > target
    requires forall e | e in closing :: !e.kind.Recorded() || e.turn == 0
    ensures Within(HistoryOf(read, opening + blocks + tail + closing), target) == Within(HistoryOf(read, blocks), target)
  {
    hide HistoryOf, Within;
    OutsideTurns(read, opening, target);
    OutsideTurns(read, tail, target);
    OutsideTurns(read, closing, target);
    HistoryAppend(read, opening, blocks);
    HistoryAppend(read, opening + blocks, tail);
    HistoryAppend(read, opening + blocks + tail, closing);
    WithinAppend(HistoryOf(read, opening), HistoryOf(read, blocks), target);
    WithinAppend(HistoryOf(read, opening + blocks), HistoryOf(read, tail), target);
    WithinAppend(HistoryOf(read, opening + blocks + tail), HistoryOf(read, closing), target);
  }

  // ----- What an applied step tells -----

  function OutcomeEvents<A>(read: ActionStatus -> PlayerStatus<A>, turn: int, requests: seq<Request>, statuses: seq<ActionStatus>)
      : seq<HistoryEvent<A>>
    requires |requests| == |statuses|
  {
    seq(|statuses|, j requires 0 <= j < |statuses| => HistoryEvent(true, turn, requests[j].playerID, read(statuses[j]), true))
  }

  lemma BlockHistory<M, A>(read: ActionStatus -> PlayerStatus<A>, a: Applied<M>)
    requires Shaped(a)
    ensures HistoryOf(read, RecordedIn(Block(a))) == OutcomeEvents(read, a.step.turn, a.step.requests, a.statuses)
  {
    hide Block, RecordedIn, RequestEntries;
    StepLogsRequestsAndOutcomes(a);
    var recorded := RecordedIn(Block(a));
    forall j | 0 <= j < |recorded| ensures EventOf(read, recorded[j])
                 == HistoryEvent(true, a.step.turn, a.step.requests[j].playerID, read(a.statuses[j]), true) {
      assert recorded[j] == OutcomeEntry(a.step, a.results, a.statuses, j);
    }
  }
}
