/**
  The match runner (internal/platform/match/match.go): it drives a game master through its steps,
  asks every player session, and writes the event log.

  What the sessions and the context do is given by a Surroundings value, so every method is proved
  against a function of it, for all surroundings and all masters.
*/
module MatchRunner {
  import opened Identifiers
  import opened GameTypes

  datatype MatchStatus = Starting | Initializing | Running | Finishing | Completed | Failed | Canceled

  datatype RunError = ContextDone | Broken

  // One executed turn: what the session returned, and whether the context was done by then.
  datatype Execution = Execution(result: SessionResult, contextDone: bool)

  // The i-th loop round asks its j-th request; the context is found done at the head of round `rounds`.
  datatype Surroundings = Surroundings(
    inits: nat -> Execution,
    turns: (nat, nat) -> Execution,
    rounds: nat,
    contextDoneAtEnd: bool,
    gameOvers: nat -> SessionResult,
    closeFails: nat -> bool,
    masterShutdownFails: bool)

  // ----- What is logged -----

  function RuntimeStopEntries(turn: int, playerID: Id, result: SessionResult, payload: EventPayload): seq<Entry> {
    (if result.runtimeError then [Entry(RuntimeDiagnostic, turn, playerID, Detail)] else [])
    + [Entry(RuntimeExited, turn, playerID, payload)]
  }

  function LateEntries(turn: int, playerID: Id, lateIDs: seq<Id>): seq<Entry> {
    seq(|lateIDs|, _ => Entry(LateResponseIgnored, turn, playerID, Detail))
  }

  // One answered request: ignored late answers, then exactly one outcome carrying the status.
  function OutcomeEntries(turn: int, req: Request, result: SessionResult, status: ActionStatus): seq<Entry> {
    LateEntries(turn, req.playerID, result.lateIDs)
    + match result.reason
      case NoReason => [Entry(TurnResult, turn, req.playerID, Status(status))]
      case Timeout => [Entry(TurnTimeout, turn, req.playerID, Status(status))]
      case RuntimeStop => RuntimeStopEntries(turn, req.playerID, result, Status(status))
      case _ => [Entry(ProtocolError, turn, req.playerID, Status(status))]
  }

  function RequestEntries(step: DecisionStep): seq<Entry> {
    seq(|step.requests|, i requires 0 <= i < |step.requests| =>
      Entry(TurnRequested, step.turn, step.requests[i].playerID, Detail))
  }

  // The outcomes of the first n requests of a step.
  function OutcomesOf(step: DecisionStep, results: seq<SessionResult>, statuses: seq<ActionStatus>, n: nat): seq<Entry>
    requires n <= |step.requests| && n <= |results| && n <= |statuses|
  {
    if n == 0 then []
    else OutcomesOf(step, results, statuses, n - 1)
         + OutcomeEntries(step.turn, step.requests[n - 1], results[n - 1], statuses[n - 1])
  }

  // ----- Applied steps -----

  // A step that was played and applied: the master before asking for it, after, and after applying it.
  datatype Applied<+M> = Applied(
    entry: M, asked: M, step: DecisionStep, results: seq<SessionResult>, statuses: seq<ActionStatus>, exit: M)

  function RawStatus(req: Request, result: SessionResult): ActionStatus {
    ActionStatus(req.playerID, result.verdict, result.reason, result.payload)
  }

  ghost predicate Shaped<M>(a: Applied<M>) {
    |a.results| == |a.step.requests| && |a.statuses| == |a.step.requests|
  }

  // The step is the master's next one, every status is the normalized answer to its request, and
  // the master accepted them.
  ghost predicate Played<M>(gm: Master<M>, a: Applied<M>) {
    && Shaped(a)
    && gm.next(a.entry) == (a.asked, Step(a.step))
    && (forall j | 0 <= j < |a.statuses| ::
          gm.normalize(a.asked, a.step.requests[j], RawStatus(a.step.requests[j], a.results[j])) == Some(a.statuses[j]))
    && gm.apply(a.asked, a.step, a.statuses) == Some(a.exit)
    && (a.step.mode.Simultaneous? || (a.step.mode.Sequential? && |a.step.requests| == 1))
  }

  ghost predicate Live<M>(gm: Master<M>, start: M, trace: seq<Applied<M>>, end: M) {
    if trace == [] then end == start
    else
      var last := trace[|trace| - 1];
      Live(gm, start, trace[..|trace| - 1], last.entry) && Played(gm, last) && last.exit == end
  }

  function Block<M>(a: Applied<M>): seq<Entry> {
    if |a.results| == |a.step.requests| && |a.statuses| == |a.step.requests|
    then RequestEntries(a.step) + OutcomesOf(a.step, a.results, a.statuses, |a.step.requests|)
    else []
  }

  function Blocks<M>(trace: seq<Applied<M>>): seq<Entry> {
    if trace == [] then [] else Blocks(trace[..|trace| - 1]) + Block(trace[|trace| - 1])
  }

  // What a step that was not applied may leave: its requests, and the outcomes of the first few.
  ghost predicate LeftBy(step: DecisionStep, tail: seq<Entry>) {
    tail == []
    || exists results: seq<SessionResult>, statuses: seq<ActionStatus> :: LeavesBehind(tail, step, results, statuses)
  }

  // After the last applied step: nothing, or what the master's next step left.
  ghost predicate Unfinished<M>(gm: Master<M>, end: M, tail: seq<Entry>) {
    tail == [] || (gm.next(end).1.Step? && LeftBy(gm.next(end).1.step, tail))
  }

  ghost predicate LeavesBehind(
      tail: seq<Entry>, step: DecisionStep, results: seq<SessionResult>, statuses: seq<ActionStatus>)
  {
    && |statuses| <= |step.requests| && |statuses| <= |results|
    && tail == RequestEntries(step) + OutcomesOf(step, results, statuses, |statuses|)
  }

  function LastStatuses(log: seq<Entry>): map<Id, ActionStatus> {
    if log == [] then map[]
    else
      var last, front := log[|log| - 1], LastStatuses(log[..|log| - 1]);
      if last.kind.Recorded() && last.payload.Status? then front[last.playerID := last.payload.status] else front
  }

  // ----- Start and end of a match -----

  function InitEntries(p: Id, x: Execution): seq<Entry> {
    [Entry(SessionInitialized, 0, p, Detail)]
    + (if !x.contextDone && x.result.reason.RuntimeStop? then RuntimeStopEntries(0, p, x.result, Detail) else [])
    + (if !x.contextDone && !x.result.verdict.Accepted? then [Entry(SessionInitFailed, 0, p, Detail)] else [])
  }

  function InitError(x: Execution): Option<RunError> {
    if x.contextDone then Some(ContextDone) else if !x.result.verdict.Accepted? then Some(Broken) else None
  }

  function InitsOf(players: seq<Id>, w: Surroundings, n: nat): seq<Entry>
    requires n <= |players|
  {
    if n == 0 then [] else InitsOf(players, w, n - 1) + InitEntries(players[n - 1], w.inits(n - 1))
  }

  // Sessions are initialized in order, up to and including the first that fails.
  ghost predicate Tried(players: seq<Id>, w: Surroundings, n: nat, err: Option<RunError>) {
    && n <= |players|
    && (forall i | 0 <= i < n - 1 :: InitError(w.inits(i)).None?)
    && err == (if n == 0 then None else InitError(w.inits(n - 1)))
    && (err.None? ==> n == |players|)
  }

  function GameOverEntries(p: Id, result: SessionResult): seq<Entry> {
    (if result.reason.RuntimeStop? then RuntimeStopEntries(0, p, result, Detail) else [])
    + [Entry(if result.verdict.Accepted? then GameOverSent else SessionShutdownFailed, 0, p, Detail)]
  }

  function CloseEntries(p: Id, fails: bool): seq<Entry> {
    [Entry(SessionShutdownStarted, 0, p, Detail)]
    + if fails then [Entry(RuntimeExited, 0, p, Detail), Entry(SessionShutdownFailed, 0, p, Detail)]
      else [Entry(SessionShutdownCompleted, 0, p, Detail)]
  }

  // Sessions are told of the end only when the match completed; all are closed.
  function ShutdownEntries(players: seq<Id>, w: Surroundings, completed: bool, n: nat): seq<Entry>
    requires n <= |players|
  {
    if n == 0 then []
    else
      ShutdownEntries(players, w, completed, n - 1)
      + (if completed then GameOverEntries(players[n - 1], w.gameOvers(n - 1)) else [])
      + CloseEntries(players[n - 1], w.closeFails(n - 1))
  }

  function MasterShutdownEntries(fails: bool): seq<Entry> {
    [Entry(MasterShutdownStarted, 0, NO_ID, Detail),
     Entry(if fails then MasterShutdownFailed else MasterShutdownCompleted, 0, NO_ID, Detail)]
  }

  // ----- The runner -----

  datatype Record = Record(
    status: MatchStatus,
    events: seq<Event>,
    final: Option<Final>,
    snapshotStatus: MatchStatus,
    exportedStatus: MatchStatus,
    lastStatuses: map<Id, ActionStatus>,
    publicReplay: Option<Body>)

  // What happened in a match: the steps played and applied, where the master stood after them, how
  // many sessions were initialized, what a last step that was not applied left in the log, and where
  // the master stood when the match was over.
  datatype Story<+M> = Story(trace: seq<Applied<M>>, end: M, tried: nat, tail: seq<Entry>, last: M)

  // ----- Why a match ends -----

  // A step that is not applied: it cannot be asked, or its outcomes are taken up to the first that the
  // context or the master does not let through, or the master does not apply them.
  ghost predicate StepEnds<M>(
      gm: Master<M>, asked: M, step: DecisionStep, round: nat, w: Surroundings, recorded: seq<ActionStatus>, err: RunError,
      tail: seq<Entry>)
  {
    if step.mode.OtherMode? || (step.mode.Sequential? && |step.requests| != 1) then err == Broken && tail == []
    else
      && Taken(gm, asked, step, round, w, recorded)
      && tail == RequestEntries(step) + OutcomesOf(step, ResultsOf(step, round, w), recorded, |recorded|)
      && if |recorded| == |step.requests| then err == Broken && gm.apply(asked, step, recorded) == None
         else Refused(gm, asked, step, round, w, |recorded|, err)
  }

  // The outcomes taken are normalized answers, none of them after the context was done.
  ghost predicate Taken<M>(
      gm: Master<M>, asked: M, step: DecisionStep, round: nat, w: Surroundings, recorded: seq<ActionStatus>)
  {
    && Normalized(gm, asked, step, ResultsOf(step, round, w), recorded)
    && forall j | 0 <= j < |recorded| :: !w.turns(round, j).contextDone
  }

  // The n-th answer is not taken: the context is done, or the master does not normalize it.
  ghost predicate Refused<M>(
      gm: Master<M>, asked: M, step: DecisionStep, round: nat, w: Surroundings, n: nat, err: RunError)
  {
    && n < |step.requests|
    && if w.turns(round, n).contextDone then err == ContextDone
       else && err == Broken
            && gm.normalize(asked, step.requests[n], RawStatus(step.requests[n], w.turns(round, n).result)) == None
  }

  // How the loop ends after its applied steps, and where the master stands then.
  ghost predicate LoopEnds<M>(
      gm: Master<M>, w: Surroundings, round: nat, end: M, tail: seq<Entry>, err: Option<RunError>, last: M)
  {
    if round == w.rounds then err == Some(ContextDone) && tail == [] && last == end
    else
      && last == gm.next(end).0
      && match gm.next(end).1
         case NoStep => err == None && tail == []
         case StepError => err == Some(Broken) && tail == []
         case Step(step) => err.Some? && exists recorded :: StepEnds(gm, last, step, round, w, recorded, err.value, tail)
  }

  function Opening<M>(gm: Master<M>, start: M, players: seq<Id>, w: Surroundings, tried: nat): seq<Entry>
    requires tried <= |players|
  {
    [Entry(MatchStarted, 0, NO_ID, Detail)]
    + match gm.init(start)
      case None => [Entry(MasterInitFailed, 0, NO_ID, Detail)]
      case Some(_) => [Entry(MasterInitialized, 0, NO_ID, Detail)] + InitsOf(players, w, tried)
  }

  function Closing(players: seq<Id>, w: Surroundings, status: MatchStatus, turn: int): seq<Entry> {
    ShutdownEntries(players, w, status.Completed?, |players|) + MasterShutdownEntries(w.masterShutdownFails)
    + [TerminalEntry(status, turn)]
  }

  // A match reaches a captured end, or is classified by the error that stopped it.
  ghost predicate EndsAs<M>(gm: Master<M>, w: Surroundings, story: Story<M>, err: Option<RunError>, record: Record) {
    match err
    case Some(e) =>
      && record.status == (if w.contextDoneAtEnd || e == ContextDone then Canceled else Failed)
      && record.publicReplay.None? && record.final == FinalOf(gm, story.last)
    case None =>
      && gm.next(story.end) == (story.last, NoStep) && story.tail == [] && record.final == FinalOf(gm, story.last)
      && if record.final.Some?
         then record.status == Completed && record.publicReplay == gm.publicReplay(story.last)
         else record.status == Failed && record.publicReplay.None?
  }

  ghost predicate Happened<M>(
      gm: Master<M>, start: M, players: seq<Id>, w: Surroundings, story: Story<M>, err: Option<RunError>, record: Record)
  {
    && NumberedFromOne(record.events) && story.tried <= |players|
    && EntriesOf(record.events)
         == Opening(gm, start, players, w, story.tried) + Blocks(story.trace) + story.tail
            + Closing(players, w, record.status, FinalTurn(record.final))
    && Unfinished(gm, story.end, story.tail) && Answered(story.trace, w)
    && (match gm.init(start)
        case None => err == Some(Broken) && story.trace == [] && story.tail == [] && story.last == start
        case Some(started) =>
          && Live(gm, started, story.trace, story.end) && |story.trace| <= w.rounds
          && exists e :: Tried(players, w, story.tried, e)
               && if e.Some? then e == err && story.trace == [] && story.tail == [] && story.last == started
                  else LoopEnds(gm, w, |story.trace|, story.end, story.tail, err, story.last))
    && EndsAs(gm, w, story, err, record)
    && record.snapshotStatus == record.exportedStatus == record.status
    && record.lastStatuses == LastOf(players, LastStatuses(EntriesOf(record.events)))
  }

  ghost function EntriesOf(events: seq<Event>): (log: seq<Entry>)
    ensures |log| == |events|
  {
    seq(|events|, i requires 0 <= i < |events| => events[i].entry)
  }

  ghost predicate NumberedFromOne(events: seq<Event>) {
    forall i | 0 <= i < |events| :: events[i].seqNo == i + 1
  }

  class Runner<M(!new)> {
    const gm: Master<M>
    const players: seq<Id>
    var master: M
    var events: seq<Event>
    var nextSeq: nat
    var lastSeen: map<Id, Body>
    var lastResult: map<Id, ActionStatus>
    var phase: MatchStatus
    var status: MatchStatus
    var terminalErr: Option<RunError>
    var final: Option<Final>
    var publicReplay: Option<Body>

    ghost predicate Valid()
      reads `events, `nextSeq
    {
      nextSeq == |events| && NumberedFromOne(events)
    }

    ghost function Log(): seq<Entry>
      reads `events
    {
      EntriesOf(events)
    }

    constructor (gm: Master<M>, master: M, players: seq<Id>)
      ensures Valid() && Log() == [] && status == Starting && terminalErr == None
      ensures publicReplay == None && final == None
      ensures this.gm == gm && this.master == master && this.players == players && lastResult == map[]
    {
      this.gm, this.master, this.players := gm, master, players;
      events, nextSeq, lastSeen, lastResult := [], 0, map[], map[];
      phase, status, terminalErr, final, publicReplay := Starting, Starting, None, None, None;
    }

    /** internal/platform/match/match.go:587-601 */
    method AppendEvent(kind: Kind, turn: int, playerID: Id, payload: EventPayload)
      requires Valid()
      modifies `events, `nextSeq
      ensures Valid() && Log() == old(Log()) + [Entry(kind, turn, playerID, payload)]
    {
      nextSeq := nextSeq + 1;
      events := events + [Event(nextSeq, Entry(kind, turn, playerID, payload))];
    }

    /** internal/platform/match/match.go:472-475 */
    method PrepareTurn(turn: int, req: Request)
      requires Valid()
      modifies `events, `nextSeq, `lastSeen
      ensures Valid() && Log() == old(Log()) + [Entry(TurnRequested, turn, req.playerID, Detail)]
      ensures lastSeen == old(lastSeen)[req.playerID := req.visibleState]
    {
      lastSeen := lastSeen[req.playerID := req.visibleState];
      AppendEvent(TurnRequested, turn, req.playerID, Detail);
    }

    /** internal/platform/match/match.go:526-540 */
    method AppendRuntimeStop(turn: int, playerID: Id, result: SessionResult, payload: EventPayload)
      requires Valid()
      modifies `events, `nextSeq
      ensures Valid() && Log() == old(Log()) + RuntimeStopEntries(turn, playerID, result, payload)
    {
      if result.runtimeError { AppendEvent(RuntimeDiagnostic, turn, playerID, Detail); }
      AppendEvent(RuntimeExited, turn, playerID, payload);
    }

    /** internal/platform/match/match.go:506-524 */
    method RecordTurn(turn: int, req: Request, result: SessionResult, status: ActionStatus)
      requires Valid()
      modifies `events, `nextSeq, `lastResult
      ensures Valid() && Log() == old(Log()) + OutcomeEntries(turn, req, result, status)
      ensures lastResult == old(lastResult)[req.playerID := status]
    {
      lastResult := lastResult[req.playerID := status];
      ghost var before := Log();
      for i := 0 to |result.lateIDs|
        invariant Valid() && Log() == before + LateEntries(turn, req.playerID, result.lateIDs[..i])
        invariant lastResult == old(lastResult)[req.playerID := status]
      {
        AppendEvent(LateResponseIgnored, turn, req.playerID, Detail);
      }
      assert result.lateIDs[..|result.lateIDs|] == result.lateIDs;
      match result.reason {
        case NoReason => AppendEvent(TurnResult, turn, req.playerID, Status(status));
        case Timeout => AppendEvent(TurnTimeout, turn, req.playerID, Status(status));
        case RuntimeStop => AppendRuntimeStop(turn, req.playerID, result, Status(status));
        case _ => AppendEvent(ProtocolError, turn, req.playerID, Status(status));
      }
    }

    /**
      internal/platform/match/match.go:290-322. The sessions run concurrently, but each fills its own
      slot, so their answers are independent of the interleaving.
    */
    method RunSimultaneousStep(step: DecisionStep, round: nat, w: Surroundings)
        returns (r: Option<seq<ActionStatus>>, err: RunError, ghost results: seq<SessionResult>,
                 ghost recorded: seq<ActionStatus>)
      requires Valid()
      modifies `events, `nextSeq, `lastSeen, `lastResult
      ensures Valid()
      ensures results == ResultsOf(step, round, w) && |recorded| <= |step.requests|
      ensures Log() == old(Log()) + RequestEntries(step) + OutcomesOf(step, results, recorded, |recorded|)
      ensures Taken(gm, master, step, round, w, recorded)
      ensures r.Some? ==> r.value == recorded && |recorded| == |step.requests|
      ensures r.None? ==> |recorded| < |step.requests| && Refused(gm, master, step, round, w, |recorded|, err)
      ensures old(Remembers()) ==> Remembers()
    {
      hide OutcomeEntries, OutcomesOf, RequestEntries, LastStatuses, Normalized, RawStatus, EntriesOf, NumberedFromOne, Valid;
      results, recorded := ResultsOf(step, round, w), [];
      NormalizedNone(gm, master, step, results);
      RequestsStart(step);
      ghost var before := Log();
      var executions: seq<Execution> := [];
      for i := 0 to |step.requests|
        invariant Valid() && lastResult == old(lastResult)
        invariant Log() == before + RequestEntries(step)[..i]
      {
        PrepareTurn(step.turn, step.requests[i]);
        RequestNext(step, i);
      }
      RequestsRemembered(before, step);
      for i := 0 to |step.requests|
        invariant |executions| == i
        invariant forall j | 0 <= j < i :: executions[j] == w.turns(round, j)
      {
        executions := executions + [w.turns(round, i)];
      }
      var outcomes: seq<ActionStatus> := [];
      ghost var asked := Log();
      for i := 0 to |step.requests|
        invariant Valid() && outcomes == recorded && |recorded| == i
        invariant Log() == asked + OutcomesOf(step, results, recorded, |recorded|)
        invariant Normalized(gm, master, step, results, recorded)
        invariant forall j | 0 <= j < i :: !w.turns(round, j).contextDone
        invariant old(Remembers()) ==> Remembers()
      {
        var x := executions[i];
        if x.contextDone { return None, ContextDone, results, recorded; }
        var normalized := gm.normalize(master, step.requests[i], RawStatus(step.requests[i], x.result));
        if normalized.None? { return None, Broken, results, recorded; }
        OutcomeRemembered(Log(), step.turn, step.requests[i], x.result, normalized.value);
        RecordTurn(step.turn, step.requests[i], x.result, normalized.value);
        OutcomesSnoc(step, results, recorded, normalized.value);
        NormalizedSnoc(gm, master, step, results, recorded, normalized.value);
        outcomes := outcomes + [normalized.value];
        recorded := outcomes;
      }
      return Some(outcomes), Broken, results, recorded;
    }

    // One request, answered on its own (internal/platform/match/match.go:264-281).
    method RunSequentialRequest(step: DecisionStep, round: nat, w: Surroundings)
        returns (r: Option<ActionStatus>, err: RunError, ghost recorded: seq<ActionStatus>)
      requires Valid() && |step.requests| == 1
      modifies `events, `nextSeq, `lastSeen, `lastResult
      ensures Valid() && |recorded| <= 1
      ensures Log() == old(Log()) + RequestEntries(step) + OutcomesOf(step, ResultsOf(step, round, w), recorded, |recorded|)
      ensures Taken(gm, master, step, round, w, recorded)
      ensures r.Some? ==> recorded == [r.value]
      ensures r.None? ==> recorded == [] && Refused(gm, master, step, round, w, 0, err)
      ensures old(Remembers()) ==> Remembers()
    {
      hide OutcomeEntries, OutcomesOf, RequestEntries, LastStatuses, Normalized, RawStatus, EntriesOf, NumberedFromOne;
      ghost var results := ResultsOf(step, round, w);
      recorded := [];
      NormalizedNone(gm, master, step, results);
      RequestsStart(step);
      RequestNext(step, 0);
      RequestsRemembered(Log(), step);
      var req := step.requests[0];
      PrepareTurn(step.turn, req);
      var x := w.turns(round, 0);
      if x.contextDone { return None, ContextDone, recorded; }
      var normalized := gm.normalize(master, req, RawStatus(req, x.result));
      if normalized.None? { return None, Broken, recorded; }
      OutcomeRemembered(Log(), step.turn, req, x.result, normalized.value);
      OutcomesSnoc(step, results, [], normalized.value);
      NormalizedSnoc(gm, master, step, results, [], normalized.value);
      assert [] + [normalized.value] == [normalized.value];
      RecordTurn(step.turn, req, x.result, normalized.value);
      return normalized, Broken, [normalized.value];
    }

    // One round of the loop, after the master has been asked (internal/platform/match/match.go:254-286).
    method PlayStep(step: DecisionStep, round: nat, w: Surroundings)
        returns (err: Option<RunError>, ghost recorded: seq<ActionStatus>, ghost tail: seq<Entry>)
      requires Valid()
      modifies `events, `nextSeq, `lastSeen, `lastResult, `master
      ensures Valid() && Log() == old(Log()) + tail
      ensures old(Remembers()) ==> Remembers()
      ensures err.Some? ==> master == old(master) && LeftBy(step, tail)
      ensures err.Some? ==> StepEnds(gm, old(master), step, round, w, recorded, err.value, tail)
      ensures err.None? ==>
                && |recorded| == |step.requests| && Taken(gm, old(master), step, round, w, recorded)
                && gm.apply(old(master), step, recorded) == Some(master)
                && tail == RequestEntries(step) + OutcomesOf(step, ResultsOf(step, round, w), recorded, |recorded|)
                && (step.mode.Simultaneous? || (step.mode.Sequential? && |step.requests| == 1))
    {
      hide OutcomesOf, RequestEntries, Normalized, EntriesOf, NumberedFromOne, Remembers, LeavesBehind, Refused;
      recorded, tail := [], [];
      assert Log() + [] == Log();
      ghost var results := ResultsOf(step, round, w);
      ghost var before := Log();
      var statuses: seq<ActionStatus>;
      match step.mode {
        case Simultaneous =>
          var outcomes, failure, _, done := RunSimultaneousStep(step, round, w);
          recorded := done;
          tail := RequestEntries(step) + OutcomesOf(step, results, recorded, |recorded|);
          UnfinishedStep(step, results, recorded);
          assert Log() == before + tail;
          if outcomes.None? { return Some(failure), recorded, tail; }
          statuses := outcomes.value;
        case Sequential =>
          if |step.requests| != 1 { return Some(Broken), recorded, tail; }
          var outcome, failure, done := RunSequentialRequest(step, round, w);
          recorded := done;
          tail := RequestEntries(step) + OutcomesOf(step, results, recorded, |recorded|);
          UnfinishedStep(step, results, recorded);
          assert Log() == before + tail;
          if outcome.None? { return Some(failure), recorded, tail; }
          statuses := [outcome.value];
        case OtherMode =>
          return Some(Broken), recorded, tail;
      }
      var applied := gm.apply(master, step, statuses);
      if applied.None? { return Some(Broken), recorded, tail; }
      master := applied.value;
      return None, recorded, tail;
    }

    /** internal/platform/match/match.go:239-288 */
    method RunDecisionLoop(w: Surroundings)
        returns (err: Option<RunError>, ghost trace: seq<Applied<M>>, ghost end: M, ghost tail: seq<Entry>)
      requires Valid()
      modifies `events, `nextSeq, `lastSeen, `lastResult, `master, `phase
      ensures Valid() && Log() == old(Log()) + Blocks(trace) + tail
      ensures old(Remembers()) ==> Remembers()
      ensures Live(gm, old(master), trace, end) && Unfinished(gm, end, tail)
      ensures Answered(trace, w) && |trace| <= w.rounds
      ensures LoopEnds(gm, w, |trace|, end, tail, err, master)
    {
      hide OutcomesOf, RequestEntries, Normalized, EntriesOf, NumberedFromOne, Remembers, LeftBy, Played, Block, StepEnds;
      hide ResultsOf, Live, Blocks, Answered, Valid, Log;
      phase := Running;
      NothingPlayed(gm, master, w);
      ghost var before, start := Log(), master;
      end, tail, trace := master, [], [];
      var round: nat := 0;
      while true
        invariant Valid() && Log() == before + Blocks(trace) && tail == []
        invariant old(Remembers()) ==> Remembers()
        invariant Live(gm, start, trace, end) && master == end
        invariant round == |trace| <= w.rounds
        invariant Answered(trace, w)
        decreases w.rounds - round
      {
        assert Log() + [] == Log();
        if round == w.rounds { return Some(ContextDone), trace, end, tail; }
        var (asked, next) := gm.next(master);
        master := asked;
        if next.StepError? { return Some(Broken), trace, end, tail; }
        if next.NoStep? { return None, trace, end, tail; }
        ghost var recorded;
        err, recorded, tail := PlayStep(next.step, round, w);
        if err.Some? { return err, trace, end, tail; }
        ghost var played := Applied(end, asked, next.step, ResultsOf(next.step, round, w), recorded, master);
        ResultsCount(next.step, round, w);
        StepPlayed(gm, played);
        LiveSnoc(gm, start, trace, end, played, w);
        assert before + (Blocks(trace) + Block(played)) == before + Blocks(trace) + Block(played);
        trace, end, tail := trace + [played], master, [];
        round := round + 1;
      }
    }

    /** internal/platform/match/match.go:193-237 */
    method InitializeSessions(w: Surroundings) returns (err: Option<RunError>, ghost tried: nat)
      requires Valid()
      modifies `events, `nextSeq, `phase, `master
      ensures Valid() && tried <= |players|
      ensures old(Remembers()) ==> Remembers()
      ensures match gm.init(old(master))
              case None => err == Some(Broken) && master == old(master)
                           && Log() == old(Log()) + [Entry(MasterInitFailed, 0, NO_ID, Detail)]
              case Some(started) =>
                && master == started && Tried(players, w, tried, err)
                && Log() == old(Log()) + [Entry(MasterInitialized, 0, NO_ID, Detail)] + InitsOf(players, w, tried)
    {
      hide EntriesOf, NumberedFromOne, LastStatuses, InitEntries, InitsOf, InitError, Valid, Log;
      phase, tried := Initializing, 0;
      ghost var start := Log();
      var state := gm.init(master);
      if state.None? {
        AppendEvent(MasterInitFailed, 0, NO_ID, Detail);
        QuietRemembered(start, [Entry(MasterInitFailed, 0, NO_ID, Detail)]);
        return Some(Broken), 0;
      }
      master := state.value;
      AppendEvent(MasterInitialized, 0, NO_ID, Detail);
      ghost var before := Log();
      assert before + [] == before && InitsOf(players, w, 0) == [] by { InitsStart(players, w); }
      InitRemembered(start, players, w, 0);
      for i := 0 to |players|
        invariant Valid() && Log() == before + InitsOf(players, w, i) && master == state.value
        invariant forall j | 0 <= j < i :: InitError(w.inits(j)).None?
        invariant tried == i
      {
        tried := i + 1;
        InitRemembered(start, players, w, tried);
        InitsNext(before, players, w, i);
        err := InitializeSession(players[i], w.inits(i));
        if err.Some? { return err, tried; }
      }
      InitRemembered(start, players, w, |players|);
      return None, tried;
    }

    // internal/platform/match/match.go:215-232
    method InitializeSession(p: Id, x: Execution) returns (err: Option<RunError>)
      requires Valid()
      modifies `events, `nextSeq
      ensures Valid() && Log() == old(Log()) + InitEntries(p, x) && err == InitError(x)
    {
      hide EntriesOf, NumberedFromOne;
      AppendEvent(SessionInitialized, 0, p, Detail);
      if x.contextDone { return Some(ContextDone); }
      if x.result.reason.RuntimeStop? { AppendRuntimeStop(0, p, x.result, Detail); }
      if !x.result.verdict.Accepted? {
        AppendEvent(SessionInitFailed, 0, p, Detail);
        return Some(Broken);
      }
      return None;
    }

    /** internal/platform/match/match.go:324-370 */
    method ShutdownSessions(w: Surroundings)
      requires Valid()
      modifies `events, `nextSeq
      ensures Valid() && Log() == old(Log()) + ShutdownEntries(players, w, status.Completed?, |players|)
      ensures old(Remembers()) ==> Remembers()
    {
      hide EntriesOf, NumberedFromOne, LastStatuses, GameOverEntries, CloseEntries, Log, Valid, ShutdownEntries;
      ghost var before := Log();
      ShutdownRemembered(before, players, w, status.Completed?);
      ShutdownStart(before, players, w, status.Completed?);
      for i := 0 to |players|
        invariant Valid() && Log() == before + ShutdownEntries(players, w, status.Completed?, i)
      {
        ShutdownNext(before, players, w, status.Completed?, i);
        if status.Completed? { SendGameOver(players[i], w.gameOvers(i)); }
        CloseSession(players[i], w.closeFails(i));
      }
    }

    // internal/platform/match/match.go:328-357
    method SendGameOver(p: Id, result: SessionResult)
      requires Valid()
      modifies `events, `nextSeq
      ensures Valid() && Log() == old(Log()) + GameOverEntries(p, result)
    {
      hide EntriesOf, NumberedFromOne;
      if result.reason.RuntimeStop? { AppendRuntimeStop(0, p, result, Detail); }
      AppendEvent(if result.verdict.Accepted? then GameOverSent else SessionShutdownFailed, 0, p, Detail);
    }

    // internal/platform/match/match.go:359-368
    method CloseSession(p: Id, fails: bool)
      requires Valid()
      modifies `events, `nextSeq
      ensures Valid() && Log() == old(Log()) + CloseEntries(p, fails)
    {
      hide EntriesOf, NumberedFromOne;
      AppendEvent(SessionShutdownStarted, 0, p, Detail);
      if fails {
        AppendEvent(RuntimeExited, 0, p, Detail);
        AppendEvent(SessionShutdownFailed, 0, p, Detail);
        return;
      }
      AppendEvent(SessionShutdownCompleted, 0, p, Detail);
    }

    /** internal/platform/match/match.go:371-379 */
    method ShutdownGameMaster(w: Surroundings)
      requires Valid()
      modifies `events, `nextSeq
      ensures Valid() && Log() == old(Log()) + MasterShutdownEntries(w.masterShutdownFails)
      ensures old(Remembers()) ==> Remembers()
    {
      hide EntriesOf, NumberedFromOne, LastStatuses;
      QuietRemembered(Log(), MasterShutdownEntries(w.masterShutdownFails));
      AppendEvent(MasterShutdownStarted, 0, NO_ID, Detail);
      AppendEvent(if w.masterShutdownFails then MasterShutdownFailed else MasterShutdownCompleted, 0, NO_ID, Detail);
    }

    /** internal/platform/match/match.go:549-574 */
    method CaptureFinalState() returns (captured: bool)
      modifies `final, `publicReplay
      ensures captured <==> FinalOf(gm, master).Some?
      ensures final == if captured then FinalOf(gm, master) else old(final)
      ensures publicReplay == if captured && status.Completed? then gm.publicReplay(master) else old(publicReplay)
    {
      var snapshot := gm.snapshot(master);
      if snapshot.None? { return false; }
      var exported := gm.exported(master);
      if exported.None? { return false; }
      var result := gm.result(master);
      if result.None? { return false; }
      final := Some(Final(snapshot.value, exported.value, result.value));
      if status.Completed? { publicReplay := gm.publicReplay(master); }
      return true;
    }

    /** internal/platform/match/match.go:428-452: a context seen done outranks every other error. */
    method ClassifyTerminalError(w: Surroundings, err: RunError)
      modifies `phase, `status, `terminalErr
      ensures status == phase == (if w.contextDoneAtEnd || err == ContextDone then Canceled else Failed)
      ensures terminalErr == Some(err)
    {
      status := if w.contextDoneAtEnd || err.ContextDone? then Canceled else Failed;
      phase, terminalErr := status, Some(err);
    }

    /** internal/platform/match/match.go:454-470 */
    method EmitTerminalEvent()
      requires Valid()
      modifies `events, `nextSeq, `phase, `status
      ensures Valid() && status == (if old(status).Completed? || old(status).Canceled? then old(status) else Failed)
      ensures Log() == old(Log()) + [TerminalEntry(status, FinalTurn(final))]
      ensures old(Remembers()) ==> Remembers()
    {
      ghost var before := Log();
      if status.Completed? {
        phase := Completed;
        AppendEvent(MatchCompleted, FinalTurn(final), NO_ID, Detail);
      } else if status.Canceled? {
        AppendEvent(MatchCanceled, FinalTurn(final), NO_ID, Detail);
      } else {
        phase, status := Failed, Failed;
        AppendEvent(MatchFailed, FinalTurn(final), NO_ID, Detail);
      }
      QuietRemembered(before, [TerminalEntry(status, FinalTurn(final))]);
    }

    /** internal/platform/match/match.go:381-426 */
    method BuildRecord() returns (record: Record)
      ensures record.status == record.snapshotStatus == record.exportedStatus == status
      ensures record.events == events && record.final == final && record.publicReplay == publicReplay
      ensures Remembers() ==> record.lastStatuses == LastOf(players, LastStatuses(Log()))
    {
      var lastStatuses: map<Id, ActionStatus> := map[];
      for i := 0 to |players|
        invariant lastStatuses == LastOf(players[..i], lastResult)
      {
        assert players[..i + 1] == players[..i] + [players[i]];
        var p := players[i];
        lastStatuses := lastStatuses[p := if p in lastResult then lastResult[p] else NO_STATUS];
      }
      assert players[..|players|] == players;
      return Record(status, events, final, status, status, lastStatuses, publicReplay);
    }

    // Everything up to the end of the loop.
    method Play(w: Surroundings) returns (err: Option<RunError>, ghost story: Story<M>)
      requires Valid() && Log() == [] && Remembers()
      modifies `events, `nextSeq, `lastSeen, `lastResult, `master, `phase
      ensures Valid() && Remembers() && story.tried <= |players|
      ensures Log() == Opening(gm, old(master), players, w, story.tried) + Blocks(story.trace) + story.tail
      ensures Unfinished(gm, story.end, story.tail) && Answered(story.trace, w)
      ensures match gm.init(old(master))
              case None => err == Some(Broken) && story.trace == [] && story.tail == [] && story.last == old(master)
              case Some(started) =>
                && Live(gm, started, story.trace, story.end) && |story.trace| <= w.rounds
                && exists e :: Tried(players, w, story.tried, e)
                     && if e.Some? then e == err && story.trace == [] && story.tail == [] && story.last == started
                        else LoopEnds(gm, w, |story.trace|, story.end, story.tail, err, story.last)
      ensures err.None? ==> gm.next(story.end) == (story.last, NoStep) && story.tail == []
      ensures story.last == master
    {
      hide EntriesOf, NumberedFromOne, LastStatuses, InitsOf, Blocks, Live, LeftBy, Answered, Tried, Valid, StepEnds;
      ghost var start := master;
      AppendEvent(MatchStarted, 0, NO_ID, Detail);
      assert [] + [Entry(MatchStarted, 0, NO_ID, Detail)] == [Entry(MatchStarted, 0, NO_ID, Detail)];
      QuietRemembered([], [Entry(MatchStarted, 0, NO_ID, Detail)]);
      ghost var tried;
      err, tried := InitializeSessions(w);
      NothingPlayed(gm, master, w);
      if err.Some? {
        story := Story([], master, if gm.init(start).Some? then tried else 0, [], master);
        assert Log() + [] + [] == Log();
        return;
      }
      ghost var opening := Log();
      ghost var trace: seq<Applied<M>>, end: M, tail: seq<Entry>;
      err, trace, end, tail := RunDecisionLoop(w);
      story := Story(trace, end, tried, tail, master);
    }

    // The deferred end of every match (internal/platform/match/match.go:158-175).
    method Finish(w: Surroundings) returns (record: Record)
      requires Valid() && Remembers() && status in {Completed, Failed, Canceled}
      requires (status.Completed? <==> terminalErr.None?) && publicReplay == None && final == None
      modifies this
      ensures NumberedFromOne(record.events)
      ensures EntriesOf(record.events) == old(Log()) + Closing(players, w, record.status, FinalTurn(record.final))
      ensures record.snapshotStatus == record.exportedStatus == record.status
      ensures record.lastStatuses == LastOf(players, LastStatuses(EntriesOf(record.events)))
      ensures record.final == FinalOf(gm, old(master))
      ensures if old(status).Completed? && record.final.Some?
              then record.status == Completed && record.publicReplay == gm.publicReplay(old(master))
              else record.status == (if old(status).Completed? then Failed else old(status)) && record.publicReplay.None?
    {
      hide EntriesOf, NumberedFromOne, LastStatuses, Closing, LastOf, FinalOf, FinalTurn;
      ghost var before := Log();
      var captured := CaptureFinalState();
      if !captured && terminalErr.None? {
        terminalErr := Some(Broken);
        if status.Completed? { phase, status := Failed, Failed; }
      }
      EndLog(w);
      record := BuildRecord();
    }

    // internal/platform/match/match.go:170-173
    method EndLog(w: Surroundings)
      requires Valid() && Remembers() && status in {Completed, Failed, Canceled}
      modifies `events, `nextSeq, `phase, `status
      ensures Valid() && Remembers() && status == old(status)
      ensures Log() == old(Log()) + Closing(players, w, status, FinalTurn(final))
    {
      hide EntriesOf, NumberedFromOne, LastStatuses, ShutdownEntries, MasterShutdownEntries, TerminalEntry, FinalTurn, Remembers;
      ShutdownSessions(w);
      ShutdownGameMaster(w);
      EmitTerminalEvent();
    }

    /** internal/platform/match/match.go:150-191 */
    method Run(w: Surroundings) returns (record: Record, err: Option<RunError>, ghost story: Story<M>)
      requires Valid() && Log() == [] && lastResult == map[] && terminalErr == None && publicReplay == None && final == None
      modifies this
      ensures Happened(gm, old(master), players, w, story, err, record)
    {
      hide EntriesOf, NumberedFromOne, LastStatuses, Blocks, Live, LeftBy, Answered, Tried, Opening, Closing, LastOf, LoopEnds;
      assert Remembers() by { NothingRemembered(); }
      err, story := Play(w);
      if err.Some? {
        ClassifyTerminalError(w, err.value);
      } else {
        phase, status := Finishing, Completed;
      }
      record := Finish(w);
    }

    // Each player's last result is the status of that player's last recorded outcome.
    ghost predicate Remembers()
      reads `events, `lastResult
    {
      lastResult == LastStatuses(Log())
    }
  }

  lemma NothingRemembered()
    ensures LastStatuses([]) == map[]
  {
  }

  function TerminalEntry(status: MatchStatus, turn: int): Entry {
    Entry(if status.Completed? then MatchCompleted else if status.Canceled? then MatchCanceled else MatchFailed,
          turn, NO_ID, Detail)
  }

  function LastOf(players: seq<Id>, last: map<Id, ActionStatus>): map<Id, ActionStatus> {
    map p | p in players :: if p in last then last[p] else NO_STATUS
  }

  // Entries that carry no status and neither start nor end the match.
  ghost predicate Lifecycle(entries: seq<Entry>) {
    forall e | e in entries :: Forgettable(e) && !e.kind.Terminal() && !e.kind.MatchStarted?
  }

  lemma LifecycleAppend(a: seq<Entry>, b: seq<Entry>)
    ensures Lifecycle(a + b) <==> Lifecycle(a) && Lifecycle(b)
  {
    assert forall e | e in a :: e in a + b;
    assert forall e | e in b :: e in a + b;
  }

  lemma StopLifecycle(p: Id, result: SessionResult)
    ensures Lifecycle(RuntimeStopEntries(0, p, result, Detail))
  {
  }

  lemma InitLifecycle(p: Id, x: Execution)
    ensures Lifecycle(InitEntries(p, x))
  {
    hide RuntimeStopEntries;
    StopLifecycle(p, x.result);
  }

  lemma GameOverLifecycle(p: Id, result: SessionResult)
    ensures Lifecycle(GameOverEntries(p, result))
  {
    hide RuntimeStopEntries;
    StopLifecycle(p, result);
  }

  lemma CloseLifecycle(p: Id, fails: bool)
    ensures Lifecycle(CloseEntries(p, fails))
  {
  }

  lemma InitsStart(players: seq<Id>, w: Surroundings)
    ensures InitsOf(players, w, 0) == []
  {
  }

  lemma InitsNext(log: seq<Entry>, players: seq<Id>, w: Surroundings, i: nat)
    requires i < |players|
    ensures log + InitsOf(players, w, i) + InitEntries(players[i], w.inits(i)) == log + InitsOf(players, w, i + 1)
  {
  }

  lemma ShutdownStart(log: seq<Entry>, players: seq<Id>, w: Surroundings, completed: bool)
    ensures log + ShutdownEntries(players, w, completed, 0) == log
  {
  }

  lemma ShutdownNext(log: seq<Entry>, players: seq<Id>, w: Surroundings, completed: bool, i: nat)
    requires i < |players|
    ensures var before, closed := log + ShutdownEntries(players, w, completed, i), CloseEntries(players[i], w.closeFails(i));
            log + ShutdownEntries(players, w, completed, i + 1)
              == if completed then before + GameOverEntries(players[i], w.gameOvers(i)) + closed else before + closed
  {
    hide GameOverEntries, CloseEntries;
  }

  lemma {:induction false} InitForgettable(players: seq<Id>, w: Surroundings, n: nat)
    requires n <= |players|
    ensures Lifecycle(InitsOf(players, w, n))
  {
    hide InitEntries;
    if n > 0 {
      InitForgettable(players, w, n - 1);
      InitLifecycle(players[n - 1], w.inits(n - 1));
      LifecycleAppend(InitsOf(players, w, n - 1), InitEntries(players[n - 1], w.inits(n - 1)));
    }
  }

  lemma InitRemembered(log: seq<Entry>, players: seq<Id>, w: Surroundings, n: nat)
    requires n <= |players|
    ensures LastStatuses(log + [Entry(MasterInitialized, 0, NO_ID, Detail)] + InitsOf(players, w, n)) == LastStatuses(log)
  {
    InitForgettable(players, w, n);
    QuietRemembered(log, [Entry(MasterInitialized, 0, NO_ID, Detail)]);
    QuietRemembered(log + [Entry(MasterInitialized, 0, NO_ID, Detail)], InitsOf(players, w, n));
  }

  lemma {:induction false} ShutdownForgettable(players: seq<Id>, w: Surroundings, completed: bool, n: nat)
    requires n <= |players|
    ensures Lifecycle(ShutdownEntries(players, w, completed, n))
  {
    hide GameOverEntries, CloseEntries, Lifecycle;
    if n > 0 {
      var p := players[n - 1];
      var told := if completed then GameOverEntries(p, w.gameOvers(n - 1)) else [];
      ShutdownForgettable(players, w, completed, n - 1);
      GameOverLifecycle(p, w.gameOvers(n - 1));
      CloseLifecycle(p, w.closeFails(n - 1));
      LifecycleAppend(ShutdownEntries(players, w, completed, n - 1), told);
      LifecycleAppend(ShutdownEntries(players, w, completed, n - 1) + told, CloseEntries(p, w.closeFails(n - 1)));
      assert Lifecycle(told) by { NoLifecycle(); }
    } else { NoLifecycle(); }
  }

  lemma NoLifecycle()
    ensures Lifecycle([])
  {
  }

  lemma ShutdownRemembered(log: seq<Entry>, players: seq<Id>, w: Surroundings, completed: bool)
    ensures LastStatuses(log + ShutdownEntries(players, w, completed, |players|)) == LastStatuses(log)
  {
    ShutdownForgettable(players, w, completed, |players|);
    QuietRemembered(log, ShutdownEntries(players, w, completed, |players|));
  }

  lemma ResultsCount(step: DecisionStep, round: nat, w: Surroundings)
    ensures |ResultsOf(step, round, w)| == |step.requests|
  {
  }

  lemma UnfinishedStep(step: DecisionStep, results: seq<SessionResult>, statuses: seq<ActionStatus>)
    requires |statuses| <= |step.requests| && |statuses| <= |results|
    ensures LeftBy(step, RequestEntries(step) + OutcomesOf(step, results, statuses, |statuses|))
  {
    var tail := RequestEntries(step) + OutcomesOf(step, results, statuses, |statuses|);
    assert LeavesBehind(tail, step, results, statuses);
  }

  lemma StepPlayed<M>(gm: Master<M>, a: Applied<M>)
    requires Normalized(gm, a.asked, a.step, a.results, a.statuses)
    requires |a.results| == |a.step.requests| == |a.statuses| && gm.next(a.entry) == (a.asked, Step(a.step))
    requires gm.apply(a.asked, a.step, a.statuses) == Some(a.exit)
    requires a.step.mode.Simultaneous? || (a.step.mode.Sequential? && |a.step.requests| == 1)
    ensures Played(gm, a)
    ensures Block(a) == RequestEntries(a.step) + OutcomesOf(a.step, a.results, a.statuses, |a.statuses|)
  {
  }

  // The results of every step are those the sessions gave in its round.
  ghost predicate Answered<M>(trace: seq<Applied<M>>, w: Surroundings) {
    forall i | 0 <= i < |trace| ::
      && trace[i].results == ResultsOf(trace[i].step, i, w)
      && forall j | 0 <= j < |trace[i].step.requests| :: !w.turns(i, j).contextDone
  }

  lemma NothingPlayed<M>(gm: Master<M>, start: M, w: Surroundings)
    ensures Live(gm, start, [], start) && Blocks<M>([]) == [] && Answered<M>([], w)
  {
  }

  lemma LiveSnoc<M>(gm: Master<M>, start: M, trace: seq<Applied<M>>, end: M, a: Applied<M>, w: Surroundings)
    requires Live(gm, start, trace, end) && Played(gm, a) && a.entry == end
    requires Answered(trace, w) && a.results == ResultsOf(a.step, |trace|, w)
    requires forall j | 0 <= j < |a.step.requests| :: !w.turns(|trace|, j).contextDone
    ensures Live(gm, start, trace + [a], a.exit) && Blocks(trace + [a]) == Blocks(trace) + Block(a)
    ensures Answered(trace + [a], w)
  {
    hide Played, Block, ResultsOf;
    assert (trace + [a])[..|trace|] == trace;
  }

  ghost function ResultsOf(step: DecisionStep, round: nat, w: Surroundings): seq<SessionResult> {
    seq(|step.requests|, j requires 0 <= j < |step.requests| => w.turns(round, j).result)
  }

  ghost predicate Normalized<M>(
      gm: Master<M>, asked: M, step: DecisionStep, results: seq<SessionResult>, statuses: seq<ActionStatus>)
  {
    && |statuses| <= |step.requests| && |statuses| <= |results|
    && forall j | 0 <= j < |statuses| ::
         gm.normalize(asked, step.requests[j], RawStatus(step.requests[j], results[j])) == Some(statuses[j])
  }

  lemma RequestsStart(step: DecisionStep)
    ensures |RequestEntries(step)| == |step.requests|
    ensures RequestEntries(step)[..0] == [] && RequestEntries(step)[..|step.requests|] == RequestEntries(step)
  {
  }

  lemma RequestNext(step: DecisionStep, i: nat)
    requires i < |step.requests|
    ensures |RequestEntries(step)| == |step.requests|
    ensures RequestEntries(step)[..i + 1]
         == RequestEntries(step)[..i] + [Entry(TurnRequested, step.turn, step.requests[i].playerID, Detail)]
  {
  }

  lemma NormalizedNone<M>(gm: Master<M>, asked: M, step: DecisionStep, results: seq<SessionResult>)
    ensures Normalized(gm, asked, step, results, []) && OutcomesOf(step, results, [], 0) == []
  {
  }

  lemma NormalizedSnoc<M>(
      gm: Master<M>, asked: M, step: DecisionStep, results: seq<SessionResult>, statuses: seq<ActionStatus>,
      last: ActionStatus)
    requires Normalized(gm, asked, step, results, statuses)
    requires |statuses| < |step.requests| && |statuses| < |results|
    requires gm.normalize(asked, step.requests[|statuses|], RawStatus(step.requests[|statuses|], results[|statuses|]))
          == Some(last)
    ensures Normalized(gm, asked, step, results, statuses + [last])
  {
  }

  lemma {:induction false} OutcomesPrefix(
      step: DecisionStep, results: seq<SessionResult>, statuses: seq<ActionStatus>, more: seq<ActionStatus>, n: nat)
    requires n <= |statuses| && n <= |results| && n <= |step.requests|
    ensures OutcomesOf(step, results, statuses + more, n) == OutcomesOf(step, results, statuses, n)
  {
    hide OutcomeEntries;
    if n > 0 { OutcomesPrefix(step, results, statuses, more, n - 1); }
  }

  lemma OutcomesSnoc(step: DecisionStep, results: seq<SessionResult>, statuses: seq<ActionStatus>, last: ActionStatus)
    requires |statuses| < |step.requests| && |statuses| < |results|
    ensures var n := |statuses|;
            OutcomesOf(step, results, statuses + [last], n + 1)
              == OutcomesOf(step, results, statuses, n) + OutcomeEntries(step.turn, step.requests[n], results[n], last)
  {
    hide OutcomeEntries;
    OutcomesPrefix(step, results, statuses, [last], |statuses|);
  }

  // ----- Remembering outcomes -----

  predicate Forgettable(e: Entry) { !(e.kind.Recorded() && e.payload.Status?) }

  lemma {:induction false} QuietRemembered(log: seq<Entry>, more: seq<Entry>)
    requires forall e | e in more :: Forgettable(e)
    ensures LastStatuses(log + more) == LastStatuses(log)
  {
    if more == [] {
      assert log + more == log;
    } else {
      assert (log + more)[..|log + more| - 1] == log + more[..|more| - 1];
      assert more[|more| - 1] in more && (log + more)[|log + more| - 1] == more[|more| - 1];
      QuietRemembered(log, more[..|more| - 1]);
    }
  }

  lemma RequestsRemembered(log: seq<Entry>, step: DecisionStep)
    ensures LastStatuses(log + RequestEntries(step)) == LastStatuses(log)
  {
    QuietRemembered(log, RequestEntries(step));
  }

  lemma OutcomeRemembered(log: seq<Entry>, turn: int, req: Request, result: SessionResult, status: ActionStatus)
    ensures LastStatuses(log + OutcomeEntries(turn, req, result, status)) == LastStatuses(log)[req.playerID := status]
  {
    var all := OutcomeEntries(turn, req, result, status);
    var front, last := all[..|all| - 1], all[|all| - 1];
    assert all == front + [last];
    QuietRemembered(log, front);
    assert (log + all)[..|log + all| - 1] == log + front;
  }
}
