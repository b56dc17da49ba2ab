/**
  The contract between the platform and a game master (gamemaster package,
  internal/platform/game/game.go, internal/platform/gamemaster): steps, requests, action statuses and
  snapshots. A master is a deterministic state machine given by the functions of Master.
*/
module GameTypes {
  import opened Identifiers

  // Opaque JSON: visible states, actions and results.
  type Body(==, !new, 0)

  datatype Verdict = Unset | Accepted | NoAction

  datatype Reason = NoReason | Timeout | RuntimeStop | IllegalAction | Protocol

  datatype ActionStatus = ActionStatus(playerID: Id, verdict: Verdict, reason: Reason, action: Option<Body>)

  const NO_STATUS := ActionStatus(NO_ID, Unset, NoReason, None)

  datatype Mode = Sequential | Simultaneous | OtherMode

  datatype Request = Request(playerID: Id, visibleState: Body)

  datatype DecisionStep = DecisionStep(turn: int, mode: Mode, requests: seq<Request>)

  datatype Next = NoStep | Step(step: DecisionStep) | StepError

  datatype Snapshot = Snapshot(turn: int, state: Body)

  datatype Master<!M> = Master(
    init: M -> Option<M>,
    next: M -> (M, Next),
    normalize: (M, Request, ActionStatus) -> Option<ActionStatus>,
    apply: (M, DecisionStep, seq<ActionStatus>) -> Option<M>,
    snapshot: M -> Option<Snapshot>,
    exported: M -> Option<Body>,
    result: M -> Option<Body>,
    publicReplay: M -> Option<Body>)

  // What is kept of a master at the end: its snapshot, its exported snapshot and its result, or nothing.
  datatype Final = Final(snapshot: Snapshot, exported: Body, result: Body)

  function FinalOf<M>(gm: Master<M>, m: M): Option<Final> {
    match (gm.snapshot(m), gm.exported(m), gm.result(m))
    case (Some(snapshot), Some(exported), Some(result)) => Some(Final(snapshot, exported, result))
    case _ => None
  }

  function FinalTurn(final: Option<Final>): int { if final.Some? then final.value.snapshot.turn else 0 }

  // What a session comes back with for one request.
  datatype SessionResult = SessionResult(
    verdict: Verdict, reason: Reason, payload: Option<Body>, lateIDs: seq<Id>, runtimeError: bool)

  // ----- Event logs -----

  datatype Kind =
    | MatchStarted | MasterInitFailed | MasterInitialized
    | SessionInitialized | SessionInitFailed
    | TurnRequested | LateResponseIgnored | RuntimeDiagnostic
    | TurnResult | TurnTimeout | ProtocolError | RuntimeExited
    | GameOverSent | SessionShutdownStarted | SessionShutdownFailed | SessionShutdownCompleted
    | MasterShutdownStarted | MasterShutdownFailed | MasterShutdownCompleted
    | MatchCompleted | MatchCanceled | MatchFailed
  {
    // The kinds that a replay reads action statuses from.
    predicate Recorded() { TurnResult? || TurnTimeout? || ProtocolError? || RuntimeExited? }
    predicate Terminal() { MatchCompleted? || MatchCanceled? || MatchFailed? }
  }

  // Status carries an action status; Detail any other object, which decodes to an empty status.
  datatype EventPayload = Status(status: ActionStatus) | Detail

  datatype Entry = Entry(kind: Kind, turn: int, playerID: Id, payload: EventPayload)

  datatype Event = Event(seqNo: nat, entry: Entry)
}
