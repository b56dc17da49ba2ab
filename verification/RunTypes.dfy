/**
  Submissions, queue records and the lifecycle rules (internal/platform/service/types.go).
*/
module RunTypes {
  import opened Identifiers
  import opened MatchResults

  datatype Error = NotFound | NothingQueued | Conflict | BadRequest | BadTransition | QuotaExceeded

  datatype Outcome<+T> = Ok(value: T) | Err(error: Error)

  datatype GameKey = GameKey(gameID: Id, gameVersion: Id, rulesetVersion: Id)

  datatype SubmittedPlayer = SubmittedPlayer(
    playerID: Id, botID: Id, botName: Id, aiSubmissionID: Id, artifactRef: Id, artifactID: Id)

  datatype RunKind = Initial | Retry | Rerun

  datatype Submission = Submission(
    runID: Id,
    matchID: Id,
    game: GameKey,
    players: seq<SubmittedPlayer>,
    outputDir: Id,
    attemptCount: int,
    parentRunID: Id,
    runKind: RunKind,
    official: bool)

  datatype State = Queued | Leased | Running | Persisting | Completed | Failed | Canceled {
    predicate Terminal() { Completed? || Failed? || Canceled? }
  }

  datatype Lease = Lease(workerID: Id, deadline: int, lastHeartbeat: int)

  // The terminal summary that a run leaves behind, as persisted and as read back.
  datatype Summary = Summary(matchID: Id, game: GameKey, status: TerminalStatus, placements: seq<Placement>)

  datatype QueueRecord = QueueRecord(
    submission: Submission,
    state: State,
    completedAt: Option<int>,
    lease: Option<Lease>,
    terminal: Option<Summary>)

  /** internal/platform/service/types.go:206-235 */
  predicate ValidTransition(from: State, to: State) {
    || from == to
    || match from
       case Queued => to.Leased? || to.Canceled?
       case Leased => to.Running? || to.Failed?
       case Running => to.Persisting? || to.Failed?
       case Persisting => to.Completed? || to.Failed?
       case _ => false
  }

  // The submissions that admission lets through.
  ghost predicate WellFormed(s: Submission) {
    && !s.runID.Blank() && !s.matchID.Blank()
    && !s.game.gameID.Blank() && !s.game.gameVersion.Blank() && !s.game.rulesetVersion.Blank()
    && s.players != [] && !s.outputDir.Blank()
    && s.attemptCount > 0
    && (if s.runKind.Initial? then s.attemptCount == 1 && s.parentRunID.Blank() else !s.parentRunID.Blank())
    && DistinctPlayers(s.players)
    && forall i | 0 <= i < |s.players| :: Usable(s.players[i])
  }

  ghost predicate DistinctPlayers(players: seq<SubmittedPlayer>) {
    forall i, j | 0 <= i < j < |players| :: players[i].playerID != players[j].playerID
  }

  ghost predicate Usable(player: SubmittedPlayer) {
    !player.playerID.Blank() && !(player.artifactRef.Blank() && player.artifactID.Blank())
  }

  /** internal/platform/service/types.go:147-203 */
  method ValidateSubmission(s: Submission) returns (ok: bool)
    ensures ok <==> WellFormed(s)
  {
    hide Id.Blank;
    if s.runID.Blank() || s.matchID.Blank() { return false; }
    if s.game.gameID.Blank() || s.game.gameVersion.Blank() || s.game.rulesetVersion.Blank() { return false; }
    if s.players == [] || s.outputDir.Blank() || s.attemptCount <= 0 { return false; }
    match s.runKind {
      case Initial =>
        if s.attemptCount != 1 || !s.parentRunID.Blank() { return false; }
      case _ =>
        if s.parentRunID.Blank() { return false; }
    }
    var playerIDs: seq<Id> := [];
    for i := 0 to |s.players|
      invariant |playerIDs| == i && forall j | 0 <= j < i :: playerIDs[j] == s.players[j].playerID
      invariant DistinctPlayers(s.players[..i])
      invariant forall j | 0 <= j < i :: Usable(s.players[j])
    {
      var player := s.players[i];
      if player.playerID.Blank() { return false; }
      if player.artifactRef.Blank() && player.artifactID.Blank() { return false; }
      if player.playerID in playerIDs { return false; }
      playerIDs := playerIDs + [player.playerID];
    }
    assert s.players[..|s.players|] == s.players;
    return true;
  }
}
