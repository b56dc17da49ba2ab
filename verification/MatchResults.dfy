/**
  What a finished match comes to (internal/platform/game/game.go).
*/
module MatchResults {
  import opened Identifiers

  datatype TerminalStatus = MatchCompleted | MatchFailed | MatchCanceled

  datatype Placement = Placement(playerID: Id, place: int)
}
