/**
  What the bundled games share: action statuses as a game reads them, and the recorded events that a
  history is rebuilt from.
*/
module GamePlay {
  import opened Identifiers
  import opened GameTypes

  // An action as sent: nothing, a JSON object naming a move with possibly more in it, or other JSON.
  datatype Payload<+A> = Absent | Naming(move: A, extra: Id) | Other(text: Id)

  datatype PlayerStatus<+A> = PlayerStatus(playerID: Id, verdict: Verdict, reason: Reason, action: Payload<A>) {
    // The playable move of an accepted status.
    function Move(): Option<A> {
      if verdict.Accepted? && action.Naming? then Some(action.move) else None
    }
  }

  function NoActionOf<A>(p: Id): PlayerStatus<A> { PlayerStatus(p, NoAction, NoReason, Absent) }

  // The game that a master plays and that a stored snapshot names; an empty name fits any.
  datatype GameNames = GameNames(gameID: Id, gameVersion: Id, rulesetVersion: Id) {
    predicate Fits(own: GameNames) {
      && (gameID == NO_ID || gameID == own.gameID)
      && (gameVersion == NO_ID || gameVersion == own.gameVersion)
      && (rulesetVersion == NO_ID || rulesetVersion == own.rulesetVersion)
    }
  }

  // An event of the log; only recorded outcomes carry a status that a history reads, unless their
  // payload does not decode.
  datatype HistoryEvent<+A> = HistoryEvent(recorded: bool, turn: int, playerID: Id, status: PlayerStatus<A>, readable: bool)

  // A history to the target turn decodes all it looks at.
  ghost predicate Readable<A>(events: seq<HistoryEvent<A>>, targetTurn: int) {
    forall e | e in events && e.recorded && e.turn != 0 && e.turn <= targetTurn :: e.readable
  }

  function Filled<A>(e: HistoryEvent<A>): PlayerStatus<A> {
    if e.status.playerID == NO_ID then e.status.(playerID := e.playerID) else e.status
  }

  // The status a snapshot tells for a player, named if it is not; without one the player has not acted.
  function RestoredStatus<A>(perPlayer: map<Id, PlayerStatus<A>>, p: Id): PlayerStatus<A> {
    if p !in perPlayer || perPlayer[p].verdict.Unset? then NoActionOf(p)
    else if perPlayer[p].playerID == NO_ID then perPlayer[p].(playerID := p)
    else perPlayer[p]
  }

  // The given keys are set anew.
  function ClearedMap<V>(m: map<Id, V>, keys: seq<Id>, value: Id -> V): map<Id, V> {
    if keys == [] then m
    else
      var n := |keys| - 1;
      ClearedMap(m, keys[..n], value)[keys[n] := value(keys[n])]
  }

  lemma {:induction false} ClearedAt<V>(m: map<Id, V>, keys: seq<Id>, value: Id -> V, k: Id)
    ensures k in ClearedMap(m, keys, value) <==> k in m || k in keys
    ensures k in keys ==> ClearedMap(m, keys, value)[k] == value(k)
    ensures k !in keys && k in m ==> ClearedMap(m, keys, value)[k] == m[k]
  {
    if keys != [] {
      var n := |keys| - 1;
      assert keys == keys[..n] + [keys[n]];
      ClearedAt(m, keys[..n], value, k);
    }
  }

  lemma ClearedAll<V>(m: map<Id, V>, keys: seq<Id>, value: Id -> V)
    requires m.Keys == set k | k in keys
    ensures ClearedMap(m, keys, value).Keys == m.Keys
    ensures forall k | k in m :: ClearedMap(m, keys, value)[k] == value(k)
  {
    assert forall k :: k in keys <==> k in m.Keys;
    forall k
      ensures k in ClearedMap(m, keys, value) <==> k in m
      ensures k in m ==> ClearedMap(m, keys, value)[k] == value(k)
    {
      ClearedAt(m, keys, value, k);
    }
  }

  // The status a snapshot tells over another, named if it is not.
  function ToldStatus<A>(untold: map<Id, PlayerStatus<A>>, perPlayer: map<Id, PlayerStatus<A>>, p: Id): PlayerStatus<A>
    requires p in untold
  {
    if p !in perPlayer || perPlayer[p].verdict.Unset? then untold[p]
    else if perPlayer[p].playerID == NO_ID then perPlayer[p].(playerID := p)
    else perPlayer[p]
  }

  function Told<A>(untold: map<Id, PlayerStatus<A>>, perPlayer: map<Id, PlayerStatus<A>>): map<Id, PlayerStatus<A>> {
    map p | p in untold :: ToldStatus(untold, perPlayer, p)
  }

  lemma ToldIsRestored<A>(untold: map<Id, PlayerStatus<A>>, perPlayer: map<Id, PlayerStatus<A>>, p: Id)
    requires p in untold && untold[p] == NoActionOf(p)
    ensures ToldStatus(untold, perPlayer, p) == RestoredStatus(perPlayer, p)
  {
  }
}
