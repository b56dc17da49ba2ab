/**
  The echo-count game (internal/games/echo/echo.go): every turn each player has to echo the expected
  number, all at once or one after the other; a score counts the accepted echoes.
*/
module Echo {
  import opened Identifiers
  import opened MatchResults
  import opened Sorting
  import opened GameTypes
  import opened GamePlay
  import opened Placements

  // order holds the number expected at each turn, shuffled by the seed under a seed-aware ruleset.
  datatype Config = Config(players: seq<Id>, mode: Mode, turns: nat, order: seq<int>, seedAware: bool, seed: Id)

  datatype State = State(resolved: int, nextPlayer: int, score: map<Id, int>, lastAction: map<Id, PlayerStatus<int>>)

  // What admission of a ruleset guarantees.
  ghost predicate Playable(cfg: Config) {
    && cfg.players != [] && Distinct(cfg.players) && (cfg.mode.Simultaneous? || cfg.mode.Sequential?)
    && |cfg.order| == cfg.turns && (forall i | 0 <= i < |cfg.order| :: cfg.order[i] > 0)
    && (cfg.seedAware ==> cfg.seed != NO_ID)
  }

  function NewState(cfg: Config): State {
    State(0, 0, map p | p in cfg.players :: 0, map p | p in cfg.players :: NoActionOf<int>(p))
  }

  /** internal/games/echo/echo.go:626-634 */
  function ExpectedAt(order: seq<int>, resolved: int): int
    requires resolved >= 0
  {
    if order == [] then 0 else if resolved < |order| then order[resolved] else order[|order| - 1]
  }

  // ----- One step -----

  // The players a step asks.
  function Asked(cfg: Config, st: State): seq<Id> {
    if cfg.mode.Simultaneous? then cfg.players
    else if 0 <= st.nextPlayer < |cfg.players| then [cfg.players[st.nextPlayer]] else []
  }

  /** internal/games/echo/echo.go:344-366 */
  function Normalize(p: Id, expected: int, s: PlayerStatus<int>): PlayerStatus<int> {
    if !s.verdict.Accepted? then s.(action := Absent)
    else if s.action.Naming? && s.action.move == expected then s
    else PlayerStatus(p, NoAction, IllegalAction, Absent)
  }

  function NormalizeAll(asked: seq<Id>, expected: int, raw: seq<PlayerStatus<int>>): (r: seq<PlayerStatus<int>>)
    requires |raw| == |asked|
  {
    seq(|asked|, i requires 0 <= i < |asked| => Normalize(asked[i], expected, raw[i]))
  }

  lemma NormalizeTwice(p: Id, expected: int, s: PlayerStatus<int>)
    ensures Normalize(p, expected, Normalize(p, expected, s)) == Normalize(p, expected, s)
  {
  }

  // Scores and last statuses after counting statuses in order.
  datatype Tally = Tally(score: map<Id, int>, last: map<Id, PlayerStatus<int>>)

  function Counted(t: Tally, p: Id, s: PlayerStatus<int>): Tally {
    Tally(if s.verdict.Accepted? then t.score[p := (if p in t.score then t.score[p] else 0) + 1] else t.score,
          t.last[p := s])
  }

  function CountAll(t: Tally, statuses: seq<PlayerStatus<int>>): Tally {
    if statuses == [] then t
    else
      var n := |statuses| - 1;
      Counted(CountAll(t, statuses[..n]), statuses[n].playerID, statuses[n])
  }

  // A step in the mode it names; in no known mode the statuses are counted and nothing moves on.
  function AppliedIn(mode: Mode, cfg: Config, st: State, statuses: seq<PlayerStatus<int>>): State {
    var t := CountAll(Tally(st.score, st.lastAction), statuses);
    match mode
    case Simultaneous => State(st.resolved + 1, st.nextPlayer, t.score, t.last)
    case Sequential =>
      if st.nextPlayer + 1 >= |cfg.players| then State(st.resolved + 1, 0, t.score, t.last)
      else State(st.resolved, st.nextPlayer + 1, t.score, t.last)
    case OtherMode => State(st.resolved, st.nextPlayer, t.score, t.last)
  }

  // A step in the mode of the ruleset, in which the master asks for every step.
  function AppliedStep(cfg: Config, st: State, statuses: seq<PlayerStatus<int>>): State {
    AppliedIn(cfg.mode, cfg, st, statuses)
  }

  // ----- A match -----

  // The first k steps are answered as sessions answer: one answer per asked player, named and decided.
  ghost predicate Plays(cfg: Config, steps: seq<seq<PlayerStatus<int>>>, k: nat)
    requires k <= |steps|
    decreases k, 0
  {
    k == 0
    || (Plays(cfg, steps, k - 1) && Played(cfg, steps, k - 1).resolved < cfg.turns
        && SessionAnswers(Asked(cfg, Played(cfg, steps, k - 1)), steps[k - 1]))
  }

  ghost predicate SessionAnswers(asked: seq<Id>, raw: seq<PlayerStatus<int>>) {
    && |raw| == |asked|
    && forall j | 0 <= j < |asked| :: raw[j].playerID == asked[j] && !raw[j].verdict.Unset?
  }

  // The state after the first k steps.
  ghost function Played(cfg: Config, steps: seq<seq<PlayerStatus<int>>>, k: nat): (st: State)
    requires k <= |steps| && Plays(cfg, steps, k)
    ensures st.resolved >= 0
    decreases k, 2
  {
    if k == 0 then NewState(cfg) else AppliedStep(cfg, Played(cfg, steps, k - 1), Given(cfg, steps, k))
  }

  // The normalized statuses of the k-th step.
  ghost function Given(cfg: Config, steps: seq<seq<PlayerStatus<int>>>, k: nat): seq<PlayerStatus<int>>
    requires 0 < k <= |steps| && Plays(cfg, steps, k)
    decreases k, 1
  {
    var st := Played(cfg, steps, k - 1);
    NormalizeAll(Asked(cfg, st), ExpectedAt(cfg.order, st.resolved), steps[k - 1])
  }

  function StepEvents(turn: int, statuses: seq<PlayerStatus<int>>): seq<HistoryEvent<int>> {
    seq(|statuses|, i requires 0 <= i < |statuses| => HistoryEvent(true, turn, statuses[i].playerID, statuses[i], true))
  }

  // The outcomes a runner logs for the first k steps.
  ghost function LogOf(cfg: Config, steps: seq<seq<PlayerStatus<int>>>, k: nat): seq<HistoryEvent<int>>
    requires k <= |steps| && Plays(cfg, steps, k)
  {
    if k == 0 then []
    else LogOf(cfg, steps, k - 1) + StepEvents(Played(cfg, steps, k - 1).resolved + 1, Given(cfg, steps, k))
  }

  lemma {:induction false} PlaysFewer(cfg: Config, steps: seq<seq<PlayerStatus<int>>>, j: nat, k: nat)
    requires j <= k <= |steps| && Plays(cfg, steps, k)
    ensures Plays(cfg, steps, j)
  {
    if j < k { PlaysFewer(cfg, steps, j, k - 1); }
  }

  // One more step of a match.
  lemma PlayedNext(cfg: Config, steps: seq<seq<PlayerStatus<int>>>, k: nat)
    requires 0 < k <= |steps| && Plays(cfg, steps, k - 1) && Played(cfg, steps, k - 1).resolved < cfg.turns
    requires SessionAnswers(Asked(cfg, Played(cfg, steps, k - 1)), steps[k - 1])
    ensures Plays(cfg, steps, k)
    ensures var st := Played(cfg, steps, k - 1);
            var given := NormalizeAll(Asked(cfg, st), ExpectedAt(cfg.order, st.resolved), steps[k - 1]);
            && Played(cfg, steps, k) == AppliedStep(cfg, st, given)
            && LogOf(cfg, steps, k) == LogOf(cfg, steps, k - 1) + StepEvents(st.resolved + 1, given)
  {
    hide CountAll, NormalizeAll, StepEvents, ExpectedAt, Asked;
  }

  lemma PlayedFirst(cfg: Config, steps: seq<seq<PlayerStatus<int>>>)
    ensures Plays(cfg, steps, 0) && Played(cfg, steps, 0) == NewState(cfg) && LogOf(cfg, steps, 0) == []
  {
  }

  // ----- What every match keeps -----

  ghost predicate Kept(cfg: Config, st: State) {
    && 0 <= st.nextPlayer < |cfg.players| && (cfg.mode.Simultaneous? ==> st.nextPlayer == 0)
    && 0 <= st.resolved <= cfg.turns && (st.nextPlayer > 0 ==> st.resolved < cfg.turns)
    && KeptMaps(cfg, Tally(st.score, st.lastAction))
  }

  ghost predicate KeptMaps(cfg: Config, t: Tally) {
    && (forall p :: p in t.score <==> p in cfg.players)
    && (forall p :: p in t.last <==> p in cfg.players)
    && (forall p | p in t.last :: t.last[p].playerID == p && !t.last[p].verdict.Unset?)
  }

  ghost predicate Named(cfg: Config, statuses: seq<PlayerStatus<int>>) {
    forall s | s in statuses :: s.playerID in cfg.players && !s.verdict.Unset?
  }

  lemma {:induction false} CountKept(cfg: Config, t: Tally, statuses: seq<PlayerStatus<int>>)
    requires KeptMaps(cfg, t) && Named(cfg, statuses)
    ensures KeptMaps(cfg, CountAll(t, statuses))
  {
    if statuses != [] {
      var n := |statuses| - 1;
      assert statuses[n] in statuses;
      CountKept(cfg, t, statuses[..n]);
    }
  }

  lemma GivenNamed(cfg: Config, steps: seq<seq<PlayerStatus<int>>>, k: nat)
    requires 0 < k <= |steps| && Plays(cfg, steps, k)
    ensures Named(cfg, Given(cfg, steps, k))
  {
  }

  lemma NewKept(cfg: Config)
    ensures KeptMaps(cfg, Tally(NewState(cfg).score, NewState(cfg).lastAction))
  {
  }

  lemma {:induction false} PlayedKept(cfg: Config, steps: seq<seq<PlayerStatus<int>>>, k: nat)
    requires Playable(cfg) && k <= |steps| && Plays(cfg, steps, k)
    ensures Kept(cfg, Played(cfg, steps, k))
  {
    hide KeptMaps, CountAll, Named, Given;
    if k == 0 {
      NewKept(cfg);
    } else {
      PlayedKept(cfg, steps, k - 1);
      GivenNamed(cfg, steps, k);
      var st := Played(cfg, steps, k - 1);
      CountKept(cfg, Tally(st.score, st.lastAction), Given(cfg, steps, k));
    }
  }

  // ----- Rebuilding from history -----

  // Counting the recorded outcomes up to a turn; one that does not decode or is nobody's is an error.
  function Recounted(cfg: Config, events: seq<HistoryEvent<int>>, targetTurn: int): Option<Tally> {
    if events == [] then Some(Tally(map p | p in cfg.players :: 0, map p | p in cfg.players :: NoActionOf<int>(p)))
    else match Recounted(cfg, events[..|events| - 1], targetTurn)
      case None => None
      case Some(t) =>
        var e := events[|events| - 1];
        if e.turn == 0 || e.turn > targetTurn || !e.recorded then Some(t)
        else if !e.readable || e.playerID !in cfg.players then None
        else Some(Counted(t, e.playerID, Filled(e)))
  }

  lemma {:induction false} RecountBeyond(cfg: Config, a: seq<HistoryEvent<int>>, b: seq<HistoryEvent<int>>, targetTurn: int)
    requires forall e | e in b :: e.turn > targetTurn
    ensures Recounted(cfg, a + b, targetTurn) == Recounted(cfg, a, targetTurn)
  {
    if b == [] {
      assert a + b == a;
    } else {
      var n := |b| - 1;
      assert (a + b)[..|a + b| - 1] == a + b[..n] && (a + b)[|a + b| - 1] == b[n];
      assert b[n] in b;
      RecountBeyond(cfg, a, b[..n], targetTurn);
    }
  }

  lemma {:induction false} RecountStep(
      cfg: Config, log: seq<HistoryEvent<int>>, turn: int, statuses: seq<PlayerStatus<int>>, targetTurn: int, n: nat)
    requires Recounted(cfg, log, targetTurn).Some? && 0 < turn <= targetTurn && Named(cfg, statuses)
    requires n <= |statuses| == |StepEvents(turn, statuses)|
    ensures Recounted(cfg, log + StepEvents(turn, statuses)[..n], targetTurn)
         == Some(CountAll(Recounted(cfg, log, targetTurn).value, statuses[..n]))
  {
    hide Counted, StepEvents;
    if n == 0 {
      assert log + StepEvents(turn, statuses)[..0] == log;
    } else {
      RecountStep(cfg, log, turn, statuses, targetTurn, n - 1);
      LastStepEvent(log, turn, statuses, n);
      assert statuses[..n][..n - 1] == statuses[..n - 1] && statuses[n - 1] in statuses;
    }
  }

  lemma LastStepEvent(log: seq<HistoryEvent<int>>, turn: int, statuses: seq<PlayerStatus<int>>, n: nat)
    requires 0 < n <= |statuses| == |StepEvents(turn, statuses)|
    ensures var events := log + StepEvents(turn, statuses)[..n];
            && events[..|events| - 1] == log + StepEvents(turn, statuses)[..n - 1]
            && events[|events| - 1] == HistoryEvent(true, turn, statuses[n - 1].playerID, statuses[n - 1], true)
  {
  }

  lemma AppliedCounts(cfg: Config, st: State, given: seq<PlayerStatus<int>>)
    ensures var after := AppliedStep(cfg, st, given);
            Tally(after.score, after.lastAction) == CountAll(Tally(st.score, st.lastAction), given)
  {
    hide CountAll;
  }

  lemma PlaysBefore(cfg: Config, steps: seq<seq<PlayerStatus<int>>>, k: nat)
    requires 0 < k <= |steps| && Plays(cfg, steps, k)
    ensures Plays(cfg, steps, k - 1)
  {
    hide Asked, SessionAnswers, Played;
  }

  // What the k-th step adds.
  lemma OneStep(cfg: Config, steps: seq<seq<PlayerStatus<int>>>, k: nat)
    requires 0 < k <= |steps| && Plays(cfg, steps, k - 1) && Plays(cfg, steps, k)
    ensures var st, given := Played(cfg, steps, k - 1), Given(cfg, steps, k);
            && Played(cfg, steps, k) == AppliedStep(cfg, st, given)
            && Tally(Played(cfg, steps, k).score, Played(cfg, steps, k).lastAction)
                 == CountAll(Tally(st.score, st.lastAction), given)
            && LogOf(cfg, steps, k) == LogOf(cfg, steps, k - 1) + StepEvents(st.resolved + 1, given)
            && Named(cfg, given) && st.resolved >= 0
  {
    hide CountAll, Given, Named, StepEvents, AppliedStep, Plays, NewState;
    GivenNamed(cfg, steps, k);
    AppliedCounts(cfg, Played(cfg, steps, k - 1), Given(cfg, steps, k));
  }

  lemma ResolvedGrows(cfg: Config, steps: seq<seq<PlayerStatus<int>>>, k: nat)
    requires Playable(cfg) && 0 < k <= |steps| && Plays(cfg, steps, k)
    ensures var before, st := Played(cfg, steps, k - 1).resolved, Played(cfg, steps, k);
            before <= st.resolved && (st.nextPlayer == 0 ==> before < st.resolved)
  {
    hide CountAll, Given, KeptMaps;
    PlayedKept(cfg, steps, k - 1);
  }

  // While every turn played so far is at most the target, recounting follows the live match.
  lemma {:induction false} RecountFollows(cfg: Config, steps: seq<seq<PlayerStatus<int>>>, k: nat, targetTurn: int)
    requires Playable(cfg) && k <= |steps| && Plays(cfg, steps, k)
    requires k > 0 ==> Played(cfg, steps, k - 1).resolved < targetTurn
    ensures var st := Played(cfg, steps, k);
            Recounted(cfg, LogOf(cfg, steps, k), targetTurn) == Some(Tally(st.score, st.lastAction))
  {
    hide Recounted, CountAll, Named, Given, Played, LogOf, AppliedStep, Plays, StepEvents;
    if k == 0 {
      NothingPlayed(cfg, steps, targetTurn);
    } else {
      PlaysBefore(cfg, steps, k);
      OneStep(cfg, steps, k);
      var st, given := Played(cfg, steps, k - 1), Given(cfg, steps, k);
      if k > 1 {
        PlaysBefore(cfg, steps, k - 1);
        OneStep(cfg, steps, k - 1);
        ResolvedGrows(cfg, steps, k - 1);
      }
      RecountFollows(cfg, steps, k - 1, targetTurn);
      StepEventsAre(st.resolved + 1, given);
      RecountStep(cfg, LogOf(cfg, steps, k - 1), st.resolved + 1, given, targetTurn, |given|);
      assert given[..|given|] == given;
    }
  }

  lemma NothingPlayed(cfg: Config, steps: seq<seq<PlayerStatus<int>>>, targetTurn: int)
    ensures Plays(cfg, steps, 0) && Played(cfg, steps, 0) == NewState(cfg) && LogOf(cfg, steps, 0) == []
    ensures Recounted(cfg, [], targetTurn) == Some(Tally(NewState(cfg).score, NewState(cfg).lastAction))
  {
  }

  lemma StepEventsAre(turn: int, statuses: seq<PlayerStatus<int>>)
    ensures |StepEvents(turn, statuses)| == |statuses|
    ensures StepEvents(turn, statuses)[..|statuses|] == StepEvents(turn, statuses)
    ensures forall e | e in StepEvents(turn, statuses) :: e.turn == turn
  {
  }

  // Later steps belong to later turns.
  lemma {:induction false} LaterEventsBeyond(
      cfg: Config, steps: seq<seq<PlayerStatus<int>>>, j: nat, k: nat, targetTurn: int)
    requires Playable(cfg) && j <= k <= |steps| && Plays(cfg, steps, k) && Plays(cfg, steps, j)
    requires Played(cfg, steps, j).resolved >= targetTurn
    ensures Played(cfg, steps, k).resolved >= targetTurn
    ensures Recounted(cfg, LogOf(cfg, steps, k), targetTurn) == Recounted(cfg, LogOf(cfg, steps, j), targetTurn)
  {
    hide Recounted, Given, Played, LogOf, AppliedStep, CountAll, Named, Plays, StepEvents;
    if j < k {
      PlaysBefore(cfg, steps, k);
      OneStep(cfg, steps, k);
      ResolvedGrows(cfg, steps, k);
      var turn, given := Played(cfg, steps, k - 1).resolved + 1, Given(cfg, steps, k);
      StepEventsAre(turn, given);
      LaterEventsBeyond(cfg, steps, j, k - 1, targetTurn);
      RecountBeyond(cfg, LogOf(cfg, steps, k - 1), StepEvents(turn, given), targetTurn);
    }
  }

  // The turn in which step k is asked has begun with step TurnStart.
  ghost function TurnStart(cfg: Config, steps: seq<seq<PlayerStatus<int>>>, k: nat): (b: nat)
    requires k <= |steps| && Plays(cfg, steps, k)
    ensures b <= k && Plays(cfg, steps, b)
  {
    if k == 0 || Played(cfg, steps, k).nextPlayer == 0 then k else TurnStart(cfg, steps, k - 1)
  }

  lemma {:induction false} TurnStartIsBoundary(cfg: Config, steps: seq<seq<PlayerStatus<int>>>, k: nat)
    requires Playable(cfg) && k <= |steps| && Plays(cfg, steps, k)
    ensures var b := TurnStart(cfg, steps, k);
            && Played(cfg, steps, b).nextPlayer == 0 && Played(cfg, steps, b).resolved == Played(cfg, steps, k).resolved
  {
    hide CountAll, Given, KeptMaps;
    PlayedKept(cfg, steps, k);
    if k > 0 && Played(cfg, steps, k).nextPlayer != 0 {
      PlayedKept(cfg, steps, k - 1);
      TurnStartIsBoundary(cfg, steps, k - 1);
    }
  }

  /**
    At a turn boundary, in both modes, however the match goes on: recounting the log to that turn
    gives exactly the live scores and last statuses.
  */
  lemma HistoryIsLiveAtBoundaries(cfg: Config, steps: seq<seq<PlayerStatus<int>>>, j: nat, k: nat)
    requires Playable(cfg) && j <= k <= |steps| && Plays(cfg, steps, k) && Plays(cfg, steps, j)
    requires Played(cfg, steps, j).nextPlayer == 0
    ensures var st := Played(cfg, steps, j);
            Recounted(cfg, LogOf(cfg, steps, k), st.resolved) == Some(Tally(st.score, st.lastAction))
  {
    hide Recounted, CountAll, Given, Played, LogOf, Plays;
    var st := Played(cfg, steps, j);
    if j > 0 {
      PlaysBefore(cfg, steps, j);
      OneStep(cfg, steps, j);
      ResolvedGrows(cfg, steps, j);
    }
    RecountFollows(cfg, steps, j, st.resolved);
    LaterEventsBeyond(cfg, steps, j, k, st.resolved);
  }

  // ----- Within a turn -----

  ghost predicate Accepting(statuses: seq<PlayerStatus<int>>) { exists s :: s in statuses && s.verdict.Accepted? }

  ghost predicate NoLess(a: map<Id, int>, b: map<Id, int>) {
    a.Keys <= b.Keys && forall p | p in a :: a[p] <= b[p]
  }

  lemma {:induction false} CountGrows(t: Tally, statuses: seq<PlayerStatus<int>>)
    requires forall s | s in statuses :: s.playerID in t.score
    ensures NoLess(t.score, CountAll(t, statuses).score)
    ensures CountAll(t, statuses).score == t.score <==> !Accepting(statuses)
    ensures Accepting(statuses) ==> exists p :: p in t.score && t.score[p] < CountAll(t, statuses).score[p]
  {
    if statuses != [] {
      var n := |statuses| - 1;
      var front, s := statuses[..n], statuses[n];
      assert statuses == front + [s] && s in statuses;
      CountGrows(t, front);
      var mid := CountAll(t, front);
      hide CountAll;
      assert Accepting(statuses) <==> Accepting(front) || s.verdict.Accepted?;
      assert CountAll(t, statuses) == Counted(mid, s.playerID, s) by { CountLast(t, statuses); }
      if s.verdict.Accepted? {
        assert t.score[s.playerID] <= mid.score[s.playerID] < Counted(mid, s.playerID, s).score[s.playerID];
      }
    }
  }

  lemma CountLast(t: Tally, statuses: seq<PlayerStatus<int>>)
    requires statuses != []
    ensures var n := |statuses| - 1;
            CountAll(t, statuses) == Counted(CountAll(t, statuses[..n]), statuses[n].playerID, statuses[n])
  {
  }

  // Some echo was accepted in the steps after b up to k.
  ghost predicate AcceptedSince(cfg: Config, steps: seq<seq<PlayerStatus<int>>>, b: nat, k: nat)
    requires b <= k <= |steps| && Plays(cfg, steps, k)
    decreases k
  {
    b < k && (Accepting(Given(cfg, steps, k)) || AcceptedSince(cfg, steps, b, k - 1))
  }

  ghost predicate ScoredMore(a: map<Id, int>, b: map<Id, int>) {
    exists p :: p in a && p in b && a[p] < b[p]
  }

  lemma {:induction false} ScoreSince(cfg: Config, steps: seq<seq<PlayerStatus<int>>>, b: nat, k: nat)
    requires Playable(cfg) && b <= k <= |steps| && Plays(cfg, steps, k) && Plays(cfg, steps, b)
    ensures var before, after := Played(cfg, steps, b).score, Played(cfg, steps, k).score;
            && NoLess(before, after) && (AcceptedSince(cfg, steps, b, k) <==> ScoredMore(before, after))
            && (!AcceptedSince(cfg, steps, b, k) ==> before == after)
  {
    hide Played, Given, CountAll, AppliedStep, Plays, LogOf, StepEvents, Accepting;
    if b < k {
      PlaysBefore(cfg, steps, k);
      OneStep(cfg, steps, k);
      PlayedKept(cfg, steps, k - 1);
      var st, given := Played(cfg, steps, k - 1), Given(cfg, steps, k);
      ScoreSince(cfg, steps, b, k - 1);
      CountGrows(Tally(st.score, st.lastAction), given);
    }
  }

  /**
    Within a turn of a sequential match the log is recounted to the last whole turn, while the live
    score already counts the turn begun: they agree exactly when that turn has no accepted echo yet.
  */
  lemma HistoryScoreWithinTurn(cfg: Config, steps: seq<seq<PlayerStatus<int>>>, k: nat)
    requires Playable(cfg) && k <= |steps| && Plays(cfg, steps, k)
    ensures var st := Played(cfg, steps, k);
            && Recounted(cfg, LogOf(cfg, steps, k), st.resolved).Some?
            && (Recounted(cfg, LogOf(cfg, steps, k), st.resolved).value.score == st.score
                <==> !AcceptedSince(cfg, steps, TurnStart(cfg, steps, k), k))
  {
    hide Played, LogOf, Recounted, TurnStart, AcceptedSince;
    var b := TurnStart(cfg, steps, k);
    TurnStartIsBoundary(cfg, steps, k);
    HistoryIsLiveAtBoundaries(cfg, steps, b, k);
    ScoreSince(cfg, steps, b, k);
  }

  // ----- Snapshots -----

  // What a snapshot stores; the player whose turn it is within a turn is not stored.
  datatype GameSnapshot = GameSnapshot(
    turn: int, mode: Option<Mode>, expected: int, score: map<Id, int>, seed: Id, order: seq<int>,
    perPlayer: map<Id, PlayerStatus<int>>)

  function SnapshotOf(cfg: Config, turn: int, score: map<Id, int>, perPlayer: map<Id, PlayerStatus<int>>): GameSnapshot
    requires turn >= 0
  {
    GameSnapshot(turn, Some(cfg.mode), ExpectedAt(cfg.order, turn), score,
                 if cfg.seedAware then cfg.seed else NO_ID, if cfg.seedAware then cfg.order else [], perPlayer)
  }

  // The snapshot fits the ruleset, its seed and its expected numbers.
  predicate Fits(cfg: Config, s: GameSnapshot) {
    && (s.mode.Some? ==> s.mode.value == cfg.mode)
    && 0 <= s.turn <= cfg.turns
    && (cfg.seedAware ==> s.seed == cfg.seed && s.seed != NO_ID && (s.order == [] || s.order == cfg.order))
    && (s.expected > 0 ==> s.expected == ExpectedAt(cfg.order, s.turn))
  }

  function Restored(cfg: Config, s: GameSnapshot): Option<State> {
    var players := set p | p in cfg.players;
    if !Fits(cfg, s) || !(s.score.Keys <= players) || !(s.perPlayer.Keys <= players) then None
    else Some(State(s.turn, 0,
                    map p | p in cfg.players :: if p in s.score then s.score[p] else 0,
                    map p | p in cfg.players :: RestoredStatus(s.perPlayer, p)))
  }

  function NoScore(p: Id): int { 0 }

  function NotActed(p: Id): PlayerStatus<int> { NoActionOf(p) }

  // Restoring over a state: its players start anew, what the snapshot tells is put over that.
  function RestoredOver(cfg: Config, st: State, s: GameSnapshot): Option<State> {
    var score := ClearedMap(st.score, cfg.players, NoScore);
    var last := ClearedMap(st.lastAction, cfg.players, NotActed);
    if !Fits(cfg, s) || !(s.score.Keys <= score.Keys) || !(s.perPlayer.Keys <= last.Keys) then None
    else Some(State(s.turn, 0, score + s.score, Told(last, s.perPlayer)))
  }

  lemma RestoredState(cfg: Config, st: State)
    requires Playable(cfg) && Kept(cfg, st)
    ensures Restored(cfg, SnapshotOf(cfg, st.resolved, st.score, st.lastAction)) == Some(st.(nextPlayer := 0))
  {
    hide ExpectedAt, Playable, RestoredStatus;
    assert cfg.seedAware ==> cfg.seed != NO_ID by { SeedKnown(cfg); }
    forall p | p in cfg.players ensures RestoredStatus(st.lastAction, p) == st.lastAction[p] { KeptStatus(cfg, st, p); }
    assert (map p | p in cfg.players :: if p in st.score then st.score[p] else 0) == st.score;
    assert (map p | p in cfg.players :: RestoredStatus(st.lastAction, p)) == st.lastAction;
  }

  lemma SeedKnown(cfg: Config)
    requires Playable(cfg)
    ensures cfg.seedAware ==> cfg.seed != NO_ID
  {
  }

  lemma KeptStatus(cfg: Config, st: State, p: Id)
    requires Kept(cfg, st) && p in cfg.players
    ensures p in st.lastAction && RestoredStatus(st.lastAction, p) == st.lastAction[p]
  {
  }

  /**
    At every point of every match a snapshot restores the state with the turn begun anew. So a match
    resumes as it stood exactly at turn boundaries; within a sequential turn the resumed master asks
    the first player again, where the live one would ask another.
  */
  lemma ResumesExactlyAtBoundaries(cfg: Config, steps: seq<seq<PlayerStatus<int>>>, k: nat)
    requires Playable(cfg) && k <= |steps| && Plays(cfg, steps, k)
    ensures var st := Played(cfg, steps, k);
            var resumed := Restored(cfg, SnapshotOf(cfg, st.resolved, st.score, st.lastAction));
            && resumed.Some? && (resumed.value == st <==> st.nextPlayer == 0)
            && (st.nextPlayer != 0 ==> Asked(cfg, resumed.value) == [cfg.players[0]] != Asked(cfg, st))
  {
    hide Played, Plays, Restored, SnapshotOf, KeptMaps;
    var st := Played(cfg, steps, k);
    PlayedKept(cfg, steps, k);
    RestoredState(cfg, st);
    if st.nextPlayer != 0 { DistinctAt(cfg.players, 0, st.nextPlayer); }
  }

  // A snapshot rebuilt from the log at a turn boundary resumes the live match.
  lemma HistoryResumes(cfg: Config, steps: seq<seq<PlayerStatus<int>>>, j: nat, k: nat)
    requires Playable(cfg) && j <= k <= |steps| && Plays(cfg, steps, k) && Plays(cfg, steps, j)
    requires Played(cfg, steps, j).nextPlayer == 0
    ensures var st := Played(cfg, steps, j);
            var t := Recounted(cfg, LogOf(cfg, steps, k), st.resolved);
            t.Some? && Restored(cfg, SnapshotOf(cfg, st.resolved, t.value.score, t.value.last)) == Some(st)
  {
    hide Played, Plays, Restored, SnapshotOf, KeptMaps, LogOf, Recounted;
    var st := Played(cfg, steps, j);
    HistoryIsLiveAtBoundaries(cfg, steps, j, k);
    PlayedKept(cfg, steps, j);
    RestoredState(cfg, st);
  }

  // ----- The master -----

  function KeyOf(score: map<Id, int>): Id -> Key { p => [if p in score then -score[p] else 0] }

  class Master {
    const cfg: Config
    const names: GameNames
    var resolved: int
    var nextPlayer: int
    var score: map<Id, int>
    var lastAction: map<Id, PlayerStatus<int>>

    ghost function St(): State
      reads this
    {
      State(resolved, nextPlayer, score, lastAction)
    }

    constructor (cfg: Config, names: GameNames)
      ensures this.cfg == cfg && this.names == names && St() == NewState(cfg)
    {
      this.cfg, this.names := cfg, names;
      resolved, nextPlayer := 0, 0;
      score := map p | p in cfg.players :: 0;
      lastAction := map p | p in cfg.players :: NoActionOf<int>(p);
    }

    /** internal/games/echo/echo.go:307-341: the turn, its expected number and the players asked. */
    method NextStep() returns (step: Option<(int, int, seq<Id>)>)
      requires Playable(cfg) && Kept(cfg, St())
      ensures step == if resolved >= cfg.turns then None
                      else Some((resolved + 1, ExpectedAt(cfg.order, resolved), Asked(cfg, St())))
      ensures step.Some? ==> step.value.1 > 0 && step.value.2 != []
    {
      if resolved >= cfg.turns { return None; }
      var expected := ExpectedAt(cfg.order, resolved);
      if cfg.mode.Simultaneous? { return Some((resolved + 1, expected, cfg.players)); }
      return Some((resolved + 1, expected, [cfg.players[nextPlayer]]));
    }

    /** internal/games/echo/echo.go:369-390 */
    method ApplyStep(mode: Mode, statuses: seq<PlayerStatus<int>>) returns (ok: bool)
      modifies this
      ensures ok <==> mode.Simultaneous? || mode.Sequential?
      ensures St() == AppliedIn(mode, cfg, old(St()), statuses)
    {
      hide Counted;
      ghost var start := Tally(score, lastAction);
      for i := 0 to |statuses|
        invariant resolved == old(resolved) && nextPlayer == old(nextPlayer)
        invariant Tally(score, lastAction) == CountAll(start, statuses[..i])
      {
        var s := statuses[i];
        assert statuses[..i + 1][..i] == statuses[..i];
        ghost var before := Tally(score, lastAction);
        lastAction := lastAction[s.playerID := s];
        if s.verdict.Accepted? {
          score := score[s.playerID := (if s.playerID in score then score[s.playerID] else 0) + 1];
        }
        CountedIs(before, s);
      }
      assert statuses[..|statuses|] == statuses;
      match mode {
        case Simultaneous => resolved := resolved + 1;
        case Sequential =>
          nextPlayer := nextPlayer + 1;
          if nextPlayer >= |cfg.players| {
            nextPlayer := 0;
            resolved := resolved + 1;
          }
        case OtherMode => return false;
      }
      return true;
    }

    /** internal/games/echo/echo.go:487-555 */
    method ApplySnapshot(told: GameNames, state: Option<GameSnapshot>) returns (ok: bool)
      modifies this
      ensures ok <==>
                && (told.gameID == NO_ID || told.gameID == names.gameID)
                && (told.gameVersion == NO_ID || told.gameVersion == names.gameVersion)
                && (told.rulesetVersion == NO_ID || told.rulesetVersion == names.rulesetVersion)
                && state.Some? && RestoredOver(cfg, old(St()), state.value).Some?
      ensures ok ==> RestoredOver(cfg, old(St()), state.value) == Some(St())
      ensures !(told.Fits(names) && state.Some? && Fits(cfg, state.value)) ==> St() == old(St())
    {
      hide Fits, Told, ClearedMap;
      if !told.Fits(names) || state.None? { return false; }
      var s := state.value;
      if !Fits(cfg, s) { return false; }
      resolved, nextPlayer := s.turn, 0;
      Clear();
      if !(s.score.Keys <= score.Keys) { return false; }
      score := score + s.score;
      if !(s.perPlayer.Keys <= lastAction.Keys) { return false; }
      TellStatuses(s.perPlayer);
      return true;
    }

    // internal/games/echo/echo.go:533-536
    method Clear()
      modifies `score, `lastAction
      ensures score == ClearedMap(old(score), cfg.players, NoScore)
      ensures lastAction == ClearedMap(old(lastAction), cfg.players, NotActed)
    {
      for i := 0 to |cfg.players|
        invariant score == ClearedMap(old(score), cfg.players[..i], NoScore)
        invariant lastAction == ClearedMap(old(lastAction), cfg.players[..i], NotActed)
      {
        var p := cfg.players[i];
        assert cfg.players[..i + 1][..i] == cfg.players[..i];
        score := score[p := 0];
        lastAction := lastAction[p := NoActionOf(p)];
      }
      assert cfg.players[..|cfg.players|] == cfg.players;
    }

    // internal/games/echo/echo.go:543-553
    method TellStatuses(perPlayer: map<Id, PlayerStatus<int>>)
      requires perPlayer.Keys <= lastAction.Keys
      modifies `lastAction
      ensures lastAction == Told(old(lastAction), perPlayer)
    {
      ghost var untold := lastAction;
      var left := perPlayer.Keys;
      while left != {}
        invariant left <= perPlayer.Keys && lastAction.Keys == untold.Keys
        invariant forall p | p in lastAction ::
                    lastAction[p] == if p in left then untold[p] else ToldStatus(untold, perPlayer, p)
        decreases left
      {
        var p :| p in left;
        left := left - {p};
        var status := perPlayer[p];
        if status.playerID == NO_ID { status := status.(playerID := p); }
        if !status.verdict.Unset? { lastAction := lastAction[p := status]; }
      }
    }

    /** internal/games/echo/echo.go:434-463 */
    method Result() returns (placements: seq<Placement>)
      ensures IsRanking(KeyOf(score), cfg.players, placements)
    {
      placements := Rank(KeyOf(score), cfg.players);
    }
  }

  lemma CountedIs(t: Tally, s: PlayerStatus<int>)
    ensures Counted(t, s.playerID, s)
         == Tally(if !s.verdict.Accepted? then t.score
                  else t.score[s.playerID := (if s.playerID in t.score then t.score[s.playerID] else 0) + 1],
                  t.last[s.playerID := s])
  {
  }

  // On a master that knows its players and nobody else, whatever it has played, restoring forgets it.
  lemma RestoredOverPlayers(cfg: Config, st: State, s: GameSnapshot)
    requires st.score.Keys == st.lastAction.Keys == set p | p in cfg.players
    ensures RestoredOver(cfg, st, s) == Restored(cfg, s)
  {
    hide RestoredStatus, Told, Fits, ClearedMap;
    ClearedAll(st.score, cfg.players, NoScore);
    ClearedAll(st.lastAction, cfg.players, NotActed);
    if Restored(cfg, s).Some? {
      ScoresOver(cfg, ClearedMap(st.score, cfg.players, NoScore), s.score);
      StatusesOver(cfg, ClearedMap(st.lastAction, cfg.players, NotActed), s.perPlayer);
    }
  }

  lemma ScoresOver(cfg: Config, base: map<Id, int>, told: map<Id, int>)
    requires base.Keys == (set p | p in cfg.players) && (forall p | p in base :: base[p] == 0) && told.Keys <= base.Keys
    ensures base + told == map p | p in cfg.players :: if p in told then told[p] else 0
  {
    assert forall p :: p in cfg.players <==> p in base.Keys;
  }

  lemma StatusesOver(cfg: Config, base: map<Id, PlayerStatus<int>>, told: map<Id, PlayerStatus<int>>)
    requires base.Keys == (set p | p in cfg.players) && forall p | p in base :: base[p] == NoActionOf(p)
    ensures Told(base, told) == map p | p in cfg.players :: RestoredStatus(told, p)
  {
    hide RestoredStatus, ToldStatus;
    assert forall p :: p in cfg.players <==> p in base.Keys;
    forall p | p in base ensures ToldStatus(base, told, p) == RestoredStatus(told, p) { ToldIsRestored(base, told, p); }
  }

  // More accepted echoes rank first, and equal scores share a place.
  lemma KeyIsComparator(score: map<Id, int>, a: Id, b: Id)
    requires a in score && b in score
    ensures Placements.Before(KeyOf(score), a, b) <==> score[a] > score[b] || (score[a] == score[b] && a.Less(b))
    ensures KeyOf(score)(a) == KeyOf(score)(b) <==> score[a] == score[b]
  {
    hide Id.Less;
    var k, m := KeyOf(score)(a), KeyOf(score)(b);
    assert k == [-score[a]] && m == [-score[b]] && k[1..] == [] && m[1..] == [];
    assert k == m <==> k[0] == m[0];
    assert !ListLess(k[1..], m[1..]);
    assert ListLess(k, m) <==> k[0] < m[0];
    assert Placements.Before(KeyOf(score), a, b) <==> ListLess(k, m) || (k == m && a.Less(b));
  }

  /** internal/games/echo/echo.go:175-266 */
  method SnapshotFromHistory(cfg: Config, events: seq<HistoryEvent<int>>, targetTurn: int) returns (r: Option<GameSnapshot>)
    ensures r == if (cfg.seedAware && cfg.seed == NO_ID) || targetTurn < 0 || targetTurn > cfg.turns then None
                 else match Recounted(cfg, events, targetTurn)
                      case None => None
                      case Some(t) => Some(SnapshotOf(cfg, targetTurn, t.score, t.last))
  {
    if cfg.seedAware && cfg.seed == NO_ID { return None; }
    if targetTurn < 0 || targetTurn > cfg.turns { return None; }
    var score := map p | p in cfg.players :: 0;
    var perPlayer := map p | p in cfg.players :: NoActionOf<int>(p);
    for i := 0 to |events|
      invariant Recounted(cfg, events[..i], targetTurn) == Some(Tally(score, perPlayer))
      invariant forall p :: p in perPlayer <==> p in cfg.players
      invariant forall p | p in cfg.players :: p in score
    {
      var e := events[i];
      assert events[..i + 1][..i] == events[..i];
      if e.turn == 0 || e.turn > targetTurn || !e.recorded { continue; }
      if !e.readable || e.playerID !in perPlayer {
        RecountFails(cfg, events, targetTurn, i + 1);
        return None;
      }
      perPlayer := perPlayer[e.playerID := Filled(e)];
      if Filled(e).verdict.Accepted? { score := score[e.playerID := score[e.playerID] + 1]; }
    }
    assert events[..|events|] == events;
    return Some(SnapshotOf(cfg, targetTurn, score, perPlayer));
  }

  lemma {:induction false} RecountFails(cfg: Config, events: seq<HistoryEvent<int>>, targetTurn: int, n: nat)
    requires n <= |events| && Recounted(cfg, events[..n], targetTurn).None?
    ensures Recounted(cfg, events, targetTurn).None?
  {
    if n == |events| {
      assert events[..n] == events;
    } else {
      assert events[..|events| - 1][..n] == events[..n];
      RecountFails(cfg, events[..|events| - 1], targetTurn, n);
    }
  }
}
