/**
  Rock, paper, scissors for any number of players and rounds (internal/games/janken/janken.go): a
  round is resolved from the answers of all players; a history or a snapshot gives back the state.
*/
module Janken {
  import opened Identifiers
  import opened MatchResults
  import opened Sorting
  import opened GameTypes
  import opened GamePlay
  import opened Placements

  datatype Hand = Rock | Paper | Scissors

  datatype Shown = Unseen | Passed | Show(hand: Hand)

  datatype Outcome = Unset | Win | Loss | Draw

  datatype Score = Score(wins: int, losses: int, draws: int, timeouts: int, invalidActions: int)

  const ZERO := Score(0, 0, 0, 0, 0)

  datatype SelfRound = SelfRound(round: int, action: Shown, result: Outcome)

  datatype PublicRound = PublicRound(round: int, actions: map<Id, Shown>, results: map<Id, Outcome>)

  datatype Config = Config(players: seq<Id>, rounds: nat)

  datatype State = State(
    resolved: int,
    scores: map<Id, Score>,
    selfHistory: map<Id, seq<SelfRound>>,
    publicHistory: seq<PublicRound>,
    lastAction: map<Id, PlayerStatus<Hand>>)

  // ----- Who wins a round -----

  predicate Beats(a: Hand, b: Hand) {
    (a.Rock? && b.Scissors?) || (a.Scissors? && b.Paper?) || (a.Paper? && b.Rock?)
  }

  function WinningAction(choices: set<Hand>): Hand {
    if Rock in choices && Scissors in choices then Rock
    else if Scissors in choices && Paper in choices then Scissors
    else Paper
  }

  function Choices(valid: map<Id, Hand>): set<Hand> { set p | p in valid :: valid[p] }

  function Resolved(valid: map<Id, Hand>): map<Id, Outcome> {
    var choices := Choices(valid);
    map p | p in valid ::
      if |choices| == 1 || |choices| == 3 then Draw else if valid[p] == WinningAction(choices) then Win else Loss
  }

  /** internal/games/janken/janken.go:546-571 */
  method ResolveValidOutcomes(valid: map<Id, Hand>) returns (outcomes: map<Id, Outcome>)
    ensures outcomes == Resolved(valid)
  {
    outcomes := map[];
    var choices: set<Hand> := {};
    var left := valid.Keys;
    while left != {}
      invariant left <= valid.Keys
      invariant forall p | p in valid && p !in left :: valid[p] in choices
      invariant forall choice | choice in choices :: exists p :: p in valid && valid[p] == choice
      decreases left
    {
      var p :| p in left;
      choices := choices + {valid[p]};
      left := left - {p};
    }
    assert choices == Choices(valid);
    if |valid| == 0 { return; }
    left := valid.Keys;
    if |choices| == 1 || |choices| == 3 {
      while left != {}
        invariant left <= valid.Keys && outcomes.Keys == valid.Keys - left
        invariant forall p | p in outcomes :: outcomes[p] == Draw
        decreases left
      {
        var p :| p in left;
        outcomes := outcomes[p := Draw];
        left := left - {p};
      }
      return;
    }
    var winning := WinningAction(choices);
    while left != {}
      invariant left <= valid.Keys && outcomes.Keys == valid.Keys - left
      invariant forall p | p in outcomes :: outcomes[p] == if valid[p] == winning then Win else Loss
      decreases left
    {
      var p :| p in left;
      outcomes := outcomes[p := if valid[p] == winning then Win else Loss];
      left := left - {p};
    }
  }

  ghost predicate BeatsSomeone(valid: map<Id, Hand>, p: Id)
    requires p in valid
  {
    exists q :: q in valid && Beats(valid[p], valid[q])
  }

  ghost predicate BeatenBySomeone(valid: map<Id, Hand>, p: Id)
    requires p in valid
  {
    exists q :: q in valid && Beats(valid[q], valid[p])
  }

  lemma ChoiceHeld(valid: map<Id, Hand>, hand: Hand)
    ensures hand in Choices(valid) <==> exists q :: q in valid && valid[q] == hand
  {
  }

  function HandsOf(r: bool, p: bool, s: bool): set<Hand> {
    (if r then {Rock} else {}) + (if p then {Paper} else {}) + (if s then {Scissors} else {})
  }

  lemma HandsCounted(choices: set<Hand>)
    ensures var r, p, s := Rock in choices, Paper in choices, Scissors in choices;
            && (|choices| == 3 <==> r && p && s)
            && (|choices| == 1 <==> (r && !p && !s) || (!r && p && !s) || (!r && !p && s))
  {
    var r, p, s := Rock in choices, Paper in choices, Scissors in choices;
    assert choices == HandsOf(r, p, s) by {
      forall h: Hand ensures h in choices <==> h in HandsOf(r, p, s) {
        match h case Rock => case Paper => case Scissors =>
      }
    }
    HandsSize(r, p, s);
  }

  lemma HandsSize(r: bool, p: bool, s: bool)
    ensures |HandsOf(r, p, s)| == (if r then 1 else 0) + (if p then 1 else 0) + (if s then 1 else 0)
  {
    var a, b, c := if r then {Rock} else {}, if p then {Paper} else {}, if s then {Scissors} else {};
    assert |a + b| == |a| + |b|;
    assert |a + b + c| == |a + b| + |c|;
  }

  // A player wins exactly by beating someone and being beaten by no one, loses exactly by being
  // beaten and beating no one, and draws otherwise, however many play.
  lemma RoundOutcome(valid: map<Id, Hand>, p: Id)
    requires p in valid
    ensures Resolved(valid)[p] ==
            if BeatsSomeone(valid, p) && !BeatenBySomeone(valid, p) then Win
            else if BeatenBySomeone(valid, p) && !BeatsSomeone(valid, p) then Loss
            else Draw
  {
    var choices := Choices(valid);
    HandsCounted(choices);
    assert valid[p] in choices;
    forall q | q in valid ensures valid[q] in choices {}
    var loser := match valid[p] case Rock => Scissors case Scissors => Paper case Paper => Rock;
    var winner := match valid[p] case Rock => Paper case Scissors => Rock case Paper => Scissors;
    ChoiceHeld(valid, loser);
    ChoiceHeld(valid, winner);
    assert BeatsSomeone(valid, p) <==> loser in choices;
    assert BeatenBySomeone(valid, p) <==> winner in choices;
    hide Choices, BeatsSomeone, BeatenBySomeone, Beats;
  }

  // ----- One round -----

  function NewState(cfg: Config): State {
    State(0, map p | p in cfg.players :: ZERO, map p | p in cfg.players :: [], [],
          map p | p in cfg.players :: NoActionOf<Hand>(p))
  }

  function ShownOf(s: PlayerStatus<Hand>): Shown {
    match s.Move() case Some(hand) => Show(hand) case None => Passed
  }

  function ScoreAt(scores: map<Id, Score>, p: Id): Score { if p in scores then scores[p] else ZERO }

  function Bumped(score: Score, reason: Reason): Score {
    match reason
    case Timeout => score.(timeouts := score.timeouts + 1)
    case IllegalAction => score.(invalidActions := score.invalidActions + 1)
    case _ => score
  }

  function Awarded(score: Score, outcome: Outcome): Score {
    match outcome
    case Win => score.(wins := score.wins + 1)
    case Draw => score.(draws := score.draws + 1)
    case _ => score.(losses := score.losses + 1)
  }

  // What the statuses say, each map filled in the order given.
  datatype Tally = Tally(
    last: map<Id, PlayerStatus<Hand>>,
    actions: map<Id, Shown>,
    losers: map<Id, Outcome>,
    valid: map<Id, Hand>,
    scores: map<Id, Score>)

  function Counted(t: Tally, s: PlayerStatus<Hand>): Tally {
    Tally(
      t.last[s.playerID := s],
      t.actions[s.playerID := ShownOf(s)],
      if s.Move().None? then t.losers[s.playerID := Loss] else t.losers,
      if s.Move().Some? then t.valid[s.playerID := s.Move().value] else t.valid,
      t.scores[s.playerID := Bumped(ScoreAt(t.scores, s.playerID), s.reason)])
  }

  function CountAll(t: Tally, statuses: seq<PlayerStatus<Hand>>): Tally {
    if statuses == [] then t
    else Counted(CountAll(t, statuses[..|statuses| - 1]), statuses[|statuses| - 1])
  }

  function Uncounted(st: State): Tally { Tally(st.lastAction, map[], map[], map[], st.scores) }

  function OutcomesOf(t: Tally): map<Id, Outcome> { t.losers + Resolved(t.valid) }

  function OutcomeAt(outcomes: map<Id, Outcome>, p: Id): Outcome { if p in outcomes then outcomes[p] else Outcome.Unset }

  function ShownAt(actions: map<Id, Shown>, p: Id): Shown { if p in actions then actions[p] else Unseen }

  function HistoryAt(histories: map<Id, seq<SelfRound>>, p: Id): seq<SelfRound> {
    if p in histories then histories[p] else []
  }

  // The scores after awarding every player the outcome.
  function AwardAll(scores: map<Id, Score>, players: seq<Id>, outcomes: map<Id, Outcome>): map<Id, Score> {
    if players == [] then scores
    else
      var p, front := players[|players| - 1], AwardAll(scores, players[..|players| - 1], outcomes);
      front[p := Awarded(ScoreAt(front, p), OutcomeAt(outcomes, p))]
  }

  function NoteAll(
      histories: map<Id, seq<SelfRound>>, players: seq<Id>, turn: int, actions: map<Id, Shown>, outcomes: map<Id, Outcome>)
      : map<Id, seq<SelfRound>>
  {
    if players == [] then histories
    else
      var p, front := players[|players| - 1], NoteAll(histories, players[..|players| - 1], turn, actions, outcomes);
      front[p := HistoryAt(front, p) + [SelfRound(turn, ShownAt(actions, p), OutcomeAt(outcomes, p))]]
  }

  function AppliedRound(cfg: Config, st: State, turn: int, statuses: seq<PlayerStatus<Hand>>): State {
    var t := CountAll(Uncounted(st), statuses);
    var outcomes := OutcomesOf(t);
    State(st.resolved + 1,
          AwardAll(t.scores, cfg.players, outcomes),
          NoteAll(st.selfHistory, cfg.players, turn, t.actions, outcomes),
          st.publicHistory + [PublicRound(turn, t.actions, outcomes)],
          t.last)
  }

  // ----- Answers -----

  /** internal/games/janken/janken.go:312-329 */
  function Normalize(p: Id, s: PlayerStatus<Hand>): PlayerStatus<Hand> {
    if !s.verdict.Accepted? then s.(action := Absent)
    else match s.action
      case Naming(hand, _) => s.(action := Naming(hand, NO_ID))
      case _ => PlayerStatus(p, Verdict.NoAction, IllegalAction, Absent)
  }

  function NormalizeAll(players: seq<Id>, raw: seq<PlayerStatus<Hand>>): (r: seq<PlayerStatus<Hand>>)
    requires |raw| == |players|
  {
    seq(|players|, i requires 0 <= i < |players| => Normalize(players[i], raw[i]))
  }

  lemma NormalizeTwice(p: Id, s: PlayerStatus<Hand>)
    ensures Normalize(p, Normalize(p, s)) == Normalize(p, s)
  {
  }

  // ----- A match and its history -----

  // The state after the given rounds of raw answers, one per player and round.
  ghost predicate Answers(cfg: Config, rounds: seq<seq<PlayerStatus<Hand>>>) {
    |rounds| <= cfg.rounds && forall i | 0 <= i < |rounds| :: |rounds[i]| == |cfg.players|
  }

  ghost function Played(cfg: Config, rounds: seq<seq<PlayerStatus<Hand>>>): State
    requires Answers(cfg, rounds)
  {
    if rounds == [] then NewState(cfg)
    else
      var n := |rounds| - 1;
      AppliedRound(cfg, Played(cfg, rounds[..n]), n + 1, NormalizeAll(cfg.players, rounds[n]))
  }

  // The last recorded status of a player in a turn.
  function RecordedStatus(events: seq<HistoryEvent<Hand>>, turn: int, p: Id): Option<PlayerStatus<Hand>> {
    if events == [] then None
    else
      var e := events[|events| - 1];
      if e.recorded && e.turn == turn && e.playerID == p then Some(Filled(e))
      else RecordedStatus(events[..|events| - 1], turn, p)
  }

  function ReplayedAnswer(events: seq<HistoryEvent<Hand>>, turn: int, p: Id): PlayerStatus<Hand> {
    Normalize(p, match RecordedStatus(events, turn, p) case Some(s) => s case None => NoActionOf(p))
  }

  function ReplayedAnswers(cfg: Config, events: seq<HistoryEvent<Hand>>, turn: int): seq<PlayerStatus<Hand>> {
    seq(|cfg.players|, i requires 0 <= i < |cfg.players| => ReplayedAnswer(events, turn, cfg.players[i]))
  }

  function Rebuilt(cfg: Config, events: seq<HistoryEvent<Hand>>, turns: nat): State {
    if turns == 0 then NewState(cfg)
    else AppliedRound(cfg, Rebuilt(cfg, events, turns - 1), turns, ReplayedAnswers(cfg, events, turns))
  }

  // The log records, for every round and player, the normalized answer.
  ghost predicate Records(cfg: Config, rounds: seq<seq<PlayerStatus<Hand>>>, events: seq<HistoryEvent<Hand>>)
    requires Answers(cfg, rounds)
  {
    forall i, j | 0 <= i < |rounds| && 0 <= j < |cfg.players| ::
      RecordedStatus(events, i + 1, cfg.players[j]) == Some(Normalize(cfg.players[j], rounds[i][j]))
  }

  // A history rebuilt to turn t is the live state after t rounds.
  lemma {:induction false} HistoryIsLive(
      cfg: Config, rounds: seq<seq<PlayerStatus<Hand>>>, events: seq<HistoryEvent<Hand>>, t: nat)
    requires Answers(cfg, rounds) && Records(cfg, rounds, events) && t <= |rounds|
    ensures Rebuilt(cfg, events, t) == Played(cfg, rounds[..t])
  {
    hide AppliedRound, Normalize;
    if t > 0 {
      HistoryIsLive(cfg, rounds, events, t - 1);
      assert rounds[..t][..t - 1] == rounds[..t - 1];
      forall j | 0 <= j < |cfg.players|
        ensures ReplayedAnswer(events, t, cfg.players[j]) == Normalize(cfg.players[j], rounds[t - 1][j])
      {
        assert RecordedStatus(events, t - 1 + 1, cfg.players[j]) == Some(Normalize(cfg.players[j], rounds[t - 1][j]));
        NormalizeTwice(cfg.players[j], rounds[t - 1][j]);
      }
      assert ReplayedAnswers(cfg, events, t) == NormalizeAll(cfg.players, rounds[t - 1]);
    }
  }

  // ----- A log that records the answers -----

  // One outcome per player and round, in order, named by the player it is about.
  function RoundEvents(players: seq<Id>, turn: int, statuses: seq<PlayerStatus<Hand>>): seq<HistoryEvent<Hand>>
    requires |statuses| == |players|
  {
    seq(|players|, i requires 0 <= i < |players| => HistoryEvent(true, turn, players[i], statuses[i], true))
  }

  ghost function LogOf(cfg: Config, rounds: seq<seq<PlayerStatus<Hand>>>): seq<HistoryEvent<Hand>>
    requires Answers(cfg, rounds)
  {
    if rounds == [] then []
    else
      var n := |rounds| - 1;
      LogOf(cfg, rounds[..n]) + RoundEvents(cfg.players, n + 1, NormalizeAll(cfg.players, rounds[n]))
  }

  lemma {:induction false} RecordedInPrefix(a: seq<HistoryEvent<Hand>>, b: seq<HistoryEvent<Hand>>, turn: int, p: Id)
    requires forall e | e in b :: !(e.recorded && e.turn == turn && e.playerID == p)
    ensures RecordedStatus(a + b, turn, p) == RecordedStatus(a, turn, p)
  {
    if b == [] {
      assert a + b == a;
    } else {
      var n := |b| - 1;
      assert (a + b)[..|a + b| - 1] == a + b[..n] && (a + b)[|a + b| - 1] == b[n];
      assert b[n] in b;
      RecordedInPrefix(a, b[..n], turn, p);
    }
  }

  lemma RecordedHere(log: seq<HistoryEvent<Hand>>, players: seq<Id>, turn: int, statuses: seq<PlayerStatus<Hand>>, j: nat)
    requires Distinct(players) && |statuses| == |players| && j < |players| && statuses[j].playerID == players[j]
    ensures RecordedStatus(log + RoundEvents(players, turn, statuses), turn, players[j]) == Some(statuses[j])
  {
    var events := RoundEvents(players, turn, statuses);
    var front, back := log + events[..j], events[j + 1..];
    assert log + events == front + [events[j]] + back;
    forall e | e in back ensures e.playerID != players[j] {
      var k :| 0 <= k < |back| && back[k] == e;
      DistinctAt(players, j, j + 1 + k);
    }
    RecordedInPrefix(front + [events[j]], back, turn, players[j]);
    assert (front + [events[j]])[..|front|] == front;
  }

  ghost predicate NamedAnswers(cfg: Config, rounds: seq<seq<PlayerStatus<Hand>>>)
    requires Answers(cfg, rounds)
  {
    forall i, j | 0 <= i < |rounds| && 0 <= j < |cfg.players| :: rounds[i][j].playerID == cfg.players[j]
  }

  // The runner's log of a match records it.
  lemma {:induction false} LogRecords(cfg: Config, rounds: seq<seq<PlayerStatus<Hand>>>)
    requires Distinct(cfg.players) && Answers(cfg, rounds) && NamedAnswers(cfg, rounds)
    ensures Records(cfg, rounds, LogOf(cfg, rounds))
  {
    if rounds != [] {
      var n := |rounds| - 1;
      LogRecords(cfg, rounds[..n]);
      hide RecordedStatus, Normalize, Records, LogOf, NamedAnswers;
      forall i, j | 0 <= i < |rounds| && 0 <= j < |cfg.players|
        ensures RecordedStatus(LogOf(cfg, rounds), i + 1, cfg.players[j]) == Some(Normalize(cfg.players[j], rounds[i][j]))
      {
        RecordedRound(cfg, rounds, i, j);
      }
      AllRecorded(cfg, rounds);
    } else { assert Records(cfg, rounds, LogOf(cfg, rounds)); }
  }

  lemma AllRecorded(cfg: Config, rounds: seq<seq<PlayerStatus<Hand>>>)
    requires Answers(cfg, rounds)
    requires forall i, j | 0 <= i < |rounds| && 0 <= j < |cfg.players| ::
               RecordedStatus(LogOf(cfg, rounds), i + 1, cfg.players[j]) == Some(Normalize(cfg.players[j], rounds[i][j]))
    ensures Records(cfg, rounds, LogOf(cfg, rounds))
  {
  }

  lemma RoundTurns(players: seq<Id>, turn: int, statuses: seq<PlayerStatus<Hand>>)
    requires |statuses| == |players|
    ensures forall e | e in RoundEvents(players, turn, statuses) :: e.turn == turn
  {
  }

  lemma NormalizeNames(p: Id, raw: PlayerStatus<Hand>)
    ensures raw.playerID == p ==> Normalize(p, raw).playerID == p
  {
  }

  lemma RecordedRound(cfg: Config, rounds: seq<seq<PlayerStatus<Hand>>>, i: nat, j: nat)
    requires Distinct(cfg.players) && Answers(cfg, rounds) && NamedAnswers(cfg, rounds)
    requires i < |rounds| && j < |cfg.players|
    requires Records(cfg, rounds[..|rounds| - 1], LogOf(cfg, rounds[..|rounds| - 1]))
    ensures RecordedStatus(LogOf(cfg, rounds), i + 1, cfg.players[j]) == Some(Normalize(cfg.players[j], rounds[i][j]))
  {
    hide RecordedStatus, RoundEvents, Normalize;
    var n := |rounds| - 1;
    var log, statuses := LogOf(cfg, rounds[..n]), NormalizeAll(cfg.players, rounds[n]);
    RoundTurns(cfg.players, n + 1, statuses);
    NormalizeNames(cfg.players[j], rounds[n][j]);
    if i < n {
      RecordedInPrefix(log, RoundEvents(cfg.players, n + 1, statuses), i + 1, cfg.players[j]);
      assert rounds[..n][i] == rounds[i];
    } else {
      assert rounds[n][j].playerID == cfg.players[j];
      RecordedHere(log, cfg.players, n + 1, statuses, j);
    }
  }

  // ----- What every match keeps -----

  // Answers as sessions give them: named by the player, decided, and with a reason only when refused.
  ghost predicate SessionAnswers(cfg: Config, rounds: seq<seq<PlayerStatus<Hand>>>)
    requires Answers(cfg, rounds)
  {
    && Distinct(cfg.players) && NamedAnswers(cfg, rounds)
    && forall i, j | 0 <= i < |rounds| && 0 <= j < |cfg.players| ::
         !rounds[i][j].verdict.Unset? && (rounds[i][j].verdict.Accepted? ==> rounds[i][j].reason.NoReason?)
  }

  // One status per player, in player order.
  ghost predicate Matched(players: seq<Id>, statuses: seq<PlayerStatus<Hand>>) {
    Distinct(players) && |statuses| == |players| && forall j | 0 <= j < |players| :: statuses[j].playerID == players[j]
  }

  // And each of them normalized from an answer of the player's session.
  ghost predicate OnePerPlayer(players: seq<Id>, statuses: seq<PlayerStatus<Hand>>) {
    && Matched(players, statuses)
    && forall j | 0 <= j < |players| ::
         && statuses[j].playerID == players[j] && !statuses[j].verdict.Unset?
         && (statuses[j].Move().Some? ==> statuses[j].reason.NoReason?)
  }

  lemma NormalizedOnePerPlayer(cfg: Config, rounds: seq<seq<PlayerStatus<Hand>>>, i: nat)
    requires Answers(cfg, rounds) && SessionAnswers(cfg, rounds) && i < |rounds|
    ensures OnePerPlayer(cfg.players, NormalizeAll(cfg.players, rounds[i]))
  {
    forall j | 0 <= j < |cfg.players|
      ensures var s := Normalize(cfg.players[j], rounds[i][j]);
              s.playerID == cfg.players[j] && !s.verdict.Unset? && (s.Move().Some? ==> s.reason.NoReason?)
    {
      assert rounds[i][j].playerID == cfg.players[j] && !rounds[i][j].verdict.Unset?;
    }
  }

  // After counting the first n statuses: their players have been counted once, nobody else has.
  ghost predicate CountedTo(t: Tally, t': Tally, players: seq<Id>, statuses: seq<PlayerStatus<Hand>>, n: nat)
    requires n <= |players| == |statuses|
  {
    && (forall j | 0 <= j < n :: CountedAt(t, t', players[j], statuses[j]))
    && (forall p | p !in players[..n] :: SameAt(t, t', p))
  }

  ghost predicate CountedAt(t: Tally, t': Tally, p: Id, s: PlayerStatus<Hand>) {
    && p in t'.last && t'.last[p] == s
    && p in t'.actions && t'.actions[p] == ShownOf(s)
    && (s.Move().None? ==> p in t'.losers && t'.losers[p] == Loss && (p in t'.valid <==> p in t.valid))
    && (s.Move().Some? ==> p in t'.valid && t'.valid[p] == s.Move().value && (p in t'.losers <==> p in t.losers))
    && p in t'.scores && t'.scores[p] == Bumped(ScoreAt(t.scores, p), s.reason)
  }

  ghost predicate SameAt(t: Tally, t': Tally, p: Id) {
    && (p in t'.last <==> p in t.last) && (p in t.last ==> t'.last[p] == t.last[p])
    && (p in t'.actions <==> p in t.actions) && (p in t'.losers <==> p in t.losers)
    && (p in t'.valid <==> p in t.valid) && (p in t.valid ==> t'.valid[p] == t.valid[p])
    && (p in t'.scores <==> p in t.scores) && (p in t.scores ==> t'.scores[p] == t.scores[p])
  }

  lemma CountedOther(t: Tally, t': Tally, p: Id, s: PlayerStatus<Hand>, next: PlayerStatus<Hand>)
    requires CountedAt(t, t', p, s) && next.playerID != p
    ensures CountedAt(t, Counted(t', next), p, s)
  {
  }

  lemma CountedFirst(t: Tally, t': Tally, s: PlayerStatus<Hand>)
    requires SameAt(t, t', s.playerID)
    ensures CountedAt(t, Counted(t', s), s.playerID, s)
  {
  }

  lemma SameOther(t: Tally, t': Tally, p: Id, next: PlayerStatus<Hand>)
    requires SameAt(t, t', p) && next.playerID != p
    ensures SameAt(t, Counted(t', next), p)
  {
  }

  lemma {:induction false} CountAllAt(t: Tally, players: seq<Id>, statuses: seq<PlayerStatus<Hand>>, n: nat)
    requires Matched(players, statuses) && n <= |players|
    ensures CountedTo(t, CountAll(t, statuses[..n]), players, statuses, n)
  {
    hide Counted, CountedAt, SameAt;
    if n == 0 {
      forall p ensures SameAt(t, t, p) { NothingCounted(t, p); }
    } else {
      CountAllAt(t, players, statuses, n - 1);
      assert statuses[..n][..n - 1] == statuses[..n - 1];
      var t1, s := CountAll(t, statuses[..n - 1]), statuses[n - 1];
      assert CountAll(t, statuses[..n]) == Counted(t1, s);
      hide CountAll;
      forall j | 0 <= j < n - 1 ensures CountedAt(t, Counted(t1, s), players[j], statuses[j]) {
        DistinctAt(players, j, n - 1);
        CountedOther(t, t1, players[j], statuses[j], s);
      }
      assert players[n - 1] !in players[..n - 1] by {
        forall j | 0 <= j < n - 1 ensures players[j] != players[n - 1] { DistinctAt(players, j, n - 1); }
      }
      CountedFirst(t, t1, s);
      assert players[..n] == players[..n - 1] + [players[n - 1]];
      forall p | p !in players[..n] ensures SameAt(t, Counted(t1, s), p) { SameOther(t, t1, p, s); }
    }
  }

  lemma NothingCounted(t: Tally, p: Id)
    ensures SameAt(t, t, p)
  {
  }

  lemma {:induction false} AwardedOther(scores: map<Id, Score>, players: seq<Id>, outcomes: map<Id, Outcome>, p: Id)
    ensures var r := AwardAll(scores, players, outcomes);
            && (p in r <==> p in scores || p in players)
            && (p !in players && p in scores ==> r[p] == scores[p])
  {
    hide Awarded;
    if players != [] {
      var n := |players| - 1;
      AwardedOther(scores, players[..n], outcomes, p);
      assert players == players[..n] + [players[n]];
    }
  }

  lemma {:induction false} AwardedAt(scores: map<Id, Score>, players: seq<Id>, outcomes: map<Id, Outcome>, j: nat)
    requires Distinct(players) && j < |players|
    ensures var r, p := AwardAll(scores, players, outcomes), players[j];
            p in r && r[p] == Awarded(ScoreAt(scores, p), OutcomeAt(outcomes, p))
  {
    hide Awarded;
    var n := |players| - 1;
    assert players == players[..n] + [players[n]];
    DistinctAppend(players[..n], [players[n]]);
    if j == n {
      AwardedOther(scores, players[..n], outcomes, players[n]);
    } else {
      AwardedAt(scores, players[..n], outcomes, j);
    }
  }

  lemma {:induction false} NotedOther(
      histories: map<Id, seq<SelfRound>>, players: seq<Id>, turn: int, actions: map<Id, Shown>,
      outcomes: map<Id, Outcome>, p: Id)
    ensures var r := NoteAll(histories, players, turn, actions, outcomes);
            && (p in r <==> p in histories || p in players)
            && (p !in players && p in histories ==> r[p] == histories[p])
  {
    hide ShownAt, OutcomeAt;
    if players != [] {
      var n := |players| - 1;
      NotedOther(histories, players[..n], turn, actions, outcomes, p);
      assert players == players[..n] + [players[n]];
    }
  }

  lemma {:induction false} NotedAt(
      histories: map<Id, seq<SelfRound>>, players: seq<Id>, turn: int, actions: map<Id, Shown>,
      outcomes: map<Id, Outcome>, j: nat)
    requires Distinct(players) && j < |players|
    ensures var r, p := NoteAll(histories, players, turn, actions, outcomes), players[j];
            p in r && r[p] == HistoryAt(histories, p) + [SelfRound(turn, ShownAt(actions, p), OutcomeAt(outcomes, p))]
  {
    hide ShownAt, OutcomeAt;
    var n := |players| - 1;
    assert players == players[..n] + [players[n]];
    DistinctAppend(players[..n], [players[n]]);
    if j == n {
      NotedOther(histories, players[..n], turn, actions, outcomes, players[n]);
    } else {
      NotedAt(histories, players[..n], turn, actions, outcomes, j);
    }
  }

  // Everything is about the players, decided rounds are shared out, and each refusal is a loss.
  ghost predicate Balanced(cfg: Config, st: State) {
    && st.resolved >= 0 && |st.publicHistory| == st.resolved
    && (forall p :: p in st.scores <==> p in cfg.players)
    && (forall p :: p in st.selfHistory <==> p in cfg.players)
    && (forall p :: p in st.lastAction <==> p in cfg.players)
    && (forall p | p in cfg.players :: BalancedFor(st, p))
  }

  ghost predicate BalancedFor(st: State, p: Id) {
    && p in st.scores && p in st.selfHistory && p in st.lastAction
    && st.scores[p].wins + st.scores[p].losses + st.scores[p].draws == st.resolved
    && st.scores[p].timeouts + st.scores[p].invalidActions <= st.scores[p].losses
    && |st.selfHistory[p]| == st.resolved
    && st.lastAction[p].playerID == p && !st.lastAction[p].verdict.Unset?
  }

  lemma OneAwarded(before: Score, s: PlayerStatus<Hand>, outcome: Outcome)
    requires s.Move().None? ==> outcome == Loss
    requires s.Move().Some? ==> s.reason.NoReason?
    ensures var after := Awarded(Bumped(before, s.reason), outcome);
            && after.wins + after.losses + after.draws == before.wins + before.losses + before.draws + 1
            && (before.timeouts + before.invalidActions <= before.losses ==>
                  after.timeouts + after.invalidActions <= after.losses)
  {
  }

  lemma OutcomeDecided(t: Tally, p: Id, s: PlayerStatus<Hand>, t0: Tally)
    requires CountedAt(t0, t, p, s) && t0.valid == map[]
    ensures s.Move().None? ==> OutcomeAt(OutcomesOf(t), p) == Loss
  {
  }

  // One round as one player sees it.
  lemma RoundAt(cfg: Config, st: State, turn: int, statuses: seq<PlayerStatus<Hand>>, j: nat)
    requires Balanced(cfg, st) && OnePerPlayer(cfg.players, statuses) && j < |cfg.players|
    ensures var st', p, s := AppliedRound(cfg, st, turn, statuses), cfg.players[j], statuses[j];
            var outcome := OutcomeAt(OutcomesOf(CountAll(Uncounted(st), statuses)), p);
            && p in st.scores && p in st'.scores && st'.scores[p] == Awarded(Bumped(st.scores[p], s.reason), outcome)
            && p in st.selfHistory && p in st'.selfHistory && |st'.selfHistory[p]| == |st.selfHistory[p]| + 1
            && p in st'.lastAction && st'.lastAction[p] == s
            && (s.Move().None? ==> outcome == Loss)
  {
    var t, p, s := CountAll(Uncounted(st), statuses), cfg.players[j], statuses[j];
    var n := |cfg.players|;
    assert statuses[..n] == statuses;
    CountAllAt(Uncounted(st), cfg.players, statuses, n);
    assert CountedAt(Uncounted(st), t, p, s);
    OutcomeDecided(t, p, s, Uncounted(st));
    assert p in cfg.players && BalancedFor(st, p);
    hide CountAll, OutcomesOf, CountedTo, Awarded, Bumped, AwardAll, NoteAll, OutcomeAt, ShownAt, Balanced, OnePerPlayer;
    AwardedAt(t.scores, cfg.players, OutcomesOf(t), j);
    NotedAt(st.selfHistory, cfg.players, turn, t.actions, OutcomesOf(t), j);
  }

  lemma RoundBalancedFor(cfg: Config, st: State, turn: int, statuses: seq<PlayerStatus<Hand>>, j: nat)
    requires Balanced(cfg, st) && OnePerPlayer(cfg.players, statuses) && j < |cfg.players|
    ensures BalancedFor(AppliedRound(cfg, st, turn, statuses), cfg.players[j])
  {
    hide CountAll, OutcomesOf, Awarded, Bumped, AwardAll, NoteAll, OutcomeAt;
    var p := cfg.players[j];
    RoundAt(cfg, st, turn, statuses, j);
    assert p in cfg.players && BalancedFor(st, p);
    OneAwarded(st.scores[p], statuses[j], OutcomeAt(OutcomesOf(CountAll(Uncounted(st), statuses)), p));
  }

  lemma RoundKeys(cfg: Config, st: State, turn: int, statuses: seq<PlayerStatus<Hand>>, p: Id)
    requires Balanced(cfg, st) && OnePerPlayer(cfg.players, statuses)
    ensures var st' := AppliedRound(cfg, st, turn, statuses);
            && (p in st'.scores <==> p in cfg.players) && (p in st'.selfHistory <==> p in cfg.players)
            && (p in st'.lastAction <==> p in cfg.players)
  {
    var t, n := CountAll(Uncounted(st), statuses), |cfg.players|;
    assert statuses[..n] == statuses && cfg.players[..n] == cfg.players;
    CountAllAt(Uncounted(st), cfg.players, statuses, n);
    if p in cfg.players {
      var j :| 0 <= j < n && cfg.players[j] == p;
      assert CountedAt(Uncounted(st), t, p, statuses[j]);
    } else {
      assert SameAt(Uncounted(st), t, p);
    }
    hide CountAll, OutcomesOf, CountedTo, AwardAll, NoteAll, OnePerPlayer;
    AwardedOther(t.scores, cfg.players, OutcomesOf(t), p);
    NotedOther(st.selfHistory, cfg.players, turn, t.actions, OutcomesOf(t), p);
  }

  lemma RoundBalanced(cfg: Config, st: State, turn: int, statuses: seq<PlayerStatus<Hand>>)
    requires Balanced(cfg, st) && OnePerPlayer(cfg.players, statuses)
    ensures Balanced(cfg, AppliedRound(cfg, st, turn, statuses))
  {
    hide CountAll, OutcomesOf, AwardAll, NoteAll, BalancedFor, OnePerPlayer;
    var st' := AppliedRound(cfg, st, turn, statuses);
    forall p ensures (p in st'.scores <==> p in cfg.players) && (p in st'.selfHistory <==> p in cfg.players)
                  && (p in st'.lastAction <==> p in cfg.players)
    {
      RoundKeys(cfg, st, turn, statuses, p);
    }
    forall p | p in cfg.players ensures BalancedFor(st', p) {
      var j :| 0 <= j < |cfg.players| && cfg.players[j] == p;
      RoundBalancedFor(cfg, st, turn, statuses, j);
    }
  }

  /**
    Over every match of any length and any players: each player's wins, losses and draws add up to
    the resolved rounds, both histories have one entry per resolved round, and refusals (timeouts
    and illegal actions) never exceed losses.
  */
  lemma {:induction false} MatchIsBalanced(cfg: Config, rounds: seq<seq<PlayerStatus<Hand>>>)
    requires Answers(cfg, rounds) && SessionAnswers(cfg, rounds)
    ensures Balanced(cfg, Played(cfg, rounds)) && Played(cfg, rounds).resolved == |rounds|
  {
    if rounds != [] {
      var n := |rounds| - 1;
      MatchIsBalanced(cfg, rounds[..n]);
      NormalizedOnePerPlayer(cfg, rounds, n);
      hide Balanced, OnePerPlayer, NormalizeAll, CountAll, AwardAll, NoteAll;
      RoundBalanced(cfg, Played(cfg, rounds[..n]), n + 1, NormalizeAll(cfg.players, rounds[n]));
    }
  }

  // ----- Snapshots -----

  // The internal snapshot, with the last statuses that its keeper may add per player.
  datatype GameSnapshot = GameSnapshot(
    turn: int,
    scores: map<Id, Score>,
    selfHistory: map<Id, seq<SelfRound>>,
    publicHistory: seq<PublicRound>,
    perPlayer: map<Id, PlayerStatus<Hand>>)

  function SnapshotOf(st: State, perPlayer: map<Id, PlayerStatus<Hand>>): GameSnapshot {
    GameSnapshot(st.resolved, st.scores, st.selfHistory, st.publicHistory, perPlayer)
  }

  function Restored(cfg: Config, s: GameSnapshot): Option<State> {
    var players := set p | p in cfg.players;
    if s.turn < 0 || s.turn > cfg.rounds || !(s.scores.Keys <= players) || !(s.selfHistory.Keys <= players)
       || !(s.perPlayer.Keys <= players) then None
    else Some(State(s.turn,
                    map p | p in cfg.players :: ScoreAt(s.scores, p),
                    map p | p in cfg.players :: HistoryAt(s.selfHistory, p),
                    s.publicHistory,
                    map p | p in cfg.players :: RestoredStatus(s.perPlayer, p)))
  }

  function NoScore(p: Id): Score { ZERO }

  function NoRounds(p: Id): seq<SelfRound> { [] }

  function NotActed(p: Id): PlayerStatus<Hand> { NoActionOf(p) }

  // Restoring over a state: its players start anew, what the snapshot tells is put over that.
  function RestoredOver(cfg: Config, st: State, s: GameSnapshot): Option<State> {
    var scores := ClearedMap(st.scores, cfg.players, NoScore);
    var histories := ClearedMap(st.selfHistory, cfg.players, NoRounds);
    var last := ClearedMap(st.lastAction, cfg.players, NotActed);
    if s.turn < 0 || s.turn > cfg.rounds || !(s.scores.Keys <= scores.Keys) || !(s.selfHistory.Keys <= histories.Keys)
       || !(s.perPlayer.Keys <= last.Keys) then None
    else Some(State(s.turn, scores + s.scores, histories + s.selfHistory, s.publicHistory, Told(last, s.perPlayer)))
  }

  function Untold(cfg: Config): map<Id, PlayerStatus<Hand>> { map p | p in cfg.players :: NoActionOf<Hand>(p) }

  // A snapshot restores the state it was taken from; without the last statuses all but those.
  lemma RestoredIsLive(cfg: Config, st: State)
    requires Balanced(cfg, st) && st.resolved <= cfg.rounds
    ensures Restored(cfg, SnapshotOf(st, st.lastAction)) == Some(st)
    ensures Restored(cfg, SnapshotOf(st, map[])) == Some(st.(lastAction := Untold(cfg)))
  {
    hide BalancedFor, Untold;
    hide RestoredStatus, ScoreAt, HistoryAt;
    KeptMaps(cfg, st);
    UntoldStatuses(cfg);
  }

  lemma KeptMaps(cfg: Config, st: State)
    requires Balanced(cfg, st)
    ensures (map p | p in cfg.players :: ScoreAt(st.scores, p)) == st.scores
    ensures (map p | p in cfg.players :: HistoryAt(st.selfHistory, p)) == st.selfHistory
    ensures (map p | p in cfg.players :: RestoredStatus(st.lastAction, p)) == st.lastAction
  {
    hide BalancedFor, RestoredStatus;
    forall p | p in cfg.players ensures RestoredStatus(st.lastAction, p) == st.lastAction[p] { KeptStatus(cfg, st, p); }
  }

  lemma UntoldStatuses(cfg: Config)
    ensures (map p | p in cfg.players :: RestoredStatus(map[], p)) == Untold(cfg)
  {
  }

  lemma KeptStatus(cfg: Config, st: State, p: Id)
    requires Balanced(cfg, st) && p in cfg.players
    ensures p in st.lastAction && RestoredStatus(st.lastAction, p) == st.lastAction[p]
  {
    assert BalancedFor(st, p);
  }

  // Playing more rounds from a state.
  ghost function Continued(cfg: Config, st: State, rounds: seq<seq<PlayerStatus<Hand>>>): State
    requires forall i | 0 <= i < |rounds| :: |rounds[i]| == |cfg.players|
  {
    if rounds == [] then st
    else
      var n := |rounds| - 1;
      var front := Continued(cfg, st, rounds[..n]);
      AppliedRound(cfg, front, front.resolved + 1, NormalizeAll(cfg.players, rounds[n]))
  }

  lemma {:induction false} PlayedInTwo(cfg: Config, rounds: seq<seq<PlayerStatus<Hand>>>, k: nat)
    requires Answers(cfg, rounds) && SessionAnswers(cfg, rounds) && k <= |rounds|
    ensures Played(cfg, rounds) == Continued(cfg, Played(cfg, rounds[..k]), rounds[k..])
  {
    hide AppliedRound, NormalizeAll;
    var n := |rounds| - 1;
    if k == |rounds| {
      assert rounds[..k] == rounds;
    } else {
      PlayedInTwo(cfg, rounds[..n], k);
      MatchIsBalanced(cfg, rounds[..n]);
      hide Balanced, SessionAnswers;
      assert rounds[..n][..k] == rounds[..k] && rounds[..n][k..] == rounds[k..][..n - k] && rounds[k..][n - k] == rounds[n];
    }
  }

  lemma {:induction false} LastApart(t: Tally, last: map<Id, PlayerStatus<Hand>>, statuses: seq<PlayerStatus<Hand>>)
    ensures CountAll(t.(last := last), statuses).(last := map[]) == CountAll(t, statuses).(last := map[])
  {
    if statuses != [] { LastApart(t, last, statuses[..|statuses| - 1]); }
  }

  lemma TalliesAgree(cfg: Config, st: State, statuses: seq<PlayerStatus<Hand>>)
    requires Balanced(cfg, st) && OnePerPlayer(cfg.players, statuses)
    ensures CountAll(Uncounted(st.(lastAction := Untold(cfg))), statuses) == CountAll(Uncounted(st), statuses)
  {
    hide CountAll, CountedTo, BalancedFor;
    var t, u, n := Uncounted(st), Uncounted(st.(lastAction := Untold(cfg))), |cfg.players|;
    LastApart(t, Untold(cfg), statuses);
    assert statuses[..n] == statuses;
    CountAllAt(t, cfg.players, statuses, n);
    CountAllAt(u, cfg.players, statuses, n);
    var a, b := CountAll(t, statuses), CountAll(u, statuses);
    assert forall q | q !in cfg.players :: q !in t.last && q !in u.last;
    hide Balanced, Uncounted, Untold, OnePerPlayer;
    forall p ensures (p in a.last <==> p in b.last) && (p in a.last ==> a.last[p] == b.last[p]) {
      LastAgrees(cfg, t, u, a, b, statuses, p);
    }
    assert a.last == b.last;
    SameTally(a, b);
  }

  // A round tells every player's last status anew.
  lemma LastForgotten(cfg: Config, st: State, turn: int, statuses: seq<PlayerStatus<Hand>>)
    requires Balanced(cfg, st) && OnePerPlayer(cfg.players, statuses)
    ensures AppliedRound(cfg, st.(lastAction := Untold(cfg)), turn, statuses) == AppliedRound(cfg, st, turn, statuses)
  {
    hide CountAll, Uncounted, Untold, Balanced, OnePerPlayer, OutcomesOf, AwardAll, NoteAll;
    TalliesAgree(cfg, st, statuses);
  }

  lemma SameTally(a: Tally, b: Tally)
    requires a.(last := map[]) == b.(last := map[]) && a.last == b.last
    ensures a == b
  {
    assert a == a.(last := map[]).(last := a.last) == b.(last := map[]).(last := b.last) == b;
  }

  lemma LastAgrees(cfg: Config, t: Tally, u: Tally, a: Tally, b: Tally, statuses: seq<PlayerStatus<Hand>>, p: Id)
    requires |statuses| == |cfg.players|
    requires CountedTo(t, a, cfg.players, statuses, |cfg.players|) && CountedTo(u, b, cfg.players, statuses, |cfg.players|)
    requires forall q | q !in cfg.players :: q !in t.last && q !in u.last
    ensures (p in a.last <==> p in b.last) && (p in a.last ==> a.last[p] == b.last[p])
  {
    var n := |cfg.players|;
    assert cfg.players[..n] == cfg.players;
    if p in cfg.players {
      var j :| 0 <= j < n && cfg.players[j] == p;
      assert CountedAt(t, a, cfg.players[j], statuses[j]) && CountedAt(u, b, cfg.players[j], statuses[j]);
    } else {
      assert SameAt(t, a, p) && SameAt(u, b, p);
    }
  }

  /**
    Stop after any round, restore from the snapshot and play on: the final state is that of the
    uninterrupted match. Without the last statuses the same holds as soon as one round follows.
  */
  lemma ResumedIsUninterrupted(cfg: Config, rounds: seq<seq<PlayerStatus<Hand>>>, k: nat)
    requires Answers(cfg, rounds) && SessionAnswers(cfg, rounds) && k <= |rounds|
    ensures var st := Played(cfg, rounds[..k]);
            && Restored(cfg, SnapshotOf(st, st.lastAction)) == Some(st)
            && Continued(cfg, st, rounds[k..]) == Played(cfg, rounds)
            && Restored(cfg, SnapshotOf(st, map[])).Some?
            && (k < |rounds| ==>
                  Continued(cfg, Restored(cfg, SnapshotOf(st, map[])).value, rounds[k..]) == Played(cfg, rounds))
  {
    hide Balanced, SessionAnswers, AppliedRound, NormalizeAll, OnePerPlayer, Restored, Played, Continued;
    var st := Played(cfg, rounds[..k]);
    SessionPrefix(cfg, rounds, k);
    MatchIsBalanced(cfg, rounds[..k]);
    RestoredIsLive(cfg, st);
    PlayedInTwo(cfg, rounds, k);
    if k < |rounds| {
      NormalizedOnePerPlayer(cfg, rounds, k);
      assert rounds[k..][0] == rounds[k];
      UntoldCatchesUp(cfg, st, rounds[k..]);
    }
  }

  lemma SessionPrefix(cfg: Config, rounds: seq<seq<PlayerStatus<Hand>>>, k: nat)
    requires Answers(cfg, rounds) && SessionAnswers(cfg, rounds) && k <= |rounds|
    ensures Answers(cfg, rounds[..k]) && SessionAnswers(cfg, rounds[..k])
  {
    assert forall i | 0 <= i < k :: rounds[..k][i] == rounds[i];
  }

  lemma UntoldCatchesUp(cfg: Config, st: State, more: seq<seq<PlayerStatus<Hand>>>)
    requires more != [] && forall i | 0 <= i < |more| :: |more[i]| == |cfg.players|
    requires Balanced(cfg, st) && OnePerPlayer(cfg.players, NormalizeAll(cfg.players, more[0]))
    ensures Continued(cfg, st.(lastAction := Untold(cfg)), more) == Continued(cfg, st, more)
  {
    hide Balanced, AppliedRound, NormalizeAll, OnePerPlayer, Continued;
    LastForgotten(cfg, st, st.resolved + 1, NormalizeAll(cfg.players, more[0]));
    ContinuedFirst(cfg, st, more);
    ContinuedFirst(cfg, st.(lastAction := Untold(cfg)), more);
  }

  lemma {:induction false} ContinuedFirst(cfg: Config, st: State, rounds: seq<seq<PlayerStatus<Hand>>>)
    requires rounds != [] && forall i | 0 <= i < |rounds| :: |rounds[i]| == |cfg.players|
    ensures Continued(cfg, st, rounds)
         == Continued(cfg, AppliedRound(cfg, st, st.resolved + 1, NormalizeAll(cfg.players, rounds[0])), rounds[1..])
  {
    hide AppliedRound, NormalizeAll;
    var n := |rounds| - 1;
    if n > 0 {
      ContinuedFirst(cfg, st, rounds[..n]);
      assert rounds[..n][1..] == rounds[1..][..n - 1];
    } else {
      assert rounds[..0] == [] && rounds[1..] == [];
    }
  }

  // ----- The final result -----

  function KeyOf(scores: map<Id, Score>): Id -> Key {
    p => [-ScoreAt(scores, p).wins, ScoreAt(scores, p).losses, ScoreAt(scores, p).timeouts,
          ScoreAt(scores, p).invalidActions]
  }

  /** internal/games/janken/janken.go:457-472: more wins, then fewer losses, timeouts, illegal actions. */
  predicate RanksBefore(scores: map<Id, Score>, a: Id, b: Id) {
    var l, r := ScoreAt(scores, a), ScoreAt(scores, b);
    if l.wins != r.wins then l.wins > r.wins
    else if l.losses != r.losses then l.losses < r.losses
    else if l.timeouts != r.timeouts then l.timeouts < r.timeouts
    else if l.invalidActions != r.invalidActions then l.invalidActions < r.invalidActions
    else a.Less(b)
  }

  /** internal/games/janken/janken.go:587-592 */
  predicate ScoreEqual(l: Score, r: Score) {
    l.wins == r.wins && l.losses == r.losses && l.timeouts == r.timeouts && l.invalidActions == r.invalidActions
  }

  lemma KeyIsComparator(scores: map<Id, Score>, a: Id, b: Id)
    ensures Placements.Before(KeyOf(scores), a, b) <==> RanksBefore(scores, a, b)
    ensures KeyOf(scores)(a) == KeyOf(scores)(b) <==> ScoreEqual(ScoreAt(scores, a), ScoreAt(scores, b))
  {
    hide Id.Less;
    hide ListLess;
    var k, m := KeyOf(scores)(a), KeyOf(scores)(b);
    FourInTurn(k, m);
    assert k == m <==> k[0] == m[0] && k[1] == m[1] && k[2] == m[2] && k[3] == m[3];
  }

  lemma FourInTurn(k: Key, m: Key)
    requires |k| == |m| == 4
    ensures ListLess(k, m) <==>
              if k[0] != m[0] then k[0] < m[0] else if k[1] != m[1] then k[1] < m[1]
              else if k[2] != m[2] then k[2] < m[2] else k[3] < m[3]
  {
    var k1, m1 := k[1..], m[1..];
    var k2, m2 := k1[1..], m1[1..];
    var k3, m3 := k2[1..], m2[1..];
    assert k1[0] == k[1] && m1[0] == m[1] && k2[0] == k[2] && m2[0] == m[2] && k3 == [k[3]] && m3 == [m[3]];
    assert k3[1..] == [] && m3[1..] == [];
    assert ListLess(k3, m3) <==> k[3] < m[3];
    assert ListLess(k2, m2) <==> k[2] < m[2] || (k[2] == m[2] && ListLess(k3, m3));
    assert ListLess(k1, m1) <==> k[1] < m[1] || (k[1] == m[1] && ListLess(k2, m2));
  }

  // ----- The master -----

  class Master {
    const cfg: Config
    const names: GameNames
    var resolved: int
    var scores: map<Id, Score>
    var selfHistory: map<Id, seq<SelfRound>>
    var publicHistory: seq<PublicRound>
    var lastAction: map<Id, PlayerStatus<Hand>>

    ghost function St(): State
      reads this
    {
      State(resolved, scores, selfHistory, publicHistory, lastAction)
    }

    constructor (cfg: Config, names: GameNames)
      ensures this.cfg == cfg && this.names == names && St() == NewState(cfg)
    {
      this.cfg, this.names := cfg, names;
      resolved, publicHistory := 0, [];
      scores := map p | p in cfg.players :: ZERO;
      selfHistory := map p | p in cfg.players :: [];
      lastAction := map p | p in cfg.players :: NoActionOf<Hand>(p);
    }

    /** internal/games/janken/janken.go:290-309: one request to every player while rounds remain. */
    method NextStep() returns (turn: Option<int>)
      ensures turn == if resolved >= cfg.rounds then None else Some(resolved + 1)
    {
      if resolved >= cfg.rounds { return None; }
      return Some(resolved + 1);
    }

    /** internal/games/janken/janken.go:332-400 */
    method ApplyStep(mode: Mode, turn: int, statuses: seq<PlayerStatus<Hand>>) returns (ok: bool)
      modifies this
      ensures ok <==> mode.Simultaneous? && |statuses| == |cfg.players|
      ensures St() == if ok then AppliedRound(cfg, old(St()), turn, statuses) else old(St())
    {
      hide CountAll, AwardAll, NoteAll, Resolved;
      if !mode.Simultaneous? { return false; }
      if |statuses| != |cfg.players| { return false; }
      var actions, losers, valid := CountStatuses(statuses);
      var decided := ResolveValidOutcomes(valid);
      var outcomes := losers + decided;
      AwardRound(turn, actions, outcomes);
      publicHistory := publicHistory + [PublicRound(turn, actions, outcomes)];
      resolved := resolved + 1;
      return true;
    }

    // The first loop of a round (internal/games/janken/janken.go:344-368).
    method CountStatuses(statuses: seq<PlayerStatus<Hand>>)
        returns (actions: map<Id, Shown>, outcomes: map<Id, Outcome>, valid: map<Id, Hand>)
      modifies `lastAction, `scores
      ensures Tally(lastAction, actions, outcomes, valid, scores) == CountAll(Uncounted(old(St())), statuses)
    {
      hide Bumped;
      actions, outcomes, valid := map[], map[], map[];
      for i := 0 to |statuses|
        invariant Tally(lastAction, actions, outcomes, valid, scores) == CountAll(Uncounted(old(St())), statuses[..i])
      {
        var s := statuses[i];
        assert statuses[..i + 1][..i] == statuses[..i];
        lastAction := lastAction[s.playerID := s];
        var action := Passed;
        if s.Move().Some? {
          action := Show(s.Move().value);
          valid := valid[s.playerID := s.Move().value];
        }
        actions := actions[s.playerID := action];
        if action.Passed? { outcomes := outcomes[s.playerID := Loss]; }
        scores := scores[s.playerID := Bumped(ScoreAt(scores, s.playerID), s.reason)];
      }
      assert statuses[..|statuses|] == statuses;
    }

    // The second (internal/games/janken/janken.go:374-391).
    method AwardRound(turn: int, actions: map<Id, Shown>, outcomes: map<Id, Outcome>)
      modifies `scores, `selfHistory
      ensures scores == AwardAll(old(scores), cfg.players, outcomes)
      ensures selfHistory == NoteAll(old(selfHistory), cfg.players, turn, actions, outcomes)
    {
      hide Awarded;
      for i := 0 to |cfg.players|
        invariant scores == AwardAll(old(scores), cfg.players[..i], outcomes)
        invariant selfHistory == NoteAll(old(selfHistory), cfg.players[..i], turn, actions, outcomes)
      {
        var p := cfg.players[i];
        assert cfg.players[..i + 1][..i] == cfg.players[..i];
        scores := scores[p := Awarded(ScoreAt(scores, p), OutcomeAt(outcomes, p))];
        selfHistory := selfHistory[p := HistoryAt(selfHistory, p)
                                        + [SelfRound(turn, ShownAt(actions, p), OutcomeAt(outcomes, p))]];
      }
      assert cfg.players[..|cfg.players|] == cfg.players;
    }

    /** internal/games/janken/janken.go:455-489 */
    method Result() returns (placements: seq<Placement>)
      ensures IsRanking(KeyOf(scores), cfg.players, placements)
    {
      placements := Rank(KeyOf(scores), cfg.players);
    }

    /** internal/games/janken/janken.go:491-544 */
    method ApplySnapshot(told: GameNames, state: Option<GameSnapshot>) returns (ok: bool)
      modifies this
      ensures ok <==>
                && (told.gameID == NO_ID || told.gameID == names.gameID)
                && (told.gameVersion == NO_ID || told.gameVersion == names.gameVersion)
                && (told.rulesetVersion == NO_ID || told.rulesetVersion == names.rulesetVersion)
                && state.Some? && RestoredOver(cfg, old(St()), state.value).Some?
      ensures ok ==> RestoredOver(cfg, old(St()), state.value) == Some(St())
      ensures !(told.Fits(names) && state.Some? && 0 <= state.value.turn <= cfg.rounds) ==> St() == old(St())
    {
      hide Told, ClearedMap;
      if !told.Fits(names) || state.None? { return false; }
      var s := state.value;
      if s.turn < 0 || s.turn > cfg.rounds { return false; }
      resolved := s.turn;
      Clear();
      if !(s.scores.Keys <= scores.Keys) { return false; }
      scores := scores + s.scores;
      if !(s.selfHistory.Keys <= selfHistory.Keys) { return false; }
      selfHistory := selfHistory + s.selfHistory;
      publicHistory := s.publicHistory;
      if !(s.perPlayer.Keys <= lastAction.Keys) { return false; }
      TellStatuses(s.perPlayer);
      return true;
    }

    // internal/games/janken/janken.go:508-512
    method Clear()
      modifies `scores, `selfHistory, `lastAction
      ensures scores == ClearedMap(old(scores), cfg.players, NoScore)
      ensures selfHistory == ClearedMap(old(selfHistory), cfg.players, NoRounds)
      ensures lastAction == ClearedMap(old(lastAction), cfg.players, NotActed)
    {
      for i := 0 to |cfg.players|
        invariant scores == ClearedMap(old(scores), cfg.players[..i], NoScore)
        invariant selfHistory == ClearedMap(old(selfHistory), cfg.players[..i], NoRounds)
        invariant lastAction == ClearedMap(old(lastAction), cfg.players[..i], NotActed)
      {
        var p := cfg.players[i];
        assert cfg.players[..i + 1][..i] == cfg.players[..i];
        scores := scores[p := ZERO];
        selfHistory := selfHistory[p := []];
        lastAction := lastAction[p := NoActionOf(p)];
      }
      assert cfg.players[..|cfg.players|] == cfg.players;
    }

    // internal/games/janken/janken.go:531-542
    method TellStatuses(perPlayer: map<Id, PlayerStatus<Hand>>)
      requires perPlayer.Keys <= lastAction.Keys
      modifies `lastAction
      ensures lastAction == Told(old(lastAction), perPlayer)
    {
      ghost var untold := lastAction;
      var left := perPlayer.Keys;
      while left != {}
        invariant left <= perPlayer.Keys && lastAction.Keys == untold.Keys
        invariant forall p | p in lastAction ::
                    lastAction[p] == if p in left then untold[p] else ToldStatus(untold, perPlayer, p)
        decreases left
      {
        var p :| p in left;
        left := left - {p};
        var status := perPlayer[p];
        if status.playerID == NO_ID { status := status.(playerID := p); }
        if !status.verdict.Unset? { lastAction := lastAction[p := status]; }
      }
    }
  }

  // On a master that knows its players and nobody else, whatever it has played, restoring forgets it.
  lemma RestoredOverPlayers(cfg: Config, st: State, s: GameSnapshot)
    requires st.scores.Keys == st.selfHistory.Keys == st.lastAction.Keys == set p | p in cfg.players
    ensures RestoredOver(cfg, st, s) == Restored(cfg, s)
  {
    hide RestoredStatus, Told, ScoreAt, HistoryAt, ClearedMap;
    ClearedAll(st.scores, cfg.players, NoScore);
    ClearedAll(st.selfHistory, cfg.players, NoRounds);
    ClearedAll(st.lastAction, cfg.players, NotActed);
    if Restored(cfg, s).Some? {
      ScoresOver(cfg, ClearedMap(st.scores, cfg.players, NoScore), s.scores);
      HistoriesOver(cfg, ClearedMap(st.selfHistory, cfg.players, NoRounds), s.selfHistory);
      StatusesOver(cfg, ClearedMap(st.lastAction, cfg.players, NotActed), s.perPlayer);
    }
  }

  lemma ScoresOver(cfg: Config, base: map<Id, Score>, told: map<Id, Score>)
    requires base.Keys == (set p | p in cfg.players) && (forall p | p in base :: base[p] == ZERO) && told.Keys <= base.Keys
    ensures base + told == map p | p in cfg.players :: ScoreAt(told, p)
  {
    assert forall p :: p in cfg.players <==> p in base.Keys;
  }

  lemma HistoriesOver(cfg: Config, base: map<Id, seq<SelfRound>>, told: map<Id, seq<SelfRound>>)
    requires base.Keys == (set p | p in cfg.players) && (forall p | p in base :: base[p] == []) && told.Keys <= base.Keys
    ensures base + told == map p | p in cfg.players :: HistoryAt(told, p)
  {
    assert forall p :: p in cfg.players <==> p in base.Keys;
  }

  lemma StatusesOver(cfg: Config, base: map<Id, PlayerStatus<Hand>>, told: map<Id, PlayerStatus<Hand>>)
    requires base.Keys == (set p | p in cfg.players) && forall p | p in base :: base[p] == NoActionOf(p)
    ensures Told(base, told) == map p | p in cfg.players :: RestoredStatus(told, p)
  {
    hide RestoredStatus, ToldStatus;
    assert forall p :: p in cfg.players <==> p in base.Keys;
    forall p | p in base ensures ToldStatus(base, told, p) == RestoredStatus(told, p) { ToldIsRestored(base, told, p); }
  }

  /** internal/games/janken/janken.go:174-253, with the statuses indexed by turn and player */
  method SnapshotFromHistory(cfg: Config, names: GameNames, events: seq<HistoryEvent<Hand>>, targetTurn: int)
      returns (r: Option<GameSnapshot>)
    ensures r == if |cfg.players| < 2 || targetTurn < 0 || targetTurn > cfg.rounds || !Readable(events, targetTurn) then None
                 else var st := Rebuilt(cfg, events, targetTurn); Some(SnapshotOf(st, LastStatusesOf(cfg, st)))
  {
    hide AppliedRound, Normalize, NewState;
    if |cfg.players| < 2 || targetTurn < 0 || targetTurn > cfg.rounds { return None; }
    var master := new Master(cfg, names);
    var indexed := IndexStatuses(events, targetTurn);
    if indexed.None? { return None; }
    var statusesByTurn := indexed.value;
    RebuiltStart(cfg, events);
    for turn := 1 to targetTurn + 1
      invariant master.cfg == cfg && master.St() == Rebuilt(cfg, events, turn - 1)
    {
      var resolved := AnswersAt(cfg, statusesByTurn, events, turn, targetTurn);
      var _ := master.ApplyStep(Simultaneous, turn, resolved);
      RebuiltNext(cfg, events, turn);
    }
    var st := State(master.resolved, master.scores, master.selfHistory, master.publicHistory, master.lastAction);
    return Some(SnapshotOf(st, LastStatusesOf(cfg, st)));
  }

  ghost predicate Indexes(
      statuses: map<int, map<Id, PlayerStatus<Hand>>>, events: seq<HistoryEvent<Hand>>, n: nat, targetTurn: int)
    requires n <= |events|
  {
    forall turn, p | 1 <= turn <= targetTurn :: LookUp(statuses, turn, p) == RecordedStatus(events[..n], turn, p)
  }

  // The first loop of a rebuild (internal/games/janken/janken.go:187-213).
  method IndexStatuses(events: seq<HistoryEvent<Hand>>, targetTurn: int)
      returns (r: Option<map<int, map<Id, PlayerStatus<Hand>>>>)
    ensures r.Some? <==> Readable(events, targetTurn)
    ensures r.Some? ==> Indexes(r.value, events, |events|, targetTurn)
  {
    var statuses: map<int, map<Id, PlayerStatus<Hand>>> := map[];
    for i := 0 to |events|
      invariant Indexes(statuses, events, i, targetTurn)
      invariant forall j | 0 <= j < i && events[j].recorded && events[j].turn != 0 && events[j].turn <= targetTurn ::
                  events[j].readable
    {
      var e := events[i];
      assert events[..i + 1][..i] == events[..i];
      if e.turn == 0 || e.turn > targetTurn || !e.recorded { continue; }
      if !e.readable { return None; }
      var perTurn := if e.turn in statuses then statuses[e.turn] else map[];
      statuses := statuses[e.turn := perTurn[e.playerID := Filled(e)]];
    }
    return Some(statuses);
  }

  // The answers of one turn (internal/games/janken/janken.go:224-233).
  method AnswersAt(
      cfg: Config, statuses: map<int, map<Id, PlayerStatus<Hand>>>, ghost events: seq<HistoryEvent<Hand>>, turn: int,
      targetTurn: int) returns (resolved: seq<PlayerStatus<Hand>>)
    requires 1 <= turn <= targetTurn && Indexes(statuses, events, |events|, targetTurn)
    ensures resolved == ReplayedAnswers(cfg, events, turn)
  {
    hide Normalize;
    resolved := [];
    assert events[..|events|] == events;
    for j := 0 to |cfg.players|
      invariant |resolved| == j
      invariant forall k | 0 <= k < j :: resolved[k] == ReplayedAnswer(events, turn, cfg.players[k])
    {
      var p := cfg.players[j];
      assert LookUp(statuses, turn, p) == RecordedStatus(events, turn, p);
      var status := match LookUp(statuses, turn, p) case Some(s) => s case None => NoActionOf(p);
      resolved := resolved + [Normalize(p, status)];
    }
  }

  lemma RebuiltStart(cfg: Config, events: seq<HistoryEvent<Hand>>)
    ensures Rebuilt(cfg, events, 0) == NewState(cfg)
  {
  }

  function LookUp(statuses: map<int, map<Id, PlayerStatus<Hand>>>, turn: int, p: Id): Option<PlayerStatus<Hand>> {
    if turn in statuses && p in statuses[turn] then Some(statuses[turn][p]) else None
  }

  function LastStatusesOf(cfg: Config, st: State): map<Id, PlayerStatus<Hand>> {
    map p | p in cfg.players && p in st.lastAction :: st.lastAction[p]
  }

  lemma RebuiltNext(cfg: Config, events: seq<HistoryEvent<Hand>>, turn: nat)
    requires turn > 0
    ensures Rebuilt(cfg, events, turn)
         == AppliedRound(cfg, Rebuilt(cfg, events, turn - 1), turn, ReplayedAnswers(cfg, events, turn))
  {
    hide AppliedRound, ReplayedAnswers;
  }

  // The snapshot from the log of a match to turn t is the live snapshot after t rounds.
  lemma HistorySnapshotIsLive(cfg: Config, rounds: seq<seq<PlayerStatus<Hand>>>, t: nat)
    requires Answers(cfg, rounds) && SessionAnswers(cfg, rounds) && t <= |rounds|
    ensures var st := Played(cfg, rounds[..t]);
            && Rebuilt(cfg, LogOf(cfg, rounds), t) == st
            && SnapshotOf(st, LastStatusesOf(cfg, st)) == SnapshotOf(st, st.lastAction)
  {
    hide BalancedFor, Rebuilt, Played;
    LogRecords(cfg, rounds);
    HistoryIsLive(cfg, rounds, LogOf(cfg, rounds), t);
    SessionPrefix(cfg, rounds, t);
    MatchIsBalanced(cfg, rounds[..t]);
    var st := Played(cfg, rounds[..t]);
    assert LastStatusesOf(cfg, st) == st.lastAction;
  }
}
