/**
  What an echo match is about, told from the answers alone: whose turn it is at which step, what number
  is expected then, and that a score is the count of the player's right echoes
  (internal/games/echo/echo.go:307-390).
*/
module EchoScores {
  import opened Identifiers
  import opened GameTypes
  import opened GamePlay
  import opened Echo

  // An accepted answer with just the number that is expected.
  ghost predicate Echoes(s: PlayerStatus<int>, expected: int) {
    s.verdict == Accepted && s.action.Naming? && s.action.move == expected
  }

  /** Normalizing leaves a right echo as it is, strips any other answer of its action, and names a wrong echo illegal. */
  lemma NormalizedIs(p: Id, expected: int, s: PlayerStatus<int>)
    ensures var n := Normalize(p, expected, s);
            && (Echoes(s, expected) ==> n == s)
            && (n.verdict == Accepted <==> Echoes(s, expected))
            && (s.verdict != Accepted ==> n == PlayerStatus(s.playerID, s.verdict, s.reason, Absent))
            && (s.verdict == Accepted && !Echoes(s, expected) ==>
                  n == PlayerStatus(p, Verdict.NoAction, IllegalAction, Absent))
  {
  }

  // ----- Counting -----

  ghost predicate Matched(players: seq<Id>, statuses: seq<PlayerStatus<int>>) {
    Distinct(players) && |statuses| == |players| && forall j | 0 <= j < |players| :: statuses[j].playerID == players[j]
  }

  // Each player of the statuses is counted once, nobody else is.
  lemma {:induction false} CountedOnce(t: Tally, players: seq<Id>, statuses: seq<PlayerStatus<int>>, n: nat, p: Id)
    requires Matched(players, statuses) && n <= |players| && p in t.score && p in t.last
    ensures var t' := CountAll(t, statuses[..n]);
            && p in t'.score && p in t'.last
            && (p !in players[..n] ==> t'.score[p] == t.score[p] && t'.last[p] == t.last[p])
            && (forall j | 0 <= j < n && players[j] == p ::
                  t'.score[p] == t.score[p] + (if statuses[j].verdict == Accepted then 1 else 0) && t'.last[p] == statuses[j])
  {
    if n > 0 {
      CountedOnce(t, players, statuses, n - 1, p);
      assert statuses[..n][..n - 1] == statuses[..n - 1];
      assert players[..n] == players[..n - 1] + [players[n - 1]];
      forall j | 0 <= j < n - 1 ensures players[j] != players[n - 1] { DistinctAt(players, j, n - 1); }
    }
  }

  /**
    A step in the mode it names, whatever the ruleset: counting is the same in all modes, a simultaneous step
    ends the turn, a sequential one ends it after the last player and else passes it on to the next, and one
    of no known mode leaves it.
  */
  lemma StepMovesOn(mode: Mode, cfg: Config, st: State, asked: seq<Id>, statuses: seq<PlayerStatus<int>>, p: Id)
    requires Matched(asked, statuses) && p in st.score && p in st.lastAction
    ensures var st', n := AppliedIn(mode, cfg, st, statuses), |cfg.players|;
            && (st'.resolved == st.resolved + 1 <==> mode == Simultaneous || (mode == Sequential && st.nextPlayer >= n - 1))
            && (st'.resolved in {st.resolved, st.resolved + 1})
            && st'.nextPlayer == (if mode != Sequential then st.nextPlayer
                                  else if st.nextPlayer >= n - 1 then 0 else st.nextPlayer + 1)
            && p in st'.score && p in st'.lastAction
            && (p !in asked ==> st'.score[p] == st.score[p] && st'.lastAction[p] == st.lastAction[p])
            && forall j | 0 <= j < |asked| && asked[j] == p ::
                 && st'.score[p] == st.score[p] + (if statuses[j].verdict == Accepted then 1 else 0)
                 && st'.lastAction[p] == statuses[j]
  {
    hide CountAll;
    CountedOnce(Tally(st.score, st.lastAction), asked, statuses, |asked|, p);
    assert statuses[..|asked|] == statuses && asked[..|asked|] == asked;
  }

  // ----- Whose turn it is -----

  // The turn that step i belongs to, and the players it asks: in simultaneous mode a turn is one step, in
  // sequential mode it takes a step for each player.
  ghost function TurnAt(cfg: Config, i: nat): nat
    requires cfg.players != []
  {
    if cfg.mode == Simultaneous then i else i / |cfg.players|
  }

  ghost function AskedAt(cfg: Config, i: nat): seq<Id>
    requires cfg.players != []
  {
    if cfg.mode == Simultaneous then cfg.players else [cfg.players[i % |cfg.players|]]
  }

  lemma NextStepIn(i: nat, n: nat)
    requires n > 0
    ensures i % n + 1 < n ==> (i + 1) / n == i / n && (i + 1) % n == i % n + 1
    ensures i % n + 1 == n ==> (i + 1) / n == i / n + 1 && (i + 1) % n == 0
  {
    var q, r := i / n, i % n;
    assert i == n * q + r;
    if r + 1 < n {
      DivisionIs(i + 1, n, q, r + 1);
    } else {
      assert i + 1 == n * (q + 1) + 0;
      DivisionIs(i + 1, n, q + 1, 0);
    }
  }

  lemma MultipleOf(n: nat, d: int)
    requires n > 0
    ensures d >= 1 ==> n * d >= n
    ensures d <= -1 ==> n * d + n <= 0
  {
  }

  lemma DivisionIs(x: nat, n: nat, q: nat, r: nat)
    requires x == n * q + r && r < n
    ensures x / n == q && x % n == r
  {
    var q', r' := x / n, x % n;
    MultipleOf(n, q - q');
    assert n * (q - q') == n * q - n * q';
  }

  // The master stands where counting i steps leads.
  ghost predicate Stands(cfg: Config, st: State, i: nat)
    requires cfg.players != []
  {
    && st.resolved == TurnAt(cfg, i) && Asked(cfg, st) == AskedAt(cfg, i)
    && st.nextPlayer == if cfg.mode == Simultaneous then 0 else i % |cfg.players|
  }

  lemma StandsNext(cfg: Config, st: State, given: seq<PlayerStatus<int>>, i: nat)
    requires Playable(cfg) && Stands(cfg, st, i)
    ensures Stands(cfg, AppliedStep(cfg, st, given), i + 1)
  {
    hide CountAll;
    NextStepIn(i, |cfg.players|);
  }

  /** After k steps the master stands at the turn and the player that counting steps gives. */
  lemma {:induction false} StandsAt(cfg: Config, steps: seq<seq<PlayerStatus<int>>>, k: nat)
    requires Playable(cfg) && k <= |steps| && Plays(cfg, steps, k)
    ensures var st := Played(cfg, steps, k);
            && st.resolved == TurnAt(cfg, k) && Asked(cfg, st) == AskedAt(cfg, k)
            && st.nextPlayer == if cfg.mode == Simultaneous then 0 else k % |cfg.players|
  {
    if k > 0 {
      hide AppliedStep, CountAll, Given, Played, Plays, TurnAt, AskedAt, Asked, Playable;
      PlaysBefore(cfg, steps, k);
      StandsAt(cfg, steps, k - 1);
      OneStep(cfg, steps, k);
      StandsNext(cfg, Played(cfg, steps, k - 1), Given(cfg, steps, k), k - 1);
    } else {
      hide CountAll, Given, AppliedStep;
    }
  }

  // The step is asked while turns remain, and expects the number that the order has for its turn.
  lemma ExpectedIs(cfg: Config, steps: seq<seq<PlayerStatus<int>>>, k: nat)
    requires Playable(cfg) && k < |steps| && Plays(cfg, steps, k + 1) && Plays(cfg, steps, k)
    ensures var turn := TurnAt(cfg, k);
            turn < |cfg.order| && ExpectedAt(cfg.order, Played(cfg, steps, k).resolved) == cfg.order[turn]
  {
    StandsAt(cfg, steps, k);
  }

  // ----- A match -----

  // What the j-th player has after k steps.
  ghost function ScoreAfter(cfg: Config, steps: seq<seq<PlayerStatus<int>>>, k: nat, j: nat): nat
    requires cfg.players != [] && Distinct(cfg.players) && j < |cfg.players| && k <= |steps|
  {
    if k == 0 then 0
    else ScoreAfter(cfg, steps, k - 1, j) + if RightAt(cfg, steps, k - 1, j) then 1 else 0
  }

  // Step i asks the j-th player, who answers with the number of the turn.
  ghost predicate RightAt(cfg: Config, steps: seq<seq<PlayerStatus<int>>>, i: nat, j: nat)
    requires cfg.players != [] && j < |cfg.players| && i < |steps|
  {
    exists m :: 0 <= m < |AskedAt(cfg, i)| && AskedAt(cfg, i)[m] == cfg.players[j]
      && m < |steps[i]| && TurnAt(cfg, i) < |cfg.order| && Echoes(steps[i][m], cfg.order[TurnAt(cfg, i)])
  }

  /**
    A match in either mode, of any length and any players: a player's score is the number of steps that
    asked it and that it answered with just the number of their turn.
  */
  lemma {:induction false} MatchIsCounted(cfg: Config, steps: seq<seq<PlayerStatus<int>>>, k: nat, j: nat)
    requires Playable(cfg) && k <= |steps| && Plays(cfg, steps, k) && j < |cfg.players|
    ensures var st, p := Played(cfg, steps, k), cfg.players[j];
            && p in st.score && p in st.lastAction && st.score[p] == ScoreAfter(cfg, steps, k, j)
  {
    hide RightAt, Given, CountAll, AppliedStep, NormalizeAll, Plays;
    if k > 0 {
      var i := k - 1;
      PlaysBefore(cfg, steps, k);
      MatchIsCounted(cfg, steps, i, j);
      OneStep(cfg, steps, k);
      GivenIs(cfg, steps, k);
      hide Played;
      StepIsCounted(cfg, Played(cfg, steps, i), AskedAt(cfg, i), cfg.order[TurnAt(cfg, i)], steps[i], j);
      RightIs(cfg, steps, i, j);
    }
  }

  // The statuses of a step are those of the players it asks, for the number of its turn.
  lemma GivenIs(cfg: Config, steps: seq<seq<PlayerStatus<int>>>, k: nat)
    requires Playable(cfg) && 0 < k <= |steps| && Plays(cfg, steps, k - 1) && Plays(cfg, steps, k)
    ensures var asked, turn := AskedAt(cfg, k - 1), TurnAt(cfg, k - 1);
            && Distinct(asked) && SessionAnswers(asked, steps[k - 1]) && turn < |cfg.order|
            && Given(cfg, steps, k) == NormalizeAll(asked, cfg.order[turn], steps[k - 1])
  {
    hide Played, NormalizeAll, ExpectedAt, SessionAnswers;
    StandsAt(cfg, steps, k - 1);
    ExpectedIs(cfg, steps, k - 1);
  }

  lemma RightIs(cfg: Config, steps: seq<seq<PlayerStatus<int>>>, i: nat, j: nat)
    requires cfg.players != [] && j < |cfg.players| && i < |steps|
    requires TurnAt(cfg, i) < |cfg.order| && |steps[i]| == |AskedAt(cfg, i)|
    ensures RightAt(cfg, steps, i, j) <==>
              exists m :: 0 <= m < |AskedAt(cfg, i)| && AskedAt(cfg, i)[m] == cfg.players[j]
                && Echoes(steps[i][m], cfg.order[TurnAt(cfg, i)])
  {
    hide Echoes, AskedAt, TurnAt;
  }

  lemma StepIsCounted(
      cfg: Config, st: State, asked: seq<Id>, expected: int, raw: seq<PlayerStatus<int>>, j: nat)
    requires Distinct(cfg.players) && j < |cfg.players| && SessionAnswers(asked, raw) && Distinct(asked)
    requires cfg.players[j] in st.score && cfg.players[j] in st.lastAction
    ensures var t, p := CountAll(Tally(st.score, st.lastAction), NormalizeAll(asked, expected, raw)), cfg.players[j];
            && p in t.score && p in t.last
            && t.score[p] == st.score[p]
                 + if exists m :: 0 <= m < |asked| && asked[m] == p && Echoes(raw[m], expected) then 1 else 0
  {
    var given, p := NormalizeAll(asked, expected, raw), cfg.players[j];
    forall m | 0 <= m < |asked|
      ensures given[m].playerID == asked[m] && (given[m].verdict == Accepted <==> Echoes(raw[m], expected))
    {
      NormalizedIs(asked[m], expected, raw[m]);
    }
    hide Normalize, Echoes, CountAll, NormalizeAll;
    assert given[..|asked|] == given && asked[..|asked|] == asked;
    CountedOnce(Tally(st.score, st.lastAction), asked, given, |asked|, p);
    if p in asked {
      var m :| 0 <= m < |asked| && asked[m] == p;
      assert forall n | 0 <= n < |asked| && asked[n] == p :: n == m;
    }
  }
}
