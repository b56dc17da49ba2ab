/**
  What the log of a match says of everything around its steps: initialization, late answers, shutdown and
  the final state (internal/platform/match/match.go:193-237, 324-379, 454-600).
*/
module RunnerLifecycle {
  import opened Identifiers
  import opened GameTypes
  import opened MatchRunner
  import opened RunnerLog

  // ----- Initialization -----

  // What is logged of the player whose session comes back with x.
  ghost predicate InitSays(kind: Kind, x: Execution) {
    var stopped := !x.contextDone && x.result.reason == RuntimeStop;
    match kind
    case SessionInitialized => true
    case RuntimeDiagnostic => stopped && x.result.runtimeError
    case RuntimeExited => stopped
    case SessionInitFailed => !x.contextDone && x.result.verdict != Accepted
    case _ => false
  }

  ghost predicate InitTells(players: seq<Id>, w: Surroundings, n: nat, e: Entry) {
    && e.turn == 0 && e.payload == Detail
    && exists i :: 0 <= i < n && i < |players| && players[i] == e.playerID && InitSays(e.kind, w.inits(i))
  }

  lemma OneInit(p: Id, x: Execution, e: Entry)
    ensures e in InitEntries(p, x) <==> e.turn == 0 && e.payload == Detail && e.playerID == p && InitSays(e.kind, x)
  {
    var one := Entry(e.kind, 0, p, Detail);
    assert e in InitEntries(p, x) ==> e == one;
    if e == one && e.kind.SessionInitialized? { assert InitEntries(p, x)[0] == e; }
  }

  lemma {:induction false} InitsTell(players: seq<Id>, w: Surroundings, n: nat, e: Entry)
    requires n <= |players|
    ensures e in InitsOf(players, w, n) <==> InitTells(players, w, n, e)
  {
    hide InitEntries, InitSays;
    if n > 0 {
      InitsTell(players, w, n - 1, e);
      OneInit(players[n - 1], w.inits(n - 1), e);
    }
  }

  ghost predicate OpeningTells<M>(gm: Master<M>, start: M, players: seq<Id>, w: Surroundings, n: nat, opening: seq<Entry>) {
    && |opening| >= 2 && opening[0] == Entry(MatchStarted, 0, NO_ID, Detail)
    && opening[1] == Entry(if gm.init(start).Some? then MasterInitialized else MasterInitFailed, 0, NO_ID, Detail)
    && forall e :: e in opening[2..] <==> gm.init(start).Some? && InitTells(players, w, n, e)
  }

  lemma OpeningIs<M>(gm: Master<M>, start: M, players: seq<Id>, w: Surroundings, n: nat)
    requires n <= |players|
    ensures OpeningTells(gm, start, players, w, n, Opening(gm, start, players, w, n))
  {
    hide InitTells, InitsOf;
    var opening := Opening(gm, start, players, w, n);
    forall e ensures e in InitsOf(players, w, n) <==> InitTells(players, w, n, e) { InitsTell(players, w, n, e); }
    assert gm.init(start).Some? ==> opening[2..] == InitsOf(players, w, n);
  }

  // ----- Shutdown -----

  // What is logged of a player at the end: of the notice, which is sent if the match completed, and of closing.
  ghost predicate CloseSays(kind: Kind, completed: bool, notice: SessionResult, fails: bool) {
    match kind
    case GameOverSent => completed && notice.verdict == Accepted
    case SessionShutdownStarted => true
    case SessionShutdownCompleted => !fails
    case SessionShutdownFailed => fails || (completed && notice.verdict != Accepted)
    case RuntimeExited => fails || (completed && notice.reason == RuntimeStop)
    case RuntimeDiagnostic => completed && notice.reason == RuntimeStop && notice.runtimeError
    case _ => false
  }

  ghost predicate CloseTells(players: seq<Id>, w: Surroundings, completed: bool, n: nat, e: Entry) {
    && e.turn == 0 && e.payload == Detail
    && exists i :: 0 <= i < n && i < |players| && players[i] == e.playerID
         && CloseSays(e.kind, completed, w.gameOvers(i), w.closeFails(i))
  }

  lemma OneClose(p: Id, completed: bool, notice: SessionResult, fails: bool, e: Entry)
    ensures e in (if completed then GameOverEntries(p, notice) else []) + CloseEntries(p, fails)
            <==> e.turn == 0 && e.payload == Detail && e.playerID == p && CloseSays(e.kind, completed, notice, fails)
  {
    var over, close := if completed then GameOverEntries(p, notice) else [], CloseEntries(p, fails);
    assert close[0] == Entry(SessionShutdownStarted, 0, p, Detail);
    assert close[|close| - 1] == Entry(if fails then SessionShutdownFailed else SessionShutdownCompleted, 0, p, Detail);
    assert fails ==> close[1] == Entry(RuntimeExited, 0, p, Detail);
    assert completed ==> over[|over| - 1] == Entry(NoticeKind(notice), 0, p, Detail);
    assert e in over + close <==> e in over || e in close;
  }

  lemma {:induction false} ClosesTell(players: seq<Id>, w: Surroundings, completed: bool, n: nat, e: Entry)
    requires n <= |players|
    ensures e in ShutdownEntries(players, w, completed, n) <==> CloseTells(players, w, completed, n, e)
  {
    hide GameOverEntries, CloseEntries, CloseSays;
    if n > 0 {
      ClosesTell(players, w, completed, n - 1, e);
      OneClose(players[n - 1], completed, w.gameOvers(n - 1), w.closeFails(n - 1), e);
    }
  }

  ghost function NoticeKind(notice: SessionResult): Kind {
    if notice.verdict == Accepted then GameOverSent else SessionShutdownFailed
  }

  // The k-th entry is where the i-th player's session is closed: after the notice, and then done or failed.
  ghost predicate ClosedAt(closing: seq<Entry>, k: nat, p: Id, completed: bool, notice: SessionResult, fails: bool) {
    && k + 1 < |closing| && closing[k] == Entry(SessionShutdownStarted, 0, p, Detail)
    && (completed ==> k > 0 && closing[k - 1] == Entry(NoticeKind(notice), 0, p, Detail))
    && if fails then k + 2 < |closing| && closing[k + 1] == Entry(RuntimeExited, 0, p, Detail)
                     && closing[k + 2] == Entry(SessionShutdownFailed, 0, p, Detail)
       else closing[k + 1] == Entry(SessionShutdownCompleted, 0, p, Detail)
  }

  lemma {:induction false} PlayerIsClosed(players: seq<Id>, w: Surroundings, completed: bool, n: nat, i: nat) returns (k: nat)
    requires i < n <= |players|
    ensures ClosedAt(ShutdownEntries(players, w, completed, n), k, players[i], completed, w.gameOvers(i), w.closeFails(i))
  {
    hide GameOverEntries, CloseEntries, ClosedAt;
    var last := n - 1;
    var before := ShutdownEntries(players, w, completed, last);
    var over := if completed then GameOverEntries(players[last], w.gameOvers(last)) else [];
    var close := CloseEntries(players[last], w.closeFails(last));
    assert ShutdownEntries(players, w, completed, n) == before + (over + close) + [];
    assert ShutdownEntries(players, w, completed, n) == [] + before + (over + close);
    if i < last {
      k := PlayerIsClosed(players, w, completed, last, i);
      ClosedWithin([], before, over + close, k, players[i], completed, w.gameOvers(i), w.closeFails(i));
    } else {
      OneIsClosed(players[i], completed, w.gameOvers(i), w.closeFails(i));
      k := |before| + |over|;
      ClosedWithin(before, over + close, [], |over|, players[i], completed, w.gameOvers(i), w.closeFails(i));
    }
  }

  lemma OneIsClosed(p: Id, completed: bool, notice: SessionResult, fails: bool)
    ensures var over := if completed then GameOverEntries(p, notice) else [];
            ClosedAt(over + CloseEntries(p, fails), |over|, p, completed, notice, fails)
  {
  }

  lemma ClosedWithin(
      a: seq<Entry>, b: seq<Entry>, c: seq<Entry>, k: nat, p: Id, completed: bool, notice: SessionResult, fails: bool)
    requires ClosedAt(b, k, p, completed, notice, fails)
    ensures ClosedAt(a + b + c, |a| + k, p, completed, notice, fails)
  {
    assert forall m | 0 <= m < |b| :: (a + b + c)[|a| + m] == b[m];
  }

  ghost predicate IsClosed(players: seq<Id>, w: Surroundings, completed: bool, closing: seq<Entry>, i: nat)
    requires i < |players|
  {
    exists k :: ClosedAt(closing, k, players[i], completed, w.gameOvers(i), w.closeFails(i))
  }

  ghost predicate ClosingTells(players: seq<Id>, w: Surroundings, completed: bool, closing: seq<Entry>) {
    var n := |closing| - 3;
    && n >= 0 && (forall e :: e in closing[..n] <==> CloseTells(players, w, completed, |players|, e))
    && (forall i | 0 <= i < |players| :: IsClosed(players, w, completed, closing[..n], i))
    && closing[n] == Entry(MasterShutdownStarted, 0, NO_ID, Detail)
    && closing[n + 1]
         == Entry(if w.masterShutdownFails then MasterShutdownFailed else MasterShutdownCompleted, 0, NO_ID, Detail)
  }

  lemma ClosingIs(players: seq<Id>, w: Surroundings, status: MatchStatus, turn: int)
    ensures ClosingTells(players, w, status == Completed, Closing(players, w, status, turn))
    ensures var closing := Closing(players, w, status, turn);
            closing != [] && closing[|closing| - 1].turn == turn && closing[|closing| - 1].playerID == NO_ID
  {
    hide CloseTells, ClosedAt, ShutdownEntries;
    var completed := status.Completed?;
    var entries := ShutdownEntries(players, w, completed, |players|);
    var closing := Closing(players, w, status, turn);
    assert closing == entries + MasterShutdownEntries(w.masterShutdownFails) + [TerminalEntry(status, turn)];
    assert closing[..|entries|] == entries && |closing| == |entries| + 3;
    forall e ensures e in entries <==> CloseTells(players, w, completed, |players|, e) {
      ClosesTell(players, w, completed, |players|, e);
    }
    forall i | 0 <= i < |players| ensures IsClosed(players, w, completed, entries, i) {
      var k := PlayerIsClosed(players, w, completed, |players|, i);
    }
  }

  // ----- The whole match -----

  // Between what opens and what closes it, the log of a match is that of its steps.
  ghost predicate TellsAll<M>(
      gm: Master<M>, start: M, players: seq<Id>, w: Surroundings, story: Story<M>, status: MatchStatus, log: seq<Entry>,
      opening: seq<Entry>, closing: seq<Entry>)
  {
    && log == opening + (Blocks(story.trace) + story.tail) + closing
    && OpeningTells(gm, start, players, w, story.tried, opening)
    && ClosingTells(players, w, status == Completed, closing)
  }

  /**
    In every match the log says of each player tried, and in exactly these cases, that its session was
    initialized, stopped or failed, and at the end of each player that it was told of a completed match or
    could not be, that its session was closed or could not be, and of the master how it started and ended.
  */
  lemma LifecycleIsLogged<M>(
      gm: Master<M>, start: M, players: seq<Id>, w: Surroundings, story: Story<M>, err: Option<RunError>, record: Record)
    requires Happened(gm, start, players, w, story, err, record)
    ensures exists opening, closing ::
              TellsAll(gm, start, players, w, story, record.status, EntriesOf(record.events), opening, closing)
  {
    hide Opening, Closing, OpeningTells, ClosingTells, Blocks, Unfinished, Live, LoopEnds, EndsAs, Tried, Answered, EntriesOf;
    var opening := Opening(gm, start, players, w, story.tried);
    var closing := Closing(players, w, record.status, FinalTurn(record.final));
    OpeningIs(gm, start, players, w, story.tried);
    ClosingIs(players, w, record.status, FinalTurn(record.final));
    var log := EntriesOf(record.events);
    assert log == opening + (Blocks(story.trace) + story.tail) + closing;
    assert TellsAll(gm, start, players, w, story, record.status, log, opening, closing);
  }

  /**
    What is kept at the end is what the master, where it stands then, gives: snapshot, exported snapshot and
    result if it gives all three, and nothing otherwise; a public replay of a completed match alone; and the
    terminal event carries the turn of the snapshot.
  */
  lemma FinalIsCaptured<M>(
      gm: Master<M>, start: M, players: seq<Id>, w: Surroundings, story: Story<M>, err: Option<RunError>, record: Record)
    requires Happened(gm, start, players, w, story, err, record)
    ensures var log, last := EntriesOf(record.events), story.last;
            && (record.final.Some? <==> gm.snapshot(last).Some? && gm.exported(last).Some? && gm.result(last).Some?)
            && (record.final.Some? ==>
                  && gm.snapshot(last) == Some(record.final.value.snapshot)
                  && gm.exported(last) == Some(record.final.value.exported)
                  && gm.result(last) == Some(record.final.value.result))
            && record.publicReplay == (if record.status == Completed then gm.publicReplay(last) else None)
            && log != []
            && log[|log| - 1].turn == if record.final.Some? then record.final.value.snapshot.turn else 0
  {
    hide Opening, Closing, Blocks, Unfinished, Live, LoopEnds, Tried, Answered, EntriesOf, ClosingTells;
    var log, closing := EntriesOf(record.events), Closing(players, w, record.status, FinalTurn(record.final));
    ClosingIs(players, w, record.status, FinalTurn(record.final));
    assert log[|log| - 1] == closing[|closing| - 1];
    assert record.final == FinalOf(gm, story.last);
  }

  // ----- Answers -----

  ghost function KindFor(reason: Reason): Kind {
    match reason
    case NoReason => TurnResult
    case Timeout => TurnTimeout
    case RuntimeStop => RuntimeExited
    case _ => ProtocolError
  }

  // The k-th entry is the outcome of an answer; right before it stand the answers that came too late, one by
  // one, and what is known of a runtime that stopped.
  ghost predicate AnsweredAt(log: seq<Entry>, k: nat, turn: int, p: Id, answer: SessionResult, status: ActionStatus) {
    var late, stops := |answer.lateIDs|, answer.reason == RuntimeStop && answer.runtimeError;
    var from := k - late - if stops then 1 else 0;
    && 0 <= from && k < |log| && log[k] == Entry(KindFor(answer.reason), turn, p, Status(status))
    && (forall m | from <= m < from + late :: log[m] == Entry(LateResponseIgnored, turn, p, Detail))
    && (stops ==> log[k - 1] == Entry(RuntimeDiagnostic, turn, p, Detail))
  }

  lemma AnsweredWithin(
      a: seq<Entry>, b: seq<Entry>, c: seq<Entry>, k: nat, turn: int, p: Id, answer: SessionResult, status: ActionStatus)
    requires AnsweredAt(b, k, turn, p, answer, status)
    ensures AnsweredAt(a + b + c, |a| + k, turn, p, answer, status)
  {
    var log := a + b + c;
    assert forall m | 0 <= m < |b| :: log[|a| + m] == b[m];
    var late, stops := |answer.lateIDs|, answer.reason == RuntimeStop && answer.runtimeError;
    var from := k - late - if stops then 1 else 0;
    forall m | |a| + from <= m < |a| + from + late ensures log[m] == Entry(LateResponseIgnored, turn, p, Detail) {
      assert log[m] == b[m - |a|];
    }
  }

  lemma OutcomeIsAnswer(turn: int, req: Request, answer: SessionResult, status: ActionStatus)
    ensures var entries := OutcomeEntries(turn, req, answer, status);
            |entries| > 0 && AnsweredAt(entries, |entries| - 1, turn, req.playerID, answer, status)
  {
  }

  lemma {:induction false} AnsweredInStep(
      step: DecisionStep, results: seq<SessionResult>, statuses: seq<ActionStatus>, n: nat, j: nat) returns (k: nat)
    requires j < n <= |step.requests| && n <= |results| && n <= |statuses|
    ensures AnsweredAt(OutcomesOf(step, results, statuses, n), k, step.turn, step.requests[j].playerID, results[j], statuses[j])
  {
    hide OutcomeEntries, AnsweredAt;
    var before := OutcomesOf(step, results, statuses, n - 1);
    var one := OutcomeEntries(step.turn, step.requests[n - 1], results[n - 1], statuses[n - 1]);
    if j < n - 1 {
      k := AnsweredInStep(step, results, statuses, n - 1, j);
      AnsweredWithin([], before, one, k, step.turn, step.requests[j].playerID, results[j], statuses[j]);
      assert [] + before + one == OutcomesOf(step, results, statuses, n);
    } else {
      OutcomeIsAnswer(step.turn, step.requests[j], results[j], statuses[j]);
      k := |before| + |one| - 1;
      AnsweredWithin(before, one, [], |one| - 1, step.turn, step.requests[j].playerID, results[j], statuses[j]);
      assert before + one + [] == OutcomesOf(step, results, statuses, n);
    }
  }

  lemma AnsweredInBlock<M>(a: Applied<M>, j: nat) returns (k: nat)
    requires Shaped(a) && j < |a.step.requests|
    ensures AnsweredAt(Block(a), k, a.step.turn, a.step.requests[j].playerID, a.results[j], a.statuses[j])
  {
    hide AnsweredAt, OutcomesOf;
    var n := |a.step.requests|;
    var outcomes := OutcomesOf(a.step, a.results, a.statuses, n);
    var m := AnsweredInStep(a.step, a.results, a.statuses, n, j);
    k := n + m;
    AnsweredWithin(RequestEntries(a.step), outcomes, [], m, a.step.turn, a.step.requests[j].playerID, a.results[j], a.statuses[j]);
    assert RequestEntries(a.step) + outcomes + [] == Block(a);
  }

  lemma {:induction false} AnsweredInBlocks<M>(trace: seq<Applied<M>>, i: nat, j: nat) returns (k: nat)
    requires i < |trace| && Shaped(trace[i]) && j < |trace[i].step.requests|
    ensures var a := trace[i];
            AnsweredAt(Blocks(trace), k, a.step.turn, a.step.requests[j].playerID, a.results[j], a.statuses[j])
  {
    hide AnsweredAt, Block;
    var a, n := trace[i], |trace| - 1;
    var turn, p := a.step.turn, a.step.requests[j].playerID;
    var before, last := Blocks(trace[..n]), Block(trace[n]);
    if i < n {
      k := AnsweredInBlocks(trace[..n], i, j);
      AnsweredWithin([], before, last, k, turn, p, a.results[j], a.statuses[j]);
      assert [] + before + last == Blocks(trace);
    } else {
      var m := AnsweredInBlock(a, j);
      k := |before| + m;
      AnsweredWithin(before, last, [], m, turn, p, a.results[j], a.statuses[j]);
      assert before + last + [] == Blocks(trace);
    }
  }

  // The log of a match has those of its steps in it.
  lemma LogHasSteps<M>(
      gm: Master<M>, start: M, players: seq<Id>, w: Surroundings, story: Story<M>, err: Option<RunError>, record: Record)
    returns (opening: seq<Entry>, rest: seq<Entry>)
    requires Happened(gm, start, players, w, story, err, record)
    ensures EntriesOf(record.events) == opening + Blocks(story.trace) + rest
  {
    hide Opening, Closing, Blocks, Unfinished, Live, LoopEnds, EndsAs, Tried, Answered, EntriesOf, LastStatuses;
    opening := Opening(gm, start, players, w, story.tried);
    rest := story.tail + Closing(players, w, record.status, FinalTurn(record.final));
  }

  /**
    In every match each answer to a request of an applied step stands in the log with the answers of its
    player that came too late right before it, one entry for each, and a diagnostic between exactly if the
    runtime stopped and said why.
  */
  lemma LateAnswersAreLogged<M>(
      gm: Master<M>, start: M, players: seq<Id>, w: Surroundings, story: Story<M>, err: Option<RunError>, record: Record,
      i: nat, j: nat)
    requires Happened(gm, start, players, w, story, err, record) && i < |story.trace|
    requires j < |story.trace[i].step.requests|
    ensures Shaped(story.trace[i])
    ensures var a := story.trace[i];
            exists k :: AnsweredAt(EntriesOf(record.events), k, a.step.turn, a.step.requests[j].playerID,
                                   w.turns(i, j).result, a.statuses[j])
  {
    hide Happened, Blocks, EntriesOf, AnsweredAt;
    StepOfRun(gm, start, players, w, story, err, record, i);
    var a := story.trace[i];
    var opening, rest := LogHasSteps(gm, start, players, w, story, err, record);
    var k := AnsweredInBlocks(story.trace, i, j);
    AnsweredWithin(opening, Blocks(story.trace), rest, k, a.step.turn, a.step.requests[j].playerID, a.results[j], a.statuses[j]);
    assert a.results[j] == w.turns(i, j).result;
  }
}
