/**
  What the log of every match looks like (internal/platform/match/match.go), and that replaying it
  (internal/platform/replay/session_history.go) gives back the live snapshots.
*/
module RunnerLog {
  import opened Identifiers
  import opened GameTypes
  import opened MatchRunner
  import opened Replay

  // ----- Requests and outcomes of a step -----

  function RequestedIn(log: seq<Entry>): seq<Entry> {
    if log == [] then [] else (if log[0].kind.TurnRequested? then [log[0]] else []) + RequestedIn(log[1..])
  }

  lemma {:induction false} RequestedAppend(a: seq<Entry>, b: seq<Entry>)
    ensures RequestedIn(a + b) == RequestedIn(a) + RequestedIn(b)
  {
    if a == [] {
      assert a + b == b;
    } else {
      var head := if a[0].kind.TurnRequested? then [a[0]] else [];
      assert (a + b)[0] == a[0] && (a + b)[1..] == a[1..] + b;
      RequestedAppend(a[1..], b);
      assert RequestedIn(a + b) == head + RequestedIn(a[1..] + b);
    }
  }

  lemma {:induction false} RequestedNone(log: seq<Entry>)
    requires forall e | e in log :: !e.kind.TurnRequested?
    ensures RequestedIn(log) == []
  {
    if log != [] { RequestedNone(log[1..]); }
  }

  lemma {:induction false} RequestedAll(log: seq<Entry>)
    requires forall e | e in log :: e.kind.TurnRequested?
    ensures RequestedIn(log) == log
  {
    if log != [] { RequestedAll(log[1..]); }
  }

  function KindOf(reason: Reason): Kind {
    match reason
    case NoReason => TurnResult
    case Timeout => TurnTimeout
    case RuntimeStop => RuntimeExited
    case _ => ProtocolError
  }

  function OutcomeEntry(step: DecisionStep, results: seq<SessionResult>, statuses: seq<ActionStatus>, j: nat): Entry
    requires j < |step.requests| && j < |results| && j < |statuses|
  {
    Entry(KindOf(results[j].reason), step.turn, step.requests[j].playerID, Status(statuses[j]))
  }

  // What precedes the outcome of an answered request.
  function Preliminaries(turn: int, req: Request, result: SessionResult): seq<Entry> {
    LateEntries(turn, req.playerID, result.lateIDs)
    + if result.reason.RuntimeStop? && result.runtimeError
      then [Entry(RuntimeDiagnostic, turn, req.playerID, Detail)] else []
  }

  lemma OutcomeIsLast(turn: int, req: Request, result: SessionResult, status: ActionStatus)
    ensures OutcomeEntries(turn, req, result, status)
         == Preliminaries(turn, req, result) + [Entry(KindOf(result.reason), turn, req.playerID, Status(status))]
  {
    hide LateEntries;
  }

  lemma PreliminariesAreNeither(turn: int, req: Request, result: SessionResult)
    ensures RecordedIn(Preliminaries(turn, req, result)) == [] && RequestedIn(Preliminaries(turn, req, result)) == []
  {
    var before := Preliminaries(turn, req, result);
    assert forall e | e in before :: e.kind.LateResponseIgnored? || e.kind.RuntimeDiagnostic?;
    hide Preliminaries;
    RecordedNone(before);
    RequestedNone(before);
  }

  lemma OneOutcome(turn: int, req: Request, result: SessionResult, status: ActionStatus)
    ensures RecordedIn(OutcomeEntries(turn, req, result, status))
         == [Entry(KindOf(result.reason), turn, req.playerID, Status(status))]
    ensures RequestedIn(OutcomeEntries(turn, req, result, status)) == []
  {
    hide OutcomeEntries, Preliminaries;
    var before, last := Preliminaries(turn, req, result), Entry(KindOf(result.reason), turn, req.playerID, Status(status));
    OutcomeIsLast(turn, req, result, status);
    PreliminariesAreNeither(turn, req, result);
    RecordedAppend(before, [last]);
    RequestedAppend(before, [last]);
    assert [last][1..] == [];
  }

  lemma {:induction false} OutcomesInOrder(
      step: DecisionStep, results: seq<SessionResult>, statuses: seq<ActionStatus>, n: nat)
    requires n <= |step.requests| && n <= |results| && n <= |statuses|
    ensures RecordedIn(OutcomesOf(step, results, statuses, n))
         == seq(n, j requires 0 <= j < n => OutcomeEntry(step, results, statuses, j))
    ensures RequestedIn(OutcomesOf(step, results, statuses, n)) == []
  {
    hide OutcomeEntries;
    if n > 0 {
      OutcomesInOrder(step, results, statuses, n - 1);
      var one := OutcomeEntries(step.turn, step.requests[n - 1], results[n - 1], statuses[n - 1]);
      OneOutcome(step.turn, step.requests[n - 1], results[n - 1], statuses[n - 1]);
      RecordedAppend(OutcomesOf(step, results, statuses, n - 1), one);
      RequestedAppend(OutcomesOf(step, results, statuses, n - 1), one);
    }
  }

  // Every applied step logs one request and one outcome for each of its requests, in request order
  // within each kind; the outcome carries the applied status.
  lemma StepLogsRequestsAndOutcomes<M>(a: Applied<M>)
    requires Shaped(a)
    ensures RequestedIn(Block(a)) == RequestEntries(a.step)
    ensures RecordedIn(Block(a))
         == seq(|a.statuses|, j requires 0 <= j < |a.statuses| => OutcomeEntry(a.step, a.results, a.statuses, j))
  {
    hide OutcomesOf, OutcomeEntries, OutcomeEntry;
    var n := |a.step.requests|;
    OutcomesInOrder(a.step, a.results, a.statuses, n);
    RequestedAll(RequestEntries(a.step));
    RecordedNone(RequestEntries(a.step));
    RequestedAppend(RequestEntries(a.step), OutcomesOf(a.step, a.results, a.statuses, n));
    RecordedAppend(RequestEntries(a.step), OutcomesOf(a.step, a.results, a.statuses, n));
  }

  // ----- The whole log -----

  // Entries that neither start nor end a match.
  ghost predicate Inner(entries: seq<Entry>) { forall e | e in entries :: !e.kind.Terminal() && !e.kind.MatchStarted? }

  lemma InnerAppend(a: seq<Entry>, b: seq<Entry>)
    requires Inner(a) && Inner(b)
    ensures Inner(a + b)
  {
  }

  lemma {:induction false} OutcomesInner(
      step: DecisionStep, results: seq<SessionResult>, statuses: seq<ActionStatus>, n: nat)
    requires n <= |step.requests| && n <= |results| && n <= |statuses|
    ensures Inner(OutcomesOf(step, results, statuses, n))
  {
    hide OutcomeEntries, Inner;
    if n == 0 {
      NothingInner();
    } else {
      OutcomesInner(step, results, statuses, n - 1);
      OutcomeInner(step.turn, step.requests[n - 1], results[n - 1], statuses[n - 1]);
      InnerAppend(OutcomesOf(step, results, statuses, n - 1),
                  OutcomeEntries(step.turn, step.requests[n - 1], results[n - 1], statuses[n - 1]));
    }
  }

  lemma StepInner(step: DecisionStep, results: seq<SessionResult>, statuses: seq<ActionStatus>)
    requires |statuses| <= |step.requests| && |statuses| <= |results|
    ensures Inner(RequestEntries(step) + OutcomesOf(step, results, statuses, |statuses|))
  {
    OutcomesInner(step, results, statuses, |statuses|);
    hide OutcomesOf;
    assert Inner(RequestEntries(step));
    hide RequestEntries, Inner;
    InnerAppend(RequestEntries(step), OutcomesOf(step, results, statuses, |statuses|));
  }

  lemma OutcomeInner(turn: int, req: Request, result: SessionResult, status: ActionStatus)
    ensures Inner(OutcomeEntries(turn, req, result, status))
  {
  }

  lemma {:induction false} BlocksInner<M>(trace: seq<Applied<M>>)
    ensures Inner(Blocks(trace))
  {
    if trace != [] {
      var a := trace[|trace| - 1];
      BlocksInner(trace[..|trace| - 1]);
      if Shaped(a) { StepInner(a.step, a.results, a.statuses); }
      hide Inner, OutcomesOf, RequestEntries;
      assert Inner([]) by { NothingInner(); }
      InnerAppend(Blocks(trace[..|trace| - 1]), Block(a));
    }
  }

  lemma NothingInner()
    ensures Inner([])
  {
  }

  lemma UnfinishedInner(step: DecisionStep, tail: seq<Entry>)
    requires LeftBy(step, tail)
    ensures Inner(tail)
  {
    if tail != [] {
      var results: seq<SessionResult>, statuses: seq<ActionStatus> :|
        LeavesBehind(tail, step, results, statuses);
      StepInner(step, results, statuses);
    }
  }

  lemma LifecycleInner(entries: seq<Entry>)
    requires Lifecycle(entries)
    ensures Inner(entries)
  {
    hide Forgettable;
  }

  lemma OpeningInner(players: seq<Id>, w: Surroundings, tried: nat)
    requires tried <= |players|
    ensures Inner([Entry(MasterInitFailed, 0, NO_ID, Detail)])
    ensures Inner([Entry(MasterInitialized, 0, NO_ID, Detail)] + InitsOf(players, w, tried))
  {
    hide InitsOf, Lifecycle;
    InitForgettable(players, w, tried);
    LifecycleInner(InitsOf(players, w, tried));
  }

  lemma ClosingInner(players: seq<Id>, w: Surroundings, completed: bool)
    ensures Inner(ShutdownEntries(players, w, completed, |players|) + MasterShutdownEntries(w.masterShutdownFails))
  {
    hide ShutdownEntries, MasterShutdownEntries, Lifecycle, Inner;
    ShutdownForgettable(players, w, completed, |players|);
    LifecycleInner(ShutdownEntries(players, w, completed, |players|));
    MasterShutdownInner(w.masterShutdownFails);
    InnerAppend(ShutdownEntries(players, w, completed, |players|), MasterShutdownEntries(w.masterShutdownFails));
  }

  lemma MasterShutdownInner(fails: bool)
    ensures Inner(MasterShutdownEntries(fails))
  {
  }

  // The log of a match between its first and its last entry.
  ghost function Middle<M>(gm: Master<M>, start: M, players: seq<Id>, w: Surroundings, story: Story<M>, status: MatchStatus)
      : seq<Entry>
    requires story.tried <= |players|
  {
    (if gm.init(start).None? then [Entry(MasterInitFailed, 0, NO_ID, Detail)]
     else [Entry(MasterInitialized, 0, NO_ID, Detail)] + InitsOf(players, w, story.tried))
    + (Blocks(story.trace) + story.tail)
    + (ShutdownEntries(players, w, status.Completed?, |players|) + MasterShutdownEntries(w.masterShutdownFails))
  }

  lemma MiddleInner<M>(gm: Master<M>, start: M, players: seq<Id>, w: Surroundings, story: Story<M>, status: MatchStatus)
    requires story.tried <= |players| && Unfinished(gm, story.end, story.tail)
    ensures Inner(Middle(gm, start, players, w, story, status))
  {
    hide Inner, InitsOf, Blocks, LeftBy, ShutdownEntries, MasterShutdownEntries;
    OpeningInner(players, w, story.tried);
    BlocksInner(story.trace);
    if story.tail != [] { UnfinishedInner(gm.next(story.end).1.step, story.tail); } else { NothingInner(); }
    ClosingInner(players, w, status.Completed?);
    InnerAppend(Blocks(story.trace), story.tail);
    var inits := if gm.init(start).None? then [Entry(MasterInitFailed, 0, NO_ID, Detail)]
                 else [Entry(MasterInitialized, 0, NO_ID, Detail)] + InitsOf(players, w, story.tried);
    InnerAppend(inits, Blocks(story.trace) + story.tail);
    InnerAppend(inits + (Blocks(story.trace) + story.tail),
                ShutdownEntries(players, w, status.Completed?, |players|) + MasterShutdownEntries(w.masterShutdownFails));
  }

  lemma LogIsFirstMiddleLast<M>(
      gm: Master<M>, start: M, players: seq<Id>, w: Surroundings, story: Story<M>, status: MatchStatus, turn: int)
    requires story.tried <= |players|
    ensures Opening(gm, start, players, w, story.tried) + Blocks(story.trace) + story.tail
            + Closing(players, w, status, turn)
         == [Entry(MatchStarted, 0, NO_ID, Detail)] + Middle(gm, start, players, w, story, status)
            + [TerminalEntry(status, turn)]
  {
    hide InitsOf, Blocks, ShutdownEntries, MasterShutdownEntries, TerminalEntry;
  }

  // A first entry, inner entries, a last entry.
  lemma FirstInnerLast(first: Entry, inner: seq<Entry>, last: Entry)
    requires first.kind.MatchStarted? && Inner(inner) && last.kind.Terminal()
    ensures var log := [first] + inner + [last];
            && log[0] == first && log[|log| - 1] == last
            && (forall i | 0 <= i < |log| :: log[i].kind.MatchStarted? <==> i == 0)
            && (forall i | 0 <= i < |log| :: log[i].kind.Terminal() <==> i == |log| - 1)
  {
    var log := [first] + inner + [last];
    forall i | 0 < i < |log| - 1 ensures !log[i].kind.MatchStarted? && !log[i].kind.Terminal() {
      assert log[i] == inner[i - 1] && inner[i - 1] in inner;
    }
  }

  /**
    Every match, whatever the sessions, the master and the context do, leaves a log numbered from
    one, started by its only match_started and ended by its only terminal event; that event, the
    record, the snapshot and the exported snapshot agree on the status; a public replay is there only
    if the match completed; and each player's last status is that of the player's last outcome.
  */
  lemma EveryMatchIsLogged<M>(
      gm: Master<M>, start: M, players: seq<Id>, w: Surroundings, story: Story<M>, err: Option<RunError>, record: Record)
    requires Happened(gm, start, players, w, story, err, record)
    ensures var log := EntriesOf(record.events);
            && |log| >= 2 && NumberedFromOne(record.events)
            && (forall i | 0 <= i < |log| :: log[i].kind.MatchStarted? <==> i == 0)
            && (forall i | 0 <= i < |log| :: log[i].kind.Terminal() <==> i == |log| - 1)
            && (match log[|log| - 1].kind
                case MatchCompleted => record.status == Completed
                case MatchCanceled => record.status == Canceled
                case MatchFailed => record.status == Failed
                case _ => false)
            && record.snapshotStatus == record.status && record.exportedStatus == record.status
            && (record.publicReplay.Some? ==> record.status.Completed?)
            && record.lastStatuses == LastOf(players, LastStatuses(log))
  {
    hide InitsOf, Blocks, Unfinished, ShutdownEntries, MasterShutdownEntries, Live, Answered, Tried, LastStatuses, LastOf;
    hide Opening, Closing, Middle, EntriesOf, Inner, NumberedFromOne;
    MiddleInner(gm, start, players, w, story, record.status);
    LogIsFirstMiddleLast(gm, start, players, w, story, record.status, FinalTurn(record.final));
    FirstInnerLast(Entry(MatchStarted, 0, NO_ID, Detail), Middle(gm, start, players, w, story, record.status),
                   TerminalEntry(record.status, FinalTurn(record.final)));
  }

  // The last outcome of a player in a log carries this status.
  ghost predicate LastOutcomeIs(log: seq<Entry>, p: Id, status: ActionStatus) {
    exists k :: 0 <= k < |log| && TellsOf(log[k], p) && log[k].payload.status == status
      && forall m | k < m < |log| :: !TellsOf(log[m], p)
  }

  ghost predicate TellsOf(e: Entry, p: Id) {
    e.kind in {TurnResult, TurnTimeout, ProtocolError, RuntimeExited} && e.payload.Status? && e.playerID == p
  }

  lemma {:induction false} LastStatusesTell(log: seq<Entry>, p: Id)
    ensures p in LastStatuses(log) <==> exists k :: 0 <= k < |log| && TellsOf(log[k], p)
    ensures p in LastStatuses(log) ==> LastOutcomeIs(log, p, LastStatuses(log)[p])
  {
    if log != [] {
      var n := |log| - 1;
      LastStatusesTell(log[..n], p);
      if p in LastStatuses(log[..n]) && !TellsOf(log[n], p) {
        var status := LastStatuses(log)[p];
        var k :| 0 <= k < n && TellsOf(log[..n][k], p) && log[..n][k].payload.status == status
                 && forall m | k < m < n :: !TellsOf(log[..n][m], p);
        assert forall m | k < m < |log| :: m < n ==> log[..n][m] == log[m];
        assert TellsOf(log[k], p);
      } else if TellsOf(log[n], p) {
        assert LastOutcomeIs(log, p, LastStatuses(log)[p]);
      }
      if exists k :: 0 <= k < |log| && TellsOf(log[k], p) {
        var k :| 0 <= k < |log| && TellsOf(log[k], p);
        if k < n { assert TellsOf(log[..n][k], p); }
      }
    }
  }

  /** A player's last status in the record is that of the player's last outcome in the log, or empty if there is none. */
  lemma LastStatusIsLogged<M>(
      gm: Master<M>, start: M, players: seq<Id>, w: Surroundings, story: Story<M>, err: Option<RunError>, record: Record, p: Id)
    requires Happened(gm, start, players, w, story, err, record)
    ensures p in record.lastStatuses <==> p in players
    ensures p in players ==>
              var log := EntriesOf(record.events);
              || LastOutcomeIs(log, p, record.lastStatuses[p])
              || (record.lastStatuses[p] == NO_STATUS && forall k | 0 <= k < |log| :: !TellsOf(log[k], p))
  {
    hide Opening, Closing, Blocks, EntriesOf, Live, EndsAs, LoopEnds, Tried, Unfinished, Answered, LastOutcomeIs, TellsOf;
    LastStatusesTell(EntriesOf(record.events), p);
  }

  // ----- What the sessions answered -----

  // An applied step of a match, and whose answers it is made of.
  lemma StepOfRun<M>(
      gm: Master<M>, start: M, players: seq<Id>, w: Surroundings, story: Story<M>, err: Option<RunError>, record: Record, i: nat)
    requires Happened(gm, start, players, w, story, err, record) && i < |story.trace|
    ensures Played(gm, story.trace[i]) && story.trace[i].results == ResultsOf(story.trace[i].step, i, w)
  {
    hide Opening, Closing, Blocks, LeftBy, EndsAs, LastOf, LastStatuses, EntriesOf, Tried, LoopEnds, Unfinished, Live, Played;
    LiveChain(gm, gm.init(start).value, story.trace, story.end, i);
  }

  lemma {:induction false} RecordedIsLogged(log: seq<Entry>, e: Entry)
    requires e in RecordedIn(log)
    ensures e in log
  {
    if log != [] && e in RecordedIn(log[1..]) { RecordedIsLogged(log[1..], e); }
  }

  lemma {:induction false} BlockIsLogged<M>(trace: seq<Applied<M>>, i: nat, e: Entry)
    requires i < |trace| && e in Block(trace[i])
    ensures e in Blocks(trace)
  {
    hide Block;
    var n := |trace| - 1;
    if i < n { BlockIsLogged(trace[..n], i, e); }
  }

  /**
    In every match each answer of a session reaches the master as it is: the status of the j-th request of
    the i-th applied step is what the master makes of the request's player and the verdict, reason and
    action that the session came back with; it is logged under that player and turn, in an event of the
    kind of the reason; and the master applies exactly these statuses.
  */
  lemma AnswersReachTheMaster<M>(
      gm: Master<M>, start: M, players: seq<Id>, w: Surroundings, story: Story<M>, err: Option<RunError>, record: Record,
      i: nat, j: nat)
    requires Happened(gm, start, players, w, story, err, record) && i < |story.trace|
    requires j < |story.trace[i].step.requests|
    ensures var a, req, answer := story.trace[i], story.trace[i].step.requests[j], w.turns(i, j).result;
            && |a.statuses| == |a.step.requests|
            && gm.normalize(a.asked, req, ActionStatus(req.playerID, answer.verdict, answer.reason, answer.payload))
               == Some(a.statuses[j])
            && gm.next(a.entry) == (a.asked, Step(a.step)) && gm.apply(a.asked, a.step, a.statuses) == Some(a.exit)
            && var kind := if answer.reason == NoReason then TurnResult else if answer.reason == Timeout then TurnTimeout
                           else if answer.reason == RuntimeStop then RuntimeExited else ProtocolError;
               Entry(kind, a.step.turn, req.playerID, Status(a.statuses[j])) in EntriesOf(record.events)
  {
    var a := story.trace[i];
    LiveChain(gm, gm.init(start).value, story.trace, story.end, i);
    assert a.results == ResultsOf(a.step, i, w);
    StepLogsRequestsAndOutcomes(a);
    var e := OutcomeEntry(a.step, a.results, a.statuses, j);
    assert RecordedIn(Block(a))[j] == e;
    hide Block, RecordedIn, Blocks, Opening, Closing, EntriesOf, Live, EndsAs, LastOf, LastStatuses, LoopEnds, Tried;
    RecordedIsLogged(Block(a), e);
    BlockIsLogged(story.trace, i, e);
  }

  /**
    Why a match ended as it did: it completed exactly if the master had no further step and all of its
    final state was captured, and was canceled exactly if the context was done, by what stopped it or at
    the end. Nothing is applied once the context is done.
  */
  lemma MatchEndedBecause<M>(
      gm: Master<M>, start: M, players: seq<Id>, w: Surroundings, story: Story<M>, err: Option<RunError>, record: Record)
    requires Happened(gm, start, players, w, story, err, record)
    ensures record.status == Completed <==>
              err == None && gm.snapshot(story.last).Some? && gm.exported(story.last).Some? && gm.result(story.last).Some?
    ensures record.status == Canceled <==> err.Some? && (w.contextDoneAtEnd || err == Some(ContextDone))
    ensures err == None ==>
              && gm.init(start).Some? && gm.next(story.end) == (story.last, NoStep) && story.tried == |players|
              && forall i | 0 <= i < |players| :: !w.inits(i).contextDone && w.inits(i).result.verdict == Accepted
    ensures err == Some(ContextDone) ==>
              || (story.tried > 0 && w.inits(story.tried - 1).contextDone) || |story.trace| == w.rounds
              || exists n :: n >= 0 && w.turns(|story.trace|, n).contextDone
    ensures gm.init(start).Some? && story.tried > 0 && w.inits(story.tried - 1).contextDone ==> err == Some(ContextDone)
    ensures (gm.init(start).Some? && story.tried > 0 && !w.inits(story.tried - 1).contextDone
             && w.inits(story.tried - 1).result.verdict != Accepted) ==> err == Some(Broken)
    ensures forall i, j | 0 <= i < |story.trace| && 0 <= j < |story.trace[i].step.requests| :: !w.turns(i, j).contextDone
    ensures |story.trace| <= w.rounds && (err == None ==> |story.trace| < w.rounds)
  {
    hide Opening, Closing, Blocks, EntriesOf, Live, LastOf, LastStatuses, Normalized, OutcomesOf, RequestEntries, ResultsOf;
    if gm.init(start).Some? {
      var e :| Tried(players, w, story.tried, e)
               && if e.Some? then e == err && story.trace == [] && story.tail == [] && story.last == gm.init(start).value
                  else LoopEnds(gm, w, |story.trace|, story.end, story.tail, err, story.last);
      TriedMeans(players, w, story.tried, e);
      if e.None? && |story.trace| < w.rounds && err == Some(ContextDone) {
        var step := gm.next(story.end).1.step;
        var recorded :| StepEnds(gm, story.last, step, |story.trace|, w, recorded, ContextDone, story.tail);
        assert w.turns(|story.trace|, |recorded|).contextDone;
      }
    }
  }

  lemma TriedMeans(players: seq<Id>, w: Surroundings, n: nat, e: Option<RunError>)
    requires Tried(players, w, n, e)
    ensures e.None? ==> n == |players|
                        && forall i | 0 <= i < n :: !w.inits(i).contextDone && w.inits(i).result.verdict == Accepted
    ensures e.Some? ==> n > 0
    ensures n > 0 && w.inits(n - 1).contextDone <==> e == Some(ContextDone)
    ensures n > 0 && !w.inits(n - 1).contextDone && w.inits(n - 1).result.verdict != Accepted <==> e == Some(Broken)
  {
    if e.None? {
      forall i | 0 <= i < n ensures InitError(w.inits(i)).None? {}
    }
  }

  // ----- Replaying the log -----

  // Every status names its player; a replay would otherwise fill the name in.
  ghost predicate Named<M>(a: Applied<M>)
    requires Shaped(a)
  {
    forall j | 0 <= j < |a.statuses| :: a.statuses[j].playerID != NO_ID || a.step.requests[j].playerID == NO_ID
  }

  function Refilled<M>(a: Applied<M>): (statuses: seq<ActionStatus>)
    requires Shaped(a)
  {
    seq(|a.statuses|, j requires 0 <= j < |a.statuses| => DecodedStatus(Status(a.statuses[j]), a.step.requests[j].playerID))
  }

  // A replay hands the master the statuses it was handed live exactly when all of them are named.
  lemma RefilledIffNamed<M>(a: Applied<M>)
    requires Shaped(a)
    ensures Refilled(a) == a.statuses <==> Named(a)
  {
    var r := Refilled(a);
    if Named(a) {
      forall j | 0 <= j < |a.statuses| ensures r[j] == a.statuses[j] {}
    }
    if r == a.statuses {
      forall j | 0 <= j < |a.statuses| ensures a.statuses[j].playerID != NO_ID || a.step.requests[j].playerID == NO_ID {
        assert r[j] == a.statuses[j];
      }
    }
  }

  lemma {:induction false} StatusesRead<M>(a: Applied<M>, rest: seq<Entry>, n: nat)
    requires Shaped(a) && n <= |a.statuses|
    ensures StatusesFor(RecordedIn(Block(a)) + rest, a.step, n) == Some(Refilled(a)[..n])
  {
    hide Block, RecordedIn, RequestEntries;
    StepLogsRequestsAndOutcomes(a);
    if n > 0 {
      StatusesRead(a, rest, n - 1);
      assert Refilled(a)[..n] == Refilled(a)[..n - 1] + [Refilled(a)[n - 1]];
      assert (RecordedIn(Block(a)) + rest)[n - 1] == OutcomeEntry(a.step, a.results, a.statuses, n - 1);
    }
  }

  lemma StepRead<M>(a: Applied<M>, rest: seq<Entry>)
    requires Shaped(a)
    ensures var recorded := RecordedIn(Block(a)) + rest;
            && StatusesFor(recorded, a.step, |a.step.requests|) == Some(Refilled(a))
            && |a.step.requests| <= |recorded| && recorded[|a.step.requests|..] == rest
  {
    hide Block, RecordedIn, StatusesFor, RequestEntries, OutcomeEntry;
    StatusesRead(a, rest, |a.statuses|);
    StepLogsRequestsAndOutcomes(a);
    assert Refilled(a)[..|a.statuses|] == Refilled(a);
  }

  ghost function BlocksFrom<M>(trace: seq<Applied<M>>, i: nat): seq<Entry>
    requires i <= |trace|
    decreases |trace| - i
  {
    if i == |trace| then [] else Block(trace[i]) + BlocksFrom(trace, i + 1)
  }

  lemma {:induction false} BlocksSplit<M>(trace: seq<Applied<M>>, i: nat)
    requires i <= |trace|
    ensures Blocks(trace) == Blocks(trace[..i]) + BlocksFrom(trace, i)
    decreases |trace| - i
  {
    hide Block;
    if i == |trace| {
      assert trace[..i] == trace;
    } else {
      BlocksSplit(trace, i + 1);
      assert trace[..i + 1][..i] == trace[..i];
    }
  }

  // The steps of a live trace follow one another.
  lemma {:induction false} LiveChain<M>(gm: Master<M>, start: M, trace: seq<Applied<M>>, end: M, i: nat)
    requires Live(gm, start, trace, end) && i < |trace|
    ensures Played(gm, trace[i])
    ensures trace[i].entry == (if i == 0 then start else trace[i - 1].exit)
    ensures i == |trace| - 1 ==> trace[i].exit == end
  {
    hide Played;
    var n := |trace| - 1;
    if i < n {
      LiveChain(gm, start, trace[..n], trace[n].entry, i);
    } else if n > 0 {
      LiveChain(gm, start, trace[..n], trace[n].entry, n - 1);
    }
  }

  // Where the live master stood after i applied steps.
  ghost function StoodAt<M>(trace: seq<Applied<M>>, end: M, i: nat): M
    requires i <= |trace|
  {
    if i < |trace| then trace[i].entry else end
  }

  lemma {:induction false} LivePrefix<M>(gm: Master<M>, start: M, trace: seq<Applied<M>>, end: M, t: nat)
    requires Live(gm, start, trace, end) && t <= |trace|
    ensures Live(gm, start, trace[..t], StoodAt(trace, end, t))
  {
    hide Played;
    if t == |trace| {
      assert trace[..t] == trace;
    } else {
      var n := |trace| - 1;
      LivePrefix(gm, start, trace[..n], trace[n].entry, t);
      assert trace[..n][..t] == trace[..t];
    }
  }

  // What a replay to the target answers at the first step it does not apply.
  function AnswerAt<M>(gm: Master<M>, m: M, target: int): Replayed {
    var (asked, next) := gm.next(m);
    match next
    case StepError => MasterError
    case NoStep => AtTheEnd(gm, asked, target)
    case Step(_) => SnapshotOf(gm, asked)
  }

  predicate StopsAt<M>(gm: Master<M>, m: M, target: int) {
    match gm.next(m).1 case Step(step) => step.turn > target case _ => true
  }

  lemma StopAnswers<M>(gm: Master<M>, m: M, recorded: seq<Entry>, target: int, budget: nat)
    requires StopsAt(gm, m, target) && budget > 0
    ensures ReplayFrom(gm, m, recorded, target, budget) == AnswerAt(gm, m, target)
  {
    hide StatusesFor;
  }

  lemma {:induction false} ReplayCatchesUp<M>(
      gm: Master<M>, start: M, trace: seq<Applied<M>>, end: M, i: nat, k: nat, rest: seq<Entry>, target: int, budget: nat)
    requires Live(gm, start, trace, end) && i <= k <= |trace| && budget > k - i
    requires forall j | 0 <= j < k :: Shaped(trace[j]) && Named(trace[j]) && trace[j].step.turn <= target
    requires StopsAt(gm, StoodAt(trace, end, k), target)
    ensures ReplayFrom(gm, StoodAt(trace, end, i), RecordedIn(BlocksFrom(trace, i)) + rest, target, budget)
         == AnswerAt(gm, StoodAt(trace, end, k), target)
    decreases k - i
  {
    hide RecordedIn, Block, StatusesFor, ReplayFrom, AnswerAt, StopsAt, Live, Refilled, Named;
    if i == k {
      StopAnswers(gm, StoodAt(trace, end, k), RecordedIn(BlocksFrom(trace, i)) + rest, target, budget);
    } else {
      var a := trace[i];
      LiveChain(gm, start, trace, end, i);
      if i + 1 < |trace| { LiveChain(gm, start, trace, end, i + 1); }
      var later := RecordedIn(BlocksFrom(trace, i + 1)) + rest;
      RecordedAppend(Block(a), BlocksFrom(trace, i + 1));
      assert RecordedIn(BlocksFrom(trace, i)) + rest == RecordedIn(Block(a)) + later;
      StepRead(a, later);
      RefilledIffNamed(a);
      ReplayRound(gm, a.entry, RecordedIn(Block(a)) + later, target, budget);
      ReplayCatchesUp(gm, start, trace, end, i + 1, k, rest, target, budget - 1);
    }
  }

  // A session that accepts its initialization has not stopped, as every player session ensures.
  ghost predicate CleanInits(players: seq<Id>, w: Surroundings) {
    forall i | 0 <= i < |players| :: !(w.inits(i).result.verdict.Accepted? && w.inits(i).result.reason.RuntimeStop?)
  }

  lemma {:induction false} NothingRecordedAtStart(players: seq<Id>, w: Surroundings, n: nat)
    requires n <= |players| && CleanInits(players, w) && forall i | 0 <= i < n :: InitError(w.inits(i)).None?
    ensures RecordedIn(InitsOf(players, w, n)) == []
  {
    if n == 0 {
      RecordedNone([]);
    } else {
      NothingRecordedAtStart(players, w, n - 1);
      InitUnrecorded(players[n - 1], w.inits(n - 1));
      hide RecordedIn, InitEntries;
      RecordedAppend(InitsOf(players, w, n - 1), InitEntries(players[n - 1], w.inits(n - 1)));
    }
  }

  lemma InitUnrecorded(p: Id, x: Execution)
    requires InitError(x).None? && !x.result.reason.RuntimeStop?
    ensures RecordedIn(InitEntries(p, x)) == []
  {
    RecordedNone(InitEntries(p, x));
  }

  lemma OpeningUnrecorded<M>(
      gm: Master<M>, start: M, players: seq<Id>, w: Surroundings, story: Story<M>, err: Option<RunError>, record: Record)
    requires Happened(gm, start, players, w, story, err, record) && gm.init(start).Some?
    requires CleanInits(players, w) && story.trace != []
    ensures RecordedIn(Opening(gm, start, players, w, story.tried)) == []
  {
    hide Blocks, Unfinished, Answered, Live, EndsAs, LastOf, LastStatuses, EntriesOf, Closing, CleanInits, InitsOf;
    hide RecordedIn, NumberedFromOne, Tried;
    var e :| Tried(players, w, story.tried, e) && (e.Some? ==> e == err && story.trace == [] && story.tail == []);
    AllTried(players, w, story.tried);
    NothingRecordedAtStart(players, w, story.tried);
    var front := [Entry(MatchStarted, 0, NO_ID, Detail), Entry(MasterInitialized, 0, NO_ID, Detail)];
    assert Opening(gm, start, players, w, story.tried) == front + InitsOf(players, w, story.tried);
    hide Happened, Opening;
    RecordedNone(front);
    RecordedAppend(front, InitsOf(players, w, story.tried));
  }

  lemma AllTried(players: seq<Id>, w: Surroundings, n: nat)
    requires Tried(players, w, n, None)
    ensures forall i | 0 <= i < n :: InitError(w.inits(i)).None?
  {
  }

  lemma LogRecords<M>(
      gm: Master<M>, start: M, players: seq<Id>, w: Surroundings, story: Story<M>, err: Option<RunError>, record: Record)
    requires Happened(gm, start, players, w, story, err, record) && gm.init(start).Some?
    requires CleanInits(players, w) && story.trace != []
    ensures RecordedIn(EntriesOf(record.events))
         == RecordedIn(BlocksFrom(story.trace, 0))
            + RecordedIn(story.tail + Closing(players, w, record.status, FinalTurn(record.final)))
  {
    OpeningUnrecorded(gm, start, players, w, story, err, record);
    BlocksSplit(story.trace, 0);
    assert story.trace[..0] == [] && Blocks(story.trace[..0]) + BlocksFrom(story.trace, 0) == BlocksFrom(story.trace, 0);
    hide RecordedIn, Opening, Closing, Blocks, BlocksFrom, Unfinished, Answered, Live, Tried, EndsAs, LastOf, LastStatuses;
    var opening := Opening(gm, start, players, w, story.tried);
    RecordedParts(opening, Blocks(story.trace), story.tail, Closing(players, w, record.status, FinalTurn(record.final)));
    hide EntriesOf;
  }

  lemma RecordedParts(opening: seq<Entry>, blocks: seq<Entry>, tail: seq<Entry>, closing: seq<Entry>)
    requires RecordedIn(opening) == []
    ensures RecordedIn(opening + blocks + tail + closing) == RecordedIn(blocks) + RecordedIn(tail + closing)
  {
    RecordedAppend(opening, blocks + (tail + closing));
    RecordedAppend(blocks, tail + closing);
    hide RecordedIn;
    assert opening + blocks + tail + closing == opening + (blocks + (tail + closing));
    assert [] + (RecordedIn(blocks) + RecordedIn(tail + closing)) == RecordedIn(blocks) + RecordedIn(tail + closing);
  }

  /**
    For every deterministic master and every match played on it: let k be the first step whose turn
    exceeds the target, or the end of the match, with all earlier steps applied live. Then replaying
    the log of the match to the target answers with the snapshot the live master had when asked for
    step k, and at the end of the match with its final snapshot if that reaches the target.
  */
  lemma ReplayIsLive<M>(
      gm: Master<M>, start: M, players: seq<Id>, w: Surroundings, story: Story<M>, err: Option<RunError>, record: Record,
      k: nat, target: int, budget: nat)
    requires Happened(gm, start, players, w, story, err, record) && gm.init(start).Some?
    requires CleanInits(players, w) && target >= 0 && k <= |story.trace| && budget > k
    requires forall j | 0 <= j < k ::
               Shaped(story.trace[j]) && Named(story.trace[j]) && story.trace[j].step.turn <= target
    requires StopsAt(gm, StoodAt(story.trace, story.end, k), target)
    ensures ReplayLog(gm, start, EntriesOf(record.events), target, budget)
         == AnswerAt(gm, StoodAt(story.trace, story.end, k), target)
  {
    var log, m := EntriesOf(record.events), gm.init(start).value;
    if k == 0 {
      StoodAtStart(gm, m, story);
      StopAnswers(gm, m, RecordedIn(log), target, budget);
    } else {
      LogRecords(gm, start, players, w, story, err, record);
      StoodAtStart(gm, m, story);
      hide RecordedIn, ReplayFrom, AnswerAt, StopsAt, BlocksFrom, Closing, Opening, Blocks, Named;
      ReplayCatchesUp(gm, m, story.trace, story.end, 0, k,
                      RecordedIn(story.tail + Closing(players, w, record.status, FinalTurn(record.final))), target, budget);
    }
  }

  lemma StoodAtStart<M>(gm: Master<M>, m: M, story: Story<M>)
    requires Live(gm, m, story.trace, story.end)
    ensures StoodAt(story.trace, story.end, 0) == m
  {
    if story.trace != [] { LiveChain(gm, m, story.trace, story.end, 0); }
  }

  // A master that blanks the player in every status, and counts on not being told.
  function Blanking(b: Body): Master<int> {
    Master(
      m => Some(m),
      m => if m == 0 then (m, Step(OneRequest(b))) else (m, NoStep),
      (m, r, s: ActionStatus) => Some(s.(playerID := NO_ID)),
      (m, step, ss: seq<ActionStatus>) => Some(if |ss| == 1 && ss[0].playerID == NO_ID then 1 else 2),
      m => Some(Snapshot(m, b)),
      m => Some(b),
      m => Some(b),
      m => None)
  }

  function OneRequest(b: Body): DecisionStep { DecisionStep(0, Sequential, [Request(Id("p"), b)]) }

  function Blanked(b: Body): (a: Applied<int>)
    ensures Shaped(a)
  {
    Applied(0, 0, OneRequest(b), [SessionResult(Accepted, NoReason, None, [], false)],
            [ActionStatus(NO_ID, Accepted, NoReason, None)], 1)
  }

  lemma BlankedPlayed(b: Body)
    ensures Played(Blanking(b), Blanked(b)) && StopsAt(Blanking(b), 1, 0)
    ensures AnswerAt(Blanking(b), 1, 0) == Found(Snapshot(1, b)) && AnswerAt(Blanking(b), 2, 0) == Found(Snapshot(2, b))
  {
  }

  lemma BlankedRefilled(b: Body)
    ensures !Named(Blanked(b))
    ensures Blanking(b).apply(0, OneRequest(b), Refilled(Blanked(b))) == Some(2)
  {
    var a := Blanked(b);
    assert Id("p") != NO_ID by { assert |"p"| != |""|; }
    assert a.statuses[0].playerID == NO_ID && a.step.requests[0].playerID == Id("p");
    assert Refilled(a)[0].playerID == Id("p");
  }

  // Without names the replay can differ from the match.
  lemma UnnamedStatusDiverges(b: Body)
    ensures var gm, a := Blanking(b), Blanked(b);
            && Played(gm, a) && !Named(a) && StopsAt(gm, a.exit, a.step.turn)
            && ReplayFrom(gm, a.entry, RecordedIn(Block(a)), a.step.turn, 2) != AnswerAt(gm, a.exit, a.step.turn)
  {
    var gm, a := Blanking(b), Blanked(b);
    BlankedPlayed(b);
    BlankedRefilled(b);
    hide RecordedIn, Block, StatusesFor, Played, Refilled, Named, AnswerAt, ReplayFrom;
    StepRead(a, []);
    var recorded := RecordedIn(Block(a)) + [];
    assert recorded == RecordedIn(Block(a));
    ReplayRound(gm, 0, recorded, 0, 2);
    StopAnswers(gm, 2, recorded[1..], 0, 1);
  }
}
