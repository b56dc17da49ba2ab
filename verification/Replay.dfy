/**
  Replaying a match from its event log (internal/platform/replay/session_history.go): a fresh game
  master is driven with the recorded action statuses up to a target turn. The log a runner leaves
  behind brings it to exactly the state the live master was in.
*/
module Replay {
  import opened Identifiers
  import opened GameTypes
  import opened MatchRunner

  datatype Replayed = Found(snapshot: Snapshot) | BadTarget | MasterError | Mismatch | TargetExceedsEnd | OutOfBudget

  // ----- Recorded outcomes -----

  // The entries a replay reads, in order.
  function RecordedIn(log: seq<Entry>): seq<Entry> {
    if log == [] then [] else (if log[0].kind.Recorded() then [log[0]] else []) + RecordedIn(log[1..])
  }

  lemma {:induction false} RecordedAppend(a: seq<Entry>, b: seq<Entry>)
    ensures RecordedIn(a + b) == RecordedIn(a) + RecordedIn(b)
  {
    if a == [] {
      assert a + b == b;
    } else {
      var head := if a[0].kind.Recorded() then [a[0]] else [];
      assert (a + b)[0] == a[0] && (a + b)[1..] == a[1..] + b;
      RecordedAppend(a[1..], b);
      assert RecordedIn(a + b) == head + RecordedIn(a[1..] + b);
    }
  }

  lemma {:induction false} RecordedNone(log: seq<Entry>)
    requires forall e | e in log :: !e.kind.Recorded()
    ensures RecordedIn(log) == []
  {
    if log != [] { RecordedNone(log[1..]); }
  }

  // The status an event decodes to; an absent player id is filled in with the requested one.
  function DecodedStatus(payload: EventPayload, playerID: Id): ActionStatus {
    var status := if payload.Status? then payload.status else NO_STATUS;
    if status.playerID == NO_ID then status.(playerID := playerID) else status
  }

  function StatusAt(recorded: seq<Entry>, k: nat, turn: int, playerID: Id): Option<ActionStatus> {
    if k >= |recorded| || recorded[k].turn != turn || recorded[k].playerID != playerID then None
    else Some(DecodedStatus(recorded[k].payload, playerID))
  }

  // The statuses of the first n requests of a step, taken from the front of the record.
  function StatusesFor(recorded: seq<Entry>, step: DecisionStep, n: nat): Option<seq<ActionStatus>>
    requires n <= |step.requests|
  {
    if n == 0 then Some([])
    else match StatusesFor(recorded, step, n - 1)
      case None => None
      case Some(front) =>
        match StatusAt(recorded, n - 1, step.turn, step.requests[n - 1].playerID)
        case None => None
        case Some(status) => Some(front + [status])
  }

  lemma {:induction false} StatusesForCount(recorded: seq<Entry>, step: DecisionStep, n: nat)
    requires n <= |step.requests|
    ensures StatusesFor(recorded, step, n).Some? ==> |StatusesFor(recorded, step, n).value| == n <= |recorded|
  {
    if n > 0 { StatusesForCount(recorded, step, n - 1); }
  }

  function SnapshotOf<M>(gm: Master<M>, m: M): Replayed {
    match gm.snapshot(m) case None => MasterError case Some(s) => Found(s)
  }

  function AtTheEnd<M>(gm: Master<M>, m: M, target: int): Replayed {
    match gm.snapshot(m)
    case None => MasterError
    case Some(s) => if s.turn < target then TargetExceedsEnd else Found(s)
  }

  // Driving a master from m with the recorded outcomes.
  function ReplayFrom<M>(gm: Master<M>, m: M, recorded: seq<Entry>, target: int, budget: nat): Replayed
    decreases budget
  {
    if budget == 0 then OutOfBudget
    else
      var (asked, next) := gm.next(m);
      match next
      case StepError => MasterError
      case NoStep => AtTheEnd(gm, asked, target)
      case Step(step) =>
        if step.turn > target then SnapshotOf(gm, asked)
        else match StatusesFor(recorded, step, |step.requests|)
          case None => Mismatch
          case Some(statuses) =>
            match gm.apply(asked, step, statuses)
            case None => MasterError
            case Some(exit) =>
              StatusesForCount(recorded, step, |step.requests|);
              ReplayFrom(gm, exit, recorded[|step.requests|..], target, budget - 1)
  }

  function ReplayLog<M>(gm: Master<M>, start: M, log: seq<Entry>, target: int, budget: nat): Replayed {
    if target < 0 then BadTarget
    else match gm.init(start)
      case None => MasterError
      case Some(m) => ReplayFrom(gm, m, RecordedIn(log), target, budget)
  }

  // Every step asks someone.
  ghost predicate Asks<M(!new)>(gm: Master<M>) {
    forall m: M :: gm.next(m).1.Step? ==> gm.next(m).1.step.requests != []
  }

  /**
    The budget does not matter: an answer found within one is the answer of every larger one, and for
    a master whose steps ask someone one more than the recorded outcomes is always enough.
  */
  lemma {:induction false} BudgetDoesNotMatter<M(!new)>(
      gm: Master<M>, m: M, recorded: seq<Entry>, target: int, budget: nat, larger: nat)
    requires budget <= larger
    ensures !ReplayFrom(gm, m, recorded, target, budget).OutOfBudget?
            ==> ReplayFrom(gm, m, recorded, target, larger) == ReplayFrom(gm, m, recorded, target, budget)
    ensures Asks(gm) && budget > |recorded| ==> !ReplayFrom(gm, m, recorded, target, budget).OutOfBudget?
    decreases budget
  {
    hide StatusesFor, AtTheEnd, SnapshotOf;
    var (asked, next) := gm.next(m);
    EndOutcome(gm, asked, target);
    if budget > 0 && next.Step? && next.step.turn <= target {
      var statuses := StatusesFor(recorded, next.step, |next.step.requests|);
      if statuses.Some? && gm.apply(asked, next.step, statuses.value).Some? {
        StatusesForCount(recorded, next.step, |next.step.requests|);
        BudgetDoesNotMatter(gm, gm.apply(asked, next.step, statuses.value).value, recorded[|next.step.requests|..], target,
                            budget - 1, larger - 1);
      }
    }
  }

  // ----- The replay itself -----

  lemma RecordedStep(events: seq<Event>, i: nat)
    requires i < |events|
    ensures RecordedIn(EntriesOf(events)[i..])
         == (if events[i].entry.kind.Recorded() then [events[i].entry] else []) + RecordedIn(EntriesOf(events)[i + 1..])
  {
    assert EntriesOf(events)[i..][1..] == EntriesOf(events)[i + 1..];
  }

  /** internal/platform/replay/session_history.go:69-111 */
  method ConsumeRecordedActionStatus(events: seq<Event>, start: nat, turn: int, playerID: Id)
      returns (r: Option<ActionStatus>, next: nat)
    requires start <= |events|
    ensures next <= |events|
    ensures var recorded := RecordedIn(EntriesOf(events)[start..]);
            && r == StatusAt(recorded, 0, turn, playerID)
            && (r.Some? ==> RecordedIn(EntriesOf(events)[next..]) == recorded[1..])
  {
    hide RecordedIn, EntriesOf;
    var i: nat := start;
    while i < |events|
      invariant start <= i <= |events|
      invariant RecordedIn(EntriesOf(events)[i..]) == RecordedIn(EntriesOf(events)[start..])
    {
      var entry := events[i].entry;
      RecordedStep(events, i);
      if !entry.kind.Recorded() { i := i + 1; continue; }
      if entry.turn != turn || entry.playerID != playerID { return None, i; }
      var status := if entry.payload.Status? then entry.payload.status else NO_STATUS;
      if status.playerID == NO_ID { status := status.(playerID := playerID); }
      return Some(status), i + 1;
    }
    NothingRecordedAfterAll(events);
    return None, |events|;
  }

  lemma NothingRecordedAfterAll(events: seq<Event>)
    ensures RecordedIn(EntriesOf(events)[|events|..]) == []
  {
  }

  lemma StatusAtShift(recorded: seq<Entry>, k: nat, turn: int, playerID: Id)
    requires k <= |recorded|
    ensures StatusAt(recorded[k..], 0, turn, playerID) == StatusAt(recorded, k, turn, playerID)
  {
  }

  // A mismatch at one request is a mismatch of the step.
  lemma {:induction false} StatusesForFails(recorded: seq<Entry>, step: DecisionStep, k: nat, n: nat)
    requires k < n <= |step.requests| && StatusAt(recorded, k, step.turn, step.requests[k].playerID).None?
    ensures StatusesFor(recorded, step, n).None?
  {
    if k < n - 1 { StatusesForFails(recorded, step, k, n - 1); }
  }

  /** internal/platform/replay/session_history.go:16-67 */
  method SnapshotFromSessionHistory<M>(gm: Master<M>, start: M, events: seq<Event>, targetTurn: int, budget: nat)
      returns (r: Replayed)
    ensures r == ReplayLog(gm, start, EntriesOf(events), targetTurn, budget)
  {
    hide RecordedIn, EntriesOf, StatusesFor, StatusAt, AtTheEnd, SnapshotOf, ReplayFrom;
    if targetTurn < 0 { return BadTarget; }
    var session := gm.init(start);
    if session.None? { return MasterError; }
    var m, cursor: nat, left: nat := session.value, 0, budget;
    ghost var recorded := RecordedIn(EntriesOf(events));
    ghost var goal := ReplayFrom(gm, m, recorded, targetTurn, budget);
    assert EntriesOf(events)[0..] == EntriesOf(events);
    while left > 0
      invariant cursor <= |events| && recorded == RecordedIn(EntriesOf(events)[cursor..])
      invariant goal == ReplayFrom(gm, m, recorded, targetTurn, left)
    {
      ReplayRound(gm, m, recorded, targetTurn, left);
      var (asked, next) := gm.next(m);
      if next.StepError? { return MasterError; }
      EndOutcome(gm, asked, targetTurn);
      if next.NoStep? {
        var snapshot := gm.snapshot(asked);
        if snapshot.None? { return MasterError; }
        if snapshot.value.turn < targetTurn { return TargetExceedsEnd; }
        return Found(snapshot.value);
      }
      if next.step.turn > targetTurn {
        var snapshot := gm.snapshot(asked);
        if snapshot.None? { return MasterError; }
        return Found(snapshot.value);
      }
      var statuses, nextCursor := ReadStatuses(events, cursor, next.step);
      if statuses.None? { return Mismatch; }
      var applied := gm.apply(asked, next.step, statuses.value);
      if applied.None? { return MasterError; }
      m, left, cursor := applied.value, left - 1, nextCursor;
      recorded := recorded[|next.step.requests|..];
    }
    ReplayEmpty(gm, m, recorded, targetTurn);
    return OutOfBudget;
  }

  lemma ReplayEmpty<M>(gm: Master<M>, m: M, recorded: seq<Entry>, target: int)
    ensures ReplayFrom(gm, m, recorded, target, 0) == OutOfBudget
  {
  }

  lemma ReplayRound<M>(gm: Master<M>, m: M, recorded: seq<Entry>, target: int, budget: nat)
    requires budget > 0
    ensures var (asked, next) := gm.next(m);
            var r := ReplayFrom(gm, m, recorded, target, budget);
            match next
            case StepError => r == MasterError
            case NoStep => r == AtTheEnd(gm, asked, target)
            case Step(step) =>
              if step.turn > target then r == SnapshotOf(gm, asked)
              else match StatusesFor(recorded, step, |step.requests|)
                case None => r == Mismatch
                case Some(statuses) =>
                  && |step.requests| <= |recorded|
                  && match gm.apply(asked, step, statuses)
                     case None => r == MasterError
                     case Some(exit) => r == ReplayFrom(gm, exit, recorded[|step.requests|..], target, budget - 1)
  {
    hide StatusesFor, AtTheEnd, SnapshotOf;
    var next := gm.next(m).1;
    if next.Step? { StatusesForCount(recorded, next.step, |next.step.requests|); }
  }

  // The recorded statuses of one step (internal/platform/replay/session_history.go:54-62).
  method ReadStatuses(events: seq<Event>, start: nat, step: DecisionStep)
      returns (r: Option<seq<ActionStatus>>, next: nat)
    requires start <= |events|
    ensures next <= |events|
    ensures var recorded := RecordedIn(EntriesOf(events)[start..]);
            && r == StatusesFor(recorded, step, |step.requests|)
            && (r.Some? ==> |step.requests| <= |recorded|
                            && RecordedIn(EntriesOf(events)[next..]) == recorded[|step.requests|..])
  {
    hide RecordedIn, EntriesOf, StatusesFor, StatusAt;
    ghost var recorded := RecordedIn(EntriesOf(events)[start..]);
    var statuses: seq<ActionStatus> := [];
    next := start;
    NoStatusesFor(recorded, step);
    for i := 0 to |step.requests|
      invariant i <= |recorded| && next <= |events|
      invariant recorded[i..] == RecordedIn(EntriesOf(events)[next..])
      invariant StatusesFor(recorded, step, i) == Some(statuses)
    {
      var playerID := step.requests[i].playerID;
      var status, nextCursor := ConsumeRecordedActionStatus(events, next, step.turn, playerID);
      StatusAtShift(recorded, i, step.turn, playerID);
      if status.None? {
        StatusesForFails(recorded, step, i, |step.requests|);
        return None, nextCursor;
      }
      StatusesForNext(recorded, step, i, statuses, status.value);
      assert recorded[i..][1..] == recorded[i + 1..];
      next := nextCursor;
      statuses := statuses + [status.value];
    }
    return Some(statuses), next;
  }

  lemma EndOutcome<M>(gm: Master<M>, m: M, target: int)
    ensures SnapshotOf(gm, m) == match gm.snapshot(m) case None => MasterError case Some(s) => Found(s)
    ensures AtTheEnd(gm, m, target) == match gm.snapshot(m)
                                       case None => MasterError
                                       case Some(s) => if s.turn < target then TargetExceedsEnd else Found(s)
  {
  }

  lemma NoStatusesFor(recorded: seq<Entry>, step: DecisionStep)
    ensures StatusesFor(recorded, step, 0) == Some([])
  {
  }

  lemma StatusesForNext(recorded: seq<Entry>, step: DecisionStep, i: nat, front: seq<ActionStatus>, status: ActionStatus)
    requires i < |step.requests| && StatusesFor(recorded, step, i) == Some(front)
    requires StatusAt(recorded, i, step.turn, step.requests[i].playerID) == Some(status)
    ensures i < |recorded| && StatusesFor(recorded, step, i + 1) == Some(front + [status])
  {
  }
}
