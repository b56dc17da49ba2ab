/**
  What a replay answers for any event log at all, also one that no match has left: it follows the recorded
  outcomes as long as they are those of the steps that the master asks for
  (internal/platform/replay/session_history.go:16-111).
*/
module ReplayOutcomes {
  import opened Identifiers
  import opened GameTypes
  import opened MatchRunner
  import opened Replay

  // The entry is an outcome of the player in the turn, and tells the status, under a name in any case.
  ghost predicate Answers(e: Entry, turn: int, p: Id, status: ActionStatus) {
    && e.turn == turn && e.playerID == p
    && if e.payload.Status? && e.payload.status.playerID != NO_ID then status == e.payload.status
       else && status.playerID == p
            && (e.payload.Status? ==> status.(playerID := NO_ID) == e.payload.status)
            && (e.payload.Detail? ==> status.verdict == Unset && status.reason == NoReason && status.action == None)
  }

  // The recorded outcomes begin with those of the step, one for each request in order.
  ghost predicate AnswersStep(recorded: seq<Entry>, step: DecisionStep, statuses: seq<ActionStatus>) {
    && |statuses| == |step.requests| <= |recorded|
    && forall j | 0 <= j < |statuses| :: Answers(recorded[j], step.turn, step.requests[j].playerID, statuses[j])
  }

  lemma StatusIs(recorded: seq<Entry>, k: nat, turn: int, p: Id, status: ActionStatus)
    ensures StatusAt(recorded, k, turn, p) == Some(status) <==> k < |recorded| && Answers(recorded[k], turn, p, status)
  {
  }

  lemma {:induction false} StatusesAre(recorded: seq<Entry>, step: DecisionStep, n: nat, statuses: seq<ActionStatus>)
    requires n <= |step.requests|
    ensures StatusesFor(recorded, step, n) == Some(statuses)
       <==> && |statuses| == n <= |recorded|
            && forall j | 0 <= j < n :: Answers(recorded[j], step.turn, step.requests[j].playerID, statuses[j])
  {
    hide StatusAt, Answers;
    if n > 0 {
      var k := n - 1;
      var p := step.requests[k].playerID;
      if |statuses| == n {
        StatusesAre(recorded, step, k, statuses[..k]);
        StatusIs(recorded, k, step.turn, p, statuses[k]);
        assert statuses == statuses[..k] + [statuses[k]];
      }
      if StatusesFor(recorded, step, n).Some? { StatusesForCount(recorded, step, n); }
      if StatusesFor(recorded, step, n) == Some(statuses) {
        var front := StatusesFor(recorded, step, k).value;
        assert statuses[..k] == front;
      }
    }
  }

  // The master is asked for a step that is due by the target.
  ghost predicate Due<M>(gm: Master<M>, m: M, target: int) {
    gm.next(m).1.Step? && gm.next(m).1.step.turn <= target
  }

  // Some number of due steps were answered by the record and applied; this is where the master is then, and
  // what is left of the record.
  ghost predicate Followed<M(!new)>(
      gm: Master<M>, m: M, recorded: seq<Entry>, target: int, rounds: nat, end: M, rest: seq<Entry>)
  {
    if rounds == 0 then end == m && rest == recorded
    else
      && Due(gm, m, target)
      && exists statuses, exit :: OneRound(gm, m, recorded, statuses, exit)
           && Followed(gm, exit, recorded[|statuses|..], target, rounds - 1, end, rest)
  }

  ghost predicate OneRound<M>(gm: Master<M>, m: M, recorded: seq<Entry>, statuses: seq<ActionStatus>, exit: M)
  {
    var (asked, next) := gm.next(m);
    && next.Step? && AnswersStep(recorded, next.step, statuses) && gm.apply(asked, next.step, statuses) == Some(exit)
  }

  // The master is beyond the target, or at its end and not before the target.
  ghost predicate Settles<M>(gm: Master<M>, m: M, target: int, s: Snapshot) {
    var (asked, next) := gm.next(m);
    && gm.snapshot(asked) == Some(s)
    && ((next.Step? && next.step.turn > target) || (next.NoStep? && s.turn >= target))
  }

  // The record does not go on with the outcomes of the step that is due.
  ghost predicate Parts<M>(gm: Master<M>, m: M, recorded: seq<Entry>, target: int) {
    Due(gm, m, target) && forall statuses :: !AnswersStep(recorded, gm.next(m).1.step, statuses)
  }

  ghost predicate RoundGives<M>(gm: Master<M>, m: M, recorded: seq<Entry>, statuses: seq<ActionStatus>, exit: M) {
    var (asked, next) := gm.next(m);
    && next.Step? && StatusesFor(recorded, next.step, |next.step.requests|) == Some(statuses)
    && gm.apply(asked, next.step, statuses) == Some(exit)
  }

  lemma RoundIs<M>(gm: Master<M>, m: M, recorded: seq<Entry>, statuses: seq<ActionStatus>, exit: M)
    ensures OneRound(gm, m, recorded, statuses, exit) <==> RoundGives(gm, m, recorded, statuses, exit)
    ensures OneRound(gm, m, recorded, statuses, exit) ==> |statuses| <= |recorded|
  {
    if gm.next(m).1.Step? { StatusesAre(recorded, gm.next(m).1.step, |gm.next(m).1.step.requests|, statuses); }
  }

  lemma PartsIff<M>(gm: Master<M>, m: M, recorded: seq<Entry>, target: int)
    ensures Parts(gm, m, recorded, target) <==>
              Due(gm, m, target) && StatusesFor(recorded, gm.next(m).1.step, |gm.next(m).1.step.requests|).None?
  {
    hide AnswersStep, StatusesFor;
    if Due(gm, m, target) {
      var step := gm.next(m).1.step;
      forall statuses
        ensures AnswersStep(recorded, step, statuses) <==> StatusesFor(recorded, step, |step.requests|) == Some(statuses)
      {
        AnswersStepIff(recorded, step, statuses);
      }
      if StatusesFor(recorded, step, |step.requests|).Some? {
        assert AnswersStep(recorded, step, StatusesFor(recorded, step, |step.requests|).value);
      }
    }
  }

  lemma AnswersStepIff(recorded: seq<Entry>, step: DecisionStep, statuses: seq<ActionStatus>)
    ensures AnswersStep(recorded, step, statuses) <==> StatusesFor(recorded, step, |step.requests|) == Some(statuses)
  {
    hide StatusesFor, Answers;
    StatusesAre(recorded, step, |step.requests|, statuses);
  }

  // Following the record for less than so many rounds leads to a snapshot, or to where the record parts.
  ghost predicate Answered<M(!new)>(gm: Master<M>, m: M, recorded: seq<Entry>, target: int, budget: nat, s: Snapshot) {
    exists rounds: nat, end, rest ::
      rounds < budget && Followed(gm, m, recorded, target, rounds, end, rest) && Settles(gm, end, target, s)
  }

  ghost predicate Mismatched<M(!new)>(gm: Master<M>, m: M, recorded: seq<Entry>, target: int, budget: nat) {
    exists rounds: nat, end, rest ::
      rounds < budget && Followed(gm, m, recorded, target, rounds, end, rest) && Parts(gm, end, rest, target)
  }

  lemma FollowedNext<M(!new)>(
      gm: Master<M>, m: M, recorded: seq<Entry>, target: int, statuses: seq<ActionStatus>, exit: M, rounds: nat, end: M,
      rest: seq<Entry>)
    requires Due(gm, m, target) && OneRound(gm, m, recorded, statuses, exit) && |statuses| <= |recorded|
    ensures Followed(gm, exit, recorded[|statuses|..], target, rounds, end, rest) <==>
              Followed(gm, m, recorded, target, rounds + 1, end, rest)
  {
    hide StatusesFor, AnswersStep;
    forall told, exit' | OneRound(gm, m, recorded, told, exit') ensures told == statuses && exit' == exit {
      RoundIs(gm, m, recorded, told, exit');
      RoundIs(gm, m, recorded, statuses, exit);
    }
  }

  // A round is followed by the rest of the rounds.
  lemma RoundGoesOn<M(!new)>(
      gm: Master<M>, m: M, recorded: seq<Entry>, target: int, budget: nat, s: Snapshot, statuses: seq<ActionStatus>, exit: M)
    requires budget > 0 && Due(gm, m, target) && OneRound(gm, m, recorded, statuses, exit) && |statuses| <= |recorded|
    ensures Answered(gm, m, recorded, target, budget, s) <==>
              Answered(gm, exit, recorded[|statuses|..], target, budget - 1, s)
    ensures Mismatched(gm, m, recorded, target, budget) <==>
              Mismatched(gm, exit, recorded[|statuses|..], target, budget - 1)
  {
    hide Followed, OneRound, Due;
    var left := recorded[|statuses|..];
    forall rounds: nat, end, rest
      ensures Followed(gm, exit, left, target, rounds, end, rest) <==>
              Followed(gm, m, recorded, target, rounds + 1, end, rest)
    {
      FollowedNext(gm, m, recorded, target, statuses, exit, rounds, end, rest);
    }
    DueIsNoEnd(gm, m, recorded, target, statuses, exit, s);
    if Answered(gm, m, recorded, target, budget, s) {
      var rounds: nat, end, rest :|
        rounds < budget && Followed(gm, m, recorded, target, rounds, end, rest) && Settles(gm, end, target, s);
      if rounds == 0 { FollowedNowhere(gm, m, recorded, target, end, rest); }
      assert Followed(gm, exit, left, target, rounds - 1, end, rest);
    }
    if Mismatched(gm, m, recorded, target, budget) {
      var rounds: nat, end, rest :|
        rounds < budget && Followed(gm, m, recorded, target, rounds, end, rest) && Parts(gm, end, rest, target);
      if rounds == 0 { FollowedNowhere(gm, m, recorded, target, end, rest); }
      assert Followed(gm, exit, left, target, rounds - 1, end, rest);
    }
  }

  lemma FollowedNowhere<M(!new)>(gm: Master<M>, m: M, recorded: seq<Entry>, target: int, end: M, rest: seq<Entry>)
    ensures Followed(gm, m, recorded, target, 0, end, rest) <==> end == m && rest == recorded
  {
  }

  lemma DueIsNoEnd<M>(
      gm: Master<M>, m: M, recorded: seq<Entry>, target: int, statuses: seq<ActionStatus>, exit: M, s: Snapshot)
    requires Due(gm, m, target) && OneRound(gm, m, recorded, statuses, exit)
    ensures !Settles(gm, m, target, s) && !Parts(gm, m, recorded, target)
  {
    hide AnswersStep;
  }

  // Without a round nothing but the master at hand decides.
  lemma NoRoundFollows<M(!new)>(gm: Master<M>, m: M, recorded: seq<Entry>, target: int, budget: nat, s: Snapshot)
    requires budget > 0 && forall statuses, exit :: !(Due(gm, m, target) && OneRound(gm, m, recorded, statuses, exit))
    ensures Answered(gm, m, recorded, target, budget, s) <==> Settles(gm, m, target, s)
    ensures Mismatched(gm, m, recorded, target, budget) <==> Parts(gm, m, recorded, target)
  {
    hide OneRound, Settles, Parts, Due;
    FollowedNowhere(gm, m, recorded, target, m, recorded);
  }

  /**
    For any master and any record: a replay answers with a snapshot exactly if the record leads, by due steps
    answered in order and applied, to where the master is beyond the target or at its end and gives that
    snapshot; and it reports a mismatch exactly if it leads to a due step that it does not go on with.
  */
  lemma {:induction false} AnswerIff<M(!new)>(
      gm: Master<M>, m: M, recorded: seq<Entry>, target: int, budget: nat, s: Snapshot)
    ensures ReplayFrom(gm, m, recorded, target, budget) == Found(s) <==> Answered(gm, m, recorded, target, budget, s)
    ensures ReplayFrom(gm, m, recorded, target, budget) == Mismatch <==> Mismatched(gm, m, recorded, target, budget)
    decreases budget
  {
    hide StatusesFor, AnswersStep, OneRound, Answered, Mismatched, ReplayFrom;
    if budget == 0 {
      ReplayEmpty(gm, m, recorded, target);
      NothingInNoRounds(gm, m, recorded, target, s);
    } else {
      ReplayRound(gm, m, recorded, target, budget);
      EndOutcome(gm, gm.next(m).0, target);
      PartsIff(gm, m, recorded, target);
      var (asked, next) := gm.next(m);
      var told := if next.Step? then StatusesFor(recorded, next.step, |next.step.requests|) else None;
      if Due(gm, m, target) && told.Some? && gm.apply(asked, next.step, told.value).Some? {
        var exit := gm.apply(asked, next.step, told.value).value;
        RoundIs(gm, m, recorded, told.value, exit);
        RoundGoesOn(gm, m, recorded, target, budget, s, told.value, exit);
        AnswerIff(gm, exit, recorded[|told.value|..], target, budget - 1, s);
        StatusesForCount(recorded, next.step, |next.step.requests|);
      } else {
        forall statuses, exit ensures !(Due(gm, m, target) && OneRound(gm, m, recorded, statuses, exit)) {
          RoundIs(gm, m, recorded, statuses, exit);
        }
        NoRoundFollows(gm, m, recorded, target, budget, s);
      }
    }
  }

  lemma NothingInNoRounds<M(!new)>(gm: Master<M>, m: M, recorded: seq<Entry>, target: int, s: Snapshot)
    ensures !Answered(gm, m, recorded, target, 0, s) && !Mismatched(gm, m, recorded, target, 0)
  {
  }

  lemma {:induction false} TargetIsNotBad<M(!new)>(gm: Master<M>, m: M, recorded: seq<Entry>, target: int, budget: nat)
    ensures ReplayFrom(gm, m, recorded, target, budget) != BadTarget
    decreases budget
  {
    hide StatusesFor;
    if budget == 0 {
      ReplayEmpty(gm, m, recorded, target);
    } else {
      ReplayRound(gm, m, recorded, target, budget);
      EndOutcome(gm, gm.next(m).0, target);
      hide ReplayFrom, AtTheEnd, SnapshotOf;
      var (asked, next) := gm.next(m);
      if next.Step? && next.step.turn <= target {
        var statuses := StatusesFor(recorded, next.step, |next.step.requests|);
        if statuses.Some? && gm.apply(asked, next.step, statuses.value).Some? {
          TargetIsNotBad(gm, gm.apply(asked, next.step, statuses.value).value, recorded[|next.step.requests|..], target,
                         budget - 1);
        }
      }
    }
  }

  /** The same for a whole replay, of a log and a target that may be bad: it reads the recorded outcomes alone. */
  lemma ReplayVerdict<M(!new)>(gm: Master<M>, start: M, log: seq<Entry>, target: int, budget: nat, s: Snapshot)
    ensures var r, started := ReplayLog(gm, start, log, target, budget), gm.init(start);
            && (r == BadTarget <==> target < 0)
            && (target >= 0 && started.None? ==> r == MasterError)
            && (target >= 0 && started.Some? ==>
                  && (r == Found(s) <==> Answered(gm, started.value, RecordedIn(log), target, budget, s))
                  && (r == Mismatch <==> Mismatched(gm, started.value, RecordedIn(log), target, budget)))
  {
    hide RecordedIn, ReplayFrom, Answered, Mismatched;
    if target >= 0 && gm.init(start).Some? {
      AnswerIff(gm, gm.init(start).value, RecordedIn(log), target, budget, s);
      TargetIsNotBad(gm, gm.init(start).value, RecordedIn(log), target, budget);
    }
  }
}
