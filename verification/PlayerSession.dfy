/**
  One player's request/response session over a FIFO transport, with timeouts and late answers
  (internal/platform/session/session.go). Session.Call is the code; below it, a step machine puts
  the session together with a player that answers each request once, in order, with any delay.
*/
module PlayerSession {
  import opened Identifiers

  type Payload(==, !new)

  // A decoded response line carries either a result or an error.
  datatype Response = Response(id: Id, isError: bool, payload: Payload)

  datatype Message = Reply(response: Response) | Blank | Undecodable(cause: string) | RuntimeStopped(cause: string)

  // What one select of the receive loop observes.
  datatype Arrival = ContextDone | TimerFired | ChannelClosed | Got(message: Message)

  datatype Decision = Accepted | NoAction
  datatype Reason = NoReason | Timeout | Malformed | MismatchedId | RuntimeStop

  datatype Result = Result(decision: Decision, reason: Reason, payload: Option<Payload>, ignored: seq<Id>, cause: string)

  function Failed(reason: Reason): Result { Result(NoAction, reason, None, [], "") }

  // The late ids, the late-response notifications and the result when a call returns, and how
  // many of the arrivals it took.
  datatype CallEnd = CallEnd(late: set<Id>, notified: seq<Id>, result: Result, taken: nat)

  // What one arrival does to a call: it ends it, or a late id is struck off, or nothing happens.
  datatype Effect = Return(late: set<Id>, result: Result) | Strike(id: Id) | Skip

  ghost function OnArrival(late: set<Id>, id: Id, ignored: seq<Id>, arrival: Arrival): Effect {
    match arrival
    case ContextDone => Return(late + {id}, Failed(Timeout))
    case TimerFired => Return(late + {id}, Failed(Timeout))
    case ChannelClosed => Return(late, Failed(RuntimeStop))
    case Got(RuntimeStopped(cause)) => Return(late, Result(NoAction, RuntimeStop, None, [], cause))
    case Got(Undecodable(_)) => Return(late, Failed(Malformed))
    case Got(Blank) => Skip
    case Got(Reply(response)) =>
      if response.id in late then Strike(response.id)
      else if response.id != id then Return(late, Failed(MismatchedId))
      else if response.isError then Return(late, Result(NoAction, Malformed, None, ignored, ""))
      else Return(late, Result(Accepted, NoReason, Some(response.payload), ignored, ""))
  }

  // The end of a call seen one arrival earlier.
  ghost function Later(notified: seq<Id>, end: CallEnd): CallEnd {
    CallEnd(end.late, notified + end.notified, end.result, end.taken + 1)
  }

  // A whole receive loop. The timer is armed, so when nothing more arrives it fires.
  ghost function Receive(late: set<Id>, id: Id, ignored: seq<Id>, arrivals: seq<Arrival>): CallEnd
    decreases |arrivals|
  {
    var arrival := if arrivals == [] then TimerFired else arrivals[0];
    var taken := if arrivals == [] then 0 else 1;
    match OnArrival(late, id, ignored, arrival)
    case Return(late', result) => CallEnd(late', [], result, taken)
    case Strike(stale) => Later([stale], Receive(late - {stale}, id, ignored + [stale], arrivals[1..]))
    case Skip => Later([], Receive(late, id, ignored, arrivals[1..]))
  }

  lemma ReceiveFirst(late: set<Id>, id: Id, ignored: seq<Id>, arrivals: seq<Arrival>)
    requires arrivals != []
    ensures var end, effect := Receive(late, id, ignored, arrivals), OnArrival(late, id, ignored, arrivals[0]);
            && (effect.Return? ==> end == CallEnd(effect.late, [], effect.result, 1))
            && (effect.Strike? ==>
                  end == Later([effect.id], Receive(late - {effect.id}, id, ignored + [effect.id], arrivals[1..])))
            && (effect.Skip? ==> end == Later([], Receive(late, id, ignored, arrivals[1..])))
  {
    hide OnArrival;
  }

  // A call's end in terms of the end of what is left of it.
  ghost function Resumed(struck: seq<Id>, taken: nat, end: CallEnd): CallEnd {
    CallEnd(end.late, struck + end.notified, end.result, taken + end.taken)
  }

  lemma ResumedLater(struck: seq<Id>, taken: nat, stale: seq<Id>, end: CallEnd)
    ensures Resumed(struck, taken, Later(stale, end)) == Resumed(struck + stale, taken + 1, end)
    ensures stale == [] ==> Resumed(struck, taken, Later(stale, end)) == Resumed(struck, taken + 1, end)
  {
    assert struck + (stale + end.notified) == (struck + stale) + end.notified;
    if stale == [] { assert struck + stale == struck; }
  }

  lemma ReceiveNothing(late: set<Id>, id: Id, ignored: seq<Id>)
    ensures Receive(late, id, ignored, []) == CallEnd(late + {id}, [], Failed(Timeout), 0)
  {
  }

  // The causes of the undecodable messages among the arrivals.
  ghost function Undecoded(arrivals: seq<Arrival>): seq<string> {
    if arrivals == [] then []
    else
      var n := |arrivals| - 1;
      Undecoded(arrivals[..n])
      + if arrivals[n].Got? && arrivals[n].message.Undecodable? then [arrivals[n].message.cause] else []
  }

  lemma UndecodedNext(arrivals: seq<Arrival>, n: nat)
    requires n < |arrivals|
    ensures Undecoded(arrivals[..n + 1])
         == Undecoded(arrivals[..n])
            + if arrivals[n].Got? && arrivals[n].message.Undecodable? then [arrivals[n].message.cause] else []
  {
    assert arrivals[..n + 1][..n] == arrivals[..n];
  }

  lemma NothingUndecoded()
    ensures Undecoded([]) == []
  {
  }

  class Session {
    var lateIDs: set<Id>
    var notified: seq<Id>       // the late-response hook's calls, oldest first
    var malformed: seq<string>  // the malformed-message hook's calls, oldest first

    constructor ()
      ensures lateIDs == {} && notified == [] && malformed == []
    {
      lateIDs, notified, malformed := {}, [], [];
    }

    /**
      internal/platform/session/session.go:108-174. Whether the request could be marshalled and
      sent, and what the selects observe, are inputs.
    */
    method Call(id: Id, marshalled: bool, sent: bool, arrivals: seq<Arrival>) returns (result: Result, taken: nat)
      modifies this
      ensures !marshalled ==> result == Failed(Malformed) && taken == 0
      ensures marshalled && !sent ==> result == Failed(RuntimeStop) && taken == 0
      ensures !(marshalled && sent) ==> lateIDs == old(lateIDs) && notified == old(notified) && malformed == old(malformed)
      ensures marshalled && sent ==>
                var end := Receive(old(lateIDs), id, [], arrivals);
                && lateIDs == end.late && notified == old(notified) + end.notified
                && result == end.result && taken == end.taken <= |arrivals|
                && malformed == old(malformed) + Undecoded(arrivals[..taken])
    {
      hide Receive, Later, Undecoded;
      if !marshalled { return Failed(Malformed), 0; }
      if !sent { return Failed(RuntimeStop), 0; }
      var ignored: seq<Id> := [];
      ghost var goal := Receive(lateIDs, id, ignored, arrivals);
      taken := 0;
      assert arrivals[..0] == [] && Undecoded([]) == [] by { NothingUndecoded(); }
      assert arrivals[0..] == arrivals;
      while taken < |arrivals|
        invariant taken <= |arrivals|
        invariant notified == old(notified) + ignored
        invariant malformed == old(malformed) && Undecoded(arrivals[..taken]) == []
        invariant goal == Resumed(ignored, taken, Receive(lateIDs, id, ignored, arrivals[taken..]))
        decreases |arrivals| - taken
      {
        var arrival := arrivals[taken];
        UndecodedNext(arrivals, taken);
        assert arrivals[taken..][1..] == arrivals[taken + 1..];
        ReceiveFirst(lateIDs, id, ignored, arrivals[taken..]);
        ghost var rest := arrivals[taken + 1..];
        taken := taken + 1;
        match arrival {
          case ContextDone =>
            lateIDs := lateIDs + {id};
            return Failed(Timeout), taken;
          case TimerFired =>
            lateIDs := lateIDs + {id};
            return Failed(Timeout), taken;
          case ChannelClosed =>
            return Failed(RuntimeStop), taken;
          case Got(RuntimeStopped(cause)) =>
            return Result(NoAction, RuntimeStop, None, [], cause), taken;
          case Got(Undecodable(cause)) =>
            malformed := malformed + [cause];
            return Failed(Malformed), taken;
          case Got(Blank) =>
            ResumedLater(ignored, taken - 1, [], Receive(lateIDs, id, ignored, rest));
          case Got(Reply(response)) =>
            if response.id in lateIDs {
              ResumedLater(ignored, taken - 1, [response.id],
                           Receive(lateIDs - {response.id}, id, ignored + [response.id], rest));
              lateIDs := lateIDs - {response.id};
              ignored := ignored + [response.id];
              notified := notified + [response.id];
            } else if response.id != id {
              return Failed(MismatchedId), taken;
            } else if response.isError {
              return Result(NoAction, Malformed, None, ignored, ""), taken;
            } else {
              return Result(Accepted, NoReason, Some(response.payload), ignored, ""), taken;
            }
        }
      }
      assert arrivals[taken..] == [];
      ReceiveNothing(lateIDs, id, ignored);
      lateIDs := lateIDs + {id};
      return Failed(Timeout), taken;
    }
  }

  // ---------------------------------------------------------------------------------------
  // Any player at all
  // ---------------------------------------------------------------------------------------

  // The late ids left when the call has taken n arrivals without returning.
  ghost function LateAfter(late: set<Id>, id: Id, arrivals: seq<Arrival>, n: nat): set<Id>
    requires n <= |arrivals|
  {
    if n == 0 then late
    else match OnArrival(late, id, [], arrivals[0])
      case Strike(stale) => LateAfter(late - {stale}, id, arrivals[1..], n - 1)
      case _ => LateAfter(late, id, arrivals[1..], n - 1)
  }

  // Whatever the player sends, a call is accepted only on a non-error reply that carries the
  // current id, and that id is not one of the late ids at that moment.
  lemma {:induction false} AcceptedAnswersCurrent(late: set<Id>, id: Id, ignored: seq<Id>, arrivals: seq<Arrival>)
    ensures var end := Receive(late, id, ignored, arrivals);
            end.result.decision == Accepted ==>
              && 1 <= end.taken <= |arrivals| && end.result.payload.Some?
              && arrivals[end.taken - 1] == Got(Reply(Response(id, false, end.result.payload.value)))
              && id !in LateAfter(late, id, arrivals, end.taken - 1)
              && end.result.ignored == ignored + end.notified
              && end.late == LateAfter(late, id, arrivals, end.taken - 1)
    decreases |arrivals|
  {
    hide Receive;
    if arrivals == [] {
      ReceiveNothing(late, id, ignored);
    } else {
      ReceiveFirst(late, id, ignored, arrivals);
      match OnArrival(late, id, ignored, arrivals[0])
      case Return(_, _) =>
      case Strike(stale) =>
        AcceptedAnswersCurrent(late - {stale}, id, ignored + [stale], arrivals[1..]);
        var rest := Receive(late - {stale}, id, ignored + [stale], arrivals[1..]);
        assert ignored + [stale] + rest.notified == ignored + ([stale] + rest.notified);
      case Skip =>
        AcceptedAnswersCurrent(late, id, ignored, arrivals[1..]);
    }
  }

  // ---------------------------------------------------------------------------------------
  // A player that answers each request once, in order, with its own id and any delay
  // ---------------------------------------------------------------------------------------

  /**
    The session with such a player behind two FIFO channels. `sent` and `answered` are histories:
    the ids sent so far, and the answer given to each id.
  */
  datatype World = World(
    late: set<Id>,
    notified: seq<Id>,
    current: Option<Id>,
    ignored: seq<Id>,          // late ids struck off during the current call
    requests: seq<Id>,         // sent, not yet answered
    channel: seq<Message>,     // answered, not yet received
    sent: seq<Id>,
    answered: map<Id, Response>,
    timedOut: set<Id>,
    outcomes: seq<(Id, Result)>)

  const START := World({}, [], None, [], [], [], [], map[], {}, [])

  datatype Action =
    | Begin(id: Id)
    | Answer(isError: bool, payload: Payload)
    | Noise
    | Take
    | GiveUp(byContext: bool)

  ghost predicate Enabled(w: World, action: Action) {
    match action
    case Begin(id) => w.current.None? && id !in w.sent
    case Answer(_, _) => w.requests != []
    case Noise => true
    case Take => w.current.Some? && w.channel != []
    case GiveUp(_) => w.current.Some?
  }

  // The arrival a step of the receive loop observes.
  ghost function Observed(w: World, action: Action): Arrival
    requires action.Take? ==> w.channel != []
  {
    match action
    case Take => Got(w.channel[0])
    case GiveUp(byContext) => if byContext then ContextDone else TimerFired
    case _ => TimerFired
  }

  ghost function Next(w: World, action: Action): World
    requires Enabled(w, action)
  {
    match action
    case Begin(id) =>
      w.(current := Some(id), ignored := [], requests := w.requests + [id], sent := w.sent + [id])
    case Answer(isError, payload) =>
      var answer := Response(w.requests[0], isError, payload);
      w.(requests := w.requests[1..], channel := w.channel + [Reply(answer)],
         answered := w.answered[answer.id := answer])
    case Noise => w.(channel := w.channel + [Blank])
    case Take => Observe(w.(channel := w.channel[1..]), Observed(w, action))
    case GiveUp(_) =>
      Observe(w.(timedOut := w.timedOut + {w.current.value}), Observed(w, action))
  }

  // The loop body's effect, the same one that Receive folds over the arrivals of a call.
  ghost function Observe(w: World, arrival: Arrival): World
    requires w.current.Some?
  {
    match OnArrival(w.late, w.current.value, w.ignored, arrival)
    case Return(late, result) =>
      w.(late := late, current := None, outcomes := w.outcomes + [(w.current.value, result)])
    case Strike(stale) =>
      w.(late := w.late - {stale}, notified := w.notified + [stale], ignored := w.ignored + [stale])
    case Skip => w
  }

  ghost predicate Feasible(w: World, actions: seq<Action>)
    decreases |actions|
  {
    actions == [] || (Enabled(w, actions[0]) && Feasible(Next(w, actions[0]), actions[1..]))
  }

  ghost function After(w: World, actions: seq<Action>): World
    requires Feasible(w, actions)
    decreases |actions|
  {
    if actions == [] then w else After(Next(w, actions[0]), actions[1..])
  }

  // The rest of one call: it ends with the last of the actions and not before.
  ghost predicate RestOfCall(w: World, actions: seq<Action>)
    requires Feasible(w, actions)
    decreases |actions|
  {
    && w.current.Some? && actions != []
    && var w' := Next(w, actions[0]);
       if w'.current.None? then |actions| == 1 else RestOfCall(w', actions[1..])
  }

  ghost function Arrivals(w: World, actions: seq<Action>): seq<Arrival>
    requires Feasible(w, actions)
    decreases |actions|
  {
    if actions == [] then []
    else
      (if actions[0].Take? || actions[0].GiveUp? then [Observed(w, actions[0])] else [])
      + Arrivals(Next(w, actions[0]), actions[1..])
  }

  // The step machine's calls are runs of the session's own receive loop.
  lemma {:induction false} CallIsReceive(w: World, actions: seq<Action>)
    requires Feasible(w, actions) && RestOfCall(w, actions)
    ensures var id, w' := w.current.value, After(w, actions);
            var end := Receive(w.late, id, w.ignored, Arrivals(w, actions));
            && w'.late == end.late
            && w'.notified == w.notified + end.notified
            && w'.outcomes == w.outcomes + [(id, end.result)]
            && end.taken == |Arrivals(w, actions)|
    decreases |actions|
  {
    hide Receive, Next, OnArrival;
    var action, w1, rest := actions[0], Next(w, actions[0]), actions[1..];
    var arrivals := Arrivals(w, actions);
    CallStep(w, action);
    if action.Take? || action.GiveUp? {
      assert arrivals == [Observed(w, action)] + Arrivals(w1, rest) && arrivals[1..] == Arrivals(w1, rest);
      ReceiveFirst(w.late, w.current.value, w.ignored, arrivals);
    } else {
      assert arrivals == Arrivals(w1, rest);
    }
    if w1.current.None? {
      assert rest == [];
    } else {
      CallIsReceive(w1, rest);
    }
  }

  // One step of a call: the effect of what it observes, or nothing that the receive loop sees.
  lemma CallStep(w: World, action: Action)
    requires Enabled(w, action) && w.current.Some?
    ensures var w1 := Next(w, action);
            !(action.Take? || action.GiveUp?) ==>
              && w1.late == w.late && w1.current == w.current && w1.outcomes == w.outcomes
              && w1.notified == w.notified && w1.ignored == w.ignored
    ensures action.Take? || action.GiveUp? ==>
              var w1, effect := Next(w, action), OnArrival(w.late, w.current.value, w.ignored, Observed(w, action));
              && (effect.Return? ==>
                    && w1.late == effect.late && w1.current == None && w1.notified == w.notified
                    && w1.outcomes == w.outcomes + [(w.current.value, effect.result)])
              && (effect.Strike? ==>
                    && w1.late == w.late - {effect.id} && w1.current == w.current && w1.outcomes == w.outcomes
                    && w1.notified == w.notified + [effect.id] && w1.ignored == w.ignored + [effect.id])
              && (effect.Skip? ==>
                    && w1.late == w.late && w1.current == w.current && w1.outcomes == w.outcomes
                    && w1.notified == w.notified && w1.ignored == w.ignored)
  {
    hide OnArrival;
  }

  ghost function Replies(channel: seq<Message>): seq<Id> {
    if channel == [] then []
    else (if channel[0].Reply? then [channel[0].response.id] else []) + Replies(channel[1..])
  }

  // Sent and not yet received back, oldest first.
  ghost function Outstanding(w: World): seq<Id> { Replies(w.channel) + w.requests }

  ghost predicate Orderly(sent: seq<Id>, outstanding: seq<Id>, current: Option<Id>) {
    && Distinct(sent)
    && |outstanding| <= |sent|
    && outstanding == sent[|sent| - |outstanding|..]
    && (current.Some? ==> outstanding != [] && sent[|sent| - 1] == current.value)
  }

  // The late ids are exactly the timed-out ids that are still unanswered or undelivered.
  ghost predicate LateExact(
      late: set<Id>, timedOut: set<Id>, outstanding: seq<Id>, sent: seq<Id>, current: Option<Id>) {
    && (forall id :: id in timedOut ==> id in sent && current != Some(id))
    && (forall id :: id in late <==> id in timedOut && id in outstanding)
    && (forall id :: id in outstanding ==> id in timedOut || current == Some(id))
  }

  // Each timed-out id whose answer arrived was reported late, once.
  ghost predicate NotifiedExact(notified: seq<Id>, timedOut: set<Id>, outstanding: seq<Id>) {
    && Distinct(notified)
    && (forall id :: id in notified <==> id in timedOut && id !in outstanding)
  }

  ghost predicate AnswersKept(
      channel: seq<Message>, answered: map<Id, Response>, requests: seq<Id>, sent: seq<Id>) {
    && (forall i | 0 <= i < |channel| :: channel[i].Reply? || channel[i].Blank?)
    && (forall i | 0 <= i < |channel| && channel[i].Reply? ::
          channel[i].response.id in answered && answered[channel[i].response.id] == channel[i].response)
    && (forall id :: id in answered ==> id in sent && id !in requests)
  }

  // A call's outcome is the answer to that very request, or its timeout; nothing else is reported.
  ghost predicate Right(answered: map<Id, Response>, timedOut: set<Id>, id: Id, result: Result) {
    || (result == Failed(Timeout) && id in timedOut)
    || (&& id in answered && id !in timedOut
        && (if answered[id].isError
            then result.decision == NoAction && result.reason == Malformed
            else result.decision == Accepted && result.reason == NoReason && result.payload == Some(answered[id].payload)))
  }

  ghost predicate OutcomesRight(
      outcomes: seq<(Id, Result)>, answered: map<Id, Response>, timedOut: set<Id>, sent: seq<Id>, current: Option<Id>) {
    forall i | 0 <= i < |outcomes| ::
      && Right(answered, timedOut, outcomes[i].0, outcomes[i].1)
      && outcomes[i].0 in sent && current != Some(outcomes[i].0)
  }

  ghost predicate Inv(w: World) {
    && Orderly(w.sent, Outstanding(w), w.current)
    && LateExact(w.late, w.timedOut, Outstanding(w), w.sent, w.current)
    && NotifiedExact(w.notified, w.timedOut, Outstanding(w))
    && AnswersKept(w.channel, w.answered, w.requests, w.sent)
    && OutcomesRight(w.outcomes, w.answered, w.timedOut, w.sent, w.current)
  }

  lemma {:induction false} RepliesAppend(a: seq<Message>, b: seq<Message>)
    ensures Replies(a + b) == Replies(a) + Replies(b)
  {
    if a == [] {
      assert a + b == b;
    } else {
      var head := if a[0].Reply? then [a[0].response.id] else [];
      assert (a + b)[0] == a[0] && (a + b)[1..] == a[1..] + b;
      RepliesAppend(a[1..], b);
      assert Replies(a + b) == head + Replies(a[1..] + b);
    }
  }

  lemma SuffixDistinct(sent: seq<Id>, outstanding: seq<Id>, current: Option<Id>)
    requires Orderly(sent, outstanding, current)
    ensures Distinct(outstanding)
    ensures forall id :: id in outstanding ==> id in sent
    ensures outstanding != [] ==> outstanding[0] !in outstanding[1..]
    ensures outstanding != [] ==> outstanding[|outstanding| - 1] == sent[|sent| - 1]
    ensures outstanding != [] ==> Orderly(sent, outstanding[1..], None)
  {
    var received := |sent| - |outstanding|;
    assert forall i | 0 <= i < |outstanding| :: outstanding[i] == sent[received + i];
    if outstanding != [] { assert outstanding[1..] == sent[received + 1..]; }
  }

  // ----- Begin -----

  lemma OrderlyBegin(sent: seq<Id>, outstanding: seq<Id>, id: Id)
    requires Orderly(sent, outstanding, None) && id !in sent
    ensures Orderly(sent + [id], outstanding + [id], Some(id))
  {
    var received := |sent| - |outstanding|;
    DistinctSnoc(sent, id);
    assert (sent + [id])[received..] == sent[received..] + [id];
  }

  lemma LateBegin(late: set<Id>, timedOut: set<Id>, outstanding: seq<Id>, sent: seq<Id>, id: Id)
    requires LateExact(late, timedOut, outstanding, sent, None)
    requires id !in sent && id !in outstanding
    ensures LateExact(late, timedOut, outstanding + [id], sent + [id], Some(id))
  {
  }

  lemma KeptBegin(w: World, id: Id)
    requires AnswersKept(w.channel, w.answered, w.requests, w.sent) && id !in w.sent
    requires OutcomesRight(w.outcomes, w.answered, w.timedOut, w.sent, w.current)
    ensures AnswersKept(w.channel, w.answered, w.requests + [id], w.sent + [id])
    ensures OutcomesRight(w.outcomes, w.answered, w.timedOut, w.sent + [id], Some(id))
  {
  }

  lemma BeginKeeps(w: World, id: Id)
    requires Inv(w) && Enabled(w, Begin(id))
    ensures Inv(Next(w, Begin(id)))
  {
    hide Orderly, LateExact, NotifiedExact, AnswersKept, OutcomesRight, Distinct, Replies;
    SuffixDistinct(w.sent, Outstanding(w), None);
    assert Outstanding(Next(w, Begin(id))) == Outstanding(w) + [id];
    OrderlyBegin(w.sent, Outstanding(w), id);
    LateBegin(w.late, w.timedOut, Outstanding(w), w.sent, id);
    assert id !in w.timedOut by { TimedOutSent(w); }
    NotifiedOther(w.notified, w.timedOut, Outstanding(w), Outstanding(w) + [id]);
    KeptBegin(w, id);
  }

  lemma TimedOutSent(w: World)
    requires LateExact(w.late, w.timedOut, Outstanding(w), w.sent, w.current)
    ensures forall id :: id in w.timedOut ==> id in w.sent && w.current != Some(id)
  {
  }

  lemma NotifiedOther(notified: seq<Id>, timedOut: set<Id>, outstanding: seq<Id>, outstanding': seq<Id>)
    requires NotifiedExact(notified, timedOut, outstanding)
    requires forall id | id in timedOut :: id in outstanding <==> id in outstanding'
    ensures NotifiedExact(notified, timedOut, outstanding')
  {
  }

  // ----- Answer -----

  lemma RepliesReply(channel: seq<Message>, answer: Response)
    ensures Replies(channel + [Reply(answer)]) == Replies(channel) + [answer.id]
  {
    RepliesAppend(channel, [Reply(answer)]);
    assert [Reply(answer)][1..] == [];
  }

  // Answering moves the oldest request into the channel; what is outstanding stays.
  lemma AnswerMoves(channel: seq<Message>, requests: seq<Id>, answer: Response)
    requires requests != [] && answer.id == requests[0]
    requires Distinct(Replies(channel) + requests)
    ensures Replies(channel + [Reply(answer)]) + requests[1..] == Replies(channel) + requests
    ensures answer.id in Replies(channel) + requests && answer.id !in requests[1..]
  {
    hide Replies, Distinct;
    RepliesReply(channel, answer);
    MoveFirst(Replies(channel), requests);
  }

  lemma MoveFirst(replies: seq<Id>, requests: seq<Id>)
    requires requests != [] && Distinct(replies + requests)
    ensures replies + [requests[0]] + requests[1..] == replies + requests
    ensures requests[0] in replies + requests && requests[0] !in requests[1..]
  {
    DistinctAppend(replies, requests);
    assert (replies + requests)[|replies|] == requests[0];
  }

  lemma KeptAnswer(w: World, answer: Response)
    requires AnswersKept(w.channel, w.answered, w.requests, w.sent)
    requires OutcomesRight(w.outcomes, w.answered, w.timedOut, w.sent, w.current)
    requires w.requests != [] && answer.id == w.requests[0] && answer.id in w.sent && answer.id !in w.requests[1..]
    ensures AnswersKept(w.channel + [Reply(answer)], w.answered[answer.id := answer], w.requests[1..], w.sent)
    ensures OutcomesRight(w.outcomes, w.answered[answer.id := answer], w.timedOut, w.sent, w.current)
  {
    assert answer.id !in w.answered;
  }

  lemma AnswerKeeps(w: World, isError: bool, payload: Payload)
    requires Inv(w) && Enabled(w, Answer(isError, payload))
    ensures Inv(Next(w, Answer(isError, payload)))
  {
    hide Orderly, LateExact, NotifiedExact, AnswersKept, OutcomesRight, Distinct, Replies;
    var answer := Response(w.requests[0], isError, payload);
    SuffixDistinct(w.sent, Outstanding(w), w.current);
    AnswerMoves(w.channel, w.requests, answer);
    KeptAnswer(w, answer);
  }

  // ----- Noise and GiveUp -----

  lemma NoiseNext(w: World)
    ensures Next(w, Noise) == w.(channel := w.channel + [Blank])
  {
  }

  lemma RepliesBlank(channel: seq<Message>)
    ensures Replies(channel + [Blank]) == Replies(channel)
  {
    RepliesAppend(channel, [Blank]);
    assert [Blank][1..] == [];
  }

  lemma KeptNoise(channel: seq<Message>, answered: map<Id, Response>, requests: seq<Id>, sent: seq<Id>)
    requires AnswersKept(channel, answered, requests, sent)
    ensures AnswersKept(channel + [Blank], answered, requests, sent)
  {
  }

  lemma NoiseKeeps(w: World)
    requires Inv(w)
    ensures Inv(Next(w, Noise))
  {
    hide Orderly, LateExact, NotifiedExact, AnswersKept, OutcomesRight, Distinct, Replies, Next;
    NoiseNext(w);
    RepliesBlank(w.channel);
    KeptNoise(w.channel, w.answered, w.requests, w.sent);
  }

  lemma LateGiveUp(late: set<Id>, timedOut: set<Id>, outstanding: seq<Id>, sent: seq<Id>, id: Id)
    requires LateExact(late, timedOut, outstanding, sent, Some(id))
    requires id in outstanding && id in sent
    ensures LateExact(late + {id}, timedOut + {id}, outstanding, sent, None)
  {
  }

  lemma NotifiedGiveUp(notified: seq<Id>, timedOut: set<Id>, outstanding: seq<Id>, id: Id)
    requires NotifiedExact(notified, timedOut, outstanding) && id in outstanding
    ensures NotifiedExact(notified, timedOut + {id}, outstanding)
  {
  }

  lemma CurrentIsLast(sent: seq<Id>, outstanding: seq<Id>, id: Id)
    requires Orderly(sent, outstanding, Some(id))
    ensures id in sent && id in outstanding
    ensures Orderly(sent, outstanding, None)
  {
    SuffixDistinct(sent, outstanding, Some(id));
    assert outstanding[|outstanding| - 1] == id;
  }

  lemma OutcomesEnd(w: World, id: Id, timedOut: set<Id>, result: Result)
    requires w.current == Some(id) && id in w.sent
    requires OutcomesRight(w.outcomes, w.answered, w.timedOut, w.sent, w.current)
    requires w.timedOut <= timedOut <= w.timedOut + {id}
    requires Right(w.answered, timedOut, id, result)
    ensures OutcomesRight(w.outcomes + [(id, result)], w.answered, timedOut, w.sent, None)
  {
  }

  lemma GiveUpKeeps(w: World, byContext: bool)
    requires Inv(w) && Enabled(w, GiveUp(byContext))
    ensures Inv(Next(w, GiveUp(byContext)))
  {
    hide Orderly, LateExact, NotifiedExact, AnswersKept, OutcomesRight, Distinct, Replies, Next;
    var id := w.current.value;
    CurrentIsLast(w.sent, Outstanding(w), id);
    LateGiveUp(w.late, w.timedOut, Outstanding(w), w.sent, id);
    NotifiedGiveUp(w.notified, w.timedOut, Outstanding(w), id);
    OutcomesEnd(w, id, w.timedOut + {id}, Failed(Timeout));
    GivenUp(w, byContext);
  }

  lemma GivenUp(w: World, byContext: bool)
    requires Enabled(w, GiveUp(byContext))
    ensures var id := w.current.value;
            Next(w, GiveUp(byContext))
            == w.(timedOut := w.timedOut + {id}, late := w.late + {id}, current := None,
                  outcomes := w.outcomes + [(id, Failed(Timeout))])
  {
  }

  // ----- Take -----

  lemma KeptTake(channel: seq<Message>, answered: map<Id, Response>, requests: seq<Id>, sent: seq<Id>)
    requires channel != [] && AnswersKept(channel, answered, requests, sent)
    ensures AnswersKept(channel[1..], answered, requests, sent)
    ensures channel[0].Reply? || channel[0].Blank?
    ensures channel[0].Reply? ==>
              channel[0].response.id in answered && answered[channel[0].response.id] == channel[0].response
  {
  }

  lemma TakeBlankNext(w: World)
    requires Enabled(w, Take) && w.channel[0].Blank?
    ensures Next(w, Take) == w.(channel := w.channel[1..])
  {
  }

  lemma TakeReplyNext(w: World)
    requires Enabled(w, Take) && w.channel[0].Reply?
    ensures Next(w, Take).channel == w.channel[1..] && Next(w, Take).requests == w.requests
  {
  }

  lemma FirstReply(channel: seq<Message>)
    requires channel != []
    ensures Replies(channel) == (if channel[0].Reply? then [channel[0].response.id] else []) + Replies(channel[1..])
    ensures channel[0].Blank? ==> Replies(channel) == Replies(channel[1..])
  {
  }

  lemma TakeBlankKeeps(w: World)
    requires Inv(w) && Enabled(w, Take) && w.channel[0].Blank?
    ensures Inv(Next(w, Take))
  {
    hide Orderly, LateExact, NotifiedExact, AnswersKept, OutcomesRight, Distinct, Replies, Next;
    KeptTake(w.channel, w.answered, w.requests, w.sent);
    TakeBlankNext(w);
    FirstReply(w.channel);
  }

  // The oldest outstanding id is late exactly if something else is outstanding too; otherwise it
  // is the current one.
  lemma OldestIsLateOrCurrent(w: World)
    requires w.current.Some? && Outstanding(w) != []
    requires Orderly(w.sent, Outstanding(w), w.current)
    requires LateExact(w.late, w.timedOut, Outstanding(w), w.sent, w.current)
    ensures var id, rest := Outstanding(w)[0], Outstanding(w)[1..];
            && (id in w.late <==> rest != [])
            && (if id in w.late then id in w.timedOut && w.current != Some(id) else w.current == Some(id))
  {
    hide Replies, Distinct;
    SuffixDistinct(w.sent, Outstanding(w), w.current);
    var rest := Outstanding(w)[1..];
    if rest != [] { assert w.current.value == rest[|rest| - 1]; }
  }

  lemma LateStrike(late: set<Id>, timedOut: set<Id>, outstanding: seq<Id>, sent: seq<Id>, current: Option<Id>)
    requires outstanding != [] && LateExact(late, timedOut, outstanding, sent, current)
    requires outstanding[0] !in outstanding[1..]
    ensures LateExact(late - {outstanding[0]}, timedOut, outstanding[1..], sent, current)
  {
    assert outstanding == [outstanding[0]] + outstanding[1..];
  }

  lemma NotifiedStrike(notified: seq<Id>, timedOut: set<Id>, outstanding: seq<Id>)
    requires outstanding != [] && NotifiedExact(notified, timedOut, outstanding)
    requires outstanding[0] !in outstanding[1..] && outstanding[0] in timedOut
    ensures NotifiedExact(notified + [outstanding[0]], timedOut, outstanding[1..])
  {
    hide Distinct;
    DistinctSnoc(notified, outstanding[0]);
    assert outstanding == [outstanding[0]] + outstanding[1..];
  }

  lemma TakeReplyKeeps(w: World)
    requires Inv(w) && Enabled(w, Take) && w.channel[0].Reply?
    ensures Inv(Next(w, Take))
  {
    hide Orderly, LateExact, NotifiedExact, AnswersKept, OutcomesRight, Distinct, Replies, Next;
    var w', id := Next(w, Take), w.channel[0].response.id;
    TakeReplyNext(w);
    FirstReply(w.channel);
    assert Outstanding(w) == [id] + (Replies(w.channel[1..]) + w.requests);
    assert Outstanding(w') == Outstanding(w)[1..];
    SuffixDistinct(w.sent, Outstanding(w), w.current);
    OldestIsLateOrCurrent(w);
    KeptTake(w.channel, w.answered, w.requests, w.sent);
    if id in w.late { TakeLateKeeps(w, w'); } else { TakeCurrentKeeps(w, w'); }
  }

  lemma TakeLateKeeps(w: World, w': World)
    requires Inv(w) && Enabled(w, Take) && w.channel[0].Reply? && w' == Next(w, Take)
    requires |Outstanding(w)| > 1 && Outstanding(w)[0] !in Outstanding(w)[1..]
    requires Outstanding(w)[0] in w.late && Outstanding(w)[0] in w.timedOut
    requires Outstanding(w)[0] == w.channel[0].response.id && Outstanding(w') == Outstanding(w)[1..]
    requires AnswersKept(w'.channel, w.answered, w.requests, w.sent)
    ensures Inv(w')
  {
    hide Orderly, LateExact, NotifiedExact, AnswersKept, OutcomesRight, Distinct, Replies, Outstanding;
    OrderlyTail(w.sent, Outstanding(w), w.current);
    LateStrike(w.late, w.timedOut, Outstanding(w), w.sent, w.current);
    NotifiedStrike(w.notified, w.timedOut, Outstanding(w));
  }

  lemma TakeCurrentKeeps(w: World, w': World)
    requires Inv(w) && Enabled(w, Take) && w.channel[0].Reply? && w' == Next(w, Take)
    requires var id := w.channel[0].response.id;
             && Outstanding(w) == [id] && w.current == Some(id) && id in w.sent && id !in w.late
             && Orderly(w.sent, Outstanding(w'), None)
             && id in w.answered && w.answered[id] == w.channel[0].response
    requires Outstanding(w') == []
    requires AnswersKept(w'.channel, w.answered, w.requests, w.sent)
    ensures Inv(w')
  {
    hide Orderly, LateExact, NotifiedExact, AnswersKept, OutcomesRight, Distinct, Replies, Outstanding;
    var id := w.channel[0].response.id;
    LateLast(w.late, w.timedOut, Outstanding(w), w.sent, id);
    assert Outstanding(w)[1..] == Outstanding(w');
    NotifiedOther(w.notified, w.timedOut, Outstanding(w), Outstanding(w'));
    OutcomesEnd(w, id, w.timedOut, w'.outcomes[|w.outcomes|].1);
  }

  lemma OrderlyTail(sent: seq<Id>, outstanding: seq<Id>, current: Option<Id>)
    requires |outstanding| > 1 && Orderly(sent, outstanding, current)
    ensures Orderly(sent, outstanding[1..], current)
  {
    SuffixDistinct(sent, outstanding, current);
  }

  lemma LateLast(late: set<Id>, timedOut: set<Id>, outstanding: seq<Id>, sent: seq<Id>, id: Id)
    requires outstanding == [id] && LateExact(late, timedOut, outstanding, sent, Some(id))
    ensures id !in timedOut && id in outstanding
    ensures LateExact(late, timedOut, outstanding[1..], sent, None)
  {
  }

  lemma StepKeeps(w: World, action: Action)
    requires Inv(w) && Enabled(w, action)
    ensures Inv(Next(w, action))
  {
    hide Orderly, LateExact, NotifiedExact, AnswersKept, OutcomesRight, Distinct, Replies, Outstanding, Next;
    match action
    case Begin(id) => BeginKeeps(w, id);
    case Answer(isError, payload) => AnswerKeeps(w, isError, payload);
    case Noise => NoiseKeeps(w);
    case GiveUp(byContext) => GiveUpKeeps(w, byContext);
    case Take =>
      KeptTake(w.channel, w.answered, w.requests, w.sent);
      if w.channel[0].Blank? { TakeBlankKeeps(w); } else { TakeReplyKeeps(w); }
  }

  lemma {:induction false} InvAlways(w: World, actions: seq<Action>)
    requires Inv(w) && Feasible(w, actions)
    ensures Inv(After(w, actions))
    decreases |actions|
  {
    hide Inv, Enabled, Next;
    if actions != [] {
      StepKeeps(w, actions[0]);
      InvAlways(Next(w, actions[0]), actions[1..]);
    }
  }

  lemma NothingSent()
    ensures Orderly([], [], None) && LateExact({}, {}, [], [], None) && NotifiedExact([], {}, [])
  {
  }

  lemma NothingAnswered()
    ensures AnswersKept([], map[], [], []) && OutcomesRight([], map[], {}, [], None)
  {
    hide Right;
  }

  lemma InvAtStart()
    ensures Inv(START)
  {
    hide Orderly, LateExact, NotifiedExact, AnswersKept, OutcomesRight;
    NothingSent();
    NothingAnswered();
    assert Outstanding(START) == [];
  }

  lemma InvParts(w: World)
    requires Inv(w)
    ensures LateExact(w.late, w.timedOut, Outstanding(w), w.sent, w.current)
    ensures NotifiedExact(w.notified, w.timedOut, Outstanding(w))
    ensures OutcomesRight(w.outcomes, w.answered, w.timedOut, w.sent, w.current)
  {
    hide Orderly, LateExact, NotifiedExact, AnswersKept, OutcomesRight, Outstanding;
  }

  ghost predicate ServedRight(w: World, id: Id, result: Result) {
    && (result.reason == NoReason || result.reason == Timeout || result.reason == Malformed)
    && (result.decision == Accepted <==> result.reason == NoReason)
    && (result.reason == Timeout <==> id in w.timedOut)
    && (result.reason != Timeout ==>
          id in w.answered && (w.answered[id].isError <==> result.reason == Malformed))
    && (result.decision == Accepted ==> result.payload == Some(w.answered[id].payload))
  }

  lemma OutcomesAreServedRight(w: World)
    requires OutcomesRight(w.outcomes, w.answered, w.timedOut, w.sent, w.current)
    ensures forall i | 0 <= i < |w.outcomes| :: ServedRight(w, w.outcomes[i].0, w.outcomes[i].1)
  {
  }

  lemma LateIsExact(w: World)
    requires LateExact(w.late, w.timedOut, Outstanding(w), w.sent, w.current)
    ensures forall id :: id in w.late <==> id in w.timedOut && id in Outstanding(w)
  {
  }

  lemma NotifiedOnce(w: World, id: Id)
    requires NotifiedExact(w.notified, w.timedOut, Outstanding(w))
    ensures multiset(w.notified)[id] == if id in w.timedOut && id !in Outstanding(w) then 1 else 0
  {
    DistinctIsCountedOnce(w.notified);
    assert id in w.notified <==> id in multiset(w.notified);
  }

  /**
    For every run: no call is reported mismatched or stopped; an accepted payload is the player's
    answer to that very request; every late answer is notified exactly once, when it is received;
    and the late ids are exactly the timed-out requests whose answer has not been received.
  */
  lemma OrderlyPlayerIsServedRight(actions: seq<Action>)
    requires Feasible(START, actions)
    ensures var w := After(START, actions);
            && (forall i | 0 <= i < |w.outcomes| :: ServedRight(w, w.outcomes[i].0, w.outcomes[i].1))
            && (forall id :: id in w.late <==> id in w.timedOut && id in Outstanding(w))
            && (forall id :: multiset(w.notified)[id] == if id in w.timedOut && id !in Outstanding(w) then 1 else 0)
  {
    hide Inv, After;
    hide Orderly, LateExact, NotifiedExact, AnswersKept, OutcomesRight, Distinct, Replies, Outstanding,
         Enabled, Next, Feasible, ServedRight;
    InvAtStart();
    InvAlways(START, actions);
    var w := After(START, actions);
    InvParts(w);
    OutcomesAreServedRight(w);
    LateIsExact(w);
    forall id
      ensures multiset(w.notified)[id] == if id in w.timedOut && id !in Outstanding(w) then 1 else 0
    {
      NotifiedOnce(w, id);
    }
  }
}
