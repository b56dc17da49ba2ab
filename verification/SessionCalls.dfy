/**
  What one call of a session answers, told from the arrivals alone: which of them are late responses,
  which one ends the call, and what is left behind (internal/platform/session/session.go:108-174).
*/
module SessionCalls {
  import opened Identifiers
  import opened PlayerSession

  ghost predicate Answers(arrival: Arrival, id: Id) {
    arrival.Got? && arrival.message.Reply? && arrival.message.response.id == id
  }

  ghost predicate AnsweredBefore(arrivals: seq<Arrival>, n: nat, id: Id)
    requires n <= |arrivals|
  {
    exists k :: 0 <= k < n && Answers(arrivals[k], id)
  }

  // The first response to an id that was late when the call began.
  ghost predicate IsLate(late: set<Id>, arrivals: seq<Arrival>, k: nat, id: Id)
    requires k < |arrivals|
  {
    id in late && Answers(arrivals[k], id) && !AnsweredBefore(arrivals, k, id)
  }

  // The call goes on after a late response and after a message that is no response.
  ghost predicate Passed(late: set<Id>, arrivals: seq<Arrival>, k: nat)
    requires k < |arrivals|
  {
    arrivals[k] == Got(Blank) || exists id :: IsLate(late, arrivals, k, id)
  }

  // The ids of the late responses among the first n arrivals, in their order.
  ghost function LateReplies(late: set<Id>, arrivals: seq<Arrival>, n: nat): seq<Id>
    requires n <= |arrivals|
  {
    if n == 0 then []
    else
      LateReplies(late, arrivals, n - 1)
      + if arrivals[n - 1].Got? && arrivals[n - 1].message.Reply?
           && IsLate(late, arrivals, n - 1, arrivals[n - 1].message.response.id)
        then [arrivals[n - 1].message.response.id] else []
  }

  // A result that accepts nothing.
  ghost predicate Refuses(result: Result, reason: Reason, ignored: seq<Id>, cause: string) {
    && result.decision == NoAction && result.reason == reason && result.payload == None
    && result.ignored == ignored && result.cause == cause
  }

  // What the call answers when the arrival ends it, after the late responses given.
  ghost predicate EndsWith(id: Id, ignored: seq<Id>, arrival: Arrival, result: Result) {
    match arrival
    case ContextDone => Refuses(result, Timeout, [], "")
    case TimerFired => Refuses(result, Timeout, [], "")
    case ChannelClosed => Refuses(result, RuntimeStop, [], "")
    case Got(RuntimeStopped(cause)) => Refuses(result, RuntimeStop, [], cause)
    case Got(Undecodable(_)) => Refuses(result, Malformed, [], "")
    case Got(Blank) => false
    case Got(Reply(response)) =>
      if response.id != id then Refuses(result, MismatchedId, [], "")
      else if response.isError then Refuses(result, Malformed, ignored, "")
      else
        && result.decision == Accepted && result.reason == NoReason && result.payload == Some(response.payload)
        && result.ignored == ignored && result.cause == ""
  }

  // The call ends at its last arrival taken, or its timer fires after all of them.
  ghost predicate EndsAt(late: set<Id>, id: Id, ignored: seq<Id>, arrivals: seq<Arrival>, n: nat, result: Result)
    requires n <= |arrivals|
  {
    if forall k | 0 <= k < n :: Passed(late, arrivals, k) then n == |arrivals| && Refuses(result, Timeout, [], "")
    else
      && (forall k | 0 <= k < n - 1 :: Passed(late, arrivals, k)) && !Passed(late, arrivals, n - 1)
      && EndsWith(id, ignored, arrivals[n - 1], result)
  }

  // Late afterwards: what was late and got no response, and the call's own id if the call timed out.
  ghost predicate LeavesLate(late: set<Id>, id: Id, arrivals: seq<Arrival>, n: nat, timedOut: bool, late': set<Id>)
    requires n <= |arrivals|
  {
    forall x :: x in late' <==> (x in late && !AnsweredBefore(arrivals, n, x)) || (timedOut && x == id)
  }

  // ----- One arrival earlier -----

  lemma AnsweredEarlier(arrivals: seq<Arrival>, n: nat, id: Id)
    requires 0 < n <= |arrivals|
    ensures AnsweredBefore(arrivals, n, id) <==> Answers(arrivals[0], id) || AnsweredBefore(arrivals[1..], n - 1, id)
  {
    hide Answers;
    if AnsweredBefore(arrivals[1..], n - 1, id) {
      var k :| 0 <= k < n - 1 && Answers(arrivals[1..][k], id);
      assert Answers(arrivals[k + 1], id);
    }
    if AnsweredBefore(arrivals, n, id) {
      var k :| 0 <= k < n && Answers(arrivals[k], id);
      if k > 0 { assert Answers(arrivals[1..][k - 1], id); }
    }
  }

  // The late ids that the first arrival leaves.
  ghost predicate LeftBy(late: set<Id>, arrival: Arrival, late': set<Id>) {
    forall x :: x in late' <==> x in late && !Answers(arrival, x)
  }

  lemma LateEarlier(late: set<Id>, late': set<Id>, arrivals: seq<Arrival>, k: nat)
    requires 0 < k < |arrivals| && LeftBy(late, arrivals[0], late')
    ensures forall x :: IsLate(late, arrivals, k, x) <==> IsLate(late', arrivals[1..], k - 1, x)
  {
    hide Answers, AnsweredBefore;
    forall x ensures IsLate(late, arrivals, k, x) <==> IsLate(late', arrivals[1..], k - 1, x) {
      AnsweredEarlier(arrivals, k, x);
    }
  }

  lemma PassedEarlier(late: set<Id>, late': set<Id>, arrivals: seq<Arrival>, k: nat)
    requires 0 < k < |arrivals| && LeftBy(late, arrivals[0], late')
    ensures Passed(late, arrivals, k) <==> Passed(late', arrivals[1..], k - 1)
  {
    hide IsLate, LeftBy;
    LateEarlier(late, late', arrivals, k);
    var rest, i := arrivals[1..], k - 1;
    assert rest[i] == arrivals[k];
    if Passed(late, arrivals, k) && arrivals[k] != Got(Blank) {
      var x :| IsLate(late, arrivals, k, x);
      assert IsLate(late', rest, i, x);
    }
    if Passed(late', rest, i) && rest[i] != Got(Blank) {
      var x :| IsLate(late', rest, i, x);
      assert IsLate(late, arrivals, k, x);
    }
  }

  lemma {:induction false} LateRepliesEarlier(late: set<Id>, late': set<Id>, arrivals: seq<Arrival>, n: nat)
    requires 0 < n <= |arrivals| && LeftBy(late, arrivals[0], late')
    ensures LateReplies(late, arrivals, n)
         == LateReplies(late, arrivals, 1) + LateReplies(late', arrivals[1..], n - 1)
  {
    hide IsLate, LeftBy;
    if n > 1 {
      LateRepliesEarlier(late, late', arrivals, n - 1);
      LateEarlier(late, late', arrivals, n - 1);
      assert arrivals[1..][n - 2] == arrivals[n - 1];
    }
  }

  lemma FirstLate(late: set<Id>, arrivals: seq<Arrival>)
    requires arrivals != []
    ensures var a := arrivals[0];
            var struck := a.Got? && a.message.Reply? && a.message.response.id in late;
            && LateReplies(late, arrivals, 1) == (if struck then [a.message.response.id] else [])
            && (Passed(late, arrivals, 0) <==> a == Got(Blank) || struck)
  {
    assert LateReplies(late, arrivals, 0) == [];
    if arrivals[0].Got? && arrivals[0].message.Reply? && arrivals[0].message.response.id in late {
      assert IsLate(late, arrivals, 0, arrivals[0].message.response.id);
    }
  }

  lemma EndsEarlier(
      late: set<Id>, late': set<Id>, id: Id, ignored: seq<Id>, arrivals: seq<Arrival>, n: nat, result: Result)
    requires 0 < n <= |arrivals| && LeftBy(late, arrivals[0], late') && Passed(late, arrivals, 0)
    requires EndsAt(late', id, ignored, arrivals[1..], n - 1, result)
    ensures EndsAt(late, id, ignored, arrivals, n, result)
  {
    hide LeftBy, Passed, EndsWith, Refuses;
    forall k | 0 < k < |arrivals| ensures Passed(late, arrivals, k) <==> Passed(late', arrivals[1..], k - 1) {
      PassedEarlier(late, late', arrivals, k);
    }
    if forall k | 0 <= k < n - 1 :: Passed(late', arrivals[1..], k) {
      forall k | 0 <= k < n ensures Passed(late, arrivals, k) {
        if k > 0 { assert Passed(late', arrivals[1..], k - 1); }
      }
    } else {
      assert !Passed(late, arrivals, n - 1) && arrivals[1..][n - 2] == arrivals[n - 1];
      forall k | 0 <= k < n - 1 ensures Passed(late, arrivals, k) {
        if k > 0 { assert Passed(late', arrivals[1..], k - 1); }
      }
    }
  }

  lemma LeavesEarlier(
      late: set<Id>, late': set<Id>, id: Id, arrivals: seq<Arrival>, n: nat, timedOut: bool, end: set<Id>)
    requires 0 < n <= |arrivals| && LeftBy(late, arrivals[0], late')
    requires LeavesLate(late', id, arrivals[1..], n - 1, timedOut, end)
    ensures LeavesLate(late, id, arrivals, n, timedOut, end)
  {
    hide Answers, AnsweredBefore;
    forall x ensures x in end <==> (x in late && !AnsweredBefore(arrivals, n, x)) || (timedOut && x == id) {
      AnsweredEarlier(arrivals, n, x);
    }
  }

  // ----- The whole call -----

  /**
    Any call, whatever arrives: it takes late responses and blank messages up to the first arrival that is
    neither, and answers as that arrival tells, or times out; it notifies the late responses it took, in
    their order; and the ids without a response stay late, with its own if it timed out.
  */
  lemma {:induction false} CallVerdict(late: set<Id>, id: Id, ignored: seq<Id>, arrivals: seq<Arrival>)
    ensures var end := Receive(late, id, ignored, arrivals);
            && end.taken <= |arrivals|
            && end.notified == LateReplies(late, arrivals, end.taken)
            && EndsAt(late, id, ignored + end.notified, arrivals, end.taken, end.result)
            && LeavesLate(late, id, arrivals, end.taken, end.result.reason == Timeout, end.late)
    decreases |arrivals|
  {
    hide Receive, IsLate, Passed, EndsAt, LeavesLate, LeftBy, EndsWith, LateReplies;
    if arrivals == [] {
      ReceiveNothing(late, id, ignored);
      NothingArrived(late, id, ignored);
    } else {
      ReceiveFirst(late, id, ignored, arrivals);
      FirstLate(late, arrivals);
      assert ignored + [] == ignored;
      match OnArrival(late, id, ignored, arrivals[0])
      case Return(_, _) =>
        EndsAtFirst(late, id, ignored, arrivals);
      case Strike(stale) =>
        var late' := late - {stale};
        CallVerdict(late', id, ignored + [stale], arrivals[1..]);
        CallGoesOn(late, late', id, ignored, [stale], arrivals);
      case Skip =>
        CallVerdict(late, id, ignored, arrivals[1..]);
        CallGoesOn(late, late, id, ignored, [], arrivals);
    }
  }

  lemma NothingArrived(late: set<Id>, id: Id, ignored: seq<Id>)
    ensures LateReplies(late, [], 0) == [] && EndsAt(late, id, ignored, [], 0, Failed(Timeout))
    ensures LeavesLate(late, id, [], 0, true, late + {id})
  {
  }

  lemma EndsAtFirst(late: set<Id>, id: Id, ignored: seq<Id>, arrivals: seq<Arrival>)
    requires arrivals != [] && OnArrival(late, id, ignored, arrivals[0]).Return?
    ensures var effect := OnArrival(late, id, ignored, arrivals[0]);
            && LateReplies(late, arrivals, 1) == []
            && EndsAt(late, id, ignored, arrivals, 1, effect.result)
            && LeavesLate(late, id, arrivals, 1, effect.result.reason == Timeout, effect.late)
  {
    FirstLate(late, arrivals);
    hide IsLate, Passed;
    assert !Passed(late, arrivals, 0);
    forall x ensures AnsweredBefore(arrivals, 1, x) <==> Answers(arrivals[0], x) {
      AnsweredEarlier(arrivals, 1, x);
    }
  }

  lemma CallGoesOn(late: set<Id>, late': set<Id>, id: Id, ignored: seq<Id>, stale: seq<Id>, arrivals: seq<Arrival>)
    requires arrivals != [] && LateReplies(late, arrivals, 1) == stale && Passed(late, arrivals, 0)
    requires forall x :: x in late' <==> x in late && !Answers(arrivals[0], x)
    requires var end := Receive(late', id, ignored + stale, arrivals[1..]);
             && end.taken <= |arrivals| - 1
             && end.notified == LateReplies(late', arrivals[1..], end.taken)
             && EndsAt(late', id, ignored + stale + end.notified, arrivals[1..], end.taken, end.result)
             && LeavesLate(late', id, arrivals[1..], end.taken, end.result.reason == Timeout, end.late)
    ensures var end := Later(stale, Receive(late', id, ignored + stale, arrivals[1..]));
            && end.notified == LateReplies(late, arrivals, end.taken)
            && EndsAt(late, id, ignored + end.notified, arrivals, end.taken, end.result)
            && LeavesLate(late, id, arrivals, end.taken, end.result.reason == Timeout, end.late)
  {
    hide Receive, IsLate, Passed, EndsAt, LeavesLate, EndsWith, LateReplies, Answers;
    var rest := Receive(late', id, ignored + stale, arrivals[1..]);
    assert LeftBy(late, arrivals[0], late');
    var n := rest.taken + 1;
    assert ignored + stale + rest.notified == ignored + (stale + rest.notified);
    LateRepliesEarlier(late, late', arrivals, n);
    EndsEarlier(late, late', id, ignored + (stale + rest.notified), arrivals, n, rest.result);
    LeavesEarlier(late, late', id, arrivals, n, rest.result.reason == Timeout, rest.late);
  }

  lemma {:induction false} PassedDecodes(late: set<Id>, arrivals: seq<Arrival>, n: nat)
    requires n <= |arrivals| && forall k | 0 <= k < n :: Passed(late, arrivals, k)
    ensures Undecoded(arrivals[..n]) == []
  {
    if n == 0 { NothingUndecoded(); }
    else {
      PassedDecodes(late, arrivals, n - 1);
      UndecodedNext(arrivals, n - 1);
      assert Passed(late, arrivals, n - 1);
    }
  }

  // A call reports the message that ends it, if that cannot be decoded, and no other.
  lemma MalformedIsReported(late: set<Id>, id: Id, ignored: seq<Id>, arrivals: seq<Arrival>)
    ensures var n := Receive(late, id, ignored, arrivals).taken;
            n <= |arrivals|
            && Undecoded(arrivals[..n])
            == if n > 0 && arrivals[n - 1].Got? && arrivals[n - 1].message.Undecodable?
               then [arrivals[n - 1].message.cause] else []
  {
    hide Receive, Passed, Refuses, EndsWith, LateReplies, LeavesLate, Undecoded;
    CallVerdict(late, id, ignored, arrivals);
    var n := Receive(late, id, ignored, arrivals).taken;
    if forall k | 0 <= k < n :: Passed(late, arrivals, k) {
      PassedDecodes(late, arrivals, n);
      if n > 0 { PassedIsDecoded(late, arrivals, n - 1); }
    } else {
      PassedDecodes(late, arrivals, n - 1);
      UndecodedNext(arrivals, n - 1);
    }
  }

  lemma PassedIsDecoded(late: set<Id>, arrivals: seq<Arrival>, k: nat)
    requires k < |arrivals| && Passed(late, arrivals, k)
    ensures !(arrivals[k].Got? && arrivals[k].message.Undecodable?)
  {
  }
}
