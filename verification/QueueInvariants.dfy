/**
  What every sequence of store calls keeps of the queue's two indexes
  (internal/platform/service/store_memory.go).
*/
module QueueInvariants {
  import opened Identifiers
  import opened RunTypes
  import opened RunQueue

  datatype Call =
    | Enqueue(s: Submission)
    | Claim(workerID: Id, now: int)
    | Heartbeat(runID: Id, workerID: Id, now: int)
    | Recover(now: int, runIDs: seq<Id>)
    | Update(next: QueueRecord, now: int)
    | Promote(runID: Id)
    | Cancel(runID: Id)

  function After(q: Queue, r: Outcome<Queue>): Queue { if r.Ok? then r.value else q }

  function Call1(q: Queue, c: Call): Queue {
    match c
    case Enqueue(s) => if s.runID.Blank() || s.runID in q.records then q else Enqueued(q, s)
    case Claim(workerID, now) => Claimed(q, workerID, now).0
    case Heartbeat(runID, workerID, now) => After(q, Renewed(q, runID, workerID, now))
    case Recover(_, runIDs) => Recovered(q, runIDs)
    case Update(next, now) => After(q, Updated(q, next, now))
    case Promote(runID) => After(q, Promoted(q, runID))
    case Cancel(runID) => After(q, Cancelled(q, runID))
  }

  // Recovery takes exactly the expired runs, in whatever order Go visits them.
  ghost predicate Possible(q: Queue, c: Call) { c.Recover? ==> ListsRecoverable(q, c.now, c.runIDs) }

  function Calls(calls: seq<Call>): Queue {
    if calls == [] then EMPTY else Call1(Calls(calls[..|calls| - 1]), calls[|calls| - 1])
  }

  ghost predicate AllPossible(calls: seq<Call>) {
    forall i | 0 <= i < |calls| :: Possible(Calls(calls[..i]), calls[i])
  }

  // ----- Any calls: the insertion index lists the runs, and no waiting run is forgotten -----

  ghost predicate Indexed(q: Queue) {
    && Distinct(q.all)
    && (forall id :: id in q.all <==> id in q.records)
    && (forall id | id in q.records :: q.records[id].submission.runID == id)
    && (forall id | id in q.records && q.records[id].state.Queued? :: id in q.order)
  }

  lemma ClaimIndexed(q: Queue, workerID: Id, now: int)
    requires Indexed(q)
    ensures Indexed(Claimed(q, workerID, now).0)
  {
    hide Id.Blank;
    if !workerID.Blank() {
      FirstWaitingQueued(q.order, q.records);
      var k := FirstWaiting(q.order, q.records);
      forall id | id in q.records && q.records[id].state.Queued? && (k == |q.order| || id != q.order[k])
        ensures k < |q.order| && id in q.order[k + 1..]
      {
        var i :| 0 <= i < |q.order| && q.order[i] == id;
        assert i >= k;
        if i > k { assert q.order[k + 1..][i - k - 1] == id; }
      }
    }
  }

  lemma CallKeepsIndexed(q: Queue, c: Call)
    requires Indexed(q) && Possible(q, c)
    ensures Indexed(Call1(q, c))
  {
    hide Id.Blank, Indexed;
    match c
    case Enqueue(s) => if s.runID !in q.records { EnqueueIndexed(q, s); }
    case Claim(workerID, now) => ClaimIndexed(q, workerID, now);
    case Cancel(runID) => CancelIndexed(q, runID);
    case Recover(_, runIDs) => RecoverIndexed(q, runIDs);
    case Heartbeat(runID, workerID, now) => HeartbeatIndexed(q, runID, workerID, now);
    case Update(next, now) => UpdateIndexed(q, next, now);
    case Promote(runID) => PromoteIndexed(q, runID);
  }

  lemma EnqueueIndexed(q: Queue, s: Submission)
    requires Indexed(q) && s.runID !in q.records
    ensures Indexed(Enqueued(q, s))
  {
    DistinctSnoc(q.all, s.runID);
  }

  lemma CancelIndexed(q: Queue, runID: Id)
    requires Indexed(q)
    ensures Indexed(After(q, Cancelled(q, runID)))
  {
    WithoutElements(q.order, runID);
  }

  lemma RecoverIndexed(q: Queue, runIDs: seq<Id>)
    requires Indexed(q)
    ensures Indexed(Recovered(q, runIDs))
  {
  }

  // The same runs, none of them put back to waiting, in the same indexes.
  ghost predicate Rewrites(q: Queue, q': Queue) {
    && q'.all == q.all && q'.order == q.order && q'.records.Keys == q.records.Keys
    && forall id | id in q.records ::
         && q'.records[id].submission.runID == q.records[id].submission.runID
         && (q'.records[id].state.Queued? ==> q.records[id].state.Queued?)
  }

  lemma RewritesIndexed(q: Queue, q': Queue)
    requires Indexed(q) && Rewrites(q, q')
    ensures Indexed(q')
  {
  }

  lemma RecordsNamed(q: Queue)
    requires Indexed(q)
    ensures forall id | id in q.records :: q.records[id].submission.runID == id
  {
  }

  lemma HeartbeatIndexed(q: Queue, runID: Id, workerID: Id, now: int)
    requires Indexed(q)
    ensures Indexed(After(q, Renewed(q, runID, workerID, now)))
  {
    hide Indexed;
    RewritesIndexed(q, After(q, Renewed(q, runID, workerID, now)));
  }

  lemma UpdateIndexed(q: Queue, next: QueueRecord, now: int)
    requires Indexed(q)
    ensures Indexed(After(q, Updated(q, next, now)))
  {
    hide Indexed;
    RecordsNamed(q);
    RewritesIndexed(q, After(q, Updated(q, next, now)));
  }

  lemma PromoteIndexed(q: Queue, runID: Id)
    requires Indexed(q)
    ensures Indexed(After(q, Promoted(q, runID)))
  {
    hide Indexed;
    RewritesIndexed(q, After(q, Promoted(q, runID)));
  }

  // Whatever calls are made, with whatever arguments.
  lemma {:induction false} AnyCallsKeepIndexed(calls: seq<Call>)
    requires AllPossible(calls)
    ensures Indexed(Calls(calls))
  {
    if calls != [] {
      var front := calls[..|calls| - 1];
      assert forall i | 0 <= i < |front| :: front[..i] == calls[..i] && front[i] == calls[i];
      AnyCallsKeepIndexed(front);
      CallKeepsIndexed(Calls(front), calls[|calls| - 1]);
    }
  }

  // ----- Worker and operator calls: the line is exactly the waiting runs -----

  // The states a worker writes after it has claimed a run.
  predicate WorkerCall(c: Call) {
    c.Update? ==> c.next.state in {Running, Persisting, Completed, Failed}
  }

  ghost predicate Line(q: Queue) {
    && Distinct(q.order)
    && (forall id :: id in q.order <==> id in q.records && q.records[id].state.Queued?)
  }

  lemma LineFirst(q: Queue)
    requires Line(q)
    ensures FirstWaiting(q.order, q.records) == 0
  {
    if q.order != [] { assert q.order[0] in q.order; }
  }

  // With an exact line a claim takes its first run and nothing else.
  lemma ClaimTakesFirst(q: Queue, workerID: Id, now: int)
    requires Line(q) && !workerID.Blank()
    ensures q.order == [] ==> Claimed(q, workerID, now) == (q, Err(NothingQueued))
    ensures q.order != [] ==>
              && q.order[0] in q.records
              && var record := q.records[q.order[0]].(state := Leased, lease := NewLease(workerID, now));
                 Claimed(q, workerID, now) == (Queue(q.all, q.order[1..], q.records[q.order[0] := record]), Ok(record))
  {
    hide Id.Blank;
    LineFirst(q);
    if q.order != [] { assert q.order[0] in q.order; }
  }

  lemma ClaimLine(q: Queue, workerID: Id, now: int)
    requires Line(q)
    ensures Line(Claimed(q, workerID, now).0)
  {
    if !workerID.Blank() {
      ClaimTakesFirst(q, workerID, now);
      hide Id.Blank;
      if q.order != [] { assert q.order == [q.order[0]] + q.order[1..]; }
    }
  }

  lemma RecoverLine(q: Queue, now: int, runIDs: seq<Id>)
    requires Line(q) && ListsRecoverable(q, now, runIDs)
    ensures Line(Recovered(q, runIDs))
  {
    DistinctAppend(q.order, runIDs);
  }

  // Calls that move no run into or out of the queued state.
  lemma StillWaiting(q: Queue, c: Call)
    requires Line(q) && WorkerCall(c) && (c.Heartbeat? || c.Update? || c.Promote?)
    ensures var q' := Call1(q, c);
            && q'.all == q.all && q'.order == q.order && q'.records.Keys == q.records.Keys
            && forall id | id in q.records :: q.records[id].state.Queued? <==> q'.records[id].state.Queued?
  {
  }

  lemma CallKeepsLine(q: Queue, c: Call)
    requires Line(q) && Indexed(q) && Possible(q, c) && WorkerCall(c)
    ensures Line(Call1(q, c))
  {
    hide Id.Blank;
    match c
    case Enqueue(s) => if s.runID !in q.records { DistinctSnoc(q.order, s.runID); }
    case Claim(workerID, now) => ClaimLine(q, workerID, now);
    case Recover(now, runIDs) => RecoverLine(q, now, runIDs);
    case Cancel(runID) =>
      WithoutElements(q.order, runID);
      WithoutDistinct(q.order, runID);
    case _ =>
      hide Call1;
      StillWaiting(q, c);
  }

  lemma {:induction false} WorkerCallsKeepLine(calls: seq<Call>)
    requires AllPossible(calls) && forall i | 0 <= i < |calls| :: WorkerCall(calls[i])
    ensures Line(Calls(calls)) && Indexed(Calls(calls))
  {
    AnyCallsKeepIndexed(calls);
    if calls != [] {
      var front := calls[..|calls| - 1];
      assert forall i | 0 <= i < |front| :: front[..i] == calls[..i] && front[i] == calls[i];
      WorkerCallsKeepLine(front);
      CallKeepsLine(Calls(front), calls[|calls| - 1]);
    }
  }

  // ----- Without recovery the line is in submission order -----

  function Waiting(ids: seq<Id>, records: map<Id, QueueRecord>): seq<Id> {
    if ids == [] then []
    else (if ids[0] in records && records[ids[0]].state.Queued? then [ids[0]] else []) + Waiting(ids[1..], records)
  }

  lemma {:induction false} WaitingAppend(a: seq<Id>, b: seq<Id>, records: map<Id, QueueRecord>)
    ensures Waiting(a + b, records) == Waiting(a, records) + Waiting(b, records)
  {
    if a == [] {
      assert a + b == b;
    } else {
      assert (a + b)[1..] == a[1..] + b;
      WaitingAppend(a[1..], b, records);
    }
  }

  lemma {:induction false} WaitingSame(ids: seq<Id>, before: map<Id, QueueRecord>, after: map<Id, QueueRecord>)
    requires forall id | id in ids ::
               (id in before && before[id].state.Queued?) <==> (id in after && after[id].state.Queued?)
    ensures Waiting(ids, before) == Waiting(ids, after)
  {
    if ids != [] {
      assert forall id | id in ids[1..] :: id in ids;
      WaitingSame(ids[1..], before, after);
    }
  }

  // One run stops waiting; everybody else keeps the place.
  lemma {:induction false} WaitingWithout(
      ids: seq<Id>, before: map<Id, QueueRecord>, after: map<Id, QueueRecord>, gone: Id)
    requires forall id | id in ids && id != gone ::
               (id in before && before[id].state.Queued?) <==> (id in after && after[id].state.Queued?)
    requires gone in after && !after[gone].state.Queued?
    ensures Waiting(ids, after) == Without(Waiting(ids, before), gone)
  {
    if ids != [] {
      var first := if ids[0] in before && before[ids[0]].state.Queued? then [ids[0]] else [];
      assert forall id | id in ids[1..] :: id in ids;
      WaitingWithout(ids[1..], before, after, gone);
      WithoutAppend(first, Waiting(ids[1..], before), gone);
      assert first != [] ==> first[1..] == [];
    }
  }

  lemma WithoutFirst(s: seq<Id>)
    requires s != [] && Distinct(s)
    ensures Without(s, s[0]) == s[1..]
  {
    WithoutElements(s[1..], s[0]);
    assert s[1..] == [] + s[1..];
  }

  ghost predicate Fifo(q: Queue) { Line(q) && Indexed(q) && q.order == Waiting(q.all, q.records) }

  lemma AbsentFromAll(q: Queue, id: Id)
    requires Indexed(q) && id !in q.records
    ensures id !in q.all
  {
  }

  lemma ClaimFifo(q: Queue, workerID: Id, now: int)
    requires Fifo(q)
    ensures var q' := Claimed(q, workerID, now).0; q'.order == Waiting(q'.all, q'.records)
  {
    if !workerID.Blank() {
      ClaimTakesFirst(q, workerID, now);
      hide Id.Blank;
      if q.order != [] {
        WaitingWithout(q.all, q.records, Claimed(q, workerID, now).0.records, q.order[0]);
        WithoutFirst(q.order);
      }
    }
  }

  lemma EnqueueFifo(q: Queue, s: Submission)
    requires Fifo(q) && s.runID !in q.records
    ensures var q' := Enqueued(q, s); q'.order == Waiting(q'.all, q'.records)
  {
    hide Line, Indexed;
    var q' := Enqueued(q, s);
    AbsentFromAll(q, s.runID);
    WaitingSame(q.all, q.records, q'.records);
    WaitingAppend(q.all, [s.runID], q'.records);
    assert [s.runID][1..] == [];
  }

  lemma CancelFifo(q: Queue, runID: Id)
    requires Fifo(q) && Cancelled(q, runID).Ok?
    ensures var q' := Cancelled(q, runID).value; q'.order == Waiting(q'.all, q'.records)
  {
    hide Line, Indexed;
    WaitingWithout(q.all, q.records, Cancelled(q, runID).value.records, runID);
  }

  lemma CallKeepsFifo(q: Queue, c: Call)
    requires Fifo(q) && Possible(q, c) && WorkerCall(c) && !c.Recover?
    ensures Fifo(Call1(q, c))
  {
    hide Id.Blank, Line, Indexed;
    CallKeepsIndexed(q, c);
    CallKeepsLine(q, c);
    var q' := Call1(q, c);
    match c
    case Enqueue(s) => if q' != q { EnqueueFifo(q, s); }
    case Claim(workerID, now) => ClaimFifo(q, workerID, now);
    case Cancel(runID) => if q' != q { CancelFifo(q, runID); }
    case _ =>
      hide Call1;
      StillWaiting(q, c);
      WaitingSame(q.all, q.records, q'.records);
  }

  // With no recovery the line is the submission order of the waiting runs, so the next claim
  // takes the waiting run that was submitted first.
  lemma {:induction false} WithoutRecoveryFirstInFirstOut(calls: seq<Call>)
    requires AllPossible(calls) && forall i | 0 <= i < |calls| :: WorkerCall(calls[i]) && !calls[i].Recover?
    ensures Fifo(Calls(calls))
  {
    if calls != [] {
      var front := calls[..|calls| - 1];
      assert forall i | 0 <= i < |front| :: front[..i] == calls[..i] && front[i] == calls[i];
      WithoutRecoveryFirstInFirstOut(front);
      CallKeepsFifo(Calls(front), calls[|calls| - 1]);
    }
  }
}
