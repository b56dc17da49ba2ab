/**
  Leases and the lifecycle of a run, over any store calls: what each call does to a run in terms of its
  record, and that a run is its worker's alone while its lease lives
  (internal/platform/service/store_memory.go, types.go).
*/
module RunLeases {
  import opened Identifiers
  import opened RunTypes
  import opened RunQueue
  import opened QueueInvariants

  // ----- Claims and heartbeats -----

  ghost predicate Waits(q: Queue, id: Id) { id in q.records && q.records[id].state == Queued }

  /**
    Exactly a named worker gets a run while one waits in the line: the first that does, leased to it for
    thirty seconds from the claim, and the line goes on behind it; with none the line is emptied.
  */
  lemma ClaimVerdict(q: Queue, workerID: Id, t: int)
    ensures var (q', r) := Claimed(q, workerID, t);
            && (r == Err(BadRequest) <==> workerID.Blank())
            && (r == Err(NothingQueued) <==> !workerID.Blank() && forall id | id in q.order :: !Waits(q, id))
            && (r.Err? ==> r.error in {BadRequest, NothingQueued}
                           && q' == Queue(q.all, if workerID.Blank() then q.order else [], q.records))
            && (r.Ok? ==>
                  exists k :: 0 <= k < |q.order| && Waits(q, q.order[k]) && (forall i | 0 <= i < k :: !Waits(q, q.order[i]))
                    && r.value == q.records[q.order[k]].(state := Leased, lease := Some(Lease(workerID, t + 30, t)))
                    && q' == Queue(q.all, q.order[k + 1..], q.records[q.order[k] := r.value]))
  {
    FirstWaitingQueued(q.order, q.records);
    var k := FirstWaiting(q.order, q.records);
    assert k < |q.order| ==> Waits(q, q.order[k]);
  }

  /** A heartbeat is heard from the worker that holds the lease alone, and renews it for thirty seconds. */
  lemma HeartbeatVerdict(q: Queue, id: Id, workerID: Id, t: int)
    ensures var r := Renewed(q, id, workerID, t);
            && (r == Err(NotFound) <==> id !in q.records)
            && (r.Ok? <==> id in q.records && q.records[id].lease.Some? && q.records[id].lease.value.workerID == workerID)
            && (r.Err? ==> r.error in {NotFound, BadRequest})
            && (r.Ok? ==> r.value == Queue(q.all, q.order, q.records[id :=
                  q.records[id].(lease := Some(Lease(workerID, t + 30, t)))]))
  {
  }

  // ----- Recovery -----

  // A worker has the run and has not been heard of since its lease ran out.
  ghost predicate Overdue(record: QueueRecord, now: int) {
    && record.state in {Leased, Running, Persisting}
    && record.lease.Some? && record.lease.value.deadline <= now
  }

  /**
    A recovery puts exactly the overdue runs back: queued, without lease, once each at the end of the
    line, and leaves every other record and everybody's place as they are.
  */
  lemma RecoveryIsExact(q: Queue, now: int, runIDs: seq<Id>, id: Id)
    requires ListsRecoverable(q, now, runIDs) && id in q.records
    ensures var q' := Recovered(q, runIDs);
            && q'.all == q.all && q'.records.Keys == q.records.Keys && q'.order == q.order + runIDs && Distinct(runIDs)
            && (id in runIDs <==> Overdue(q.records[id], now))
            && q'.records[id] == if Overdue(q.records[id], now) then q.records[id].(state := Queued, lease := None)
                                 else q.records[id]
  {
  }

  ghost predicate InWork(q: Queue, id: Id) { id in q.records && q.records[id].state in {Leased, Running, Persisting} }

  // The worker has the run under a lease that lives until then at least.
  ghost predicate Held(q: Queue, id: Id, workerID: Id, until: int) {
    && InWork(q, id) && q.records[id].lease.Some? && q.records[id].lease.value.workerID == workerID
    && q.records[id].lease.value.deadline >= until
  }

  // Calls that come while the lease lives, in which the worker writes its run back under its lease.
  ghost predicate WhileAlive(c: Call, id: Id, workerID: Id, t: int) {
    match c
    case Recover(now, _) => now < t + 30
    case Heartbeat(runID, _, now) => runID == id ==> now >= t
    case Update(next, _) =>
      next.submission.runID == id ==>
        && next.state in {Leased, Running, Persisting}
        && next.lease.Some? && next.lease.value.workerID == workerID && next.lease.value.deadline >= t + 30
    case _ => true
  }

  lemma HeldByCall(q: Queue, c: Call, id: Id, workerID: Id, t: int)
    requires Held(q, id, workerID, t + 30) && Possible(q, c) && WhileAlive(c, id, workerID, t)
    ensures Held(Call1(q, c), id, workerID, t + 30)
  {
    hide Id.Blank, Distinct, FirstWaiting;
    match c {
      case Claim(other, now) => FirstWaitingQueued(q.order, q.records);
      case Recover(now, runIDs) => RecoveryIsExact(q, now, runIDs, id);
      case _ =>
    }
  }

  ghost predicate AllWhileAlive(calls: seq<Call>, from: nat, id: Id, workerID: Id, t: int) {
    forall k | from <= k < |calls| :: WhileAlive(calls[k], id, workerID, t)
  }

  /**
    From a claim or a heartbeat at time t on, whatever calls of anybody follow, recoveries before t + 30
    among them: the run stays in work under the lease of its worker, so it is not recovered and nobody
    else claims it.
  */
  lemma {:induction false} LiveLeaseIsKept(calls: seq<Call>, n: nat, id: Id, workerID: Id, t: int)
    requires AllPossible(calls) && n < |calls| && AllWhileAlive(calls, n + 1, id, workerID, t)
    requires var before, after := Calls(calls[..n]), Calls(calls[..n + 1]);
             || (calls[n] == Claim(workerID, t) && Claimed(before, workerID, t).1.Ok?
                 && Claimed(before, workerID, t).1.value.submission.runID == id && Indexed(before))
             || (calls[n] == Heartbeat(id, workerID, t) && Renewed(before, id, workerID, t).Ok? && InWork(before, id))
    ensures Held(Calls(calls), id, workerID, t + 30)
  {
    hide Indexed, WhileAlive, Possible, Call1, Held;
    if n + 1 == |calls| {
      assert calls[..n + 1] == calls && calls[..|calls| - 1] == calls[..n];
      var before := Calls(calls[..n]);
      HeldFrom(before, calls[n], id, workerID, t);
    } else {
      var front := calls[..|calls| - 1];
      assert front[..n] == calls[..n] && front[..n + 1] == calls[..n + 1];
      forall i | 0 <= i < |front| ensures Possible(Calls(front[..i]), front[i]) { assert front[..i] == calls[..i]; }
      LiveLeaseIsKept(front, n, id, workerID, t);
      HeldByCall(Calls(front), calls[|calls| - 1], id, workerID, t);
    }
  }

  lemma HeldFrom(q: Queue, c: Call, id: Id, workerID: Id, t: int)
    requires || (c == Claim(workerID, t) && Claimed(q, workerID, t).1.Ok?
                 && Claimed(q, workerID, t).1.value.submission.runID == id && Indexed(q))
             || (c == Heartbeat(id, workerID, t) && Renewed(q, id, workerID, t).Ok? && InWork(q, id))
    ensures Held(Call1(q, c), id, workerID, t + 30)
  {
    if c.Claim? {
      ClaimVerdict(q, workerID, t);
      RecordsNamed(q);
    } else {
      HeartbeatVerdict(q, id, workerID, t);
    }
  }

  /** What the theorem comes to for one recovery: run, lease and place in the line are as they were. */
  lemma LiveLeaseIsLeftAlone(q: Queue, id: Id, workerID: Id, t: int, now: int, runIDs: seq<Id>)
    requires Held(q, id, workerID, t + 30) && now < t + 30 && ListsRecoverable(q, now, runIDs)
    ensures Recovered(q, runIDs).records[id] == q.records[id] && id !in runIDs
    ensures Recovered(q, runIDs).order[..|q.order|] == q.order
  {
    RecoveryIsExact(q, now, runIDs, id);
  }

  // ----- The lifecycle -----

  // How far a run has come on the way to completion.
  function Progress(state: State): nat {
    match state
    case Queued => 0
    case Leased => 1
    case Running => 2
    case Persisting => 3
    case Completed => 4
    case _ => 5
  }

  /**
    A run stays where it is, moves on by one stage, fails out of a worker's hands, or is canceled while
    nobody has it; no other transition is legal.
  */
  lemma TransitionIff(from: State, to: State)
    ensures ValidTransition(from, to) <==>
              || to == from
              || (to in {Leased, Running, Persisting, Completed} && Progress(to) == Progress(from) + 1)
              || (to == Failed && from in {Leased, Running, Persisting})
              || (to == Canceled && from == Queued)
  {
  }

  /** An update is refused or replaces the record, with the time of the first completion. */
  lemma UpdateVerdict(q: Queue, next: QueueRecord, now: int)
    ensures var id, r := next.submission.runID, Updated(q, next, now);
            && (r == Err(NotFound) <==> id !in q.records)
            && (r == Err(BadTransition) <==> id in q.records && !ValidTransition(q.records[id].state, next.state))
            && (r.Err? ==> r.error in {NotFound, BadTransition})
            && (r.Ok? ==>
                  && r.value.all == q.all && r.value.order == q.order && r.value.records.Keys == q.records.Keys
                  && (forall other | other in q.records && other != id :: r.value.records[other] == q.records[other])
                  && var after := r.value.records[id];
                     && after.submission == next.submission && after.state == next.state
                     && after.lease == next.lease && after.terminal == next.terminal
                     && (q.records[id].completedAt.Some? ==> after.completedAt == q.records[id].completedAt)
                     && (q.records[id].completedAt.None? ==>
                           after.completedAt == if next.state == Completed then Some(now) else None))
  {
  }

  /** Exactly a completed run is promoted: of its match it alone is official then, and nothing else changes. */
  lemma PromotionVerdict(q: Queue, id: Id)
    ensures var r := Promoted(q, id);
            && (r == Err(NotFound) <==> id !in q.records)
            && (r == Err(Conflict) <==> id in q.records && q.records[id].state != Completed)
            && (r.Err? ==> r.error in {NotFound, Conflict})
            && (r.Ok? ==>
                  && r.value.all == q.all && r.value.order == q.order && r.value.records.Keys == q.records.Keys
                  && forall other | other in q.records ::
                       var before, after := q.records[other], r.value.records[other];
                       if before.submission.matchID != q.records[id].submission.matchID then after == before
                       else && after.submission.official == (other == id)
                            && after.(submission := after.submission.(official := before.submission.official)) == before)
  {
  }

  /** Exactly a run that nobody has is canceled: it leaves the line, and everybody else keeps the place. */
  lemma CancellationVerdict(q: Queue, id: Id)
    ensures var r := Cancelled(q, id);
            && (r == Err(NotFound) <==> id !in q.records)
            && (r == Err(Conflict) <==> id in q.records && q.records[id].state != Queued)
            && (r.Err? ==> r.error in {NotFound, Conflict})
            && (r.Ok? ==>
                  && r.value.all == q.all && r.value.order == Without(q.order, id)
                  && r.value.records
                       == q.records[id := QueueRecord(q.records[id].submission, Canceled, q.records[id].completedAt, None, None)])
  {
  }

  /** A new run waits at the end of the line with what was submitted. */
  lemma EnqueuedWaits(q: Queue, s: Submission)
    requires s.runID !in q.records
    ensures var q' := Enqueued(q, s);
            && q'.all == q.all + [s.runID] && q'.order == q.order + [s.runID]
            && q'.records.Keys == q.records.Keys + {s.runID}
            && q'.records[s.runID] == QueueRecord(s, Queued, None, None, None)
            && forall id | id in q.records :: q'.records[id] == q.records[id]
  {
  }
}
