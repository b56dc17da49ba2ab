/**
  The in-memory run queue (internal/platform/service/store_memory.go): a record map with two
  indexes, `all` in insertion order and `order` of the runs waiting for a worker.

  Queue is the abstract state and the functions on it say what each store call does;
  InMemoryQueueStore is the store itself, each method proved against its function.
*/
module RunQueue {
  import opened Identifiers
  import opened RunTypes

  datatype Queue = Queue(all: seq<Id>, order: seq<Id>, records: map<Id, QueueRecord>)

  const EMPTY := Queue([], [], map[])

  const LEASE_SECONDS := 30

  function NewLease(workerID: Id, now: int): Option<Lease> {
    Some(Lease(workerID, now + LEASE_SECONDS, now))
  }

  predicate Recoverable(record: QueueRecord, now: int) {
    && record.lease.Some? && record.lease.value.deadline <= now
    && (record.state.Leased? || record.state.Running? || record.state.Persisting?)
  }

  // ----- What each call does -----

  function Enqueued(q: Queue, s: Submission): Queue {
    Queue(q.all + [s.runID], q.order + [s.runID], q.records[s.runID := QueueRecord(s, Queued, None, None, None)])
  }

  // The position of the first id of order whose record is still queued, or |order|.
  function FirstWaiting(order: seq<Id>, records: map<Id, QueueRecord>): (k: nat)
    ensures k <= |order|
  {
    if order == [] || (order[0] in records && records[order[0]].state.Queued?) then 0
    else 1 + FirstWaiting(order[1..], records)
  }

  function Claimed(q: Queue, workerID: Id, now: int): (Queue, Outcome<QueueRecord>) {
    if workerID.Blank() then (q, Err(BadRequest))
    else
      var k := FirstWaiting(q.order, q.records);
      if k == |q.order| then (q.(order := []), Err(NothingQueued))
      else
        FirstWaitingQueued(q.order, q.records);
        var record := q.records[q.order[k]].(state := Leased, lease := NewLease(workerID, now));
        (Queue(q.all, q.order[k + 1..], q.records[q.order[k] := record]), Ok(record))
  }

  lemma {:induction false} FirstWaitingQueued(order: seq<Id>, records: map<Id, QueueRecord>)
    ensures var k := FirstWaiting(order, records);
            k < |order| ==> order[k] in records && records[order[k]].state.Queued?
    ensures forall i | 0 <= i < FirstWaiting(order, records) ::
              order[i] !in records || !records[order[i]].state.Queued?
  {
    if order != [] && !(order[0] in records && records[order[0]].state.Queued?) {
      FirstWaitingQueued(order[1..], records);
      assert forall i | 0 < i < |order| :: order[i] == order[1..][i - 1];
    }
  }

  function Renewed(q: Queue, runID: Id, workerID: Id, now: int): Outcome<Queue> {
    if runID !in q.records then Err(NotFound)
    else if q.records[runID].lease.None? || q.records[runID].lease.value.workerID != workerID then Err(BadRequest)
    else Ok(q.(records := q.records[runID := q.records[runID].(lease := NewLease(workerID, now))]))
  }

  // The given recoverable runs go back to the end of the line, in the order given.
  function Recovered(q: Queue, runIDs: seq<Id>): Queue {
    Queue(q.all, q.order + runIDs,
          map id | id in q.records ::
            if id in runIDs then q.records[id].(state := Queued, lease := None) else q.records[id])
  }

  ghost predicate ListsRecoverable(q: Queue, now: int, runIDs: seq<Id>) {
    && Distinct(runIDs)
    && forall id :: id in runIDs <==> id in q.records && Recoverable(q.records[id], now)
  }

  function Stamped(current: QueueRecord, next: QueueRecord, now: int): QueueRecord {
    next.(completedAt :=
      if current.completedAt.Some? then current.completedAt
      else if next.state.Completed? then Some(now) else None)
  }

  function Updated(q: Queue, next: QueueRecord, now: int): Outcome<Queue> {
    var id := next.submission.runID;
    if id !in q.records then Err(NotFound)
    else if !ValidTransition(q.records[id].state, next.state) then Err(BadTransition)
    else Ok(q.(records := q.records[id := Stamped(q.records[id], next, now)]))
  }

  function WithOfficial(record: QueueRecord, official: bool): QueueRecord {
    record.(submission := record.submission.(official := official))
  }

  function Promoted(q: Queue, runID: Id): Outcome<Queue> {
    if runID !in q.records then Err(NotFound)
    else if !q.records[runID].state.Completed? then Err(Conflict)
    else
      var matchID := q.records[runID].submission.matchID;
      Ok(q.(records := map id | id in q.records ::
        if q.records[id].submission.matchID == matchID then WithOfficial(q.records[id], id == runID)
        else q.records[id]))
  }

  function Cancelled(q: Queue, runID: Id): Outcome<Queue> {
    if runID !in q.records then Err(NotFound)
    else if !q.records[runID].state.Queued? then Err(Conflict)
    else
      Ok(Queue(q.all, Without(q.order, runID),
               q.records[runID := q.records[runID].(state := Canceled, lease := None, terminal := None)]))
  }

  function Listed(all: seq<Id>, records: map<Id, QueueRecord>): seq<QueueRecord> {
    if all == [] then []
    else (if all[0] in records then [records[all[0]]] else []) + Listed(all[1..], records)
  }

  lemma {:induction false} ListedAppend(a: seq<Id>, b: seq<Id>, records: map<Id, QueueRecord>)
    ensures Listed(a + b, records) == Listed(a, records) + Listed(b, records)
  {
    if a == [] {
      assert a + b == b;
    } else {
      assert (a + b)[1..] == a[1..] + b;
      ListedAppend(a[1..], b, records);
    }
  }

  // ----- The store -----

  class InMemoryQueueStore {
    var all: seq<Id>
    var order: seq<Id>
    var records: map<Id, QueueRecord>

    ghost function State(): Queue
      reads this
    {
      Queue(all, order, records)
    }

    constructor ()
      ensures State() == EMPTY
    {
      all, order, records := [], [], map[];
    }

    /** internal/platform/service/store_memory.go:35-53 */
    method Enqueue(s: Submission) returns (r: Outcome<QueueRecord>)
      modifies this
      ensures r.Ok? <==> !s.runID.Blank() && s.runID !in old(records)
      ensures r.Ok? ==> State() == Enqueued(old(State()), s) && r.value == records[s.runID]
      ensures r.Err? ==> State() == old(State())
    {
      if s.runID.Blank() { return Err(BadRequest); }
      if s.runID in records { return Err(Conflict); }
      var record := QueueRecord(s, Queued, None, None, None);
      records := records[s.runID := record];
      all := all + [s.runID];
      order := order + [s.runID];
      return Ok(record);
    }

    /** internal/platform/service/store_memory.go:56-77 */
    method Claim(workerID: Id, now: int) returns (r: Outcome<QueueRecord>)
      modifies this
      ensures (State(), r) == Claimed(old(State()), workerID, now)
    {
      if workerID.Blank() { return Err(BadRequest); }
      hide Id.Blank;
      while |order| > 0
        invariant all == old(all) && records == old(records)
        invariant FirstWaiting(old(order), records)
               == |old(order)| - |order| + FirstWaiting(order, records)
        invariant |order| <= |old(order)| && order == old(order)[|old(order)| - |order|..]
        decreases |order|
      {
        var runID := order[0];
        order := order[1..];
        if runID !in records || !records[runID].state.Queued? { continue; }
        var record := records[runID].(state := Leased, lease := NewLease(workerID, now));
        records := records[runID := record];
        return Ok(record);
      }
      return Err(NothingQueued);
    }

    /** internal/platform/service/store_memory.go:80-93 */
    method Heartbeat(runID: Id, workerID: Id, now: int) returns (r: Outcome<()>)
      modifies this
      ensures match Renewed(old(State()), runID, workerID, now)
              case Ok(q) => r == Ok(()) && State() == q
              case Err(e) => r == Err(e) && State() == old(State())
    {
      if runID !in records { return Err(NotFound); }
      var record := records[runID];
      if record.lease.None? || record.lease.value.workerID != workerID { return Err(BadRequest); }
      records := records[runID := record.(lease := NewLease(workerID, now))];
      return Ok(());
    }

    /**
      internal/platform/service/store_memory.go:96-111. Go visits the map in an arbitrary order,
      so the recovered runs join the line in an arbitrary order.
    */
    method RecoverExpired(now: int) returns (recovered: nat, ghost runIDs: seq<Id>)
      modifies this
      ensures ListsRecoverable(old(State()), now, runIDs)
      ensures State() == Recovered(old(State()), runIDs)
      ensures recovered == |runIDs| && order == old(order) + runIDs && all == old(all)
      ensures records.Keys == old(records).Keys
      ensures forall id | id in old(records) ::
                var record := old(records)[id];
                records[id] == if record.state in {Leased, Running, Persisting} && record.lease.Some?
                                  && record.lease.value.deadline <= now
                               then record.(state := Queued, lease := None) else record
    {
      recovered, runIDs := 0, [];
      var left := records.Keys;
      while left != {}
        invariant all == old(all) && left <= records.Keys == old(records).Keys
        invariant Distinct(runIDs) && recovered == |runIDs|
        invariant forall id :: id in runIDs <==>
                    id in old(records) && id !in left && Recoverable(old(records)[id], now)
        invariant order == old(order) + runIDs
        invariant records == Recovered(old(State()), runIDs).records
        decreases left
      {
        var runID :| runID in left;
        var record := records[runID];
        left := left - {runID};
        if !Recoverable(record, now) { continue; }
        records := records[runID := record.(state := Queued, lease := None)];
        order := order + [runID];
        recovered := recovered + 1;
        DistinctSnoc(runIDs, runID);
        runIDs := runIDs + [runID];
      }
    }

    /** internal/platform/service/store_memory.go:114-136 */
    method Update(next: QueueRecord, now: int) returns (r: Outcome<()>)
      modifies this
      ensures match Updated(old(State()), next, now)
              case Ok(q) => r == Ok(()) && State() == q
              case Err(e) => r == Err(e) && State() == old(State())
    {
      var runID := next.submission.runID;
      if runID !in records { return Err(NotFound); }
      var current := records[runID];
      if !ValidTransition(current.state, next.state) { return Err(BadTransition); }
      var completedAt := None;
      if current.completedAt.Some? {
        completedAt := current.completedAt;
      } else if next.state.Completed? {
        completedAt := Some(now);
      }
      records := records[runID := next.(completedAt := completedAt)];
      return Ok(());
    }

    /** internal/platform/service/store_memory.go:139-157 */
    method Promote(runID: Id) returns (r: Outcome<QueueRecord>)
      modifies this
      ensures match Promoted(old(State()), runID)
              case Ok(q) => State() == q && r == Ok(q.records[runID])
              case Err(e) => r == Err(e) && State() == old(State())
    {
      if runID !in records { return Err(NotFound); }
      var target := records[runID];
      if !target.state.Completed? { return Err(Conflict); }
      ghost var goal := Promoted(State(), runID).value;
      var left := records.Keys;
      while left != {}
        invariant all == old(all) && order == old(order)
        invariant left <= records.Keys == old(records).Keys
        invariant forall id | id in records :: records[id] == if id in left then old(records)[id] else goal.records[id]
        decreases left
      {
        var id :| id in left;
        var record := records[id];
        left := left - {id};
        if record.submission.matchID != target.submission.matchID { continue; }
        records := records[id := record.(submission := record.submission.(official := id == runID))];
      }
      assert records == goal.records;
      return Ok(records[runID]);
    }

    /** internal/platform/service/store_memory.go:160-180 */
    method CancelQueued(runID: Id) returns (r: Outcome<QueueRecord>)
      modifies this
      ensures match Cancelled(old(State()), runID)
              case Ok(q) => State() == q && r == Ok(q.records[runID])
              case Err(e) => r == Err(e) && State() == old(State())
    {
      if runID !in records { return Err(NotFound); }
      var record := records[runID];
      if !record.state.Queued? { return Err(Conflict); }
      record := record.(state := Canceled, lease := None, terminal := None);
      records := records[runID := record];
      RemoveFromOrder(runID);
      return Ok(record);
    }

    /**
      internal/platform/service/store_memory.go:210-219: the filter writes into the array it is
      still reading, which is sound because the write position never passes the read position.
    */
    method RemoveFromOrder(runID: Id)
      modifies this`order
      ensures order == Without(old(order), runID)
    {
      ghost var line := order;
      var backing, filtered: nat := order, 0;
      for i := 0 to |backing|
        invariant filtered <= i && |backing| == |line|
        invariant backing[i..] == line[i..]
        invariant backing[..filtered] == Without(line[..i], runID)
      {
        var queuedID := backing[i];
        assert queuedID == backing[i..][0] == line[i];
        assert line[..i + 1] == line[..i] + [queuedID];
        WithoutAppend(line[..i], [queuedID], runID);
        assert [queuedID][1..] == [];
        assert Without([queuedID], runID) == if queuedID == runID then [] else [queuedID];
        assert Without(line[..i + 1], runID) == Without(line[..i], runID) + Without([queuedID], runID);
        if queuedID == runID { continue; }
        backing := backing[filtered := queuedID];
        filtered := filtered + 1;
        assert backing[..filtered] == backing[..filtered - 1] + [queuedID];
      }
      assert line[..|line|] == line;
      order := backing[..filtered];
    }

    /** internal/platform/service/store_memory.go:183-192 */
    method Get(runID: Id) returns (r: Outcome<QueueRecord>)
      ensures r == if runID in records then Ok(records[runID]) else Err(NotFound)
    {
      if runID !in records { return Err(NotFound); }
      return Ok(records[runID]);
    }

    /** internal/platform/service/store_memory.go:195-208 */
    method List() returns (result: seq<QueueRecord>)
      ensures result == Listed(all, records)
    {
      result := [];
      for i := 0 to |all|
        invariant result == Listed(all[..i], records)
      {
        assert all[..i + 1] == all[..i] + [all[i]];
        ListedAppend(all[..i], [all[i]], records);
        assert [all[i]][1..] == [];
        if all[i] !in records { continue; }
        result := result + [records[all[i]]];
      }
      assert all[..|all|] == all;
    }
  }
}
