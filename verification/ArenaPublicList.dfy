/**
  The public list over the running arena: in every run the match page shows the match's one official
  run as soon as there is one (internal/platform/service/public_state.go, worker.go, store_memory.go).
*/
module ArenaPublicList {
  import opened Identifiers
  import opened RunTypes
  import opened RunQueue
  import opened QueueInvariants
  import opened RunControl
  import opened Arena
  import PublicList

  lemma LastIsMember(records: seq<QueueRecord>, matchID: Id, r: QueueRecord, such: QueueRecord -> bool)
    requires PublicList.LastSuch(records, matchID, r, such)
    ensures r in records && r.submission.matchID == matchID && such(r)
  {
  }

  lemma OfficialIsShown(acts: seq<Action>, id: Id)
    requires Run(acts) && id in Reached(acts).q.records && Reached(acts).q.records[id].submission.official
    ensures var q := Reached(acts).q;
            PublicList.Selected(Listed(q.all, q.records), q.records[id].submission.matchID) == Some(q.records[id])
  {
    hide Run, Reached, Listed, Line, Lifecycle, JobsKnown, PublicList.Selected, PublicList.LastSuch;
    RunIsSound(acts);
    var q := Reached(acts).q;
    var r, records := q.records[id], Listed(q.all, q.records);
    ListedIsRecords(q.all, q.records);
    assert r in records;
    assert PublicList.Final(r) && PublicList.IS_FINAL(r);
    PublicList.ShownRun(records, r.submission.matchID);
    assert PublicList.SomeSuch(records, r.submission.matchID, PublicList.IS_FINAL);
    var shown := PublicList.Selected(records, r.submission.matchID).value;
    LastIsMember(records, r.submission.matchID, shown, PublicList.IS_FINAL);
    var other :| other in q.all && other in q.records && q.records[other] == shown;
    assert other == id;
  }

  /**
    In every run each page of the list is in the order asked for: newest first or oldest first, what is
    not completed last, and by match id where the times do not tell.
  */
  lemma ListIsOrdered(
      acts: seq<Action>, list: PublicList.MatchList, listing: seq<QueueRecord>, versions: seq<Id>,
      options: PublicList.ListOptions, majorOf: Id -> Option<int>)
    requires Run(acts) && options.limit > 0 && options.page >= 1
    requires PublicList.IsListing(listing, Listed(Reached(acts).q.all, Reached(acts).q.records), options, majorOf)
    requires PublicList.IsPage(list, listing, versions, options)
    ensures forall i, j | 0 <= i < j < |list.items| ::
              PublicList.InPublicOrder(options.ascending, list.items[i], list.items[j])
  {
    hide Run, Reached, Listed, Line, JobsKnown, PublicList.IsListing, PublicList.IsPage, PublicList.InPublicOrder;
    RunIsSound(acts);
    var q := Reached(acts).q;
    var records := Listed(q.all, q.records);
    ListedIsRecords(q.all, q.records);
    forall r | r in records && r.completedAt.Some? ensures r.state.Completed? {
      var id :| id in q.all && id in q.records && q.records[id] == r;
    }
    PublicList.PageIsOrdered(list, listing, versions, records, options, majorOf);
  }
}
