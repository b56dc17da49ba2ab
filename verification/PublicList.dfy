/**
  The public match list (internal/platform/service/public_state.go): one run is shown per match, the
  shown runs are filtered, sorted and cut into pages.
*/
module PublicList {
  import opened Identifiers
  import opened RunTypes
  import opened Sorting

  // ----- The run shown for a match -----

  predicate Discoverable(state: State) { !(state.Queued? || state.Leased?) }

  // The official completed run of its match.
  predicate Final(r: QueueRecord) { r.state.Completed? && r.submission.official }

  function Chosen(current: Option<QueueRecord>, r: QueueRecord): Option<QueueRecord> {
    if !Discoverable(r.state) then current
    else if current.None? || Final(r) || !Final(current.value) then Some(r)
    else current
  }

  // The run shown for a match after looking at the records in order.
  function Selected(records: seq<QueueRecord>, matchID: Id): Option<QueueRecord> {
    if records == [] then None
    else
      var n := |records| - 1;
      var front := Selected(records[..n], matchID);
      if records[n].submission.matchID == matchID then Chosen(front, records[n]) else front
  }

  // r is the last of the match's records with the given property.
  ghost predicate LastSuch(records: seq<QueueRecord>, matchID: Id, r: QueueRecord, such: QueueRecord -> bool) {
    exists k :: 0 <= k < |records| && records[k] == r && r.submission.matchID == matchID && such(r)
      && forall j | k < j < |records| :: !(records[j].submission.matchID == matchID && such(records[j]))
  }

  ghost predicate SomeSuch(records: seq<QueueRecord>, matchID: Id, such: QueueRecord -> bool) {
    exists r :: r in records && r.submission.matchID == matchID && such(r)
  }

  lemma SuchLast(records: seq<QueueRecord>, matchID: Id, such: QueueRecord -> bool)
    requires records != []
    ensures var n := |records| - 1;
            SomeSuch(records, matchID, such) <==>
              SomeSuch(records[..n], matchID, such) || (records[n].submission.matchID == matchID && such(records[n]))
  {
    var n := |records| - 1;
    assert records == records[..n] + [records[n]];
    if SomeSuch(records[..n], matchID, such) {
      var r :| r in records[..n] && r.submission.matchID == matchID && such(r);
      assert r in records;
    }
    if records[n].submission.matchID == matchID && such(records[n]) { assert records[n] in records; }
  }

  lemma LastSuchStays(records: seq<QueueRecord>, matchID: Id, r: QueueRecord, such: QueueRecord -> bool)
    requires records != [] && LastSuch(records[..|records| - 1], matchID, r, such)
    requires var last := records[|records| - 1]; !(last.submission.matchID == matchID && such(last))
    ensures LastSuch(records, matchID, r, such)
  {
    var n := |records| - 1;
    var k :| 0 <= k < n && records[..n][k] == r && r.submission.matchID == matchID && such(r)
      && forall j | k < j < n :: !(records[..n][j].submission.matchID == matchID && such(records[..n][j]));
    assert records[k] == r;
    forall j | k < j < |records| ensures !(records[j].submission.matchID == matchID && such(records[j])) {
      if j < n { assert records[..n][j] == records[j]; }
    }
  }

  lemma LastSuchNew(records: seq<QueueRecord>, matchID: Id, such: QueueRecord -> bool)
    requires records != []
    requires var last := records[|records| - 1]; last.submission.matchID == matchID && such(last)
    ensures LastSuch(records, matchID, records[|records| - 1], such)
  {
    assert records[|records| - 1] == records[|records| - 1];
  }

  const IS_FINAL: QueueRecord -> bool := (r: QueueRecord) => r.state == Completed && r.submission.official
  const IS_SHOWN: QueueRecord -> bool := (r: QueueRecord) => r.state in {Running, Persisting, Completed, Failed, Canceled}

  /**
    A match is listed exactly when some of its runs is discoverable. It shows its official completed
    run, the last one, whenever there is one, and otherwise its last discoverable run.
  */
  lemma {:induction false} ShownRun(records: seq<QueueRecord>, matchID: Id)
    ensures Selected(records, matchID).Some? <==> SomeSuch(records, matchID, IS_SHOWN)
    ensures SomeSuch(records, matchID, IS_FINAL) ==>
              && Selected(records, matchID).Some? && IS_FINAL(Selected(records, matchID).value)
              && LastSuch(records, matchID, Selected(records, matchID).value, IS_FINAL)
    ensures Selected(records, matchID).Some? && !SomeSuch(records, matchID, IS_FINAL) ==>
              && !IS_FINAL(Selected(records, matchID).value)
              && LastSuch(records, matchID, Selected(records, matchID).value, IS_SHOWN)
  {
    hide LastSuch, SomeSuch;
    if records == [] {
      NoneSuch(matchID, IS_SHOWN);
      NoneSuch(matchID, IS_FINAL);
    } else {
      var n := |records| - 1;
      var front, last := records[..n], records[n];
      ShownRun(front, matchID);
      SuchLast(records, matchID, IS_SHOWN);
      SuchLast(records, matchID, IS_FINAL);
      var before := Selected(front, matchID);
      if last.submission.matchID == matchID && Final(last) {
        LastSuchNew(records, matchID, IS_FINAL);
      } else if SomeSuch(front, matchID, IS_FINAL) {
        LastSuchStays(records, matchID, before.value, IS_FINAL);
      } else if last.submission.matchID == matchID && Discoverable(last.state) {
        LastSuchNew(records, matchID, IS_SHOWN);
      } else if before.Some? {
        LastSuchStays(records, matchID, before.value, IS_SHOWN);
      }
    }
  }

  lemma NoneSuch(matchID: Id, such: QueueRecord -> bool)
    ensures !SomeSuch([], matchID, such)
  {
  }

  lemma {:induction false} SelectedOfMatch(records: seq<QueueRecord>, matchID: Id)
    ensures Selected(records, matchID).Some? ==> Selected(records, matchID).value.submission.matchID == matchID
  {
    if records != [] { SelectedOfMatch(records[..|records| - 1], matchID); }
  }

  function MatchesIn(records: seq<QueueRecord>): seq<Id> {
    seq(|records|, i requires 0 <= i < |records| => records[i].submission.matchID)
  }

  // One record per match that is shown, in any order.
  ghost predicate Lists(shown: seq<QueueRecord>, records: seq<QueueRecord>) {
    && Distinct(MatchesIn(shown))
    && forall r :: r in shown <==> Selected(records, r.submission.matchID) == Some(r)
  }

  /** internal/platform/service/public_state.go:362-378; Go lists the map in an arbitrary order. */
  method SelectedPublicRecords(records: seq<QueueRecord>) returns (shown: seq<QueueRecord>)
    ensures Lists(shown, records)
  {
    var selected: map<Id, QueueRecord> := map[];
    for i := 0 to |records|
      invariant forall m :: m in selected <==> Selected(records[..i], m).Some?
      invariant forall m | m in selected :: Selected(records[..i], m) == Some(selected[m])
    {
      var r := records[i];
      var m := r.submission.matchID;
      assert records[..i + 1][..i] == records[..i] && records[..i + 1][i] == r;
      if !Discoverable(r.state) { continue; }
      if m !in selected || Final(r) || !Final(selected[m]) { selected := selected[m := r]; }
    }
    assert records[..|records|] == records;
    hide Selected, Lists;
    shown := [];
    var left := selected.Keys;
    ListsNothing(records);
    while left != {}
      invariant left <= selected.Keys
      invariant forall m :: m in selected <==> Selected(records, m).Some?
      invariant forall m | m in selected :: Selected(records, m) == Some(selected[m])
      invariant ListsPart(shown, records, selected.Keys - left)
      decreases left
    {
      var m :| m in left;
      SelectedOfMatch(records, m);
      ListsMore(shown, records, selected.Keys - left, selected[m]);
      assert selected.Keys - (left - {m}) == selected.Keys - left + {m};
      left := left - {m};
      shown := shown + [selected[m]];
    }
    assert selected.Keys - left == selected.Keys;
    ListsAll(shown, records, selected.Keys);
  }

  ghost predicate ListsPart(shown: seq<QueueRecord>, records: seq<QueueRecord>, matches: set<Id>) {
    && Distinct(MatchesIn(shown))
    && forall r :: r in shown <==> r.submission.matchID in matches && Selected(records, r.submission.matchID) == Some(r)
  }

  lemma ListsNothing(records: seq<QueueRecord>)
    ensures ListsPart([], records, {})
  {
  }

  lemma ListsMore(shown: seq<QueueRecord>, records: seq<QueueRecord>, matches: set<Id>, r: QueueRecord)
    requires ListsPart(shown, records, matches) && r.submission.matchID !in matches
    requires Selected(records, r.submission.matchID) == Some(r)
    ensures ListsPart(shown + [r], records, matches + {r.submission.matchID})
  {
    hide Selected;
    forall i | 0 <= i < |shown| ensures MatchesIn(shown)[i] != r.submission.matchID { assert shown[i] in shown; }
    DistinctSnoc(MatchesIn(shown), r.submission.matchID);
    assert MatchesIn(shown + [r]) == MatchesIn(shown) + [r.submission.matchID];
  }

  lemma ListsAll(shown: seq<QueueRecord>, records: seq<QueueRecord>, matches: set<Id>)
    requires ListsPart(shown, records, matches)
    requires forall m | Selected(records, m).Some? :: m in matches
    ensures Lists(shown, records)
  {
    hide Selected;
  }

  // ----- The order -----

  /** internal/platform/service/public_state.go:264-281 */
  predicate Precedes(ascending: bool, l: QueueRecord, r: QueueRecord) {
    if l.completedAt.None? || r.completedAt.None? then
      if l.completedAt.None? && r.completedAt.None? then l.submission.matchID.Less(r.submission.matchID)
      else r.completedAt.None?
    else if l.completedAt.value == r.completedAt.value then l.submission.matchID.Less(r.submission.matchID)
    else if ascending then l.completedAt.value < r.completedAt.value
    else l.completedAt.value > r.completedAt.value
  }

  // In both sort orders: a strict total order on records of different matches.
  lemma PrecedesTotal(ascending: bool, l: QueueRecord, r: QueueRecord)
    ensures l.submission.matchID != r.submission.matchID ==> Precedes(ascending, l, r) || Precedes(ascending, r, l)
    ensures !(Precedes(ascending, l, r) && Precedes(ascending, r, l)) && !Precedes(ascending, l, l)
  {
    LessTotal(l.submission.matchID, r.submission.matchID);
  }

  lemma PrecedesTransitive(ascending: bool, a: QueueRecord, b: QueueRecord, c: QueueRecord)
    requires Precedes(ascending, a, b) && Precedes(ascending, b, c)
    ensures Precedes(ascending, a, c)
  {
    hide Id.Less;
    if a.submission.matchID.Less(b.submission.matchID) && b.submission.matchID.Less(c.submission.matchID) {
      LessTransitive(a.submission.matchID, b.submission.matchID, c.submission.matchID);
    }
  }

  ghost predicate Sorted(ascending: bool, s: seq<QueueRecord>) {
    forall i, j | 0 <= i < j < |s| :: Precedes(ascending, s[i], s[j])
  }

  // Whatever order the runs were collected in, sorting them gives one list.
  lemma OneSorting(ascending: bool, a: seq<QueueRecord>, b: seq<QueueRecord>)
    requires Sorted(ascending, a) && Sorted(ascending, b) && forall r :: r in a <==> r in b
    ensures a == b
  {
    hide Precedes;
    var less := (l: QueueRecord, r: QueueRecord) => Precedes(ascending, l, r);
    forall l, r | less(l, r) ensures !less(r, l) { PrecedesTotal(ascending, l, r); }
    OneStrictOrder(less, a, b);
  }

  lemma PrecedesIsWeak(ascending: bool)
    ensures WeakOrder((l: QueueRecord, r: QueueRecord) => Precedes(ascending, l, r))
  {
    var less := (l: QueueRecord, r: QueueRecord) => Precedes(ascending, l, r);
    forall l, r | less(l, r) ensures !less(r, l) { PrecedesTotal(ascending, l, r); }
    forall a, b, c | !less(a, b) && !less(b, c) ensures !less(a, c) { NotPrecedesTransitive(ascending, a, b, c); }
  }

  lemma NotPrecedesTransitive(ascending: bool, a: QueueRecord, b: QueueRecord, c: QueueRecord)
    requires !Precedes(ascending, a, b) && !Precedes(ascending, b, c)
    ensures !Precedes(ascending, a, c)
  {
    hide Id.Less;
    var x, y, z := a.submission.matchID, b.submission.matchID, c.submission.matchID;
    LessTotal(x, y);
    LessTotal(y, z);
    LessTotal(x, z);
    if x.Less(z) && z.Less(y) { LessTransitive(x, z, y); }
  }

  // sort.Slice by Precedes, on records of different matches.
  method SortPublicMatchRecords(ascending: bool, records: seq<QueueRecord>) returns (sorted: seq<QueueRecord>)
    requires Distinct(MatchesIn(records))
    ensures Sorted(ascending, sorted) && forall r :: r in sorted <==> r in records
    ensures |sorted| == |records|
  {
    hide Precedes, MatchesIn, WeakOrder;
    PrecedesIsWeak(ascending);
    sorted := SortSlice((l: QueueRecord, r: QueueRecord) => Precedes(ascending, l, r), records);
    assert |sorted| == |multiset(sorted)| == |multiset(records)| == |records|;
    MatchesApart(records, sorted);
    forall i, j | 0 <= i < j < |sorted| ensures Precedes(ascending, sorted[i], sorted[j]) {
      PrecedesTotal(ascending, sorted[i], sorted[j]);
    }
    forall r ensures r in sorted <==> r in records {
      assert r in sorted <==> r in multiset(sorted);
      assert r in records <==> r in multiset(records);
    }
  }

  lemma MatchesApart(records: seq<QueueRecord>, sorted: seq<QueueRecord>)
    requires Distinct(MatchesIn(records)) && multiset(sorted) == multiset(records)
    ensures forall i, j | 0 <= i < j < |sorted| :: sorted[i].submission.matchID != sorted[j].submission.matchID
  {
    var matches := MatchesIn(records);
    forall i, j | 0 <= i < j < |records| ensures records[i] != records[j] { DistinctAt(matches, i, j); }
    DistinctByIndex(records);
    DistinctIsCountedOnce(records);
    DistinctIsCountedOnce(sorted);
    forall i, j | 0 <= i < j < |sorted| ensures sorted[i].submission.matchID != sorted[j].submission.matchID {
      DistinctAt(sorted, i, j);
      assert sorted[i] in multiset(records) && sorted[j] in multiset(records);
      var k :| 0 <= k < |records| && records[k] == sorted[i];
      var l :| 0 <= l < |records| && records[l] == sorted[j];
      if k < l { DistinctAt(matches, k, l); } else { DistinctAt(matches, l, k); }
    }
  }

  lemma OtherMatches(records: seq<QueueRecord>, i: nat, sorted: seq<QueueRecord>)
    requires Distinct(MatchesIn(records)) && i < |records| && forall r | r in sorted :: r in records[..i]
    ensures forall j | 0 <= j < |sorted| :: sorted[j].submission.matchID != records[i].submission.matchID
  {
    forall j | 0 <= j < |sorted| ensures sorted[j].submission.matchID != records[i].submission.matchID {
      assert sorted[j] in records[..i];
      var k :| 0 <= k < i && records[..i][k] == sorted[j];
      DistinctAt(MatchesIn(records), k, i);
    }
  }

  // ----- The list -----

  datatype ListOptions = ListOptions(
    gameID: Id, majorVersion: int, rulesetVersion: Id, page: int, limit: int, ascending: bool)

  /** internal/platform/service/public_state.go:253-262; majorOf reads the major version of a version. */
  predicate InScope(r: QueueRecord, options: ListOptions, majorOf: Id -> Option<int>) {
    && (options.gameID != NO_ID ==> r.submission.game.gameID == options.gameID)
    && (options.majorVersion != 0 ==> majorOf(r.submission.game.gameVersion) == Some(options.majorVersion))
  }

  /** internal/platform/service/public_state.go:248-251 */
  predicate Passes(r: QueueRecord, options: ListOptions, majorOf: Id -> Option<int>) {
    && InScope(r, options, majorOf)
    && (options.rulesetVersion != NO_ID ==> r.submission.game.rulesetVersion == options.rulesetVersion)
  }

  // The whole list: the shown runs that pass the filters, sorted.
  ghost predicate IsListing(
      listing: seq<QueueRecord>, records: seq<QueueRecord>, options: ListOptions, majorOf: Id -> Option<int>)
  {
    && Sorted(options.ascending, listing)
    && forall r :: r in listing <==> Selected(records, r.submission.matchID) == Some(r) && Passes(r, options, majorOf)
  }

  // It is determined by the queue and the filters alone.
  lemma ListingIsUnique(
      a: seq<QueueRecord>, b: seq<QueueRecord>, records: seq<QueueRecord>, options: ListOptions, majorOf: Id -> Option<int>)
    requires IsListing(a, records, options, majorOf) && IsListing(b, records, options, majorOf)
    ensures a == b
  {
    hide Selected, Passes;
    forall r ensures r in a <==> r in b {}
    OneSorting(options.ascending, a, b);
  }

  /**
    Of any two entries of the list, wherever they are, the earlier one is as asked for: completed before
    uncompleted ones, by completion time in the order asked for, and by match id where the times do not tell.
  */
  lemma ListingIsOrdered(
      listing: seq<QueueRecord>, records: seq<QueueRecord>, options: ListOptions, majorOf: Id -> Option<int>, i: nat, j: nat)
    requires IsListing(listing, records, options, majorOf) && i < j < |listing|
    ensures var (id, t), (id', t') := (listing[i].submission.matchID, listing[i].completedAt),
                                      (listing[j].submission.matchID, listing[j].completedAt);
            && (t.None? ==> t'.None?)
            && (t.Some? && t'.Some? ==> if options.ascending then t.value <= t'.value else t.value >= t'.value)
            && (t == t' ==> id.Less(id'))
  {
    hide Selected, Passes, Id.Less;
  }

  // A list in which any two entries are so is sorted: the order is no more than that.
  lemma OrderedIsSorted(ascending: bool, s: seq<QueueRecord>)
    requires forall i, j | 0 <= i < j < |s| ::
               && (s[i].completedAt.None? ==> s[j].completedAt.None?)
               && (s[i].completedAt.Some? && s[j].completedAt.Some? ==>
                     if ascending then s[i].completedAt.value <= s[j].completedAt.value
                     else s[i].completedAt.value >= s[j].completedAt.value)
               && (s[i].completedAt == s[j].completedAt ==> s[i].submission.matchID.Less(s[j].submission.matchID))
    ensures Sorted(ascending, s)
  {
    hide Id.Less;
  }

  /** Exactly the shown runs are listed that are of the game, the major version and the ruleset asked for. */
  lemma ListedIff(
      listing: seq<QueueRecord>, records: seq<QueueRecord>, options: ListOptions, majorOf: Id -> Option<int>, r: QueueRecord)
    requires IsListing(listing, records, options, majorOf)
    ensures r in listing <==>
              && Selected(records, r.submission.matchID) == Some(r)
              && (options.gameID == NO_ID || r.submission.game.gameID == options.gameID)
              && (options.majorVersion == 0 || majorOf(r.submission.game.gameVersion) == Some(options.majorVersion))
              && (options.rulesetVersion == NO_ID || r.submission.game.rulesetVersion == options.rulesetVersion)
  {
    hide Selected, Sorted;
  }

  const ID_LESS: (Id, Id) -> bool := (a: Id, b: Id) => a.Less(b)

  // The ruleset versions of the shown runs in scope, whatever ruleset is asked for, sorted.
  ghost predicate IsOffer(versions: seq<Id>, records: seq<QueueRecord>, options: ListOptions, majorOf: Id -> Option<int>) {
    && StrictlyInOrder(ID_LESS, versions)
    && forall v :: v in versions <==>
         exists r: QueueRecord :: Selected(records, r.submission.matchID) == Some(r) && InScope(r, options, majorOf)
           && r.submission.game.rulesetVersion == v
  }

  lemma OfferIsUnique(a: seq<Id>, b: seq<Id>, records: seq<QueueRecord>, options: ListOptions, majorOf: Id -> Option<int>)
    requires IsOffer(a, records, options, majorOf) && IsOffer(b, records, options, majorOf)
    ensures a == b
  {
    hide Selected, InScope;
    forall v, w | ID_LESS(v, w) ensures !ID_LESS(w, v) { LessTotal(v, w); }
    OneStrictOrder(ID_LESS, a, b);
  }

  /** A ruleset version is on offer exactly when asking for it lists some match. */
  lemma OfferedIffListed(
      versions: seq<Id>, v: Id, listing: seq<QueueRecord>, records: seq<QueueRecord>, options: ListOptions,
      majorOf: Id -> Option<int>)
    requires IsOffer(versions, records, options, majorOf) && v != NO_ID
    requires IsListing(listing, records, options.(rulesetVersion := v), majorOf)
    ensures v in versions <==> listing != []
  {
    hide Selected, Sorted;
    var asked := options.(rulesetVersion := v);
    assert forall r :: InScope(r, asked, majorOf) <==> InScope(r, options, majorOf);
    hide InScope;
    if listing != [] { assert listing[0] in listing; }
    if v in versions {
      var r: QueueRecord :| Selected(records, r.submission.matchID) == Some(r) && InScope(r, options, majorOf)
        && r.submission.game.rulesetVersion == v;
      assert Passes(r, asked, majorOf);
      assert r in listing;
    }
  }

  function TotalPages(total: nat, limit: int): nat
    requires limit > 0
  {
    (total + limit - 1) / limit
  }

  function Start(page: int, limit: int): int { (page - 1) * limit }

  function Least(a: int, b: int): int { if a < b then a else b }

  lemma DivisionBounds(x: nat, limit: int)
    requires limit > 0
    ensures x / limit * limit <= x < x / limit * limit + limit
  {
  }

  lemma {:induction false} TimesGrows(a: int, b: int, limit: int)
    requires a <= b && limit > 0
    ensures a * limit <= b * limit
    decreases b - a
  {
    if a < b {
      TimesGrows(a, b - 1, limit);
      assert b * limit == (b - 1) * limit + limit;
    }
  }

  lemma PageBounds(total: nat, limit: int, page: int)
    requires limit > 0 && 1 <= page
    ensures page <= TotalPages(total, limit) ==> 0 <= Start(page, limit) < total
    ensures page > TotalPages(total, limit) ==> Start(page, limit) >= total
    ensures Start(page + 1, limit) == Start(page, limit) + limit
  {
    var pages := TotalPages(total, limit);
    DivisionBounds(total + limit - 1, limit);
    hide TotalPages;
    assert pages * limit <= total + limit - 1 < pages * limit + limit;
    assert page * limit == (page - 1) * limit + limit;
    TimesGrows(0, page - 1, limit);
    if page <= pages { TimesGrows(page, pages, limit); } else { TimesGrows(pages, page - 1, limit); }
  }

  function PageOf(listing: seq<QueueRecord>, page: int, limit: int): seq<QueueRecord>
    requires limit > 0 && page >= 1
  {
    PageBounds(|listing|, limit, page);
    if page <= TotalPages(|listing|, limit)
    then listing[Start(page, limit)..Least(Start(page, limit) + limit, |listing|)] else []
  }

  function Pages(listing: seq<QueueRecord>, n: nat, limit: int): seq<QueueRecord>
    requires limit > 0
  {
    if n == 0 then [] else Pages(listing, n - 1, limit) + PageOf(listing, n, limit)
  }

  lemma {:induction false} PagesSoFar(listing: seq<QueueRecord>, n: nat, limit: int)
    requires limit > 0
    ensures Start(n + 1, limit) >= 0
    ensures Pages(listing, n, limit) == listing[..Least(Start(n + 1, limit), |listing|)]
  {
    if n > 0 {
      hide Start, TotalPages;
      PagesSoFar(listing, n - 1, limit);
      PageBounds(|listing|, limit, n);
      assert n - 1 + 1 == n;
    }
  }

  /**
    The pages one after the other are the whole list; every page but the last is full, the last one is
    not empty, and all later pages are.
  */
  lemma PagesAreTheList(listing: seq<QueueRecord>, limit: int)
    requires limit > 0
    ensures Pages(listing, TotalPages(|listing|, limit), limit) == listing
    ensures forall page: int | page >= 1 :: |PageOf(listing, page, limit)| <= limit
    ensures forall page: int | page > TotalPages(|listing|, limit) :: PageOf(listing, page, limit) == []
    ensures forall page: int | 1 <= page < TotalPages(|listing|, limit) :: |PageOf(listing, page, limit)| == limit
    ensures TotalPages(|listing|, limit) >= 1 ==> PageOf(listing, TotalPages(|listing|, limit), limit) != []
  {
    hide Start, TotalPages, Pages;
    var pages := TotalPages(|listing|, limit);
    PagesSoFar(listing, pages, limit);
    PageBounds(|listing|, limit, pages + 1);
    assert listing[..|listing|] == listing;
    forall page: int | page >= 1 ensures |PageOf(listing, page, limit)| <= limit { PageBounds(|listing|, limit, page); }
    forall page: int | 1 <= page < pages ensures |PageOf(listing, page, limit)| == limit {
      PageBounds(|listing|, limit, page);
      PageBounds(|listing|, limit, page + 1);
    }
    if pages >= 1 { PageBounds(|listing|, limit, pages); }
  }

  // ----- What the public sees of a run -----

  datatype Participant = Participant(playerID: Id, displayName: Id, aiSubmissionID: Id)

  datatype PublicMatch = PublicMatch(
    matchID: Id, selectedRunID: Id, game: GameKey, state: State, participants: seq<Participant>, completedAt: Option<int>)

  // The players are shown all or none: only when each of them has a name and a submission to show.
  ghost predicate Shows(m: PublicMatch, r: QueueRecord) {
    && m.matchID == r.submission.matchID && m.selectedRunID == r.submission.runID && m.game == r.submission.game
    && m.state == r.state && m.completedAt == (if r.state.Completed? then r.completedAt else None)
    && if forall i | 0 <= i < |r.submission.players| ::
            var p := r.submission.players[i]; p.playerID != NO_ID && p.botName != NO_ID && p.aiSubmissionID != NO_ID
       then
         && |m.participants| == |r.submission.players|
         && forall i | 0 <= i < |m.participants| ::
              var p := r.submission.players[i]; m.participants[i] == Participant(p.playerID, p.botName, p.aiSubmissionID)
       else m.participants == []
  }

  /** internal/platform/service/public_state.go:393-410 */
  method PublicMatchFromRecord(r: QueueRecord) returns (m: PublicMatch)
    ensures Shows(m, r)
  {
    m := PublicMatch(r.submission.matchID, r.submission.runID, r.submission.game, r.state, [],
                     if r.state.Completed? then r.completedAt else None);
    var participants: seq<Participant> := [];
    for i := 0 to |r.submission.players|
      invariant |participants| == i
      invariant forall j | 0 <= j < i ::
                  var p := r.submission.players[j];
                  && p.playerID != NO_ID && p.botName != NO_ID && p.aiSubmissionID != NO_ID
                  && participants[j] == Participant(p.playerID, p.botName, p.aiSubmissionID)
    {
      var p := r.submission.players[i];
      if p.playerID == NO_ID || p.botName == NO_ID || p.aiSubmissionID == NO_ID { return m; }
      participants := participants + [Participant(p.playerID, p.botName, p.aiSubmissionID)];
    }
    m := m.(participants := participants);
  }

  ghost predicate ShowsAll(items: seq<PublicMatch>, records: seq<QueueRecord>) {
    |items| == |records| && forall i | 0 <= i < |items| :: Shows(items[i], records[i])
  }

  datatype MatchList = MatchList(page: int, limit: int, total: int, totalPages: int, versions: seq<Id>, items: seq<PublicMatch>)

  ghost predicate IsPage(list: MatchList, listing: seq<QueueRecord>, versions: seq<Id>, options: ListOptions)
    requires options.limit > 0 && options.page >= 1
  {
    && list.page == options.page && list.limit == options.limit && list.total == |listing|
    && list.totalPages == TotalPages(|listing|, options.limit) && list.versions == versions
    && ShowsAll(list.items, PageOf(listing, options.page, options.limit))
  }

  /** internal/platform/service/public_state.go:233-246; Go lists the set in an arbitrary order. */
  method AvailableRulesetVersions(
      ghost records: seq<QueueRecord>, shown: seq<QueueRecord>, options: ListOptions, majorOf: Id -> Option<int>)
      returns (result: seq<Id>)
    requires Lists(shown, records)
    ensures IsOffer(result, records, options, majorOf)
  {
    hide Selected, InScope, Id.Less, WeakOrder;
    var versions: set<Id> := {};
    for i := 0 to |shown|
      invariant forall v :: v in versions <==> OffersOne(shown[..i], v, options, majorOf)
    {
      OffersNext(shown, i, options, majorOf);
      if InScope(shown[i], options, majorOf) { versions := versions + {shown[i].submission.game.rulesetVersion}; }
    }
    assert shown[..|shown|] == shown;
    result := [];
    var left := versions;
    while left != {}
      invariant left <= versions && Distinct(result)
      invariant forall v :: v in result <==> v in versions && v !in left
    {
      var v :| v in left;
      DistinctSnoc(result, v);
      result, left := result + [v], left - {v};
    }
    LessIsWeak();
    ghost var collected := result;
    result := SortSlice(ID_LESS, result);
    SortedStrictly(collected, result);
    assert forall v :: v in result <==> v in versions;
  }

  ghost predicate OffersOne(shown: seq<QueueRecord>, v: Id, options: ListOptions, majorOf: Id -> Option<int>) {
    exists r: QueueRecord :: r in shown && InScope(r, options, majorOf) && r.submission.game.rulesetVersion == v
  }

  lemma OffersNext(shown: seq<QueueRecord>, i: nat, options: ListOptions, majorOf: Id -> Option<int>)
    requires i < |shown|
    ensures forall v :: OffersOne(shown[..i + 1], v, options, majorOf) <==>
              || OffersOne(shown[..i], v, options, majorOf)
              || (InScope(shown[i], options, majorOf) && shown[i].submission.game.rulesetVersion == v)
  {
    hide InScope;
    assert shown[..i + 1] == shown[..i] + [shown[i]];
    assert forall r :: r in shown[..i + 1] <==> r in shown[..i] || r == shown[i];
    forall v ensures OffersOne(shown[..i + 1], v, options, majorOf) <==>
              || OffersOne(shown[..i], v, options, majorOf)
              || (InScope(shown[i], options, majorOf) && shown[i].submission.game.rulesetVersion == v) {
      if OffersOne(shown[..i], v, options, majorOf) {
        var r: QueueRecord :| r in shown[..i] && InScope(r, options, majorOf) && r.submission.game.rulesetVersion == v;
        assert r in shown[..i + 1];
      }
      if InScope(shown[i], options, majorOf) { assert shown[i] in shown[..i + 1]; }
    }
  }

  lemma LessIsWeak()
    ensures WeakOrder(ID_LESS)
  {
    hide Id.Less;
    forall a: Id, b: Id | a.Less(b) ensures !b.Less(a) { LessTotal(a, b); }
    forall a: Id, b: Id, c: Id | !a.Less(b) && !b.Less(c) ensures !a.Less(c) {
      LessTotal(a, b);
      LessTotal(b, c);
      if a.Less(c) && b.Less(a) { LessTransitive(b, a, c); }
    }
  }

  lemma SortedStrictly(ids: seq<Id>, sorted: seq<Id>)
    requires Distinct(ids) && multiset(sorted) == multiset(ids) && InOrder(ID_LESS, sorted)
    ensures StrictlyInOrder(ID_LESS, sorted) && forall v :: v in sorted <==> v in ids
  {
    hide Id.Less;
    DistinctIsCountedOnce(ids);
    DistinctIsCountedOnce(sorted);
    forall i, j | 0 <= i < j < |sorted| ensures ID_LESS(sorted[i], sorted[j]) {
      DistinctAt(sorted, i, j);
      LessTotal(sorted[i], sorted[j]);
    }
    forall v ensures v in sorted <==> v in ids { assert v in sorted <==> v in multiset(sorted); }
  }

  /** internal/platform/service/public_state.go:202-231 */
  method List(records: seq<QueueRecord>, options: ListOptions, majorOf: Id -> Option<int>) returns (list: MatchList)
    requires options.limit > 0 && options.page >= 1
    ensures exists listing, versions ::
              && IsListing(listing, records, options, majorOf) && IsOffer(versions, records, options, majorOf)
              && IsPage(list, listing, versions, options)
    ensures (forall r | r in records :: r.completedAt.Some? ==> r.state.Completed?) ==>
              forall i, j | 0 <= i < j < |list.items| :: InPublicOrder(options.ascending, list.items[i], list.items[j])
  {
    hide Selected, Passes, Precedes, InPublicOrder, Start, TotalPages, InScope, StrictlyInOrder, Shows;
    var shown := SelectedPublicRecords(records);
    var versions := AvailableRulesetVersions(records, shown, options, majorOf);
    var filtered: seq<QueueRecord> := [];
    for i := 0 to |shown|
      invariant forall r :: r in filtered <==> r in shown[..i] && Passes(r, options, majorOf)
      invariant Distinct(MatchesIn(filtered))
      invariant forall r | r in filtered :: r in shown[..i]
    {
      assert shown[..i + 1] == shown[..i] + [shown[i]];
      if Passes(shown[i], options, majorOf) {
        KeepsDistinct(shown, filtered, i);
        filtered := filtered + [shown[i]];
      }
    }
    assert shown[..|shown|] == shown;
    var sorted := SortPublicMatchRecords(options.ascending, filtered);
    var total := |sorted|;
    var totalPages := TotalPages(total, options.limit);
    var items: seq<PublicMatch> := [];
    PageBounds(total, options.limit, options.page);
    if options.page <= totalPages {
      var start := Start(options.page, options.limit);
      var end := Least(start + options.limit, total);
      for i := start to end
        invariant ShowsAll(items, sorted[start..i])
      {
        var item := PublicMatchFromRecord(sorted[i]);
        items := items + [item];
      }
    }
    list := MatchList(options.page, options.limit, total, totalPages, versions, items);
    assert IsListing(sorted, records, options, majorOf) && IsPage(list, sorted, versions, options);
    if forall r | r in records :: r.completedAt.Some? ==> r.state.Completed? {
      PageIsOrdered(list, sorted, versions, records, options, majorOf);
    }
  }

  // Two matches as the public sees them, the first before the second.
  ghost predicate InPublicOrder(ascending: bool, a: PublicMatch, b: PublicMatch) {
    && (a.completedAt.None? ==> b.completedAt.None?)
    && (a.completedAt.Some? && b.completedAt.Some? ==>
          if ascending then a.completedAt.value <= b.completedAt.value else a.completedAt.value >= b.completedAt.value)
    && (a.completedAt == b.completedAt ==> a.matchID.Less(b.matchID))
  }

  lemma {:induction false} SelectedIsRecord(records: seq<QueueRecord>, matchID: Id)
    ensures Selected(records, matchID).Some? ==> Selected(records, matchID).value in records
  {
    if records != [] { SelectedIsRecord(records[..|records| - 1], matchID); }
  }

  lemma PageIsOrdered(
      list: MatchList, listing: seq<QueueRecord>, versions: seq<Id>, records: seq<QueueRecord>, options: ListOptions,
      majorOf: Id -> Option<int>)
    requires options.limit > 0 && options.page >= 1
    requires IsListing(listing, records, options, majorOf) && IsPage(list, listing, versions, options)
    requires forall r | r in records :: r.completedAt.Some? ==> r.state.Completed?
    ensures forall i, j | 0 <= i < j < |list.items| :: InPublicOrder(options.ascending, list.items[i], list.items[j])
  {
    hide Selected, Passes, Sorted, Id.Less, Start, TotalPages;
    PageBounds(|listing|, options.limit, options.page);
    var start := Start(options.page, options.limit);
    forall i, j | 0 <= i < j < |list.items| ensures InPublicOrder(options.ascending, list.items[i], list.items[j]) {
      var a, b := listing[start + i], listing[start + j];
      assert Shows(list.items[i], a) && Shows(list.items[j], b);
      ListingIsOrdered(listing, records, options, majorOf, start + i, start + j);
      assert a in listing && b in listing;
      SelectedIsRecord(records, a.submission.matchID);
      SelectedIsRecord(records, b.submission.matchID);
    }
  }

  lemma KeepsDistinct(shown: seq<QueueRecord>, filtered: seq<QueueRecord>, i: nat)
    requires Distinct(MatchesIn(shown)) && i < |shown| && Distinct(MatchesIn(filtered))
    requires forall r | r in filtered :: r in shown[..i]
    ensures Distinct(MatchesIn(filtered + [shown[i]]))
  {
    OtherMatches(shown, i, filtered);
    assert MatchesIn(filtered + [shown[i]]) == MatchesIn(filtered) + [shown[i].submission.matchID];
    DistinctSnoc(MatchesIn(filtered), shown[i].submission.matchID);
  }
}
