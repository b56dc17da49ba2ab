/**
  Ranking snapshots as the service stores them, with their entries in a list sorted by bot id, and
  the loops that normalize, update and recompute them (internal/platform/service/ranking.go).
*/
module RankingSnapshots {
  import opened Identifiers
  import opened RunTypes
  import opened RunQueue
  import opened Ranking
  import opened Sorting

  const SNAPSHOT_VERSION := 2

  datatype Snapshot = Snapshot(
    version: int,
    scope: GameKey,
    appliedRunIDs: seq<Id>,
    appliedMatchIDs: seq<Id>,
    lastAppliedRunID: Id,
    lastAppliedMatchID: Id,
    completedMatches: int,
    entries: seq<Entry>)

  function NewSnapshot(scope: GameKey): Snapshot {
    Snapshot(SNAPSHOT_VERSION, NormalizeScope(scope), [], [], NO_ID, NO_ID, 0, [])
  }

  // The entries by bot; where two entries share a bot id the later one stands.
  function TableOf(entries: seq<Entry>): Table {
    if entries == [] then map[]
    else
      var last := NormalizeEntry(entries[|entries| - 1]);
      TableOf(entries[..|entries| - 1])[last.botID := last]
  }

  ghost function BotsOf(entries: seq<Entry>): seq<Id> {
    seq(|entries|, i requires 0 <= i < |entries| => entries[i].botID.Trimming())
  }

  ghost predicate WellKeyed(entries: seq<Entry>) { Distinct(BotsOf(entries)) }

  ghost predicate SortedByBot(entries: seq<Entry>) {
    forall i, j | 0 <= i < j < |entries| :: !entries[j].botID.Less(entries[i].botID)
  }

  ghost predicate StrictlySorted(entries: seq<Entry>) {
    forall i, j | 0 <= i < j < |entries| :: entries[i].botID.Less(entries[j].botID)
  }

  ghost function StandingOf(s: Snapshot): Standing {
    Standing(s.scope, s.appliedRunIDs, s.appliedMatchIDs, TableOf(s.entries))
  }

  // What normalization leaves: trimmed entries in strict order, and the derived match count.
  ghost predicate Normal(s: Snapshot) {
    && s.scope == NormalizeScope(s.scope)
    && s.completedMatches == |s.appliedMatchIDs|
    && StrictlySorted(s.entries)
    && forall i | 0 <= i < |s.entries| :: NormalizeEntry(s.entries[i]) == s.entries[i]
  }

  // ----- Lists of entries as tables -----

  lemma BotsOfSnoc(entries: seq<Entry>, e: Entry)
    ensures BotsOf(entries + [e]) == BotsOf(entries) + [e.botID.Trimming()]
    ensures TableOf(entries + [e]) == TableOf(entries)[e.botID.Trimming() := NormalizeEntry(e)]
  {
    assert (entries + [e])[..|entries|] == entries;
  }

  lemma {:induction false} BotsOfMultiset(a: seq<Entry>, b: seq<Entry>)
    requires multiset(a) == multiset(b)
    ensures multiset(BotsOf(a)) == multiset(BotsOf(b))
  {
    hide BotsOf, Id.Trimming, TableOf, NormalizeEntry;
    assert |a| == |multiset(a)| == |multiset(b)| == |b|;
    if a == [] {
      assert b == [];
    } else {
      var front, e := a[..|a| - 1], a[|a| - 1];
      assert a == front + [e];
      assert e in multiset(b);
      var i :| 0 <= i < |b| && b[i] == e;
      var left, right := b[..i], b[i + 1..];
      assert b == left + [e] + right;
      CancelOne(front, left, right, e);
      BotsOfMultiset(front, left + right);
      BotsOfSnoc(front, e);
      BotsOfSplit(left, e, right);
      var bot := e.botID.Trimming();
      assert multiset(BotsOf(left) + [bot] + BotsOf(right)) == multiset(BotsOf(left) + BotsOf(right)) + multiset{bot};
    }
  }

  lemma BotsOfSplit(left: seq<Entry>, e: Entry, right: seq<Entry>)
    ensures BotsOf(left + right) == BotsOf(left) + BotsOf(right)
    ensures BotsOf(left + [e] + right) == BotsOf(left) + [e.botID.Trimming()] + BotsOf(right)
  {
    hide Id.Trimming;
  }

  lemma WellKeyedMultiset(a: seq<Entry>, b: seq<Entry>)
    requires multiset(a) == multiset(b)
    ensures WellKeyed(a) <==> WellKeyed(b)
  {
    BotsOfMultiset(a, b);
    DistinctIsCountedOnce(BotsOf(a));
    DistinctIsCountedOnce(BotsOf(b));
  }

  // With distinct bots the table holds exactly the entries of the list.
  lemma {:induction false} TableHasEntries(entries: seq<Entry>)
    requires WellKeyed(entries)
    ensures forall b :: b in TableOf(entries) <==> b in BotsOf(entries)
    ensures forall e | e in entries :: e.botID.Trimming() in TableOf(entries)
              && TableOf(entries)[e.botID.Trimming()] == NormalizeEntry(e)
  {
    if entries != [] {
      var front, last := entries[..|entries| - 1], entries[|entries| - 1];
      assert entries == front + [last];
      BotsOfSnoc(front, last);
      DistinctAppend(BotsOf(front), [last.botID.Trimming()]);
      TableHasEntries(front);
      hide NormalizeEntry, Id.Trimming, TableOf;
      forall e | e in entries
        ensures e.botID.Trimming() in TableOf(entries) && TableOf(entries)[e.botID.Trimming()] == NormalizeEntry(e)
      {
        if e in front {
          var i :| 0 <= i < |front| && front[i] == e;
          assert BotsOf(front)[i] == e.botID.Trimming();
        }
      }
    }
  }

  lemma SameTable(a: seq<Entry>, b: seq<Entry>)
    requires WellKeyed(a) && multiset(a) == multiset(b)
    ensures WellKeyed(b) && TableOf(a) == TableOf(b)
  {
    hide TableOf, NormalizeEntry, Id.Trimming, WellKeyed, BotsOf;
    WellKeyedMultiset(a, b);
    BotsOfMultiset(a, b);
    TableHasEntries(a);
    TableHasEntries(b);
    SameMembers(BotsOf(a), BotsOf(b));
    SameMembers(a, b);
    assert TableOf(a).Keys == TableOf(b).Keys;
    forall bot | bot in TableOf(a) ensures TableOf(a)[bot] == TableOf(b)[bot] {
      var e := HolderOf(a, bot);
      assert e in b;
    }
  }

  lemma HolderOf(entries: seq<Entry>, bot: Id) returns (e: Entry)
    requires bot in BotsOf(entries)
    ensures e in entries && e.botID.Trimming() == bot
  {
    hide Id.Trimming;
    var i :| 0 <= i < |BotsOf(entries)| && BotsOf(entries)[i] == bot;
    e := entries[i];
  }

  lemma SameMembers<T(!new)>(a: seq<T>, b: seq<T>)
    requires multiset(a) == multiset(b)
    ensures forall x :: x in a <==> x in b
  {
    forall x ensures x in a <==> x in b {
      assert x in a <==> x in multiset(a);
      assert x in b <==> x in multiset(b);
    }
  }

  lemma {:induction false} NormalizedBots(entries: seq<Entry>, normal: seq<Entry>)
    requires |normal| == |entries| && forall i | 0 <= i < |entries| :: normal[i] == NormalizeEntry(entries[i])
    ensures BotsOf(normal) == BotsOf(entries) && TableOf(normal) == TableOf(entries)
  {
    hide TableOf, BotsOf, NormalizeEntry, Id.Trimming;
    if entries == [] {
      assert normal == [];
    } else {
      var n := |entries| - 1;
      NormalizedBots(entries[..n], normal[..n]);
      NormalizedBot(entries[n]);
      NormalizeEntryTwice(entries[n]);
      assert entries == entries[..n] + [entries[n]] && normal == normal[..n] + [normal[n]];
      BotsOfSnoc(entries[..n], entries[n]);
      BotsOfSnoc(normal[..n], normal[n]);
    }
  }

  lemma SortedIsStrict(entries: seq<Entry>)
    requires SortedByBot(entries) && WellKeyed(entries)
    requires forall i | 0 <= i < |entries| :: NormalizeEntry(entries[i]) == entries[i]
    ensures StrictlySorted(entries)
  {
    forall i, j | 0 <= i < j < |entries| ensures entries[i].botID.Less(entries[j].botID) {
      assert BotsOf(entries)[i] == entries[i].botID && BotsOf(entries)[j] == entries[j].botID;
      DistinctAt(BotsOf(entries), i, j);
      LessTotal(entries[i].botID, entries[j].botID);
    }
  }

  // ----- Normalizing -----

  predicate EntryLess(e: Entry, f: Entry) { e.botID.Less(f.botID) }

  lemma ByBotIsWeak()
    ensures WeakOrder(EntryLess)
  {
    hide Id.Less;
    forall e, f | EntryLess(e, f) ensures !EntryLess(f, e) { LessTotal(e.botID, f.botID); }
    forall e, f, g | !EntryLess(e, f) && !EntryLess(f, g) ensures !EntryLess(e, g) {
      LessTotal(e.botID, f.botID);
      LessTotal(f.botID, g.botID);
      if EntryLess(e, g) && EntryLess(g, f) { LessTransitive(e.botID, g.botID, f.botID); }
      LessTotal(e.botID, g.botID);
    }
  }

  // sort.Slice by bot id: a sorted permutation, with no promise about equal ids.
  method SortByBotID(entries: seq<Entry>) returns (sorted: seq<Entry>)
    ensures multiset(sorted) == multiset(entries) && SortedByBot(sorted)
  {
    hide Id.Less, WeakOrder;
    ByBotIsWeak();
    sorted := SortSlice(EntryLess, entries);
    forall i, j | 0 <= i < j < |sorted| ensures !sorted[j].botID.Less(sorted[i].botID) {
      assert !EntryLess(sorted[j], sorted[i]);
    }
  }

  /** internal/platform/service/ranking.go:524-546 */
  method NormalizeSnapshot(s: Snapshot) returns (r: Snapshot)
    ensures r == s.(scope := NormalizeScope(s.scope),
                    version := if s.version == 0 then SNAPSHOT_VERSION else s.version,
                    completedMatches := |s.appliedMatchIDs|, entries := r.entries)
    ensures SortedByBot(r.entries) && |r.entries| == |s.entries|
    ensures forall i | 0 <= i < |r.entries| :: NormalizeEntry(r.entries[i]) == r.entries[i]
    ensures WellKeyed(s.entries) ==>
              Normal(r) && WellKeyed(r.entries)
              && StandingOf(r) == StandingOf(s).(scope := NormalizeScope(s.scope))
    ensures Normal(s) && WellKeyed(s.entries) ==> multiset(r.entries) == multiset(s.entries)
  {
    hide NormalizeEntry, Id.Less, TableOf, BotsOf;
    var entries := s.entries;
    for i := 0 to |s.entries|
      invariant |entries| == |s.entries|
      invariant forall j | 0 <= j < i :: entries[j] == NormalizeEntry(s.entries[j])
      invariant forall j | i <= j < |entries| :: entries[j] == s.entries[j]
    {
      entries := entries[i := NormalizeEntry(entries[i])];
    }
    NormalizedBots(s.entries, entries);
    var sorted := SortByBotID(entries);
    assert |sorted| == |multiset(sorted)| == |multiset(entries)| == |entries|;
    SameMembers(sorted, entries);
    forall i | 0 <= i < |sorted| ensures NormalizeEntry(sorted[i]) == sorted[i] {
      assert sorted[i] in entries;
      var j :| 0 <= j < |entries| && entries[j] == sorted[i];
      NormalizeEntryTwice(s.entries[j]);
    }
    r := s.(scope := NormalizeScope(s.scope),
            version := if s.version == 0 then SNAPSHOT_VERSION else s.version,
            completedMatches := |s.appliedMatchIDs|, entries := sorted);
    NormalizeScopeTwice(s.scope);
    if WellKeyed(s.entries) {
      SameTable(entries, sorted);
      SortedIsStrict(sorted);
    }
    if Normal(s) { assert entries == s.entries; }
  }

  // ----- Applying an update -----

  predicate TrimmedBots(u: Update) { forall i | 0 <= i < |u.placements| :: u.placements[i].botID.Trimmed() }

  // Every key is the trimmed bot id of its entry.
  ghost predicate KeyedByBot(table: Table) { forall b | b in table :: table[b].botID.Trimming() == b }

  lemma {:induction false} TableOfKeyed(entries: seq<Entry>)
    ensures KeyedByBot(TableOf(entries))
  {
    if entries != [] {
      TableOfKeyed(entries[..|entries| - 1]);
      NormalizeEntryTwice(entries[|entries| - 1]);
    }
  }

  lemma {:induction false} TallyKeyed(table: Table, u: Update, n: nat)
    requires KeyedByBot(table) && TrimmedBots(u) && n <= |u.placements|
    ensures KeyedByBot(TallyAll(table, u, u.placements[..n]))
  {
    if n > 0 {
      TallyKeyed(table, u, n - 1);
      assert u.placements[..n][..n - 1] == u.placements[..n - 1];
      hide Id.Trimming;
      TrimmedTrims(u.placements[n - 1].botID);
    }
  }

  lemma TrimmedTrims(id: Id)
    requires id.Trimmed()
    ensures id.Trimming() == id
  {
  }

  // A duplicate-free listing of the given part of a table.
  ghost predicate Lists(entries: seq<Entry>, table: Table, done: set<Id>) {
    && Distinct(BotsOf(entries))
    && (forall b :: b in BotsOf(entries) <==> b in done)
    && TableOf(entries) == (map b | b in table && b in done :: NormalizeEntry(table[b]))
  }

  lemma ListsSnoc(entries: seq<Entry>, table: Table, done: set<Id>, b: Id)
    requires KeyedByBot(table) && done <= table.Keys && b in table && b !in done
    requires Lists(entries, table, done)
    ensures Lists(entries + [NormalizeEntry(table[b])], table, done + {b})
  {
    hide NormalizeEntry, Id.Trimming, TableOf, BotsOf;
    var entry := NormalizeEntry(table[b]);
    BotsOfSnoc(entries, entry);
    NormalizeEntryTwice(table[b]);
    NormalizedBot(table[b]);
    DistinctSnoc(BotsOf(entries), b);
  }

  // Lists a table's entries, normalized; Go ranges over the map in an arbitrary order.
  method ListEntries(table: Table) returns (entries: seq<Entry>, ghost keys: seq<Id>)
    ensures |entries| == |table|
    ensures forall i | 0 <= i < |entries| :: NormalizeEntry(entries[i]) == entries[i]
    ensures KeyedByBot(table) ==> WellKeyed(entries) && TableOf(entries) == NormalizeTable(table)
    ensures ListsKeys(entries, table, keys, table.Keys)
  {
    hide NormalizeEntry, Id.Trimming, TableOf, BotsOf, Lists, ListsKeys, KeyedByBot, WellKeyed, NormalizeTable;
    entries, keys := [], [];
    ListsNothing(table);
    ListsNoKeys(table);
    var left := table.Keys;
    assert table.Keys - left == {};
    while left != {}
      invariant left <= table.Keys && |entries| + |left| == |table|
      invariant forall i | 0 <= i < |entries| :: NormalizeEntry(entries[i]) == entries[i]
      invariant KeyedByBot(table) ==> Lists(entries, table, table.Keys - left)
      invariant ListsKeys(entries, table, keys, table.Keys - left)
      decreases left
    {
      var b :| b in left;
      TakeOne(table.Keys, left, b);
      if KeyedByBot(table) { ListsSnoc(entries, table, table.Keys - left, b); }
      NormalizeEntryTwice(table[b]);
      ListsKeysSnoc(entries, table, keys, table.Keys - left, b);
      keys := keys + [b];
      entries := entries + [NormalizeEntry(table[b])];
      left := left - {b};
    }
    assert table.Keys - left == table.Keys;
    if KeyedByBot(table) { ListsEverything(entries, table); }
  }

  // The entries of the given part of a table, keyed side by side.
  ghost predicate ListsKeys(entries: seq<Entry>, table: Table, keys: seq<Id>, done: set<Id>) {
    && |keys| == |entries| && Distinct(keys)
    && (forall b :: b in keys <==> b in done)
    && (forall i | 0 <= i < |keys| :: keys[i] in table && entries[i] == NormalizeEntry(table[keys[i]]))
  }

  lemma ListsKeysSnoc(entries: seq<Entry>, table: Table, keys: seq<Id>, done: set<Id>, b: Id)
    requires ListsKeys(entries, table, keys, done) && b in table && b !in done
    ensures ListsKeys(entries + [NormalizeEntry(table[b])], table, keys + [b], done + {b})
  {
    hide NormalizeEntry;
    DistinctSnoc(keys, b);
  }

  // No two of the bot ids are the same up to surrounding blanks.
  ghost predicate TrimInjective(bots: set<Id>) {
    forall a, b | a in bots && b in bots && a.Trimming() == b.Trimming() :: a == b
  }

  ghost predicate KeyTrims(table: Table) { forall b | b in table :: table[b].botID.Trimming() == b.Trimming() }

  ghost function BotIDs(placements: seq<RankedPlacement>): set<Id> { set p | p in placements :: p.botID }

  lemma {:induction false} TallyKeys(table: Table, u: Update, placements: seq<RankedPlacement>)
    requires KeyTrims(table)
    ensures KeyTrims(TallyAll(table, u, placements))
    ensures TallyAll(table, u, placements).Keys == table.Keys + BotIDs(placements)
  {
    hide Id.Trimming;
    if placements != [] {
      var front, p := placements[..|placements| - 1], placements[|placements| - 1];
      assert placements == front + [p];
      TallyKeys(table, u, front);
      assert BotIDs(placements) == BotIDs(front) + {p.botID};
    }
  }

  lemma ListingKeyed(entries: seq<Entry>, table: Table, keys: seq<Id>)
    requires ListsKeys(entries, table, keys, table.Keys) && KeyTrims(table)
    ensures WellKeyed(entries) <==> TrimInjective(table.Keys)
  {
    hide NormalizeEntry, Id.Trimming;
    forall i | 0 <= i < |keys| ensures BotsOf(entries)[i] == keys[i].Trimming() {
      NormalizedBot(table[keys[i]]);
    }
    TrimmedKeys(keys, BotsOf(entries));
    assert (set b | b in keys) == table.Keys;
  }

  lemma TrimmedKeys(keys: seq<Id>, trimmed: seq<Id>)
    requires Distinct(keys) && |trimmed| == |keys|
    requires forall i | 0 <= i < |keys| :: trimmed[i] == keys[i].Trimming()
    ensures Distinct(trimmed) <==> TrimInjective(set b | b in keys)
  {
    hide Id.Trimming, Distinct;
    var bots := set b | b in keys;
    if TrimInjective(bots) {
      forall i, j | 0 <= i < j < |keys| ensures trimmed[i] != trimmed[j] {
        DistinctAt(keys, i, j);
        assert keys[i] in bots && keys[j] in bots;
      }
      DistinctByIndex(trimmed);
    }
    if Distinct(trimmed) {
      forall a, b | a in bots && b in bots && a.Trimming() == b.Trimming() ensures a == b {
        var i :| 0 <= i < |keys| && keys[i] == a;
        var j :| 0 <= j < |keys| && keys[j] == b;
        if i < j { DistinctAt(trimmed, i, j); }
        if j < i { DistinctAt(trimmed, j, i); }
      }
    }
  }

  lemma ListsNoKeys(table: Table)
    ensures ListsKeys([], table, [], {})
  {
  }

  lemma ListsNothing(table: Table)
    ensures Lists([], table, {})
  {
    BotsOfNothing();
  }

  lemma ListsEverything(entries: seq<Entry>, table: Table)
    requires Lists(entries, table, table.Keys)
    ensures WellKeyed(entries) && TableOf(entries) == NormalizeTable(table)
  {
    assert (map b | b in table && b in table.Keys :: NormalizeEntry(table[b])) == NormalizeTable(table);
  }

  lemma TakeOne<T>(all: set<T>, left: set<T>, x: T)
    requires x in left && left <= all
    ensures all - (left - {x}) == (all - left) + {x} && |left - {x}| == |left| - 1
  {
  }

  lemma BotsOfNothing()
    ensures BotsOf([]) == [] && TableOf([]) == map[]
  {
  }

  lemma NormalizedBot(e: Entry)
    ensures NormalizeEntry(e).botID.Trimming() == e.botID.Trimming()
  {
    TrimIdempotent(e.botID.text);
  }

  /** internal/platform/service/ranking.go:445-490 */
  method ApplyRankingUpdate(snapshot: Snapshot, u: Update) returns (r: Outcome<Snapshot>)
    ensures r.Err? <==> NormalizeScope(snapshot.scope) != NormalizeScope(u.scope)
    ensures r.Ok? ==>
              var seen := u.runID in snapshot.appliedRunIDs || u.matchID in snapshot.appliedMatchIDs;
              && SortedByBot(r.value.entries)
              && r.value.scope == NormalizeScope(snapshot.scope)
              && r.value.completedMatches == |r.value.appliedMatchIDs|
              && r.value.appliedRunIDs == snapshot.appliedRunIDs + (if seen then [] else [u.runID])
              && r.value.appliedMatchIDs == snapshot.appliedMatchIDs + (if seen then [] else [u.matchID])
              && r.value.lastAppliedRunID == (if seen then snapshot.lastAppliedRunID else u.runID)
              && r.value.lastAppliedMatchID == (if seen then snapshot.lastAppliedMatchID else u.matchID)
    ensures r.Ok? && WellKeyed(snapshot.entries) && TrimmedBots(u) ==>
              && Normal(r.value) && WellKeyed(r.value.entries)
              && StandingOf(r.value) == Applied(StandingOf(snapshot).(scope := NormalizeScope(snapshot.scope)), u)
    ensures r.Ok? && WellKeyed(snapshot.entries)
            && u.runID !in snapshot.appliedRunIDs && u.matchID !in snapshot.appliedMatchIDs ==>
              (WellKeyed(r.value.entries)
               <==> TrimInjective(TableOf(snapshot.entries).Keys + BotIDs(u.placements)))
  {
    hide NormalizeEntry, TableOf, BotsOf, Id.Less, Tallied, NormalizeScope;
    var s := NormalizeSnapshot(snapshot);
    if s.scope != NormalizeScope(u.scope) { return Err(BadRequest); }
    if u.runID in s.appliedRunIDs || u.matchID in s.appliedMatchIDs {
      assert s.appliedRunIDs + [] == s.appliedRunIDs && s.appliedMatchIDs + [] == s.appliedMatchIDs;
      return Ok(s);
    }
    var table: Table := map[];
    BotsOfNothing();
    for i := 0 to |s.entries|
      invariant table == TableOf(s.entries[..i])
    {
      var entry := NormalizeEntry(s.entries[i]);
      assert s.entries[..i + 1] == s.entries[..i] + [s.entries[i]];
      BotsOfSnoc(s.entries[..i], s.entries[i]);
      NormalizedKey(s.entries[i]);
      table := table[entry.botID := entry];
    }
    assert s.entries[..|s.entries|] == s.entries;
    ghost var start := table;
    for i := 0 to |u.placements|
      invariant table == TallyAll(start, u, u.placements[..i])
    {
      assert u.placements[..i + 1][..i] == u.placements[..i];
      table := Tallied(table, u, u.placements[i]);
    }
    assert u.placements[..|u.placements|] == u.placements;
    var entries, keys := ListEntries(table);
    var sorted := SortByBotID(entries);
    AppliedIsNormal(s, u, table, entries, sorted);
    AppliedIsKeyed(s, u, table, entries, keys, sorted);
    return Ok(s.(appliedRunIDs := s.appliedRunIDs + [u.runID], appliedMatchIDs := s.appliedMatchIDs + [u.matchID],
                 lastAppliedRunID := u.runID, lastAppliedMatchID := u.matchID,
                 completedMatches := |s.appliedMatchIDs| + 1, entries := sorted));
  }

  lemma NormalizedKey(e: Entry)
    ensures NormalizeEntry(e).botID == e.botID.Trimming()
  {
  }

  lemma AppliedIsKeyed(
      s: Snapshot, u: Update, table: Table, entries: seq<Entry>, keys: seq<Id>, sorted: seq<Entry>)
    requires table == TallyAll(TableOf(s.entries), u, u.placements)
    requires multiset(sorted) == multiset(entries) && ListsKeys(entries, table, keys, table.Keys)
    ensures WellKeyed(sorted) <==> TrimInjective(TableOf(s.entries).Keys + BotIDs(u.placements))
  {
    hide TableOf, NormalizeEntry, Tallied, ListsKeys, WellKeyed, TrimInjective, Id.Trimming;
    TableOfKeyed(s.entries);
    KeyedTrims(TableOf(s.entries));
    TallyKeys(TableOf(s.entries), u, u.placements);
    ListingKeyed(entries, table, keys);
    WellKeyedMultiset(entries, sorted);
  }

  lemma KeyedTrims(table: Table)
    requires KeyedByBot(table)
    ensures KeyTrims(table)
  {
    hide Id.Trimming;
    forall b | b in table ensures table[b].botID.Trimming() == b.Trimming() {
      TrimmingTwice(table[b].botID);
    }
  }

  lemma AppliedIsNormal(s: Snapshot, u: Update, table: Table, entries: seq<Entry>, sorted: seq<Entry>)
    requires table == TallyAll(TableOf(s.entries), u, u.placements)
    requires multiset(sorted) == multiset(entries) && SortedByBot(sorted)
    requires forall i | 0 <= i < |entries| :: NormalizeEntry(entries[i]) == entries[i]
    requires KeyedByBot(table) ==> WellKeyed(entries) && TableOf(entries) == NormalizeTable(table)
    ensures TrimmedBots(u) ==>
              && StrictlySorted(sorted) && WellKeyed(sorted)
              && (forall i | 0 <= i < |sorted| :: NormalizeEntry(sorted[i]) == sorted[i])
              && TableOf(sorted) == NormalizeTable(table)
  {
    hide TableOf, NormalizeEntry, NormalizeTable, SortedByBot, StrictlySorted, Tallied;
    if TrimmedBots(u) {
      TableOfKeyed(s.entries);
      TallyKeyed(TableOf(s.entries), u, |u.placements|);
      assert u.placements[..|u.placements|] == u.placements;
      SameTable(entries, sorted);
      SameMembers(entries, sorted);
      forall i | 0 <= i < |sorted| ensures NormalizeEntry(sorted[i]) == sorted[i] {
        assert sorted[i] in entries;
      }
      SortedIsStrict(sorted);
    }
  }
}
