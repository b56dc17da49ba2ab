/**
  The final placements of a match: players sorted by a scoring key and then by id, ties sharing a
  place (internal/games/janken/janken.go:455-489, internal/games/echo/echo.go:434-463). A key is a
  list of numbers compared in turn, smaller first; the games give theirs.
*/
module Placements {
  import opened Identifiers
  import opened MatchResults
  import opened Sorting

  type Key = seq<int>

  predicate Before(keys: Id -> Key, a: Id, b: Id) {
    ListLess(keys(a), keys(b)) || (keys(a) == keys(b) && a.Less(b))
  }

  lemma BeforeTotal(keys: Id -> Key, a: Id, b: Id)
    ensures a == b || Before(keys, a, b) || Before(keys, b, a)
    ensures !(Before(keys, a, b) && Before(keys, b, a)) && !Before(keys, a, a)
  {
    ListLessTotal(keys(a), keys(b));
    ListLessTotal(keys(a), keys(a));
    LessTotal(a, b);
  }

  lemma BeforeTransitive(keys: Id -> Key, a: Id, b: Id, c: Id)
    requires Before(keys, a, b) && Before(keys, b, c)
    ensures Before(keys, a, c)
  {
    hide ListLess, Id.Less;
    if ListLess(keys(a), keys(b)) && ListLess(keys(b), keys(c)) { ListLessTransitive(keys(a), keys(b), keys(c)); }
    if a.Less(b) && b.Less(c) { LessTransitive(a, b, c); }
  }

  ghost predicate Ordered(keys: Id -> Key, ids: seq<Id>) {
    forall i, j | 0 <= i < j < |ids| :: Before(keys, ids[i], ids[j]) || ids[i] == ids[j]
  }

  // ----- Places -----

  // A player with the previous player's key shares the place; any other is placed by position.
  function Places(keys: Id -> Key, ordered: seq<Id>): (r: seq<Placement>)
    ensures |r| == |ordered|
    ensures forall i | 0 <= i < |r| :: r[i].playerID == ordered[i]
  {
    if ordered == [] then []
    else
      var n := |ordered| - 1;
      var front := Places(keys, ordered[..n]);
      var shares := n > 0 && keys(ordered[n]) == keys(ordered[n - 1]);
      front + [Placement(ordered[n], if shares then front[n - 1].place else n + 1)]
  }

  // How many of the players rank strictly better than the key.
  ghost function BetterThan(keys: Id -> Key, ids: seq<Id>, key: Key): nat {
    if ids == [] then 0
    else BetterThan(keys, ids[..|ids| - 1], key) + if ListLess(keys(ids[|ids| - 1]), key) then 1 else 0
  }

  lemma {:induction false} BetterAll(keys: Id -> Key, ids: seq<Id>, key: Key)
    ensures (forall id | id in ids :: ListLess(keys(id), key)) ==> BetterThan(keys, ids, key) == |ids|
    ensures (forall id | id in ids :: !ListLess(keys(id), key)) ==> BetterThan(keys, ids, key) == 0
  {
    hide ListLess;
    if ids != [] {
      BetterAll(keys, ids[..|ids| - 1], key);
      assert ids[|ids| - 1] in ids;
    }
  }

  lemma {:induction false} BetterAppend(keys: Id -> Key, a: seq<Id>, b: seq<Id>, key: Key)
    ensures BetterThan(keys, a + b, key) == BetterThan(keys, a, key) + BetterThan(keys, b, key)
  {
    hide ListLess;
    if b == [] {
      assert a + b == a;
    } else {
      assert (a + b)[..|a + b| - 1] == a + b[..|b| - 1];
      BetterAppend(keys, a, b[..|b| - 1], key);
    }
  }

  lemma {:induction false} BetterPermuted(keys: Id -> Key, a: seq<Id>, b: seq<Id>, key: Key)
    requires multiset(a) == multiset(b)
    ensures BetterThan(keys, a, key) == BetterThan(keys, b, key)
  {
    hide ListLess;
    assert |a| == |multiset(a)| == |multiset(b)| == |b|;
    if a != [] {
      var front, x := a[..|a| - 1], a[|a| - 1];
      assert a == front + [x];
      assert x in multiset(b);
      var i :| 0 <= i < |b| && b[i] == x;
      var left, right := b[..i], b[i + 1..];
      assert b == left + [x] + right;
      CancelOne(front, left, right, x);
      BetterPermuted(keys, front, left + right, key);
      BetterAppend(keys, left, right, key);
      BetterAppend(keys, left + [x], right, key);
      BetterAppend(keys, left, [x], key);
      BetterAppend(keys, front, [x], key);
    }
  }

  // In order of rank, whoever stands before the first holder of a key is better, nobody else is.
  lemma FirstHolderRank(keys: Id -> Key, ordered: seq<Id>, i: nat)
    requires Ordered(keys, ordered) && i < |ordered| && (i > 0 ==> keys(ordered[i - 1]) != keys(ordered[i]))
    ensures BetterThan(keys, ordered, keys(ordered[i])) == i
  {
    hide ListLess, Id.Less, Before, Ordered, BetterThan;
    var key := keys(ordered[i]);
    forall j | 0 <= j < i ensures ListLess(keys(ordered[j]), key) { EarlierIsBetter(keys, ordered, j, i); }
    forall j | i <= j < |ordered| ensures !ListLess(keys(ordered[j]), key) { LaterIsNoBetter(keys, ordered, i, j); }
    BetterAll(keys, ordered[..i], key);
    BetterAll(keys, ordered[i..], key);
    BetterAppend(keys, ordered[..i], ordered[i..], key);
    assert ordered[..i] + ordered[i..] == ordered;
  }

  lemma {:induction false} PlaceIsRank(keys: Id -> Key, ordered: seq<Id>, i: nat)
    requires Ordered(keys, ordered) && i < |ordered|
    ensures Places(keys, ordered)[i].place == 1 + BetterThan(keys, ordered, keys(ordered[i]))
    decreases i
  {
    hide Places, BetterThan, Ordered;
    PlacesStep(keys, ordered, i);
    if i > 0 && keys(ordered[i - 1]) == keys(ordered[i]) {
      PlaceIsRank(keys, ordered, i - 1);
    } else {
      FirstHolderRank(keys, ordered, i);
    }
  }

  lemma EarlierIsBetter(keys: Id -> Key, ordered: seq<Id>, j: nat, i: nat)
    requires Ordered(keys, ordered) && j < i < |ordered| && keys(ordered[i - 1]) != keys(ordered[i])
    ensures ListLess(keys(ordered[j]), keys(ordered[i]))
  {
    hide ListLess, Id.Less;
    assert Before(keys, ordered[i - 1], ordered[i]);
    if j < i - 1 {
      assert Before(keys, ordered[j], ordered[i - 1]) || ordered[j] == ordered[i - 1];
      if ListLess(keys(ordered[j]), keys(ordered[i - 1])) {
        ListLessTransitive(keys(ordered[j]), keys(ordered[i - 1]), keys(ordered[i]));
      }
    }
  }

  lemma LaterIsNoBetter(keys: Id -> Key, ordered: seq<Id>, i: nat, j: nat)
    requires Ordered(keys, ordered) && i <= j < |ordered|
    ensures !ListLess(keys(ordered[j]), keys(ordered[i]))
  {
    hide ListLess, Id.Less;
    ListLessTotal(keys(ordered[i]), keys(ordered[j]));
    if i < j { assert Before(keys, ordered[i], ordered[j]) || ordered[i] == ordered[j]; }
  }

  lemma {:induction false} PlacesStep(keys: Id -> Key, ordered: seq<Id>, i: nat)
    requires i < |ordered|
    ensures Places(keys, ordered)[i].place
         == if i > 0 && keys(ordered[i]) == keys(ordered[i - 1]) then Places(keys, ordered)[i - 1].place else i + 1
  {
    if i < |ordered| - 1 { PlacesStep(keys, ordered[..|ordered| - 1], i); }
  }

  // ----- The ranking -----

  ghost predicate IsRanking(keys: Id -> Key, players: seq<Id>, placements: seq<Placement>) {
    exists ordered :: RankedAs(keys, players, ordered, placements)
  }

  ghost predicate RankedAs(keys: Id -> Key, players: seq<Id>, ordered: seq<Id>, placements: seq<Placement>) {
    multiset(ordered) == multiset(players) && Ordered(keys, ordered) && placements == Places(keys, ordered)
  }

  ghost function IDs(placements: seq<Placement>): seq<Id> {
    seq(|placements|, i requires 0 <= i < |placements| => placements[i].playerID)
  }

  // Standard competition ranking: the players, each placed one below the number of players with a
  // strictly better key; and two of them share a place exactly when their keys are equal.
  lemma CompetitionRanking(keys: Id -> Key, players: seq<Id>, placements: seq<Placement>)
    requires IsRanking(keys, players, placements)
    ensures multiset(IDs(placements)) == multiset(players)
    ensures forall i | 0 <= i < |placements| ::
              placements[i].place == 1 + BetterThan(keys, players, keys(placements[i].playerID))
    ensures forall i, j | 0 <= i < |placements| && 0 <= j < |placements| ::
              placements[i].place == placements[j].place <==> keys(placements[i].playerID) == keys(placements[j].playerID)
  {
    hide Ordered, Before, Places, BetterThan;
    var ordered :| RankedAs(keys, players, ordered, placements);
    assert IDs(placements) == ordered;
    forall i | 0 <= i < |placements|
      ensures placements[i].place == 1 + BetterThan(keys, players, keys(placements[i].playerID))
    {
      PlaceIsRank(keys, ordered, i);
      BetterPermuted(keys, ordered, players, keys(ordered[i]));
    }
    forall i, j | 0 <= i < |placements| && 0 <= j < |placements|
      ensures placements[i].place == placements[j].place <==> keys(placements[i].playerID) == keys(placements[j].playerID)
    {
      var a, b := keys(ordered[i]), keys(ordered[j]);
      ListLessTotal(a, b);
      BetterPermuted(keys, ordered, players, a);
      BetterPermuted(keys, ordered, players, b);
      if ListLess(a, b) { BetterGrows(keys, ordered, i, b); }
      if ListLess(b, a) { BetterGrows(keys, ordered, j, a); }
    }
  }

  // A worse key has strictly more players before it.
  lemma {:induction false} BetterGrows(keys: Id -> Key, ids: seq<Id>, i: nat, worse: Key)
    requires i < |ids| && ListLess(keys(ids[i]), worse)
    ensures BetterThan(keys, ids, keys(ids[i])) < BetterThan(keys, ids, worse)
  {
    hide ListLess;
    var better, n := keys(ids[i]), |ids| - 1;
    ListLessTotal(better, better);
    if ListLess(keys(ids[n]), better) { ListLessTransitive(keys(ids[n]), better, worse); }
    if i < n { BetterGrows(keys, ids[..n], i, worse); } else { BetterNoFewer(keys, ids[..n], better, worse); }
  }

  lemma {:induction false} BetterNoFewer(keys: Id -> Key, ids: seq<Id>, better: Key, worse: Key)
    requires ListLess(better, worse)
    ensures BetterThan(keys, ids, better) <= BetterThan(keys, ids, worse)
  {
    hide ListLess;
    if ids != [] {
      var n := |ids| - 1;
      BetterNoFewer(keys, ids[..n], better, worse);
      if ListLess(keys(ids[n]), better) { ListLessTransitive(keys(ids[n]), better, worse); }
    }
  }

  lemma {:induction false} OneOrder(keys: Id -> Key, a: seq<Id>, b: seq<Id>)
    requires multiset(a) == multiset(b) && Ordered(keys, a) && Ordered(keys, b)
    ensures a == b
  {
    assert |a| == |multiset(a)| == |multiset(b)| == |b|;
    if a != [] {
      var n := |a| - 1;
      LastIsLast(keys, a, b, n);
      OrderedPrefix(keys, a, n);
      OrderedPrefix(keys, b, n);
      hide Ordered;
      SameWithoutLast(a, b, n);
      OneOrder(keys, a[..n], b[..n]);
      assert a == a[..n] + [a[n]] && b == b[..n] + [b[n]];
    }
  }

  lemma SameWithoutLast(a: seq<Id>, b: seq<Id>, n: nat)
    requires multiset(a) == multiset(b) && |a| == |b| == n + 1 && a[n] == b[n]
    ensures multiset(a[..n]) == multiset(b[..n])
  {
    assert a == a[..n] + [a[n]] && b == b[..n] + [b[n]];
    assert multiset(a[..n]) == multiset(a) - multiset{a[n]};
    assert multiset(b[..n]) == multiset(b) - multiset{b[n]};
  }

  lemma OrderedPrefix(keys: Id -> Key, ids: seq<Id>, n: nat)
    requires Ordered(keys, ids) && n <= |ids|
    ensures Ordered(keys, ids[..n])
  {
    hide Before;
  }

  lemma LastIsLast(keys: Id -> Key, a: seq<Id>, b: seq<Id>, n: nat)
    requires multiset(a) == multiset(b) && Ordered(keys, a) && Ordered(keys, b) && |a| == |b| == n + 1
    ensures a[n] == b[n]
  {
    hide Before;
    var x, y := a[n], b[n];
    assert x in multiset(b) && y in multiset(a);
    var i :| 0 <= i < |b| && b[i] == x;
    var j :| 0 <= j < |a| && a[j] == y;
    BeforeTotal(keys, x, y);
    assert i == n || Before(keys, b[i], b[n]) || x == y;
    assert j == n || Before(keys, a[j], a[n]) || x == y;
  }

  // The result does not depend on the order in which the players are listed.
  lemma RankingIsOrderFree(keys: Id -> Key, p: seq<Id>, q: seq<Id>, r: seq<Placement>, s: seq<Placement>)
    requires multiset(p) == multiset(q) && IsRanking(keys, p, r) && IsRanking(keys, q, s)
    ensures r == s
  {
    var a :| RankedAs(keys, p, a, r);
    var b :| RankedAs(keys, q, b, s);
    OneOrder(keys, a, b);
  }

  // ----- Computing it -----

  lemma BeforeIsWeak(keys: Id -> Key)
    ensures WeakOrder((a: Id, b: Id) => Before(keys, a, b))
  {
    hide Before;
    var less := (a: Id, b: Id) => Before(keys, a, b);
    forall a, b | less(a, b) ensures !less(b, a) { BeforeTotal(keys, a, b); }
    forall a, b, c | !less(a, b) && !less(b, c) ensures !less(a, c) {
      BeforeTotal(keys, a, b);
      BeforeTotal(keys, b, c);
      BeforeTotal(keys, a, c);
      if less(a, c) && less(c, b) { BeforeTransitive(keys, a, c, b); }
    }
  }

  // sort.Slice by the key and then the id.
  method SortPlayers(keys: Id -> Key, players: seq<Id>) returns (ordered: seq<Id>)
    ensures multiset(ordered) == multiset(players) && Ordered(keys, ordered)
  {
    hide Before, WeakOrder;
    BeforeIsWeak(keys);
    ordered := SortSlice((a: Id, b: Id) => Before(keys, a, b), players);
    forall i, j | 0 <= i < j < |ordered| ensures Before(keys, ordered[i], ordered[j]) || ordered[i] == ordered[j] {
      BeforeTotal(keys, ordered[i], ordered[j]);
    }
  }

  // The loop that hands out places, carrying the last place and the previous key.
  method AssignPlaces(keys: Id -> Key, ordered: seq<Id>) returns (placements: seq<Placement>)
    ensures placements == Places(keys, ordered)
  {
    placements := [];
    var lastPlace, previous: Key := 0, [];
    for i := 0 to |ordered|
      invariant placements == Places(keys, ordered[..i])
      invariant i > 0 ==> lastPlace == placements[i - 1].place && previous == keys(ordered[i - 1])
    {
      assert ordered[..i + 1][..i] == ordered[..i];
      var place := i + 1;
      if i > 0 && keys(ordered[i]) == previous { place := lastPlace; }
      placements := placements + [Placement(ordered[i], place)];
      previous, lastPlace := keys(ordered[i]), place;
    }
    assert ordered[..|ordered|] == ordered;
  }

  method Rank(keys: Id -> Key, players: seq<Id>) returns (placements: seq<Placement>)
    ensures IsRanking(keys, players, placements)
  {
    hide Ordered, Places;
    var ordered := SortPlayers(keys, players);
    placements := AssignPlaces(keys, ordered);
    assert RankedAs(keys, players, ordered, placements);
  }
}
